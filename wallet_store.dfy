/** src/stores/walletStore.ts: the group wallets, the transaction ledger and
    the payment requests.

    The store reads the persisted arrays afresh in every action and writes
    them back; its in-memory fields (`wallets`, `currentWallet`,
    `transactions`, `paymentRequests`) are what the interface last saw. The
    code has no insufficient-funds check, no escrow lock or release and no
    write to `escrow_balance` or `pending_balance`, and neither has the model. */
module WalletStore {
  import opened Optional
  import opened Arrays
  import opened Storage

  const WalletsKey := "atmos_wallets"
  const TransactionsKey := "atmos_transactions"
  const PaymentRequestsKey := "atmos_payment_requests"

  // ---------------------------------------------------------------------
  // Records
  // ---------------------------------------------------------------------

  datatype Wallet = Wallet(
    id: string,
    groupId: string,
    balance: int,
    escrowBalance: int,
    pendingBalance: int,
    createdAt: int,
    updatedAt: int)

  datatype TransactionType = Collection | Payment | EscrowLock | EscrowRelease | Refund
  datatype TransactionStatus = Pending | Completed | Failed | Refunded
  datatype PaymentMethod = Upi | Card | WalletFunds | NetBanking

  datatype Transaction = Transaction(
    id: string,
    walletId: string,
    kind: TransactionType,
    amount: int,
    fromUserId: Option<string>,
    toUserId: Option<string>,
    vendorId: Option<string>,
    description: Option<string>,
    paymentMethod: Option<PaymentMethod>,
    status: TransactionStatus,
    createdAt: int)

  /** The keys of the `Partial<Transaction>` that createTransaction reads. */
  datatype TransactionDraft = TransactionDraft(
    walletId: Option<string>,
    kind: Option<TransactionType>,
    amount: Option<int>,
    fromUserId: Option<string>,
    toUserId: Option<string>,
    vendorId: Option<string>,
    description: Option<string>,
    paymentMethod: Option<PaymentMethod>)

  datatype SplitType = Equal | Custom
  datatype RequestStatus = Pending | Approved | Rejected

  datatype PaymentRequest = PaymentRequest(
    id: string,
    groupId: string,
    createdBy: string,
    amount: int,
    purpose: string,
    splitType: SplitType,
    status: RequestStatus,
    approvedBy: Option<string>,
    dueDate: Option<string>,
    createdAt: int)

  /** The keys of the `Partial<PaymentRequest>` that createPaymentRequest reads. */
  datatype PaymentRequestDraft = PaymentRequestDraft(
    groupId: Option<string>,
    createdBy: Option<string>,
    amount: Option<int>,
    purpose: Option<string>,
    splitType: Option<SplitType>,
    dueDate: Option<string>)

  // ---------------------------------------------------------------------
  // Wallets: get-or-create and balance updates
  // ---------------------------------------------------------------------

  function InGroup(groupId: string): Wallet -> bool {
    (w: Wallet) => w.groupId == groupId
  }

  function HasId(walletId: string): Wallet -> bool {
    (w: Wallet) => w.id == walletId
  }

  /** `wallets.find((w) => w.group_id === groupId)`. */
  function WalletOfGroup(wallets: seq<Wallet>, groupId: string): Option<Wallet> {
    Find(wallets, InGroup(groupId))
  }

  datatype Creation = Creation(wallet: Wallet, wallets: seq<Wallet>)

  /** createWallet on the loaded wallets: the group's wallet when it has one,
      with the list unchanged; otherwise a new wallet with zero balances,
      appended. Either way the returned wallet is the one a later lookup of
      the group finds. */
  function CreateWalletIn(wallets: seq<Wallet>, groupId: string, freshId: string, now: int): (r: Creation)
    ensures r.wallet.groupId == groupId && r.wallet in r.wallets
    ensures wallets <= r.wallets && |r.wallets| <= |wallets| + 1
    ensures WalletOfGroup(wallets, groupId).Some? <==> r.wallets == wallets
    ensures WalletOfGroup(wallets, groupId).Some? ==> r.wallet == WalletOfGroup(wallets, groupId).value
    ensures WalletOfGroup(wallets, groupId).None? ==>
              && r.wallets == wallets + [r.wallet]
              && r.wallet.id == freshId && r.wallet.createdAt == now && r.wallet.updatedAt == now
              && r.wallet.balance == 0 && r.wallet.escrowBalance == 0 && r.wallet.pendingBalance == 0
    ensures WalletOfGroup(r.wallets, groupId) == Some(r.wallet)
  {
    match WalletOfGroup(wallets, groupId)
    case Some(existing) => Creation(existing, wallets)
    case None =>
      var created := Wallet(freshId, groupId, 0, 0, 0, now, now);
      FindAppend(wallets, [created], InGroup(groupId));
      assert Find([created], InGroup(groupId)) == Some(created);
      Creation(created, wallets + [created])
  }

  /** Get-or-create a second time returns the same wallet (so the same id)
      and appends nothing. */
  lemma CreateWalletTwice(wallets: seq<Wallet>, groupId: string, id1: string, id2: string, t1: int, t2: int)
    ensures var first := CreateWalletIn(wallets, groupId, id1, t1);
            CreateWalletIn(first.wallets, groupId, id2, t2) == first
  {
  }

  /** updateBalance's map over the loaded wallets: every wallet with that id
      gains `amount` and a new `updated_at`; nothing else changes, in any
      wallet. */
  function BalanceUpdated(wallets: seq<Wallet>, walletId: string, amount: int, now: int): (r: seq<Wallet>)
    ensures |r| == |wallets|
    ensures forall i :: 0 <= i < |wallets| && wallets[i].id != walletId ==> r[i] == wallets[i]
    ensures forall i :: 0 <= i < |wallets| && wallets[i].id == walletId ==>
              r[i].balance == wallets[i].balance + amount && r[i].updatedAt == now
    ensures forall i :: 0 <= i < |wallets| ==>
              && r[i].id == wallets[i].id && r[i].groupId == wallets[i].groupId
              && r[i].escrowBalance == wallets[i].escrowBalance
              && r[i].pendingBalance == wallets[i].pendingBalance
              && r[i].createdAt == wallets[i].createdAt
  {
    MapIf(wallets, HasId(walletId), (w: Wallet) => w.(balance := w.balance + amount, updatedAt := now))
  }

  /** `wallet?.balance || 0`. */
  function GroupBalanceOf(wallets: seq<Wallet>, groupId: string): int {
    match WalletOfGroup(wallets, groupId)
    case Some(w) => w.balance
    case None => 0
  }

  // ---------------------------------------------------------------------
  // Transactions and the replay invariant
  // ---------------------------------------------------------------------

  /** createTransaction's record: `wallet_id` defaults to '', `type` to
      collection, `amount` to 0; the status is always completed. */
  function NewTransaction(d: TransactionDraft, freshId: string, now: int): Transaction {
    Transaction(freshId, d.walletId.GetOr(""), d.kind.GetOr(Collection), d.amount.GetOr(0),
                d.fromUserId, d.toUserId, d.vendorId, d.description, d.paymentMethod,
                Completed, now)
  }

  /** The balance change createTransaction applies: `+amount` for a
      collection, `-amount` for every other type. */
  function SignedAmount(t: Transaction): int {
    if t.kind.Collection? then t.amount else -t.amount
  }

  /** The signed amounts of the wallet's transactions, replayed in creation
      (array) order. */
  function Replay(transactions: seq<Transaction>, walletId: string): int {
    if transactions == [] then 0
    else
      var last := transactions[|transactions| - 1];
      Replay(transactions[..|transactions| - 1], walletId)
        + (if last.walletId == walletId then SignedAmount(last) else 0)
  }

  lemma {:induction false} ReplayAppend(transactions: seq<Transaction>, t: Transaction, walletId: string)
    ensures Replay(transactions + [t], walletId)
            == Replay(transactions, walletId) + (if t.walletId == walletId then SignedAmount(t) else 0)
  {
    assert (transactions + [t])[..|transactions|] == transactions;
  }

  /** A wallet id no transaction names replays to zero. */
  lemma {:induction false} ReplayUnused(transactions: seq<Transaction>, walletId: string)
    requires forall t :: t in transactions ==> t.walletId != walletId
    ensures Replay(transactions, walletId) == 0
  {
    if transactions != [] {
      var init := transactions[..|transactions| - 1];
      assert forall t :: t in init ==> t in transactions;
      ReplayUnused(init, walletId);
    }
  }

  /** The ledger invariant: every wallet has a non-empty id, its balance is
      the replay of its transactions, and its escrow and pending balances are
      zero (nothing in the store ever changes them). */
  ghost predicate LedgerConsistent(wallets: seq<Wallet>, transactions: seq<Transaction>) {
    forall i :: 0 <= i < |wallets| ==>
      && wallets[i].id != ""
      && wallets[i].balance == Replay(transactions, wallets[i].id)
      && wallets[i].escrowBalance == 0
      && wallets[i].pendingBalance == 0
  }

  /** The wallets and transactions after createTransaction has appended `t`
      and, when `t` names a wallet, applied its signed amount to it. */
  function AfterTransaction(wallets: seq<Wallet>, transactions: seq<Transaction>, t: Transaction, now: int)
    : (seq<Wallet>, seq<Transaction>)
  {
    (if t.walletId != "" then BalanceUpdated(wallets, t.walletId, SignedAmount(t), now) else wallets,
     transactions + [t])
  }

  /** createTransaction keeps the ledger invariant, whatever the type, the
      amount and the sign. */
  lemma CreateTransactionKeepsLedger(wallets: seq<Wallet>, transactions: seq<Transaction>,
                                     d: TransactionDraft, freshId: string, now: int)
    requires LedgerConsistent(wallets, transactions)
    ensures var t := NewTransaction(d, freshId, now);
            var (ws, ts) := AfterTransaction(wallets, transactions, t, now);
            LedgerConsistent(ws, ts)
  {
    var t := NewTransaction(d, freshId, now);
    var (ws, ts) := AfterTransaction(wallets, transactions, t, now);
    forall i | 0 <= i < |ws|
      ensures ws[i].id != "" && ws[i].balance == Replay(ts, ws[i].id)
      ensures ws[i].escrowBalance == 0 && ws[i].pendingBalance == 0
    {
      ReplayAppend(transactions, t, wallets[i].id);
    }
  }

  /** Opening a wallet under an id no transaction names keeps the invariant. */
  lemma CreateWalletKeepsLedger(wallets: seq<Wallet>, transactions: seq<Transaction>,
                                groupId: string, freshId: string, now: int)
    requires LedgerConsistent(wallets, transactions)
    requires freshId != "" && forall t :: t in transactions ==> t.walletId != freshId
    ensures LedgerConsistent(CreateWalletIn(wallets, groupId, freshId, now).wallets, transactions)
  {
    ReplayUnused(transactions, freshId);
    var r := CreateWalletIn(wallets, groupId, freshId, now);
    if r.wallets != wallets {
      assert r.wallets[|wallets|] == r.wallet;
    }
  }

  /** Under the invariant, getGroupBalance is the replay of the group
      wallet's transactions, and 0 for a group without a wallet. */
  lemma GroupBalanceIsReplay(wallets: seq<Wallet>, transactions: seq<Transaction>, groupId: string)
    requires LedgerConsistent(wallets, transactions)
    ensures GroupBalanceOf(wallets, groupId)
            == match WalletOfGroup(wallets, groupId)
               case Some(w) => Replay(transactions, w.id)
               case None => 0
  {
    var k := FindIndex(wallets, InGroup(groupId));
    if 0 <= k {
      assert WalletOfGroup(wallets, groupId) == Some(wallets[k]);
    }
  }

  /** The ledger operations of the store, with their fresh ids and clock. */
  datatype LedgerOp =
    | OpenWallet(groupId: string, walletId: string, openedAt: int)
    | Record(draft: TransactionDraft, transactionId: string, recordedAt: int)

  /** The wallets and transactions after running `ops` in order. */
  function Run(wallets: seq<Wallet>, transactions: seq<Transaction>, ops: seq<LedgerOp>)
    : (seq<Wallet>, seq<Transaction>)
    decreases |ops|
  {
    if ops == [] then (wallets, transactions)
    else match ops[0]
      case OpenWallet(g, id, now) =>
        Run(CreateWalletIn(wallets, g, id, now).wallets, transactions, ops[1..])
      case Record(d, id, now) =>
        var (ws, ts) := AfterTransaction(wallets, transactions, NewTransaction(d, id, now), now);
        Run(ws, ts, ops[1..])
  }

  /** Every wallet is opened under a non-empty id that no earlier
      transaction names (what generateUniqueId provides). */
  ghost predicate FreshRun(wallets: seq<Wallet>, transactions: seq<Transaction>, ops: seq<LedgerOp>)
    decreases |ops|
  {
    ops != [] ==>
      match ops[0]
      case OpenWallet(g, id, now) =>
        && id != "" && (forall t :: t in transactions ==> t.walletId != id)
        && FreshRun(CreateWalletIn(wallets, g, id, now).wallets, transactions, ops[1..])
      case Record(d, id, now) =>
        var (ws, ts) := AfterTransaction(wallets, transactions, NewTransaction(d, id, now), now);
        FreshRun(ws, ts, ops[1..])
  }

  /** The replay invariant: from an empty store, through any run of
      get-or-create and createTransaction calls, every group's balance is the
      signed sum of its wallet's transactions (0 without a wallet), and no
      escrow or pending balance ever moves. */
  lemma {:induction false} ReplayInvariant(wallets: seq<Wallet>, transactions: seq<Transaction>, ops: seq<LedgerOp>)
    requires LedgerConsistent(wallets, transactions)
    requires FreshRun(wallets, transactions, ops)
    ensures var (ws, ts) := Run(wallets, transactions, ops);
            && LedgerConsistent(ws, ts)
            && forall g :: GroupBalanceOf(ws, g) == match WalletOfGroup(ws, g)
                                                    case Some(w) => Replay(ts, w.id)
                                                    case None => 0
    decreases |ops|
  {
    if ops == [] {
      forall g ensures GroupBalanceOf(wallets, g) == match WalletOfGroup(wallets, g)
                                                    case Some(w) => Replay(transactions, w.id)
                                                    case None => 0
      {
        GroupBalanceIsReplay(wallets, transactions, g);
      }
    } else {
      match ops[0]
      case OpenWallet(g, id, now) =>
        CreateWalletKeepsLedger(wallets, transactions, g, id, now);
        ReplayInvariant(CreateWalletIn(wallets, g, id, now).wallets, transactions, ops[1..]);
      case Record(d, id, now) =>
        CreateTransactionKeepsLedger(wallets, transactions, d, id, now);
        var (ws, ts) := AfterTransaction(wallets, transactions, NewTransaction(d, id, now), now);
        ReplayInvariant(ws, ts, ops[1..]);
    }
  }

  // ---------------------------------------------------------------------
  // getUserBalance
  // ---------------------------------------------------------------------

  function InvolvesUser(walletId: string, userId: string): Transaction -> bool {
    (t: Transaction) => t.walletId == walletId && (t.fromUserId == Some(userId) || t.toUserId == Some(userId))
  }

  /** One step of getUserBalance's reduce: `from_user_id` is tested first. */
  function UserStep(t: Transaction, userId: string): int {
    if t.fromUserId == Some(userId) then t.amount
    else if t.toUserId == Some(userId) then -t.amount
    else 0
  }

  /** `reduce((acc, t) => acc + step(t), 0)`, left to right. */
  function ReduceUser(transactions: seq<Transaction>, userId: string): int {
    if transactions == [] then 0
    else ReduceUser(transactions[..|transactions| - 1], userId) + UserStep(transactions[|transactions| - 1], userId)
  }

  /** `getUserBalance`: 0 without a wallet; otherwise the fold over the
      wallet's transactions that name the user as sender or receiver. */
  function UserBalanceOf(wallets: seq<Wallet>, transactions: seq<Transaction>, userId: string, groupId: string): int {
    match WalletOfGroup(wallets, groupId)
    case None => 0
    case Some(w) => ReduceUser(Filter(transactions, InvolvesUser(w.id, userId)), userId)
  }

  /** What the user paid into the wallet: amounts with `from_user_id` the user. */
  function PaidBy(transactions: seq<Transaction>, walletId: string, userId: string): int {
    if transactions == [] then 0
    else
      var last := transactions[|transactions| - 1];
      PaidBy(transactions[..|transactions| - 1], walletId, userId)
        + (if last.walletId == walletId && last.fromUserId == Some(userId) then last.amount else 0)
  }

  /** What the user received: amounts with `to_user_id` the user and another
      sender. */
  function ReceivedBy(transactions: seq<Transaction>, walletId: string, userId: string): int {
    if transactions == [] then 0
    else
      var last := transactions[|transactions| - 1];
      ReceivedBy(transactions[..|transactions| - 1], walletId, userId)
        + (if last.walletId == walletId && last.toUserId == Some(userId) && last.fromUserId != Some(userId)
           then last.amount else 0)
  }

  lemma {:induction false} ReduceUserIsPaidMinusReceived(transactions: seq<Transaction>, walletId: string, userId: string)
    ensures ReduceUser(Filter(transactions, InvolvesUser(walletId, userId)), userId)
            == PaidBy(transactions, walletId, userId) - ReceivedBy(transactions, walletId, userId)
  {
    if transactions != [] {
      var init, last := transactions[..|transactions| - 1], transactions[|transactions| - 1];
      assert transactions == init + [last];
      FilterAppend(init, [last], InvolvesUser(walletId, userId));
      ReduceUserIsPaidMinusReceived(init, walletId, userId);
      var fi := Filter(init, InvolvesUser(walletId, userId));
      if InvolvesUser(walletId, userId)(last) {
        assert Filter([last], InvolvesUser(walletId, userId)) == [last];
        assert (fi + [last])[..|fi|] == fi;
      } else {
        assert Filter([last], InvolvesUser(walletId, userId)) == [];
        assert fi + [] == fi;
      }
    }
  }

  /** getUserBalance is 0 for a group without a wallet, and otherwise what
      the user paid into the group's wallet minus what the user received
      from it, `from_user_id` taking precedence when both name the user. */
  lemma UserBalanceIsPaidMinusReceived(wallets: seq<Wallet>, transactions: seq<Transaction>, userId: string, groupId: string)
    ensures UserBalanceOf(wallets, transactions, userId, groupId)
            == match WalletOfGroup(wallets, groupId)
               case None => 0
               case Some(w) => PaidBy(transactions, w.id, userId) - ReceivedBy(transactions, w.id, userId)
  {
    match WalletOfGroup(wallets, groupId)
    case None =>
    case Some(w) => ReduceUserIsPaidMinusReceived(transactions, w.id, userId);
  }

  // ---------------------------------------------------------------------
  // Payment requests
  // ---------------------------------------------------------------------

  /** createPaymentRequest's record: pending, split `equal` unless given,
      '' / 0 for a missing group, creator, amount or purpose. */
  function NewPaymentRequest(d: PaymentRequestDraft, freshId: string, now: int): PaymentRequest {
    PaymentRequest(freshId, d.groupId.GetOr(""), d.createdBy.GetOr(""), d.amount.GetOr(0),
                   d.purpose.GetOr(""), d.splitType.GetOr(Equal), RequestStatus.Pending,
                   None, d.dueDate, now)
  }

  function RequestHasId(requestId: string): PaymentRequest -> bool {
    (r: PaymentRequest) => r.id == requestId
  }

  /** updatePaymentRequestStatus's map: the requests with that id get the new
      status and every other field of every request is unchanged. */
  function RequestStatusUpdated(requests: seq<PaymentRequest>, requestId: string, status: RequestStatus)
    : (r: seq<PaymentRequest>)
    ensures |r| == |requests|
    ensures forall i :: 0 <= i < |requests| ==> r[i].(status := requests[i].status) == requests[i]
    ensures forall i :: 0 <= i < |requests| ==>
              r[i].status == if requests[i].id == requestId then status else requests[i].status
  {
    MapIf(requests, RequestHasId(requestId), (q: PaymentRequest) => q.(status := status))
  }

  function RequestInGroup(groupId: string): PaymentRequest -> bool {
    (r: PaymentRequest) => r.groupId == groupId
  }

  function TransactionOfWallet(walletId: string): Transaction -> bool {
    (t: Transaction) => t.walletId == walletId
  }

  // ---------------------------------------------------------------------
  // The store
  // ---------------------------------------------------------------------

  class WalletState {
    var wallets: seq<Wallet>
    var currentWallet: Option<Wallet>
    var transactions: seq<Transaction>
    var paymentRequests: seq<PaymentRequest>
    var walletStore: Store<Wallet>
    var transactionStore: Store<Transaction>
    var requestStore: Store<PaymentRequest>

    ghost function StoredWallets(): seq<Wallet> reads this { Load(walletStore, WalletsKey) }
    ghost function StoredTransactions(): seq<Transaction> reads this { Load(transactionStore, TransactionsKey) }
    ghost function StoredRequests(): seq<PaymentRequest> reads this { Load(requestStore, PaymentRequestsKey) }

    /** The persisted wallets replay the persisted ledger. */
    ghost predicate Ledger() reads this {
      LedgerConsistent(StoredWallets(), StoredTransactions())
    }

    /** The store starts with empty fields over whatever is persisted. */
    constructor (walletStore0: Store<Wallet>, transactionStore0: Store<Transaction>,
                 requestStore0: Store<PaymentRequest>)
      ensures wallets == [] && currentWallet == None && transactions == [] && paymentRequests == []
      ensures walletStore == walletStore0 && transactionStore == transactionStore0
      ensures requestStore == requestStore0
    {
      wallets, currentWallet, transactions, paymentRequests := [], None, [], [];
      walletStore, transactionStore, requestStore := walletStore0, transactionStore0, requestStore0;
    }

    /** `createWallet`: get-or-create. An existing wallet is returned and
        nothing changes; otherwise the new wallet is persisted, becomes the
        `wallets` field's last element and the current wallet. */
    method CreateWallet(groupId: string, freshId: string, now: int) returns (wallet: Wallet)
      modifies this`wallets, this`currentWallet, this`walletStore
      ensures var c := CreateWalletIn(old(StoredWallets()), groupId, freshId, now);
              && wallet == c.wallet
              && (c.wallets == old(StoredWallets()) ==>
                    walletStore == old(walletStore) && wallets == old(wallets)
                    && currentWallet == old(currentWallet))
              && (c.wallets != old(StoredWallets()) ==>
                    walletStore == Save(old(walletStore), WalletsKey, c.wallets)
                    && wallets == c.wallets && currentWallet == Some(wallet))
      ensures old(Ledger()) && freshId != "" && (forall t :: t in StoredTransactions() ==> t.walletId != freshId)
              ==> Ledger()
    {
      var loaded := Load(walletStore, WalletsKey);
      var c := CreateWalletIn(loaded, groupId, freshId, now);
      wallet := c.wallet;
      if c.wallets != loaded {
        walletStore := Save(walletStore, WalletsKey, c.wallets);
        wallets := c.wallets;
        currentWallet := Some(wallet);
      }
      if old(Ledger()) && freshId != "" && (forall t :: t in StoredTransactions() ==> t.walletId != freshId) {
        CreateWalletKeepsLedger(loaded, StoredTransactions(), groupId, freshId, now);
      }
    }

    /** `fetchWallet`: the group's wallet, created when missing, becomes the
        current wallet; the `wallets` field becomes the list loaded BEFORE
        any creation, so a wallet created here is persisted but missing from
        it. */
    method FetchWallet(groupId: string, freshId: string, now: int)
      modifies this`wallets, this`currentWallet, this`walletStore
      ensures var c := CreateWalletIn(old(StoredWallets()), groupId, freshId, now);
              && currentWallet == Some(c.wallet)
              && wallets == old(StoredWallets())
              && StoredWallets() == c.wallets
              && (c.wallets == old(StoredWallets()) ==> walletStore == old(walletStore))
              && (c.wallets != old(StoredWallets()) ==> walletStore == Save(old(walletStore), WalletsKey, c.wallets))
      ensures old(Ledger()) && freshId != "" && (forall t :: t in StoredTransactions() ==> t.walletId != freshId)
              ==> Ledger()
    {
      var loaded := Load(walletStore, WalletsKey);
      var found := WalletOfGroup(loaded, groupId);
      var wallet;
      if found.None? {
        wallet := CreateWallet(groupId, freshId, now);
      } else {
        wallet := found.value;
      }
      currentWallet := Some(wallet);
      wallets := loaded;
    }

    /** `updateBalance`: adds the signed `amount` to the persisted wallets
        with that id; a current wallet with that id is reloaded from the new
        list. */
    method UpdateBalance(walletId: string, amount: int, now: int)
      modifies this`wallets, this`currentWallet, this`walletStore
      ensures var updated := BalanceUpdated(old(StoredWallets()), walletId, amount, now);
              && walletStore == Save(old(walletStore), WalletsKey, updated)
              && wallets == updated
              && currentWallet == if old(currentWallet).Some? && old(currentWallet).value.id == walletId
                                  then Find(updated, HasId(walletId)) else old(currentWallet)
    {
      var updated := BalanceUpdated(Load(walletStore, WalletsKey), walletId, amount, now);
      walletStore := Save(walletStore, WalletsKey, updated);
      wallets := updated;
      if currentWallet.Some? && currentWallet.value.id == walletId {
        currentWallet := Find(updated, HasId(walletId));
      }
    }

    /** `fetchTransactions`: the wallet's persisted transactions. */
    method FetchTransactions(walletId: string)
      modifies this`transactions
      ensures transactions == Filter(StoredTransactions(), TransactionOfWallet(walletId))
    {
      transactions := Filter(Load(transactionStore, TransactionsKey), TransactionOfWallet(walletId));
    }

    /** `createTransaction`: appends the new record to the persisted ledger,
        shows the ledger of its wallet, and, when it names a wallet, applies
        its signed amount through updateBalance. */
    method CreateTransaction(draft: TransactionDraft, freshId: string, now: int) returns (t: Transaction)
      modifies this`wallets, this`currentWallet, this`walletStore, this`transactions, this`transactionStore
      ensures t == NewTransaction(draft, freshId, now)
      ensures (StoredWallets(), StoredTransactions())
              == AfterTransaction(old(StoredWallets()), old(StoredTransactions()), t, now)
      ensures transactionStore == Save(old(transactionStore), TransactionsKey, old(StoredTransactions()) + [t])
      ensures transactions == Filter(StoredTransactions(), TransactionOfWallet(t.walletId))
      ensures t.walletId == "" ==>
                walletStore == old(walletStore) && wallets == old(wallets) && currentWallet == old(currentWallet)
      ensures t.walletId != "" ==>
                && walletStore == Save(old(walletStore), WalletsKey, StoredWallets())
                && wallets == StoredWallets()
                && currentWallet == if old(currentWallet).Some? && old(currentWallet).value.id == t.walletId
                                    then Find(wallets, HasId(t.walletId)) else old(currentWallet)
      ensures old(Ledger()) ==> Ledger()
    {
      ghost var before := (Load(walletStore, WalletsKey), Load(transactionStore, TransactionsKey));
      t := NewTransaction(draft, freshId, now);
      var updated := Load(transactionStore, TransactionsKey) + [t];
      transactionStore := Save(transactionStore, TransactionsKey, updated);
      transactions := Filter(updated, TransactionOfWallet(t.walletId));
      if t.walletId != "" {
        UpdateBalance(t.walletId, SignedAmount(t), now);
      }
      if LedgerConsistent(before.0, before.1) {
        CreateTransactionKeepsLedger(before.0, before.1, draft, freshId, now);
      }
    }

    /** `fetchPaymentRequests`: the group's persisted requests. */
    method FetchPaymentRequests(groupId: string)
      modifies this`paymentRequests
      ensures paymentRequests == Filter(StoredRequests(), RequestInGroup(groupId))
    {
      paymentRequests := Filter(Load(requestStore, PaymentRequestsKey), RequestInGroup(groupId));
    }

    /** `createPaymentRequest`: appends one pending request to the persisted
        requests and shows the requests of its group. */
    method CreatePaymentRequest(draft: PaymentRequestDraft, freshId: string, now: int) returns (request: PaymentRequest)
      modifies this`paymentRequests, this`requestStore
      ensures request == NewPaymentRequest(draft, freshId, now)
      ensures request.status == RequestStatus.Pending
      ensures request.splitType == draft.splitType.GetOr(Equal)
      ensures requestStore == Save(old(requestStore), PaymentRequestsKey, old(StoredRequests()) + [request])
      ensures paymentRequests == Filter(StoredRequests(), RequestInGroup(request.groupId))
    {
      request := NewPaymentRequest(draft, freshId, now);
      var updated := Load(requestStore, PaymentRequestsKey) + [request];
      requestStore := Save(requestStore, PaymentRequestsKey, updated);
      paymentRequests := Filter(updated, RequestInGroup(request.groupId));
    }

    /** `updatePaymentRequestStatus`: sets the status of the persisted
        requests with that id; the field shows ALL persisted requests. */
    method UpdatePaymentRequestStatus(requestId: string, status: RequestStatus)
      modifies this`paymentRequests, this`requestStore
      ensures var updated := RequestStatusUpdated(old(StoredRequests()), requestId, status);
              requestStore == Save(old(requestStore), PaymentRequestsKey, updated) && paymentRequests == updated
    {
      var updated := RequestStatusUpdated(Load(requestStore, PaymentRequestsKey), requestId, status);
      requestStore := Save(requestStore, PaymentRequestsKey, updated);
      paymentRequests := updated;
    }

    /** `getGroupBalance`, read from the persisted wallets: under the ledger
        invariant, the replay of the group wallet's transactions. */
    function GroupBalance(groupId: string): (r: int) reads this
      ensures Ledger() ==> r == match WalletOfGroup(StoredWallets(), groupId)
                                case Some(w) => Replay(StoredTransactions(), w.id)
                                case None => 0
    {
      assert Ledger() ==> GroupBalanceOf(StoredWallets(), groupId)
                          == match WalletOfGroup(StoredWallets(), groupId)
                             case Some(w) => Replay(StoredTransactions(), w.id)
                             case None => 0 by {
        if Ledger() {
          GroupBalanceIsReplay(StoredWallets(), StoredTransactions(), groupId);
        }
      }
      GroupBalanceOf(Load(walletStore, WalletsKey), groupId)
    }

    /** `getUserBalance`, read from the persisted wallets and ledger: what the
        user paid into the group's wallet minus what the user received. */
    function UserBalance(userId: string, groupId: string): (r: int) reads this
      ensures r == match WalletOfGroup(StoredWallets(), groupId)
                   case None => 0
                   case Some(w) => PaidBy(StoredTransactions(), w.id, userId) - ReceivedBy(StoredTransactions(), w.id, userId)
    {
      UserBalanceIsPaidMinusReceived(StoredWallets(), StoredTransactions(), userId, groupId);
      UserBalanceOf(Load(walletStore, WalletsKey), Load(transactionStore, TransactionsKey), userId, groupId)
    }
  }
}
