# Client-side stores of a group-coordination app, modelled in Dafny

The application keeps its state in small client-side stores. Each store holds one or more
record collections, mirrors them to a persisted key-value store, and rebuilds a collection on
every change: it appends, replaces by id, or filters out by id. This project models those
stores, together with the input sanitisers and validators, and proves what each operation does
to its collections.

- `WalletStore` (`wallet_store.dfy`) holds the group wallets, the transaction ledger and the
  payment requests. `createWallet` is get-or-create. `updateBalance` adds a signed amount to
  one wallet. `createTransaction` appends a completed ledger entry and applies its signed
  amount: a collection adds, every other type subtracts. The main theorem is the replay
  invariant: after any run of get-or-create and `createTransaction`, every group's balance is
  the signed sum of its wallet's transactions.
- `TaskStore`, `VendorStore`, `BookingStore`, `NotificationStore`, `GroupStore` and
  `ToastStore` hold CRUD collections. They have id-targeted updates and cascading deletes.
  Derived data is kept consistent: a vendor's review count and rating, a task's
  `completed_at`, a booking's `confirmed_at`, the unread count, and the open group or
  booking.
- `Security` (`security.dfy`) covers `sanitizeInput`, `sanitizeEmail`, `sanitizePhoneNumber`,
  `validateEmail`, `validatePassword`, `validateAmount`, and the salt split and
  constant-time comparison loop of `verifyPassword`.
- Helper modules:
  - `Optional` (`Option`, and `Patch` for one key of a `Partial<…>` update);
  - `Arrays` (JavaScript `filter`, `find`, `findIndex` and conditional `map` over
    sequences, with their lemmas);
  - `Storage` (`storageGet` / `storageSet` as a map from key to array, empty by default).

Each store is a class. Its fields are the store's state plus the persisted map. Every action
is a method whose `ensures` ties the new fields to a pure function of the old ones. The
properties are proved about those functions, and the methods that keep them carry them as
preserved invariants:

- `Ledger` for wallets: kept by `CreateWallet`, `FetchWallet` (for a fresh wallet id) and
  `CreateTransaction`; a direct `UpdateBalance` breaks it;
- `Synced` (memory equals storage) for tasks, vendors and notifications: kept by every action;
- `Rated` for vendors: kept by every action except `SetVendors`;
- `CurrentPersisted` and `ViewCurrent` for bookings: kept by every action;
- `Valid` (the open group is listed) for groups: kept by `AddGroup`, `UpdateGroup`,
  `DeleteGroup` and by `SetCurrentGroup` given a listed group; not by `SetGroups`.

Ids, clock readings, the signed-in user and the SHA-256 digest are parameters. Money, review
ratings and review counts are integers; a vendor's stored rating and getAverageRating are
exact reals. Timestamps are integers.

Two stores differ in where they read from. The wallet and booking stores read the persisted
array afresh in every action, so their in-memory fields are only what the interface last
showed. The task, vendor and notification stores work on memory and write through to storage.

The wallet UI (`src/components/groups/GroupWalletTab.tsx:20`,
`src/pages/GroupDetailPage.tsx:32`) calls `addFunds`, `makePayment`, `lockEscrow`,
`fetchGroupWallet`, `getGroupTransactions` and `createGroupWallet`, which
`src/stores/walletStore.ts` does not define. The store has no insufficient-funds check and no
non-negativity rule, and the model adds none; it proves that `escrow_balance` and
`pending_balance` never move. `fetchWallet` sets the `wallets` field to the list it loaded before creating a missing
wallet. The model reproduces that, so the new wallet is persisted but missing from the field
(`WalletStore.WalletState.FetchWallet`).

## Model

| member | source | states |
|---|---|---|
| WalletStore.CreateWalletIn | src/stores/walletStore.ts:77-99 | get-or-create: an existing group wallet is returned with the list unchanged; otherwise exactly one wallet with zero balance, escrow and pending balance is appended; either way a later lookup of the group finds the returned wallet |
| WalletStore.GroupBalanceOf | src/stores/walletStore.ts:204-208 | getGroupBalance on a wallet list: the group wallet's balance, 0 when the group has none; its meaning under the ledger is WalletStore.GroupBalanceIsReplay |
| WalletStore.NewTransaction | src/stores/walletStore.ts:133-145 | builds createTransaction's record: wallet_id '', type collection and amount 0 when missing, status completed, created at the clock |
| WalletStore.ReduceUser | src/stores/walletStore.ts:221-226 | the left-to-right reduce of getUserBalance, +amount when from_user_id is the user, else −amount when to_user_id is; its closed form is WalletStore.ReduceUserIsPaidMinusReceived |
| WalletStore.UserBalanceOf | src/stores/walletStore.ts:210-229 | getUserBalance on lists: 0 without a wallet, else the reduce over that wallet's transactions naming the user; its closed form is WalletStore.UserBalanceIsPaidMinusReceived |
| WalletStore.NewPaymentRequest | src/stores/walletStore.ts:176-186 | builds createPaymentRequest's record: '' or 0 for a missing group, creator, amount or purpose, split equal unless given, status pending |
| WalletStore.WalletState.constructor | src/stores/walletStore.ts:49-55 | the store starts with no wallets, no current wallet, no transactions and no requests shown, over whatever is persisted |
| WalletStore.CreateWalletTwice | src/stores/walletStore.ts:78-83 | a second get-or-create returns the same wallet (so the same id) and appends nothing |
| WalletStore.BalanceUpdated | src/stores/walletStore.ts:102-108 | only wallets with the id change: balance + amount and a new updated_at; id, group, escrow and pending balance and created_at of every wallet are untouched |
| WalletStore.ReplayAppend | src/stores/walletStore.ts:147-155 | appending a transaction adds its signed amount to the replay of its own wallet and nothing to any other |
| WalletStore.ReplayUnused | src/stores/walletStore.ts:86-88 | a wallet id that no transaction names replays to 0, matching a new wallet's zero balance |
| WalletStore.CreateTransactionKeepsLedger | src/stores/walletStore.ts:130-155 | createTransaction (append, then +amount for a collection and −amount otherwise, skipped for an empty wallet id) keeps every wallet's balance equal to the replay of its transactions, with no non-negativity check |
| WalletStore.CreateWalletKeepsLedger | src/stores/walletStore.ts:85-97 | opening a wallet under a fresh id keeps the ledger invariant |
| WalletStore.GroupBalanceIsReplay | src/stores/walletStore.ts:204-208 | getGroupBalance is the replay of the group wallet's transactions, and 0 for a group without a wallet |
| WalletStore.ReplayInvariant | src/stores/walletStore.ts:77-155 | from an empty or consistent store, through any run of get-or-create and createTransaction, every group's balance equals the signed sum of its wallet's transactions and escrow and pending balances stay 0 |
| WalletStore.ReduceUserIsPaidMinusReceived | src/stores/walletStore.ts:217-228 | the reduce over the user's transactions of the wallet equals what the user sent minus what the user received, from_user_id taking precedence |
| WalletStore.UserBalanceIsPaidMinusReceived | src/stores/walletStore.ts:210-229 | getUserBalance is 0 without a wallet, else the amounts with from_user_id = user minus those with to_user_id = user (and another sender), over that wallet only |
| WalletStore.RequestStatusUpdated | src/stores/walletStore.ts:195-199 | only the status of requests with the id changes; every other field and request is kept |
| WalletStore.WalletState.CreateWallet | src/stores/walletStore.ts:77-100 | returns the get-or-create wallet; persists and shows the list and makes the wallet current only when one was created; keeps the ledger invariant |
| WalletStore.WalletState.FetchWallet | src/stores/walletStore.ts:57-75 | the group's wallet (created if missing) becomes current; the wallets field is the list loaded before creation; storage holds the get-or-create list |
| WalletStore.WalletState.UpdateBalance | src/stores/walletStore.ts:102-115 | persists and shows the updated wallets; a current wallet with that id is re-read from them, any other is kept |
| WalletStore.WalletState.FetchTransactions | src/stores/walletStore.ts:117-128 | shows exactly the wallet's persisted transactions |
| WalletStore.WalletState.CreateTransaction | src/stores/walletStore.ts:130-158 | appends one completed transaction (type collection and amount 0 by default) to the persisted ledger, leaving earlier ones unchanged; applies its signed amount to its wallet unless wallet_id is empty; keeps the ledger invariant |
| WalletStore.WalletState.FetchPaymentRequests | src/stores/walletStore.ts:160-171 | shows exactly the group's persisted payment requests |
| WalletStore.WalletState.CreatePaymentRequest | src/stores/walletStore.ts:173-193 | appends one pending request, split equal unless given, and shows its group's requests |
| WalletStore.WalletState.UpdatePaymentRequestStatus | src/stores/walletStore.ts:195-202 | persists and shows the requests with only the matching request's status changed |
| WalletStore.WalletState.GroupBalance | src/stores/walletStore.ts:204-208 | read from the persisted wallets; under the ledger invariant it is the replay of the group wallet's transactions, 0 without a wallet |
| WalletStore.WalletState.UserBalance | src/stores/walletStore.ts:210-229 | read from the persisted wallets and ledger; 0 without a wallet, else what the user paid into it minus what the user received from it |
| Security.Trim | src/utils/security.ts:4-6 | trim removes a whitespace-only prefix and suffix; the result has no edge whitespace |
| Security.SanitizeInput | src/utils/security.ts:1-7 | '' for empty input; the result has no '<' or '>', no leading or trailing whitespace, and only characters of the input |
| Security.SanitizeInputIdempotent | src/utils/security.ts:4-6 | sanitising twice is sanitising once |
| Security.ToLower | src/utils/security.ts:12 | toLowerCase on ASCII letters, length-preserving; what it keeps is stated by Security.ToLowerFacts |
| Security.ValidateEmail | src/utils/security.ts:24-27 | the regular expression as a search for an `local@head.tail` split; characterised by Security.ValidateEmailIffWellFormed |
| Security.ValidateEmailIffWellFormed | src/utils/security.ts:24-27 | the e-mail pattern holds iff there is exactly one '@', no whitespace, a non-empty local part, and a domain with a '.' that is neither its first nor last character |
| Security.SanitizeEmail | src/utils/security.ts:9-16 | the result is '' or the trimmed, lower-cased input; it is non-empty exactly when that is well formed, and then it satisfies validateEmail |
| Security.SanitizeEmailIdempotent | src/utils/security.ts:9-16 | sanitising an address twice is sanitising it once |
| Security.WellFormedEmailUnderLower | src/utils/security.ts:12-15 | lower-casing neither makes nor breaks a well-formed address |
| Security.SanitizePhoneNumber | src/utils/security.ts:18-22 | only digits and '+', at most 15, a prefix of the input's digits and '+' signs in input order (all of them when there are at most 15) |
| Security.ValidatePassword | src/utils/security.ts:29-47 | valid iff length ≥ 8, an upper-case letter, a lower-case letter and a digit; otherwise the message of the first failing check in that order |
| Security.PasswordLengthVerdicts | src/utils/security.ts:30-32 | the length check counts UTF-16 code units: under 4 characters always fails it, 8 characters with all three kinds always pass |
| Security.ValidateAmount | src/utils/security.ts:49-51 | the definition itself: true iff 0 < amount ≤ 10,000,000 (the comparison is the whole promise of the source) |
| Security.SplitStoredHash | src/utils/security.ts:100-104 | no ':' gives no split; otherwise the salt is the text before the first ':' and the hash the rest |
| Security.SplitJoined | src/utils/security.ts:83-89 | a `salt:hash` string with a colon-free salt splits back into the salt and the hash |
| Security.VerifyPassword | src/utils/security.ts:96-114 | false without ':'; otherwise the XOR/OR comparison loop returns true iff the stored hash and the salted digest have equal length and equal characters |
| Security.HexEncode | src/utils/security.ts:84-87 | the hex salt has two characters per byte and no ':' |
| Security.HashPassword | src/utils/security.ts:83-90 | `salt:hash` with the hex salt and the digest of salt + password; Security.VerifyAcceptsOwnHash and Security.VerifyRejectsOtherPassword are its partners |
| Security.VerifyAcceptsOwnHash | src/utils/security.ts:83-114 | a password verifies against its own `salt:hash`, whatever the salt and the digest |
| Security.VerifyRejectsOtherPassword | src/utils/security.ts:83-114 | another password verifies against that hash only if the digest collides on the two salted inputs |
| TaskStore.UpdatedTask | src/stores/taskStore.ts:75-82 | status, id and created_at take the update's value when supplied; updated_at is the clock; completed_at is stamped only when the update sets completed and the task was not completed, else the old completed_at stays (an empty update changes only updated_at: TaskStore.EmptyUpdateTouchesOnly) |
| TaskStore.NewTask | src/stores/taskStore.ts:58-63 | builds addTask's record: the draft under a fresh id, created_at and updated_at both the clock |
| TaskStore.NewComment | src/stores/taskStore.ts:115-119 | builds addComment's record: the comment under a fresh id, created at the clock |
| TaskStore.NewAttachment | src/stores/taskStore.ts:139-143 | builds addAttachment's record: the attachment under a fresh id, uploaded at the clock |
| TaskStore.UpdateIgnoresTimestampKeys | src/stores/taskStore.ts:78-81 | completed_at and updated_at keys in the update make no difference |
| TaskStore.TasksUpdated | src/stores/taskStore.ts:73-84 | only tasks with the id change, each merged with the update |
| TaskStore.TasksUpdatedIdempotent | src/stores/taskStore.ts:72-84 | repeating an update at the same clock reading changes nothing more |
| TaskStore.UpdateUnknownTask | src/stores/taskStore.ts:72-84 | an unknown id changes nothing |
| TaskStore.GroupTasksAfterAdd | src/stores/taskStore.ts:106-108 | after addTask, the group's tasks are its earlier tasks followed by the new one when it is in the group |
| TaskStore.TaskDeleted | src/stores/taskStore.ts:90-93 | deleteTask removes the task and every comment and attachment on it and nothing else, keeping order; every kept record appears as often as it was stored |
| TaskStore.AddThenDeleteTask | src/stores/taskStore.ts:57-104 | deleting a task just added under a fresh id restores all three collections |
| TaskStore.AddThenDeleteComment | src/stores/taskStore.ts:114-132 | deleting a comment just added under a fresh id restores the comments |
| TaskStore.AddThenDeleteAttachment | src/stores/taskStore.ts:138-156 | deleting an attachment just added under a fresh id restores the attachments |
| TaskStore.TaskState.constructor | src/stores/taskStore.ts:46-49 | the store starts with what storage holds |
| TaskStore.TaskState.SetTasks | src/stores/taskStore.ts:52-55 | replaces and persists the tasks |
| TaskStore.TaskState.AddTask | src/stores/taskStore.ts:57-70 | appends exactly one task with the supplied fields; earlier tasks unchanged and in order; storage equals memory |
| TaskStore.TaskState.UpdateTask | src/stores/taskStore.ts:72-88 | the tasks become TasksUpdated of the old ones and are persisted |
| TaskStore.TaskState.DeleteTask | src/stores/taskStore.ts:90-104 | the three collections become the cascade and are persisted |
| TaskStore.TaskState.GroupTasks | src/stores/taskStore.ts:106-108 | exactly the group's tasks, in stored order; every kept record appears as often as it was stored |
| TaskStore.TaskState.UserTasks | src/stores/taskStore.ts:110-112 | exactly the tasks assigned to the user, in stored order; every kept record appears as often as it was stored |
| TaskStore.TaskState.AddComment | src/stores/taskStore.ts:114-126 | appends one comment and persists the comments |
| TaskStore.TaskState.DeleteComment | src/stores/taskStore.ts:128-132 | removes only the comments with the id and persists the rest |
| TaskStore.TaskState.TaskComments | src/stores/taskStore.ts:134-136 | exactly the comments on the task; every kept record appears as often as it was stored |
| TaskStore.TaskState.AddAttachment | src/stores/taskStore.ts:138-150 | appends one attachment and persists the attachments |
| TaskStore.TaskState.DeleteAttachment | src/stores/taskStore.ts:152-156 | removes only the attachments with the id and persists the rest |
| TaskStore.TaskState.TaskAttachments | src/stores/taskStore.ts:158-160 | exactly the attachments of the task; every kept record appears as often as it was stored |
| TaskStore.TaskState.LoadFromStorage | src/stores/taskStore.ts:162-168 | memory becomes what storage holds |
| TaskStore.TaskState.SaveToStorage | src/stores/taskStore.ts:170-175 | storage becomes what memory holds |
| VendorStore.Mean | src/stores/vendorStore.ts:99-101 | 0 for no reviews; otherwise the mean times the count is the sum of the ratings |
| VendorStore.RoundTenth | src/stores/vendorStore.ts:107 | Math.round(x * 10) / 10 is a whole number of tenths within 0.05 of x |
| VendorStore.MeanWithin | src/stores/vendorStore.ts:99-107 | with ratings of 1 to 5 stars, the mean and the stored rating stay within 1 to 5 |
| VendorStore.Rerated | src/stores/vendorStore.ts:103-111 | only the reviewed vendor changes, and only its rating and total_reviews, which then agree with its reviews |
| VendorStore.ReratedConsistent | src/stores/vendorStore.ts:98-111 | re-rating the one vendor whose reviews changed keeps every vendor's count and rating consistent |
| VendorStore.NewVendor | src/stores/vendorStore.ts:47-54 | a new vendor has rating 0 and total_reviews 0 whatever the supplied data says |
| VendorStore.VendorsUpdated | src/stores/vendorStore.ts:63-66 | only the vendor with the id changes, merged with the update |
| VendorStore.PatchedVendor | src/stores/vendorStore.ts:65 | `{ ...v, ...updates }`: every key the update supplies replaces the vendor's value, the rest are kept |
| VendorStore.NewReview | src/stores/vendorStore.ts:90-94 | builds addReview's record: the review under a fresh id, created at the clock |
| VendorStore.UpdateVendorKeepsRatings | src/stores/vendorStore.ts:63-70 | an update that does not set id, rating or total_reviews keeps the ratings consistent |
| VendorStore.AddVendorKeepsRatings | src/stores/vendorStore.ts:47-61 | a vendor added under an id no review names is consistent |
| VendorStore.VendorDeleted | src/stores/vendorStore.ts:72-74 | the vendor and exactly its reviews go; other vendors and reviews stay; every kept record appears as often as it was stored |
| VendorStore.DeleteVendorKeepsRatings | src/stores/vendorStore.ts:72-83 | the cascade keeps the ratings consistent |
| VendorStore.ReviewAdded | src/stores/vendorStore.ts:89-111 | one review is appended; the vendors are Rerated for the target vendor, so only its total_reviews and rating change, recomputed from its reviews, and every other vendor is unchanged |
| VendorStore.AddReviewKeepsRatings | src/stores/vendorStore.ts:89-122 | addReview keeps every vendor's count and rating consistent |
| VendorStore.ReviewDeleted | src/stores/vendorStore.ts:124-143 | an unknown id changes nothing; otherwise exactly the reviews with that id go and the vendors are Rerated for the first match's vendor, every other vendor unchanged; every kept record appears as often as it was stored |
| VendorStore.DeleteReviewKeepsRatings | src/stores/vendorStore.ts:124-152 | deleteReview keeps the ratings consistent when the review id belongs to one vendor |
| VendorStore.AddThenDeleteReview | src/stores/vendorStore.ts:89-152 | deleting a review just added under a fresh id restores a consistent directory exactly |
| VendorStore.AverageRating | src/stores/vendorStore.ts:158-162 | 0 for a vendor with no reviews, else the mean of its ratings |
| VendorStore.StoredRatingNearAverage | src/stores/vendorStore.ts:99-111 | a consistent vendor's stored rating is within 0.05 of getAverageRating, and its count is 0 iff it has no reviews |
| VendorStore.VendorState.AddVendor | src/stores/vendorStore.ts:47-61 | appends one vendor, persists, keeps memory and storage in sync and the ratings consistent |
| VendorStore.VendorState.constructor | src/stores/vendorStore.ts:37-39 | the store starts with what storage holds, memory and storage in sync |
| VendorStore.VendorState.SetVendors | src/stores/vendorStore.ts:42-45 | replaces and persists the vendors |
| VendorStore.VendorState.UpdateVendor | src/stores/vendorStore.ts:63-70 | vendors become VendorsUpdated and are persisted |
| VendorStore.VendorState.DeleteVendor | src/stores/vendorStore.ts:72-83 | both collections become the cascade and are persisted |
| VendorStore.VendorState.VendorsByCategory | src/stores/vendorStore.ts:85-87 | exactly the vendors of the category; every kept record appears as often as it was stored |
| VendorStore.VendorState.AddReview | src/stores/vendorStore.ts:89-122 | both collections become ReviewAdded and are persisted; ratings stay consistent |
| VendorStore.VendorState.DeleteReview | src/stores/vendorStore.ts:124-152 | an unknown id writes nothing; otherwise both collections become ReviewDeleted and are persisted |
| VendorStore.VendorState.VendorReviews | src/stores/vendorStore.ts:154-156 | exactly the vendor's reviews, in stored order; every kept record appears as often as it was stored |
| VendorStore.VendorState.GetAverageRating | src/stores/vendorStore.ts:158-162 | the mean of the vendor's review ratings; with the ratings consistent, every listed vendor with that id stores it to within 0.05 |
| VendorStore.VendorState.LoadFromStorage | src/stores/vendorStore.ts:164-169 | memory becomes what storage holds |
| VendorStore.VendorState.SaveToStorage | src/stores/vendorStore.ts:171-175 | storage becomes what memory holds |
| BookingStore.NewBooking | src/stores/bookingStore.ts:73-84 | a new booking is pending, created by the current user or '', with amount and advance 0 when not given, and no confirmation time |
| BookingStore.GroupBookingsAfterCreate | src/stores/bookingStore.ts:86-88 | after createBooking the group's bookings are the earlier ones followed by the new one when it is in the group |
| BookingStore.BookingsUpdated | src/stores/bookingStore.ts:101-104 | only the bookings with the id change, each merged with the update |
| BookingStore.PatchedBooking | src/stores/bookingStore.ts:102 | `{ ...b, ...updates }`: every key the update supplies replaces the booking's value, the rest are kept |
| BookingStore.StatusPatch | src/stores/bookingStore.ts:141-146 | the update updateBookingStatus sends: the status, confirmed_at the clock for a confirmation and undefined otherwise; its effect is BookingStore.StatusUpdated |
| BookingStore.RefreshedView | src/stores/bookingStore.ts:107-110 | the shown list is reloaded for the group of its first booking when that group is non-empty, else kept; BookingStore.RefreshedViewIsGroupView states what it yields |
| BookingStore.CurrentAfterUpdate | src/stores/bookingStore.ts:112-114 | a current booking with the updated id is looked up again in the new array, any other is kept; BookingStore.CurrentStaysPersisted states it stays persisted |
| BookingStore.UpdateUnknownBooking | src/stores/bookingStore.ts:99-105 | an unknown id leaves all bookings unchanged |
| BookingStore.StatusUpdated | src/stores/bookingStore.ts:141-146 | the matching booking gets the status and confirmed_at = clock iff confirmed, confirmed_at erased otherwise; nothing else changes |
| BookingStore.GroupViewOf | src/stores/bookingStore.ts:41-43 | a group's part of the persisted bookings is a group view: its first booking's group selects exactly it |
| BookingStore.RefreshedViewIsGroupView | src/stores/bookingStore.ts:107-110 | after a refresh from the persisted bookings, the shown list is the persisted part of its first booking's group |
| BookingStore.BookingDeleted | src/stores/bookingStore.ts:123-124 | exactly the bookings with the id go, the rest stay in order; every kept record appears as often as it was stored |
| BookingStore.CreateThenDeleteBooking | src/stores/bookingStore.ts:66-134 | deleting a booking just created under a fresh id restores the list |
| BookingStore.CurrentAfterDelete | src/stores/bookingStore.ts:132-134 | currentBooking becomes null iff it was the deleted booking |
| BookingStore.CurrentStaysPersisted | src/stores/bookingStore.ts:112-134 | a current booking that is persisted stays persisted (or is cleared) after an update or a delete |
| BookingStore.StatusesPartition | src/stores/bookingStore.ts:158-166 | every booking has exactly one of the four statuses |
| BookingStore.StatsOf | src/stores/bookingStore.ts:158-166 | total is the number of the group's bookings; confirmed + pending + completed ≤ total, the remainder being the cancelled ones |
| BookingStore.BookingState.FetchBookings | src/stores/bookingStore.ts:38-50 | shows exactly the group's persisted bookings |
| BookingStore.BookingState.constructor | src/stores/bookingStore.ts:32-36 | the store starts with nothing shown and no current booking over whatever is persisted, its view and current booking consistent |
| BookingStore.BookingState.FetchBookingById | src/stores/bookingStore.ts:52-64 | returns the booking with the id or none; sets currentBooking only when one is found |
| BookingStore.BookingState.CreateBooking | src/stores/bookingStore.ts:66-97 | appends one pending booking to storage and shows its group's bookings |
| BookingStore.BookingState.UpdateBooking | src/stores/bookingStore.ts:99-119 | persists BookingsUpdated, refreshes the shown group's list, re-reads the current booking when it was updated |
| BookingStore.BookingState.DeleteBooking | src/stores/bookingStore.ts:121-139 | persists the remaining bookings, refreshes the shown list, clears the current booking iff it was deleted |
| BookingStore.BookingState.UpdateBookingStatus | src/stores/bookingStore.ts:141-146 | updateBooking with the status and the confirmation time |
| BookingStore.BookingState.BookingsByGroup | src/stores/bookingStore.ts:148-151 | exactly the persisted bookings of the group; every kept record appears as often as it was stored |
| BookingStore.BookingState.BookingsByVendor | src/stores/bookingStore.ts:153-156 | exactly the persisted bookings of the vendor; every kept record appears as often as it was stored |
| BookingStore.BookingState.BookingStatsOf | src/stores/bookingStore.ts:158-166 | total is the number of the group's persisted bookings and confirmed + pending + completed ≤ total |
| NotificationStore.NewNotification | src/stores/notificationStore.ts:38-45 | a new notification is unread and not sent by e-mail or SMS whatever the draft says |
| NotificationStore.UnreadCount | src/stores/notificationStore.ts:84-88 | the number of the user's unread notifications; its partners are NotificationStore.AddedNotificationIsUnread and NotificationStore.MarkAllReadClearsUnread |
| NotificationStore.AddedNotificationIsUnread | src/stores/notificationStore.ts:37-52 | adding raises its user's unread count by one and leaves every other user's count |
| NotificationStore.MarkedRead | src/stores/notificationStore.ts:55-57 | only notifications with the id change, and only to read |
| NotificationStore.MarkedReadIdempotent | src/stores/notificationStore.ts:54-61 | marking read twice is marking read once |
| NotificationStore.MarkedAllRead | src/stores/notificationStore.ts:64-66 | every notification of the user becomes read; other users' notifications are unchanged |
| NotificationStore.MarkAllReadClearsUnread | src/stores/notificationStore.ts:63-88 | after markAllAsRead the user's unread count is 0; other users' notifications and unread counts are unchanged |
| NotificationStore.NotificationDeleted | src/stores/notificationStore.ts:72-76 | exactly the notifications with the id go, the rest stay in order; every kept record appears as often as it was stored |
| NotificationStore.AddThenDeleteNotification | src/stores/notificationStore.ts:37-76 | deleting a notification just added under a fresh id restores the list |
| NotificationStore.InsertNewestFirst | src/stores/notificationStore.ts:81 | inserting into a newest-first list keeps it newest first and adds exactly that notification |
| NotificationStore.SortNewestFirst | src/stores/notificationStore.ts:81 | the sort returns a permutation of its input, newest created_at first |
| NotificationStore.UserNotificationsOf | src/stores/notificationStore.ts:78-82 | exactly the user's notifications, each as often as stored, newest created_at first |
| NotificationStore.NotificationState.AddNotification | src/stores/notificationStore.ts:37-52 | appends one unread notification and persists the list |
| NotificationStore.NotificationState.constructor | src/stores/notificationStore.ts:28-30 | the store starts with what storage holds |
| NotificationStore.NotificationState.UserNotifications | src/stores/notificationStore.ts:78-82 | getUserNotifications on the in-memory list, specified by NotificationStore.UserNotificationsOf |
| NotificationStore.NotificationState.UnreadCountOf | src/stores/notificationStore.ts:84-88 | getUnreadCount on the in-memory list; MarkAllAsRead promises it is 0 for the user afterwards |
| NotificationStore.NotificationState.MarkAsRead | src/stores/notificationStore.ts:54-61 | the list becomes MarkedRead and is persisted |
| NotificationStore.NotificationState.MarkAllAsRead | src/stores/notificationStore.ts:63-70 | the list becomes MarkedAllRead, is persisted, and the user's unread count is 0 |
| NotificationStore.NotificationState.DeleteNotification | src/stores/notificationStore.ts:72-76 | the list becomes NotificationDeleted and is persisted |
| NotificationStore.NotificationState.SetNotifications | src/stores/notificationStore.ts:32-35 | replaces and persists the list |
| NotificationStore.NotificationState.LoadFromStorage | src/stores/notificationStore.ts:90-94 | memory becomes what storage holds |
| NotificationStore.NotificationState.SaveToStorage | src/stores/notificationStore.ts:96-99 | storage becomes what memory holds |
| GroupStore.GroupsUpdated | src/stores/groupStore.ts:34 | only groups with the id change, each merged with the update |
| GroupStore.PatchedGroup | src/stores/groupStore.ts:34 | `{ ...g, ...updates }`: every key the update supplies replaces the group's value; GroupStore.PatchedGroupIdempotent is its partner |
| GroupStore.UpdateUnknownGroup | src/stores/groupStore.ts:33-34 | an unknown id changes no group |
| GroupStore.PatchedGroupIdempotent | src/stores/groupStore.ts:34-36 | merging the same update twice is merging it once |
| GroupStore.CurrentAfterUpdate | src/stores/groupStore.ts:35-37 | the open group gets the same merge iff its id is the updated id, otherwise it is unchanged |
| GroupStore.GroupDeleted | src/stores/groupStore.ts:41 | exactly the groups with the id go, the rest stay in order; every kept record appears as often as it was stored |
| GroupStore.CurrentAfterDelete | src/stores/groupStore.ts:42 | the open group becomes null iff it was the deleted group |
| GroupStore.CurrentListedAfterAdd | src/stores/groupStore.ts:29-31 | adding a group keeps the open group listed |
| GroupStore.CurrentListedAfterUpdate | src/stores/groupStore.ts:33-38 | an updated open group is the updated list entry, so it stays listed |
| GroupStore.CurrentListedAfterDelete | src/stores/groupStore.ts:40-43 | a deleted open group is closed, any other stays listed |
| GroupStore.AddThenDeleteGroup | src/stores/groupStore.ts:29-43 | deleting a group just added under a fresh id restores the list |
| GroupStore.GroupState.SetGroups | src/stores/groupStore.ts:23 | replaces the list |
| GroupStore.GroupState.constructor | src/stores/groupStore.ts:17-21 | the store starts with no groups, no open group and no members |
| GroupStore.GroupState.SetCurrentGroup | src/stores/groupStore.ts:25 | sets the open group; opening a listed group (or none) keeps the open group listed |
| GroupStore.GroupState.SetMembers | src/stores/groupStore.ts:27 | replaces the members |
| GroupStore.GroupState.AddGroup | src/stores/groupStore.ts:29-31 | appends exactly one group; keeps the open group listed |
| GroupStore.GroupState.UpdateGroup | src/stores/groupStore.ts:33-38 | groups become GroupsUpdated and the open group CurrentAfterUpdate; keeps the open group listed |
| GroupStore.GroupState.DeleteGroup | src/stores/groupStore.ts:40-43 | groups become GroupDeleted and the open group CurrentAfterDelete; keeps the open group listed |
| ToastStore.ToastRemoved | src/stores/toastStore.ts:23-27 | every toast with the id goes; the rest keep their order; every kept record appears as often as it was stored |
| ToastStore.RemoveUnknownToast | src/stores/toastStore.ts:23-27 | removing an id not present leaves the list unchanged |
| ToastStore.RemoveToastIdempotent | src/stores/toastStore.ts:23-27 | removing the same id twice is removing it once |
| ToastStore.AddThenRemoveToast | src/stores/toastStore.ts:14-27 | removing a toast just added under an unused id restores the list |
| ToastStore.ToastState.AddToast | src/stores/toastStore.ts:14-21 | appends exactly one toast at the end with the given type, title and message |
| ToastStore.ToastState.constructor | src/stores/toastStore.ts:11-12 | the store starts with no toasts |
| ToastStore.ToastState.RemoveToast | src/stores/toastStore.ts:23-27 | the toasts become ToastRemoved |
| ToastStore.ToastState.ClearToasts | src/stores/toastStore.ts:29-31 | the list becomes empty |

## Left out

- `addFunds`, `makePayment`, `lockEscrow`, `fetchGroupWallet`, `getGroupTransactions` and `createGroupWallet`: the wallet UI calls them, but `src/stores/walletStore.ts` does not define them, so there is nothing to model. The store also has no escrow release, insufficient-funds check, non-negativity rule, per-member payment tracking or split computation.
- `isLoading` and `error` flags, `try`/`catch` logging, and `async`/`await`. Every action is modelled as one atomic step, so interleaving between tabs or devices (lost updates) is not modelled.
- The `window` storage-event listeners. The wallet and booking listeners do nothing; the task store's listener runs `loadFromStorage`, which is modelled as `TaskStore.TaskState.LoadFromStorage`.
- `generateUniqueId`, `Math.random` and `Date`. Ids and clock readings are parameters, and timestamps are integers rather than ISO strings. Uniqueness of ids is assumed only where a lemma's `requires` says so.
- The signed-in user from `authStore` (loaded dynamically in `createBooking`). It is a parameter. `authStore` is not part of this model.
- `sha256`, `crypto.subtle` and `crypto.getRandomValues`. The digest is a function parameter and the salt bytes are a parameter.
- `formatDateForDisplay` and `formatCurrency`: locale formatting through `Intl`.
- `utils/storage` is not part of this model. It is an abstract map from key to array whose missing keys read as empty.
- Money, review ratings and review counts are integers; a vendor's stored rating and getAverageRating are exact reals. JavaScript's floating-point numbers, `NaN`, and `|| 0` applied to `NaN` are not modelled. The vendor rating and its rounding use exact real arithmetic, not binary floating point.
- Status arguments cast `as any` (`updateBookingStatus`, `updatePaymentRequestStatus`) take only the declared status values, not arbitrary strings.
- `toLowerCase` is modelled on ASCII letters only. Other characters pass unchanged.
- The joined `vendor` and `creator` objects of a booking, and the `user` object of a group member.
- NotificationStore.UserNotificationsOf: states sorted newest first and a permutation of the user's notifications. The model's insertion sort is stable, like the JavaScript sort, but stability is not stated.
- WalletStore.WalletState.CreateWallet: the ledger invariant is promised only when the fresh id is non-empty and no earlier transaction names it, which is what the id generator is relied on for.
- VendorStore.VendorState.UpdateVendor: rating consistency is promised only for updates that do not set `id`, `rating` or `total_reviews`. The code lets an update overwrite them.
- VendorStore.VendorState.DeleteReview: rating consistency is promised only when every review with that id belongs to one vendor. The code re-rates only the first match's vendor.
- GroupStore.GroupState.SetGroups: it does not keep the open group listed. The code replaces the list without touching `currentGroup`.
- GroupStore.GroupState.SetCurrentGroup: keeps the open group listed only when it is given a listed group or none. The code accepts any group; the group page passes one it found in `groups`.
- WalletStore.WalletState.UpdateBalance: it does not keep the ledger invariant. Called directly with a non-zero amount, it changes a balance without adding a ledger entry; only the call inside `createTransaction` keeps balance and replay equal.
- VendorStore.VendorState.SetVendors: it keeps memory and storage in sync but not rating consistency, because the code stores whatever vendors it is given.
