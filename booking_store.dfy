/** src/stores/bookingStore.ts: vendor bookings of a group.

    Like the wallet store, every action reads the persisted array afresh and
    writes it back. The `bookings` field is the list one group's page shows
    (the group of its first element), and `currentBooking` is the booking a
    detail view opened. The current user, the id generator and the clock
    are parameters. */
module BookingStore {
  import opened Optional
  import opened Arrays
  import opened Storage

  const BookingsKey := "atmos_bookings"

  datatype BookingStatus = Pending | Confirmed | Completed | Cancelled

  /** A booking; `created_at` and `confirmed_at` are clock readings, the
      booking date is the text the form supplied. */
  datatype Booking = Booking(
    id: string,
    groupId: string,
    vendorId: string,
    createdBy: string,
    bookingDate: string,
    amount: int,
    advanceAmount: int,
    terms: Option<string>,
    status: BookingStatus,
    escrowTransactionId: Option<string>,
    confirmedAt: Option<int>,
    createdAt: int)

  /** The keys of the `Partial<Booking>` that createBooking reads. */
  datatype BookingDraft = BookingDraft(
    groupId: Option<string>,
    vendorId: Option<string>,
    bookingDate: Option<string>,
    amount: Option<int>,
    advanceAmount: Option<int>,
    terms: Option<string>)

  /** `Partial<Booking>`, as updateBooking takes it: one Patch per key. */
  datatype BookingPatch = BookingPatch(
    id: Patch<string>,
    groupId: Patch<string>,
    vendorId: Patch<string>,
    createdBy: Patch<string>,
    bookingDate: Patch<string>,
    amount: Patch<int>,
    advanceAmount: Patch<int>,
    terms: Patch<Option<string>>,
    status: Patch<BookingStatus>,
    escrowTransactionId: Patch<Option<string>>,
    confirmedAt: Patch<Option<int>>,
    createdAt: Patch<int>)

  function BookingIs(id: string): Booking -> bool {
    (b: Booking) => b.id == id
  }

  function BookingIsNot(id: string): Booking -> bool {
    (b: Booking) => b.id != id
  }

  function BookingInGroup(groupId: string): Booking -> bool {
    (b: Booking) => b.groupId == groupId
  }

  function BookingOfVendor(vendorId: string): Booking -> bool {
    (b: Booking) => b.vendorId == vendorId
  }

  function HasStatus(s: BookingStatus): Booking -> bool {
    (b: Booking) => b.status == s
  }

  // ---------------------------------------------------------------------
  // createBooking
  // ---------------------------------------------------------------------

  /** createBooking's record: pending, created by the signed-in user ('' when
      nobody is signed in), '' for a missing group or vendor, 0 for a missing
      amount or advance, and today's date for a missing or empty booking
      date; no escrow transaction and no confirmation time. */
  function NewBooking(d: BookingDraft, currentUserId: Option<string>, freshId: string, now: int, today: string)
    : (b: Booking)
    ensures b.id == freshId && b.status == Pending && b.createdAt == now
    ensures b.createdBy == (if currentUserId.Some? then currentUserId.value else "")
    ensures d.amount.None? ==> b.amount == 0
    ensures d.advanceAmount.None? ==> b.advanceAmount == 0
    ensures b.escrowTransactionId.None? && b.confirmedAt.None?
  {
    Booking(freshId, d.groupId.GetOr(""), d.vendorId.GetOr(""), currentUserId.GetOr(""),
            if d.bookingDate.Some? && d.bookingDate.value != "" then d.bookingDate.value else today,
            d.amount.GetOr(0), d.advanceAmount.GetOr(0), d.terms, Pending, None, None, now)
  }

  /** A new booking is in its group's list, after the group's earlier
      bookings, and in no other group's list. */
  lemma GroupBookingsAfterCreate(bookings: seq<Booking>, b: Booking, groupId: string)
    ensures Filter(bookings + [b], BookingInGroup(groupId))
            == Filter(bookings, BookingInGroup(groupId)) + if b.groupId == groupId then [b] else []
  {
    FilterAppend(bookings, [b], BookingInGroup(groupId));
  }

  // ---------------------------------------------------------------------
  // updateBooking and updateBookingStatus
  // ---------------------------------------------------------------------

  /** `{ ...b, ...updates }`. */
  function PatchedBooking(b: Booking, p: BookingPatch): Booking {
    Booking(Apply(p.id, b.id), Apply(p.groupId, b.groupId), Apply(p.vendorId, b.vendorId),
            Apply(p.createdBy, b.createdBy), Apply(p.bookingDate, b.bookingDate),
            Apply(p.amount, b.amount), Apply(p.advanceAmount, b.advanceAmount), Apply(p.terms, b.terms),
            Apply(p.status, b.status), Apply(p.escrowTransactionId, b.escrowTransactionId),
            Apply(p.confirmedAt, b.confirmedAt), Apply(p.createdAt, b.createdAt))
  }

  /** updateBooking's map: the bookings with that id take the update, every
      other booking is kept as it was. */
  function BookingsUpdated(bookings: seq<Booking>, id: string, p: BookingPatch): (r: seq<Booking>)
    ensures |r| == |bookings|
    ensures forall i :: 0 <= i < |bookings| && bookings[i].id != id ==> r[i] == bookings[i]
    ensures forall i :: 0 <= i < |bookings| && bookings[i].id == id ==> r[i] == PatchedBooking(bookings[i], p)
  {
    MapIf(bookings, BookingIs(id), (b: Booking) => PatchedBooking(b, p))
  }

  /** An update of an id no booking has changes nothing. */
  lemma UpdateUnknownBooking(bookings: seq<Booking>, id: string, p: BookingPatch)
    requires forall b :: b in bookings ==> b.id != id
    ensures BookingsUpdated(bookings, id, p) == bookings
  {
    assert forall i :: 0 <= i < |bookings| ==> bookings[i] in bookings;
  }

  /** The update updateBookingStatus sends: the status, and `confirmed_at`
      set to the clock for a confirmation and to `undefined` otherwise. */
  function StatusPatch(status: BookingStatus, now: int): BookingPatch {
    BookingPatch(Keep, Keep, Keep, Keep, Keep, Keep, Keep, Keep, Put(status), Keep,
                 Put(if status == Confirmed then Some(now) else None), Keep)
  }

  /** updateBookingStatus on the persisted bookings: the bookings with that id
      get the status and a confirmation time exactly when confirmed (any
      earlier confirmation time is erased by every other status); no other
      field and no other booking changes. */
  function StatusUpdated(bookings: seq<Booking>, id: string, status: BookingStatus, now: int): (r: seq<Booking>)
    ensures |r| == |bookings|
    ensures forall i :: 0 <= i < |bookings| ==>
              r[i] == if bookings[i].id == id
                      then bookings[i].(status := status, confirmedAt := if status == Confirmed then Some(now) else None)
                      else bookings[i]
    ensures forall i :: 0 <= i < |bookings| && bookings[i].id == id ==>
              (r[i].confirmedAt.Some? <==> status == Confirmed)
  {
    BookingsUpdated(bookings, id, StatusPatch(status, now))
  }

  /** `get().bookings[0]?.group_id`: when the shown list has a first booking
      with a non-empty group, the list is reloaded for that group from the
      new persisted array; otherwise it stays as it was. */
  function RefreshedView(view: seq<Booking>, stored: seq<Booking>): seq<Booking> {
    if |view| > 0 && view[0].groupId != "" then Filter(stored, BookingInGroup(view[0].groupId)) else view
  }

  /** A shown list whose first booking names a group is that group's part of
      the persisted bookings. */
  ghost predicate IsGroupView(view: seq<Booking>, stored: seq<Booking>) {
    |view| > 0 && view[0].groupId != "" ==> view == Filter(stored, BookingInGroup(view[0].groupId))
  }

  /** A group's part of the persisted bookings is a group view of them. */
  lemma GroupViewOf(stored: seq<Booking>, groupId: string)
    ensures IsGroupView(Filter(stored, BookingInGroup(groupId)), stored)
  {
    var mine := Filter(stored, BookingInGroup(groupId));
    if |mine| > 0 {
      assert mine[0] in mine;
    }
  }

  /** The shown list after a refresh from `stored` is a group view of it. */
  lemma RefreshedViewIsGroupView(view: seq<Booking>, stored: seq<Booking>)
    ensures IsGroupView(RefreshedView(view, stored), stored)
  {
    if |view| > 0 && view[0].groupId != "" {
      GroupViewOf(stored, view[0].groupId);
    }
  }

  // ---------------------------------------------------------------------
  // deleteBooking
  // ---------------------------------------------------------------------

  /** deleteBooking's filter: exactly the bookings with that id go, the rest
      stay in order. */
  function BookingDeleted(bookings: seq<Booking>, id: string): (r: seq<Booking>)
    ensures forall b :: b in r <==> b in bookings && b.id != id
    ensures forall b :: multiset(r)[b] == if b.id != id then multiset(bookings)[b] else 0
    ensures IsSubsequence(r, bookings)
  {
    FilterMultiset(bookings, BookingIsNot(id));
    FilterIsSubsequence(bookings, BookingIsNot(id));
    Filter(bookings, BookingIsNot(id))
  }

  /** Deleting a booking just created under a fresh id restores the list. */
  lemma CreateThenDeleteBooking(bookings: seq<Booking>, b: Booking)
    requires forall x :: x in bookings ==> x.id != b.id
    ensures BookingDeleted(bookings + [b], b.id) == bookings
  {
    FilterOutAppended(bookings, b, BookingIsNot(b.id));
  }

  /** The current booking after a delete: cleared exactly when it is the
      deleted booking. */
  function CurrentAfterDelete(current: Option<Booking>, id: string): (r: Option<Booking>)
    ensures r.None? <==> current.None? || current.value.id == id
    ensures r.Some? ==> r == current
  {
    if current.Some? && current.value.id == id then None else current
  }

  /** The current booking after an update: a current booking with that id is
      looked up again in the new array (and cleared when none has the id any
      more); any other current booking is kept. */
  function CurrentAfterUpdate(current: Option<Booking>, id: string, updated: seq<Booking>): Option<Booking> {
    if current.Some? && current.value.id == id then Find(updated, BookingIs(id)) else current
  }

  /** A current booking that is one of the persisted bookings still is one
      after an update or a delete. */
  lemma CurrentStaysPersisted(bookings: seq<Booking>, current: Option<Booking>, id: string, p: BookingPatch)
    requires current.Some? ==> current.value in bookings
    ensures var updated := BookingsUpdated(bookings, id, p);
            var c := CurrentAfterUpdate(current, id, updated);
            c.Some? ==> c.value in updated
    ensures var c := CurrentAfterDelete(current, id);
            c.Some? ==> c.value in BookingDeleted(bookings, id)
  {
    if current.Some? && current.value.id != id {
      var k :| 0 <= k < |bookings| && bookings[k] == current.value;
      assert BookingsUpdated(bookings, id, p)[k] == current.value;
    }
  }

  // ---------------------------------------------------------------------
  // Queries
  // ---------------------------------------------------------------------

  datatype BookingStats = BookingStats(total: nat, confirmed: nat, pending: nat, completed: nat)

  /** Every booking has exactly one of the four statuses. */
  lemma {:induction false} StatusesPartition(bookings: seq<Booking>)
    ensures |Filter(bookings, HasStatus(Pending))| + |Filter(bookings, HasStatus(Confirmed))|
            + |Filter(bookings, HasStatus(Completed))| + |Filter(bookings, HasStatus(Cancelled))|
            == |bookings|
  {
    if bookings != [] {
      StatusesPartition(bookings[1..]);
    }
  }

  /** getBookingStats: `total` is the number of the group's bookings, and
      the confirmed, pending and completed counts leave the cancelled
      bookings as the remainder of it. */
  function StatsOf(bookings: seq<Booking>, groupId: string): (r: BookingStats)
    ensures r.total == |Filter(bookings, BookingInGroup(groupId))|
    ensures r.confirmed + r.pending + r.completed <= r.total
    ensures r.total - (r.confirmed + r.pending + r.completed)
            == |Filter(Filter(bookings, BookingInGroup(groupId)), HasStatus(Cancelled))|
  {
    var mine := Filter(bookings, BookingInGroup(groupId));
    StatusesPartition(mine);
    BookingStats(|mine|, |Filter(mine, HasStatus(Confirmed))|, |Filter(mine, HasStatus(Pending))|,
                 |Filter(mine, HasStatus(Completed))|)
  }

  // ---------------------------------------------------------------------
  // The store
  // ---------------------------------------------------------------------

  class BookingState {
    var bookings: seq<Booking>
    var currentBooking: Option<Booking>
    var bookingStore: Store<Booking>

    ghost function StoredBookings(): seq<Booking> reads this { Load(bookingStore, BookingsKey) }

    /** The current booking, when there is one, is a persisted booking. */
    ghost predicate CurrentPersisted() reads this {
      currentBooking.Some? ==> currentBooking.value in StoredBookings()
    }

    /** A shown list whose first booking names a group is that group's
        persisted bookings. */
    ghost predicate ViewCurrent() reads this {
      IsGroupView(bookings, StoredBookings())
    }

    /** The store starts with nothing shown over whatever is persisted. */
    constructor (bookingStore0: Store<Booking>)
      ensures bookings == [] && currentBooking == None && bookingStore == bookingStore0
      ensures CurrentPersisted() && ViewCurrent()
    {
      bookings, currentBooking, bookingStore := [], None, bookingStore0;
    }

    /** `fetchBookings`: shows the group's persisted bookings. */
    method FetchBookings(groupId: string)
      modifies this`bookings
      ensures bookings == Filter(StoredBookings(), BookingInGroup(groupId))
      ensures ViewCurrent()
    {
      bookings := Filter(Load(bookingStore, BookingsKey), BookingInGroup(groupId));
      GroupViewOf(StoredBookings(), groupId);
    }

    /** `fetchBookingById`: the persisted booking with that id, or none; only
        a booking found becomes the current booking. */
    method FetchBookingById(id: string) returns (found: Option<Booking>)
      modifies this`currentBooking
      ensures found == Find(StoredBookings(), BookingIs(id))
      ensures found.Some? ==> found.value.id == id && currentBooking == found
      ensures found.None? ==> currentBooking == old(currentBooking)
      ensures old(CurrentPersisted()) ==> CurrentPersisted()
    {
      found := Find(Load(bookingStore, BookingsKey), BookingIs(id));
      if found.Some? {
        currentBooking := found;
      }
    }

    /** `createBooking`: appends the new pending booking to the persisted
        array and shows the bookings of its group. */
    method CreateBooking(d: BookingDraft, currentUserId: Option<string>, freshId: string, now: int, today: string)
      returns (booking: Booking)
      modifies this`bookings, this`bookingStore
      ensures booking == NewBooking(d, currentUserId, freshId, now, today)
      ensures bookingStore == Save(old(bookingStore), BookingsKey, old(StoredBookings()) + [booking])
      ensures bookings == Filter(StoredBookings(), BookingInGroup(booking.groupId))
      ensures old(CurrentPersisted()) ==> CurrentPersisted()
      ensures ViewCurrent()
    {
      booking := NewBooking(d, currentUserId, freshId, now, today);
      var updated := Load(bookingStore, BookingsKey) + [booking];
      bookingStore := Save(bookingStore, BookingsKey, updated);
      bookings := Filter(updated, BookingInGroup(booking.groupId));
      GroupViewOf(updated, booking.groupId);
    }

    /** `updateBooking`: merges the update into the persisted bookings with
        that id, refreshes the shown list and re-reads the current booking
        when it is the one updated. */
    method UpdateBooking(id: string, p: BookingPatch)
      modifies this`bookings, this`currentBooking, this`bookingStore
      ensures var updated := BookingsUpdated(old(StoredBookings()), id, p);
              && bookingStore == Save(old(bookingStore), BookingsKey, updated)
              && bookings == RefreshedView(old(bookings), updated)
              && currentBooking == CurrentAfterUpdate(old(currentBooking), id, updated)
      ensures old(CurrentPersisted()) ==> CurrentPersisted()
      ensures ViewCurrent()
    {
      var loaded := Load(bookingStore, BookingsKey);
      var updated := BookingsUpdated(loaded, id, p);
      bookingStore := Save(bookingStore, BookingsKey, updated);
      RefreshedViewIsGroupView(bookings, updated);
      bookings := RefreshedView(bookings, updated);
      if old(CurrentPersisted()) {
        CurrentStaysPersisted(loaded, currentBooking, id, p);
      }
      currentBooking := CurrentAfterUpdate(currentBooking, id, updated);
    }

    /** `deleteBooking`: removes the persisted bookings with that id,
        refreshes the shown list and clears the current booking when it is
        the one deleted. */
    method DeleteBooking(id: string)
      modifies this`bookings, this`currentBooking, this`bookingStore
      ensures var remaining := BookingDeleted(old(StoredBookings()), id);
              && bookingStore == Save(old(bookingStore), BookingsKey, remaining)
              && bookings == RefreshedView(old(bookings), remaining)
              && currentBooking == CurrentAfterDelete(old(currentBooking), id)
      ensures old(CurrentPersisted()) ==> CurrentPersisted()
      ensures ViewCurrent()
    {
      var loaded := Load(bookingStore, BookingsKey);
      var remaining := BookingDeleted(loaded, id);
      bookingStore := Save(bookingStore, BookingsKey, remaining);
      RefreshedViewIsGroupView(bookings, remaining);
      bookings := RefreshedView(bookings, remaining);
      currentBooking := CurrentAfterDelete(currentBooking, id);
    }

    /** `updateBookingStatus`: updateBooking with the status and the
        confirmation time. */
    method UpdateBookingStatus(id: string, status: BookingStatus, now: int)
      modifies this`bookings, this`currentBooking, this`bookingStore
      ensures var updated := StatusUpdated(old(StoredBookings()), id, status, now);
              && bookingStore == Save(old(bookingStore), BookingsKey, updated)
              && bookings == RefreshedView(old(bookings), updated)
              && currentBooking == CurrentAfterUpdate(old(currentBooking), id, updated)
      ensures old(CurrentPersisted()) ==> CurrentPersisted()
      ensures ViewCurrent()
    {
      UpdateBooking(id, StatusPatch(status, now));
    }

    /** `getBookingsByGroup`, read from storage. */
    function BookingsByGroup(groupId: string): (r: seq<Booking>) reads this
      ensures forall b :: b in r <==> b in StoredBookings() && b.groupId == groupId
      ensures forall b :: multiset(r)[b] == if b.groupId == groupId then multiset(StoredBookings())[b] else 0
    {
      FilterMultiset(Load(bookingStore, BookingsKey), BookingInGroup(groupId));
      Filter(Load(bookingStore, BookingsKey), BookingInGroup(groupId))
    }

    /** `getBookingsByVendor`, read from storage. */
    function BookingsByVendor(vendorId: string): (r: seq<Booking>) reads this
      ensures forall b :: b in r <==> b in StoredBookings() && b.vendorId == vendorId
      ensures forall b :: multiset(r)[b] == if b.vendorId == vendorId then multiset(StoredBookings())[b] else 0
    {
      FilterMultiset(Load(bookingStore, BookingsKey), BookingOfVendor(vendorId));
      Filter(Load(bookingStore, BookingsKey), BookingOfVendor(vendorId))
    }

    /** `getBookingStats`, read from storage. */
    function BookingStatsOf(groupId: string): (r: BookingStats) reads this
      ensures r.total == |BookingsByGroup(groupId)|
      ensures r.confirmed + r.pending + r.completed <= r.total
    {
      StatsOf(Load(bookingStore, BookingsKey), groupId)
    }
  }
}
