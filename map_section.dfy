/** The map screen: marker colours by handshake level, the dates a selected
    item is booked on, the rental quote, and the handlers that publish an
    item and request a booking. */
module MapSection {
  import opened Common
  import opened Text
  import opened Store
  import opened Queries

  /** A row of the `get_items_with_handshakes` call: an item, the handshake
      level the server computed for its owner (nullable) and the owner's name. */
  datatype MapItem = MapItem(item: Item, handshakeLevel: Option<int>, ownerFullName: Option<string>)

  /** What a Supabase call hands back: `data` (null when it failed) and
      whether `error` was set. */
  datatype Response<T> = Response(data: Option<T>, failed: bool)

  // ----------------------------------------------------------- marker colour

  /** Marker colours for levels 1, 2 and 3. */
  const Palette: seq<string> := ["green", "orange", "red"]

  /** The colour of every other level. */
  const Fallback: string := "blue"

  /** The colour part of the marker icon for a handshake level. */
  function MarkerColour(level: int): (c: string)
    ensures c == "green" <==> level == 1
    ensures c == "orange" <==> level == 2
    ensures c == "red" <==> level == 3
    ensures c == Fallback <==> level <= 0 || 3 < level
  {
    if 0 < level <= 3 then Palette[level - 1] else Fallback
  }

  /** `item.handshake_level || 0`: the level a marker and its label show. */
  function ShownLevel(level: Option<int>): (shown: int)
    ensures level.None? ==> shown == 0
    ensures level.Some? ==> shown == level.value
  {
    level.GetOr(0)
  }

  /** An item without a level is drawn like level 0, and so is the draft
      marker of an item being placed: blue, labelled level 0. */
  lemma MissingLevelShownAsZero(m: MapItem)
    requires m.handshakeLevel.None?
    ensures ShownLevel(m.handshakeLevel) == 0
    ensures MarkerColour(ShownLevel(m.handshakeLevel)) == Fallback
    ensures MarkerColour(0) == Fallback
  {
  }

  // ------------------------------------------------------------ blocked dates

  /** The days `first`, `first + 1`, ..., `last`; none when `first > last`. */
  function Days(first: Day, last: Day): (r: seq<Day>)
    ensures |r| == if first <= last then last - first + 1 else 0
    ensures forall k :: 0 <= k < |r| ==> r[k] == first + k
    decreases last - first + 1
  {
    if last < first then [] else Days(first, last - 1) + [last]
  }

  lemma DaysMembership(first: Day, last: Day, d: Day)
    ensures d in Days(first, last) <==> first <= d <= last
  {
    if first <= d <= last {
      assert Days(first, last)[d - first] == d;
    }
  }

  /** The days of a range are strictly ascending. */
  lemma DaysAscending(first: Day, last: Day, i: nat, j: nat)
    requires i < j < |Days(first, last)|
    ensures Days(first, last)[i] < Days(first, last)[j]
  {
  }

  /** Every day of a range occurs in it once. */
  lemma {:induction false} DaysCount(first: Day, last: Day, d: Day)
    ensures multiset(Days(first, last))[d] == if first <= d <= last then 1 else 0
    decreases last - first + 1
  {
    if first <= last {
      DaysCount(first, last - 1, d);
      assert Days(first, last) == Days(first, last - 1) + [last];
    }
  }

  predicate Covers(b: Booking, d: Day) {
    b.startDay <= d <= b.endDay
  }

  function CoversDay(d: Day): Booking -> bool {
    (b: Booking) => Covers(b, d)
  }

  /** The blocked-date list built from `rows`: each booking's days in
      ascending order, bookings one after the other, nothing merged. */
  function Expansion(rows: seq<Booking>): seq<Day> {
    if rows == [] then []
    else Expansion(rows[..|rows| - 1]) + Days(rows[|rows| - 1].startDay, rows[|rows| - 1].endDay)
  }

  /** The list for a longer fetch is the lists for its parts in fetch order. */
  lemma {:induction false} ExpansionAppend(a: seq<Booking>, b: seq<Booking>)
    ensures Expansion(a + b) == Expansion(a) + Expansion(b)
    decreases |b|
  {
    if b == [] {
      assert a + b == a;
    } else {
      var n := |b| - 1;
      var last := b[n];
      assert (a + b)[..|a + b| - 1] == a + b[..n];
      assert (a + b)[|a + b| - 1] == last;
      ExpansionAppend(a, b[..n]);
      calc {
        Expansion(a + b);
        Expansion(a + b[..n]) + Days(last.startDay, last.endDay);
        (Expansion(a) + Expansion(b[..n])) + Days(last.startDay, last.endDay);
        Expansion(a) + (Expansion(b[..n]) + Days(last.startDay, last.endDay));
        Expansion(a) + Expansion(b);
      }
    }
  }

  /** Each booking adds exactly its number of days. */
  function Span(b: Booking): nat {
    if b.startDay <= b.endDay then b.endDay - b.startDay + 1 else 0
  }

  function TotalSpan(rows: seq<Booking>): nat {
    if rows == [] then 0 else TotalSpan(rows[..|rows| - 1]) + Span(rows[|rows| - 1])
  }

  lemma {:induction false} ExpansionLength(rows: seq<Booking>)
    ensures |Expansion(rows)| == TotalSpan(rows)
  {
    if rows != [] {
      ExpansionLength(rows[..|rows| - 1]);
    }
  }

  /** A day is blocked exactly when some booking covers it, both ends inclusive. */
  lemma {:induction false} ExpansionMembership(rows: seq<Booking>, d: Day)
    ensures d in Expansion(rows) <==> exists b :: b in rows && Covers(b, d)
  {
    if rows != [] {
      var init, last := rows[..|rows| - 1], rows[|rows| - 1];
      assert rows == init + [last];
      ExpansionMembership(init, d);
      DaysMembership(last.startDay, last.endDay, d);
      assert Expansion(rows) == Expansion(init) + Days(last.startDay, last.endDay);
      if d in Expansion(init) {
        var b :| b in init && Covers(b, d);
        assert b in rows;
      }
      if d in Days(last.startDay, last.endDay) {
        assert last in rows && Covers(last, d);
      }
      if exists b :: b in rows && Covers(b, d) {
        var b :| b in rows && Covers(b, d);
        if b != last { assert b in init; }
      }
    }
  }

  /** A day occurs once per booking that covers it: overlapping bookings
      repeat it. */
  lemma {:induction false} ExpansionCount(rows: seq<Booking>, d: Day)
    ensures multiset(Expansion(rows))[d] == |Filter(rows, CoversDay(d))|
  {
    if rows != [] {
      var init, last := rows[..|rows| - 1], rows[|rows| - 1];
      assert rows == init + [last];
      ExpansionCount(init, d);
      DaysCount(last.startDay, last.endDay, d);
      FilterAppend(init, [last], CoversDay(d));
      assert Filter([last][1..], CoversDay(d)) == [];
    }
  }

  /** The dates a selected item's date pickers exclude. */
  function BlockedDates(bookings: seq<Booking>, itemId: ItemId): seq<Day> {
    Expansion(ActiveBookings(bookings, itemId))
  }

  /** A day is blocked for an item exactly when a confirmed or pending
      booking of that item covers it. */
  lemma BlockedDatesMembership(bookings: seq<Booking>, itemId: ItemId, d: Day)
    ensures d in BlockedDates(bookings, itemId) <==>
            exists b :: b in bookings && b.itemId == itemId && IsActive(b.status) && Covers(b, d)
  {
    ExpansionMembership(ActiveBookings(bookings, itemId), d);
  }

  /** Two active requests for the same item that share a day both block
      it: the day is listed twice. */
  lemma SharedDayBlockedTwice(b1: Booking, b2: Booking, itemId: ItemId, d: Day)
    requires b1.itemId == itemId && IsActive(b1.status) && Covers(b1, d)
    requires b2.itemId == itemId && IsActive(b2.status) && Covers(b2, d)
    ensures multiset(BlockedDates([b1, b2], itemId))[d] == 2
  {
    FilterKeepsAll([b1, b2], ActiveFor(itemId));
    FilterKeepsAll([b1, b2], CoversDay(d));
    ExpansionCount([b1, b2], d);
  }

  /** A cancelled booking, or one of another item, blocks nothing. */
  lemma InactiveBlocksNothing(bookings: seq<Booking>, itemId: ItemId, b: Booking)
    requires b.itemId != itemId || !IsActive(b.status)
    ensures BlockedDates(bookings + [b], itemId) == BlockedDates(bookings, itemId)
  {
    FilterAppend(bookings, [b], ActiveFor(itemId));
    assert Filter([b][1..], ActiveFor(itemId)) == [];
    assert Filter(bookings, ActiveFor(itemId)) + [] == Filter(bookings, ActiveFor(itemId));
  }

  /** An active booking appends its own days, in order, after the rest. */
  lemma ActiveBlocksItsDays(bookings: seq<Booking>, itemId: ItemId, b: Booking)
    requires b.itemId == itemId && IsActive(b.status)
    ensures BlockedDates(bookings + [b], itemId) == BlockedDates(bookings, itemId) + Days(b.startDay, b.endDay)
  {
    FilterAppend(bookings, [b], ActiveFor(itemId));
    assert Filter([b][1..], ActiveFor(itemId)) == [];
    ExpansionAppend(ActiveBookings(bookings, itemId), [b]);
    assert [b][..0] == [];
  }

  /** The `forEach`/`while` expansion: one pass over the bookings, each
      walked day by day from its start to its end. */
  method ExpandBookings(rows: seq<Booking>) returns (dates: seq<Day>)
    ensures dates == Expansion(rows)
  {
    dates := [];
    for i := 0 to |rows|
      invariant dates == Expansion(rows[..i])
    {
      var current := rows[i].startDay;
      var last := rows[i].endDay;
      while current <= last
        invariant rows[i].startDay <= current
        invariant current <= last + 1 || current == rows[i].startDay
        invariant dates == Expansion(rows[..i]) + Days(rows[i].startDay, current - 1)
        decreases last - current
      {
        dates := dates + [current];
        current := current + 1;
      }
      assert rows[..i + 1][..i] == rows[..i];
    }
    assert rows[..|rows|] == rows;
  }

  // -------------------------------------------------------------------- quote

  /** `calculateTotal`: zero without both dates, otherwise the number of days
      from one date to the other, both counted, times the daily price. */
  function Quote(start: Option<Day>, end: Option<Day>, pricePerDay: int): (total: int)
    ensures start.None? || end.None? ==> total == 0
    ensures start.Some? && end.Some? && start.value <= end.value ==>
              total == |Days(start.value, end.value)| * pricePerDay
    ensures start.Some? && end.Some? && end.value <= start.value ==>
              total == |Days(end.value, start.value)| * pricePerDay
  {
    if start.None? || end.None? then 0
    else
      var gap := end.value - start.value;
      ((if gap < 0 then -gap else gap) + 1) * pricePerDay
  }

  /** Swapping the dates does not change the quote. */
  lemma QuoteSymmetric(start: Option<Day>, end: Option<Day>, pricePerDay: int)
    ensures Quote(start, end, pricePerDay) == Quote(end, start, pricePerDay)
  {
  }

  /** A one-day rental costs one day's price. */
  lemma QuoteSameDay(d: Day, pricePerDay: int)
    ensures Quote(Some(d), Some(d), pricePerDay) == pricePerDay
  {
  }

  /** A booking from the 1st to the 3rd at 100 per day comes to 300. */
  lemma QuoteThreeDays(first: Day)
    ensures Quote(Some(first), Some(first + 2), 100) == 300
  {
  }

  /** The quote for a booking is its price times the days it blocks. */
  lemma QuoteMatchesBlockedDays(b: Booking, pricePerDay: int)
    requires b.startDay <= b.endDay
    ensures Quote(Some(b.startDay), Some(b.endDay), pricePerDay) == |Expansion([b])| * pricePerDay
  {
    assert [b][..0] == [];
  }

  // ------------------------------------------------------------------- guards

  /** `handleAddItem` proceeds only with a chosen spot and a title that is
      not blank. */
  function CanPublish(coords: Option<Coords>, title: string): (ok: bool)
    ensures ok <==> coords.Some? && exists i :: 0 <= i < |title| && !IsWhitespace(title[i])
  {
    coords.Some? && Trim(title) != []
  }

  /** `handleBooking` proceeds only when both dates are picked. */
  predicate CanRequestBooking(start: Option<Day>, end: Option<Day>) {
    start.Some? && end.Some?
  }

  /** What an item's popup offers under its price. */
  datatype PopupFooter = BookingControls | OwnListingNotice

  /** Date pickers and the booking button for someone else's item, a notice
      on one's own. */
  function Footer(ownerId: UserId, viewer: UserId): (f: PopupFooter)
    ensures f == BookingControls <==> ownerId != viewer
    ensures f == OwnListingNotice <==> ownerId == viewer
  {
    if ownerId != viewer then BookingControls else OwnListingNotice
  }

  // ------------------------------------------------------------ the component

  /** The component's state; `userId` is its prop. */
  class MapView {
    const userId: UserId
    var items: seq<MapItem>
    var isAddingMode: bool
    var newItemCoords: Option<Coords>
    var bookedDates: seq<Day>
    var title: string
    var price: int
    var startDate: Option<Day>
    var endDate: Option<Day>

    /** Initial state; `today` is the day `new Date()` falls on. */
    constructor (userId: UserId, today: Day)
      ensures this.userId == userId && items == [] && !isAddingMode && newItemCoords == None
      ensures bookedDates == [] && title == "" && price == 500
      ensures startDate == Some(today) && endDate == None
    {
      this.userId := userId;
      items, isAddingMode, newItemCoords, bookedDates := [], false, None, [];
      title, price, startDate, endDate := "", 500, Some(today), None;
    }

    /** `fetchItems`: on success the markers become the returned rows (none
        for a null list); on error they stay. */
    method FetchItems(response: Response<seq<MapItem>>)
      modifies this`items
      ensures items == if response.failed then old(items) else response.data.GetOr([])
    {
      if !response.failed {
        items := response.data.GetOr([]);
      }
    }

    /** The add/cancel button: flips adding mode and forgets the chosen spot. */
    method ToggleAddingMode()
      modifies this`isAddingMode, this`newItemCoords
      ensures isAddingMode == !old(isAddingMode) && newItemCoords == None
    {
      isAddingMode := !isAddingMode;
      newItemCoords := None;
    }

    /** A click on the map picks the spot, in adding mode only. */
    method ClickMap(at: Coords)
      modifies this`newItemCoords
      ensures newItemCoords == if isAddingMode then Some(at) else old(newItemCoords)
    {
      if isAddingMode {
        newItemCoords := Some(at);
      }
    }

    method EditTitle(text: string)
      modifies this`title
      ensures title == text
    {
      title := text;
    }

    method EditPrice(amount: int)
      modifies this`price
      ensures price == amount
    {
      price := amount;
    }

    method PickStart(d: Option<Day>)
      modifies this`startDate
      ensures startDate == d
    {
      startDate := d;
    }

    method PickEnd(d: Option<Day>)
      modifies this`endDate
      ensures endDate == d
    {
      endDate := d;
    }

    /** A marker click: the item's confirmed and pending bookings, expanded
        day by day (none when the query fails). */
    method SelectMarker(db: Db, itemId: ItemId, ok: bool)
      modifies this`bookedDates
      ensures bookedDates == if ok then BlockedDates(db.bookings, itemId) else []
    {
      bookedDates := [];
      var rows := if ok then ActiveBookings(db.bookings, itemId) else [];
      var dates := ExpandBookings(rows);
      bookedDates := dates;
    }

    /** `handleAddItem`. Nothing happens unless a spot is chosen and the
        title is not blank; then the item is inserted with the trimmed title
        and the caller as owner. Only if the insert succeeds is the form
        reset and the marker list fetched again. */
    method HandleAddItem(db: Db, newId: ItemId, inserted: bool, refetch: Response<seq<MapItem>>)
      modifies db, this`newItemCoords, this`isAddingMode, this`title, this`items
      ensures !CanPublish(old(newItemCoords), old(title)) || !inserted ==>
                unchanged(db) && unchanged(this)
      ensures CanPublish(old(newItemCoords), old(title)) && inserted ==>
                && db.items == old(db.items) + [Item(newId, userId, Trim(old(title)), old(newItemCoords).value, price)]
                && newItemCoords == None && !isAddingMode && title == ""
                && items == (if refetch.failed then old(items) else refetch.data.GetOr([]))
      ensures db.profiles == old(db.profiles) && db.socialGraph == old(db.socialGraph)
      ensures db.bookings == old(db.bookings)
    {
      if newItemCoords.None? || Trim(title) == [] {
        return;
      }
      if inserted {
        db.InsertItem(Item(newId, userId, Trim(title), newItemCoords.value, price));
        newItemCoords := None;
        isAddingMode := false;
        title := "";
        FetchItems(refetch);
      }
    }

    /** `handleBooking`. Nothing happens unless both dates are picked; then a
        `pending` booking by the caller is inserted for the item as picked,
        with no check of the order of the dates, of overlap with other
        bookings or of who owns the item. On success the end date is cleared
        and the markers are fetched again. */
    method HandleBooking(db: Db, itemId: ItemId, newId: BookingId, inserted: bool, refetch: Response<seq<MapItem>>)
      modifies db, this`endDate, this`items
      ensures !CanRequestBooking(old(startDate), old(endDate)) || !inserted ==>
                unchanged(db) && unchanged(this)
      ensures CanRequestBooking(old(startDate), old(endDate)) && inserted ==>
                && db.bookings == old(db.bookings) +
                     [Booking(newId, itemId, userId, old(startDate).value, old(endDate).value, Pending)]
                && endDate == None
                && items == (if refetch.failed then old(items) else refetch.data.GetOr([]))
      ensures db.profiles == old(db.profiles) && db.socialGraph == old(db.socialGraph)
      ensures db.items == old(db.items)
    {
      if startDate.None? || endDate.None? {
        return;
      }
      if inserted {
        db.InsertBooking(Booking(newId, itemId, userId, startDate.value, endDate.value, Pending));
        endDate := None;
        FetchItems(refetch);
      }
    }

    /** `calculateTotal` over the picked dates. */
    function CalculateTotal(pricePerDay: int): (total: int)
      reads this
      ensures startDate.None? || endDate.None? ==> total == 0
      ensures startDate.Some? && endDate.Some? && startDate.value <= endDate.value ==>
                total == (endDate.value - startDate.value + 1) * pricePerDay
      ensures startDate.Some? && endDate.Some? && endDate.value <= startDate.value ==>
                total == (startDate.value - endDate.value + 1) * pricePerDay
    {
      Quote(startDate, endDate, pricePerDay)
    }
  }
}
