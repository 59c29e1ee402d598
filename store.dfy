/** The Supabase tables the client reads and writes, as sequences of rows
    held by one `Db` object. Day numbers stand for calendar dates and plain
    integers for prices. */
module Store {
  import opened Common

  type UserId = string
  type ItemId = string
  type BookingId = string

  /** A calendar date, counted in days. */
  type Day = int

  /** A row of `profiles`; `full_name` and `email` are nullable. */
  datatype Profile = Profile(id: UserId, fullName: Option<string>, email: Option<string>)

  /** A row of `social_graph`: `follower` trusts `following`. */
  datatype Edge = Edge(followerId: UserId, followingId: UserId, strength: int)

  datatype Coords = Coords(lat: real, lng: real)

  /** A row of `items`. */
  datatype Item = Item(id: ItemId, ownerId: UserId, title: string, location: Coords, pricePerDay: int)

  /** A row of `bookings`; both days are inclusive and `status` is free text
      in the table, written as one of the three constants below. */
  datatype Booking = Booking(id: BookingId, itemId: ItemId, borrowerId: UserId,
                             startDay: Day, endDay: Day, status: string)

  const Pending: string := "pending"
  const Confirmed: string := "confirmed"
  const Cancelled: string := "cancelled"

  /** The two values the owner's buttons write into `status`. */
  datatype Decision = Confirm | Cancel {
    function Status(): (s: string)
      ensures s == Confirmed <==> this == Confirm
      ensures s == Cancelled <==> this == Cancel
    {
      if Confirm? then Confirmed else Cancelled
    }
  }

  /** `bookings` after `update({ status }).eq('id', id)`: every row whose id
      is `id` gets the new status, every other row is kept as it was. */
  function WithStatus(bookings: seq<Booking>, id: BookingId, status: string): (r: seq<Booking>)
    ensures |r| == |bookings|
    ensures forall i :: 0 <= i < |r| ==>
              r[i] == if bookings[i].id == id then bookings[i].(status := status) else bookings[i]
  {
    if bookings == [] then []
    else
      var b := bookings[0];
      [if b.id == id then b.(status := status) else b] + WithStatus(bookings[1..], id, status)
  }

  /** The update touches no row with another id, and with no row of that id
      it changes nothing. */
  lemma WithStatusOnlyTarget(bookings: seq<Booking>, id: BookingId, status: string)
    ensures forall b :: b in bookings && b.id != id ==> b in WithStatus(bookings, id, status)
    ensures (forall b :: b in bookings ==> b.id != id) ==> WithStatus(bookings, id, status) == bookings
  {
    var r := WithStatus(bookings, id, status);
    forall b | b in bookings && b.id != id ensures b in r {
      var i :| 0 <= i < |bookings| && bookings[i] == b;
      assert r[i] == b;
    }
  }

  /** The updated rows carry the new status and nothing else of theirs
      changes; the status they had before plays no part. */
  lemma WithStatusSetsTarget(bookings: seq<Booking>, id: BookingId, status: string, i: nat)
    requires i < |bookings| && bookings[i].id == id
    ensures WithStatus(bookings, id, status)[i].status == status
    ensures WithStatus(bookings, id, status)[i].(status := bookings[i].status) == bookings[i]
  {
  }

  /** A second update of the same row overrides the first:
      `updateBookingStatus` itself makes no pending-only or single-decision
      check; the pending-only button gate is the client's only guard. */
  lemma {:induction false} WithStatusLastWins(bookings: seq<Booking>, id: BookingId, first: string, second: string)
    ensures WithStatus(WithStatus(bookings, id, first), id, second) == WithStatus(bookings, id, second)
  {
    var a := WithStatus(WithStatus(bookings, id, first), id, second);
    var b := WithStatus(bookings, id, second);
    assert |a| == |b|;
    forall i | 0 <= i < |a| ensures a[i] == b[i] {
    }
  }

  /** The backing store: four tables. Inserts append (the database's order
      of rows is the order a select returns them in). */
  class Db {
    var profiles: seq<Profile>
    var socialGraph: seq<Edge>
    var items: seq<Item>
    var bookings: seq<Booking>

    constructor (profiles: seq<Profile>, socialGraph: seq<Edge>, items: seq<Item>, bookings: seq<Booking>)
      ensures this.profiles == profiles && this.socialGraph == socialGraph
      ensures this.items == items && this.bookings == bookings
    {
      this.profiles, this.socialGraph, this.items, this.bookings := profiles, socialGraph, items, bookings;
    }

    /** `social_graph.insert(e)`; no uniqueness or self-edge check here. */
    method InsertEdge(e: Edge)
      modifies this
      ensures socialGraph == old(socialGraph) + [e]
      ensures profiles == old(profiles) && items == old(items) && bookings == old(bookings)
    {
      socialGraph := socialGraph + [e];
    }

    /** `items.insert(it)`. */
    method InsertItem(it: Item)
      modifies this
      ensures items == old(items) + [it]
      ensures profiles == old(profiles) && socialGraph == old(socialGraph) && bookings == old(bookings)
    {
      items := items + [it];
    }

    /** `bookings.insert(b)`; no range or overlap check here. */
    method InsertBooking(b: Booking)
      modifies this
      ensures bookings == old(bookings) + [b]
      ensures profiles == old(profiles) && socialGraph == old(socialGraph) && items == old(items)
    {
      bookings := bookings + [b];
    }

    /** `bookings.update({ status }).eq('id', id)`. */
    method UpdateStatus(id: BookingId, status: string)
      modifies this
      ensures bookings == WithStatus(old(bookings), id, status)
      ensures profiles == old(profiles) && socialGraph == old(socialGraph) && items == old(items)
    {
      bookings := WithStatus(bookings, id, status);
    }
  }
}
