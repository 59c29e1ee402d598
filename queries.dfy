/** Every Supabase `select` the core issues, each as the filter (and join)
    it expresses over the rows of the `Db` tables. The filter predicates are
    produced by named functions, so that two uses of the same query denote
    the same function value. */
module Queries {
  import opened Common
  import opened Text
  import opened Store

  // ---------------------------------------------------------------- lookups

  /** The row a foreign key points at: the first row with that id. */
  function ItemById(items: seq<Item>, id: ItemId): (r: Option<Item>)
    ensures r.Some? ==> r.value in items && r.value.id == id
    ensures r.None? <==> forall it :: it in items ==> it.id != id
  {
    if items == [] then None
    else if items[0].id == id then Some(items[0])
    else ItemById(items[1..], id)
  }

  function ProfileById(profiles: seq<Profile>, id: UserId): (r: Option<Profile>)
    ensures r.Some? ==> r.value in profiles && r.value.id == id
    ensures r.None? <==> forall p :: p in profiles ==> p.id != id
  {
    if profiles == [] then None
    else if profiles[0].id == id then Some(profiles[0])
    else ProfileById(profiles[1..], id)
  }

  // ------------------------------------------------- items.eq('owner_id', me)

  function OwnerIs(me: UserId): Item -> bool {
    (it: Item) => it.ownerId == me
  }

  /** The caller's own listings, in table order. */
  function OwnedItems(items: seq<Item>, me: UserId): (r: seq<Item>)
    ensures forall it :: it in r <==> it in items && it.ownerId == me
    ensures IsSubsequence(r, items)
  {
    FilterIsSubsequence(items, OwnerIs(me));
    Filter(items, OwnerIs(me))
  }

  // ---------------------------------------------- bookings.eq('borrower_id', me)

  /** A booking of the caller's, with the item it is for (a left join). */
  datatype MyBooking = MyBooking(booking: Booking, item: Option<Item>)

  function BorrowerIs(me: UserId): Booking -> bool {
    (b: Booking) => b.borrowerId == me
  }

  /** The caller's own booking rows, in table order. */
  function BorrowedRows(bookings: seq<Booking>, me: UserId): (r: seq<Booking>)
    ensures forall b :: b in r <==> b in bookings && b.borrowerId == me
    ensures IsSubsequence(r, bookings)
  {
    FilterIsSubsequence(bookings, BorrowerIs(me));
    Filter(bookings, BorrowerIs(me))
  }

  function JoinItem(items: seq<Item>): Booking -> MyBooking {
    (b: Booking) => MyBooking(b, ItemById(items, b.itemId))
  }

  /** `bookings.select('*, item:items(title, price_per_day)').eq('borrower_id', me)`. */
  function MyBookings(bookings: seq<Booking>, items: seq<Item>, me: UserId): (r: seq<MyBooking>)
    ensures |r| == |BorrowedRows(bookings, me)|
    ensures forall i :: 0 <= i < |r| ==> r[i].booking == BorrowedRows(bookings, me)[i]
    ensures forall m :: m in r ==>
              m.booking.borrowerId == me && m.booking in bookings && m.item == ItemById(items, m.booking.itemId)
  {
    var rows := BorrowedRows(bookings, me);
    var r := MapSeq(rows, JoinItem(items));
    assert forall m :: m in r ==> exists i :: 0 <= i < |r| && r[i] == m && rows[i] in rows;
    r
  }

  // ------------------------ bookings with item.owner_id = me, borrower_id <> me

  /** An incoming request: a booking on one of the caller's items, with that
      item (an inner join) and the borrower's profile. */
  datatype IncomingRequest = IncomingRequest(booking: Booking, item: Option<Item>, borrower: Option<Profile>)

  predicate IsIncoming(items: seq<Item>, me: UserId, b: Booking) {
    match ItemById(items, b.itemId)
    case Some(it) => it.ownerId == me && b.borrowerId != me
    case None => false
  }

  function IncomingTest(items: seq<Item>, me: UserId): Booking -> bool {
    (b: Booking) => IsIncoming(items, me, b)
  }

  /** The booking rows of incoming requests, in table order. */
  function IncomingRows(bookings: seq<Booking>, items: seq<Item>, me: UserId): (r: seq<Booking>)
    ensures forall b :: b in r <==>
              b in bookings && b.borrowerId != me
              && ItemById(items, b.itemId).Some? && ItemById(items, b.itemId).value.ownerId == me
    ensures IsSubsequence(r, bookings)
  {
    FilterIsSubsequence(bookings, IncomingTest(items, me));
    Filter(bookings, IncomingTest(items, me))
  }

  function JoinItemAndBorrower(items: seq<Item>, profiles: seq<Profile>): Booking -> IncomingRequest {
    (b: Booking) => IncomingRequest(b, ItemById(items, b.itemId), ProfileById(profiles, b.borrowerId))
  }

  /** The owner's inbox: `bookings.select('*, item:items!inner(title, owner_id),
      borrower:profiles(full_name, email)').eq('item.owner_id', me).neq('borrower_id', me)`. */
  function IncomingRequests(bookings: seq<Booking>, items: seq<Item>, profiles: seq<Profile>, me: UserId)
    : (r: seq<IncomingRequest>)
    ensures |r| == |IncomingRows(bookings, items, me)|
    ensures forall i :: 0 <= i < |r| ==> r[i].booking == IncomingRows(bookings, items, me)[i]
    ensures forall q :: q in r ==>
              q.booking in bookings && q.booking.borrowerId != me
              && q.item == ItemById(items, q.booking.itemId) && q.item.Some? && q.item.value.ownerId == me
              && q.borrower == ProfileById(profiles, q.booking.borrowerId)
  {
    var rows := IncomingRows(bookings, items, me);
    var r := MapSeq(rows, JoinItemAndBorrower(items, profiles));
    assert forall q :: q in r ==> exists i :: 0 <= i < |r| && r[i] == q && rows[i] in rows;
    r
  }

  // ------------------------------- bookings.eq('item_id', id).in('status', ...)

  /** The statuses that block dates: `confirmed` and `pending`. */
  predicate IsActive(status: string) {
    status == Confirmed || status == Pending
  }

  function ActiveFor(itemId: ItemId): Booking -> bool {
    (b: Booking) => b.itemId == itemId && IsActive(b.status)
  }

  /** The bookings of one item that are confirmed or pending, in table order. */
  function ActiveBookings(bookings: seq<Booking>, itemId: ItemId): (r: seq<Booking>)
    ensures forall b :: b in r <==> b in bookings && b.itemId == itemId && IsActive(b.status)
    ensures IsSubsequence(r, bookings)
  {
    FilterIsSubsequence(bookings, ActiveFor(itemId));
    Filter(bookings, ActiveFor(itemId))
  }

  // ------------------------------------------------------- profile search

  /** The number of profiles one search returns at most (`.limit(5)`). */
  const SearchLimit: nat := 5

  /** The parameters of `profiles.ilike('full_name', '%pattern%')
      .neq('id', excludeId).limit(limit)`. */
  datatype ProfileSearch = ProfileSearch(pattern: string, excludeId: UserId, limit: nat)

  /** A null `full_name` matches no pattern. */
  predicate MatchesSearch(q: ProfileSearch, p: Profile) {
    p.fullName.Some? && ILikeContains(p.fullName.value, q.pattern) && p.id != q.excludeId
  }

  function SearchTest(q: ProfileSearch): Profile -> bool {
    (p: Profile) => MatchesSearch(q, p)
  }

  /** The server's answer to a profile search: the first `limit` matching
      profiles in table order. */
  function RunSearch(profiles: seq<Profile>, q: ProfileSearch): (r: seq<Profile>)
    ensures |r| <= q.limit
    ensures forall p :: p in r ==> p in profiles && MatchesSearch(q, p)
    ensures forall p :: p in r ==> p.id != q.excludeId
    ensures |Filter(profiles, SearchTest(q))| <= q.limit ==>
              forall p :: p in profiles && MatchesSearch(q, p) ==> p in r
    ensures |r| == if |Filter(profiles, SearchTest(q))| <= q.limit
                   then |Filter(profiles, SearchTest(q))| else q.limit
  {
    var matching := Filter(profiles, SearchTest(q));
    var r := Take(matching, q.limit);
    assert forall p :: p in r ==> p in matching;
    r
  }

  // -------------------------- social_graph.select(profile).eq('follower_id', me)

  function FollowerIs(me: UserId): Edge -> bool {
    (e: Edge) => e.followerId == me
  }

  function FollowingProfile(profiles: seq<Profile>): Edge -> Option<Profile> {
    (e: Edge) => ProfileById(profiles, e.followingId)
  }

  /** The trust circle: the profile at the far end of each of the caller's
      outgoing edges, in edge order, absent profiles dropped. */
  function Friends(graph: seq<Edge>, profiles: seq<Profile>, me: UserId): (r: seq<Profile>)
    ensures |r| <= |Filter(graph, FollowerIs(me))| <= |graph|
    ensures forall p :: p in r <==>
              exists e :: e in graph && e.followerId == me && ProfileById(profiles, e.followingId) == Some(p)
  {
    var edges := Filter(graph, FollowerIs(me));
    var located := MapSeq(edges, FollowingProfile(profiles));
    MapSeqMembership(edges, FollowingProfile(profiles));
    DropNulls(located)
  }

  /** Friends of a longer edge list are the friends of its parts, in order. */
  lemma FriendsAppend(g1: seq<Edge>, g2: seq<Edge>, profiles: seq<Profile>, me: UserId)
    ensures Friends(g1 + g2, profiles, me) == Friends(g1, profiles, me) + Friends(g2, profiles, me)
  {
    FilterAppend(g1, g2, FollowerIs(me));
    MapSeqAppend(Filter(g1, FollowerIs(me)), Filter(g2, FollowerIs(me)), FollowingProfile(profiles));
    DropNullsAppend(MapSeq(Filter(g1, FollowerIs(me)), FollowingProfile(profiles)),
                    MapSeq(Filter(g2, FollowerIs(me)), FollowingProfile(profiles)));
  }

  /** A new outgoing edge adds its target's profile, if there is one, at the
      end of the circle; an edge from someone else adds nothing. */
  lemma FriendsAfterInsert(graph: seq<Edge>, profiles: seq<Profile>, me: UserId, e: Edge)
    ensures Friends(graph + [e], profiles, me) ==
            Friends(graph, profiles, me) +
            (if e.followerId == me && ProfileById(profiles, e.followingId).Some?
             then [ProfileById(profiles, e.followingId).value] else [])
  {
    FriendsAppend(graph, [e], profiles, me);
    assert Filter([e][1..], FollowerIs(me)) == [];
  }
}
