/** The profile page: the owner's inbox of incoming booking requests with
    confirm and cancel buttons, the user's own listings and bookings, and the
    status labels those lists show. */
module ProfilePage {
  import opened Store
  import opened Queries

  // ------------------------------------------------------- incoming requests

  const ConfirmedBadge: string := "Подтверждено"
  const RejectedBadge: string := "Отклонено"

  /** What a request card shows under its dates. */
  datatype RequestFooter = DecisionButtons | Verdict(badge: string)

  /** Buttons for a pending request; for any other status a badge that says
      confirmed for `confirmed` and rejected for everything else. */
  function RequestFooterFor(status: string): (f: RequestFooter)
    ensures f == DecisionButtons <==> status == Pending
    ensures f.Verdict? ==> (f.badge == ConfirmedBadge <==> status == Confirmed)
    ensures f.Verdict? ==> (f.badge == RejectedBadge <==> status != Confirmed)
  {
    if status == Pending then DecisionButtons
    else Verdict(if status == Confirmed then ConfirmedBadge else RejectedBadge)
  }

  // ------------------------------------------------------------- my bookings

  const ActiveBadge: string := "Активно"
  const WaitingBadge: string := "Ожидание"

  /** The badge on one of the user's own bookings. */
  function BookingBadge(status: string): (badge: string)
    ensures badge == ActiveBadge <==> status == Confirmed
    ensures badge == RejectedBadge <==> status == Cancelled
    ensures badge == WaitingBadge <==> status != Confirmed && status != Cancelled
  {
    if status == Confirmed then ActiveBadge
    else if status == Cancelled then RejectedBadge
    else WaitingBadge
  }

  /** The two mappings agree on a cancelled booking but part ways on a
      status outside the three known ones: the owner sees "rejected", the
      borrower "waiting". */
  lemma BadgesOnUnknownStatus(status: string)
    requires status != Pending && status != Confirmed && status != Cancelled
    ensures RequestFooterFor(status) == Verdict(RejectedBadge)
    ensures BookingBadge(status) == WaitingBadge
    ensures RequestFooterFor(Cancelled) == Verdict(BookingBadge(Cancelled))
  {
  }

  // ----------------------------------------------------------- the component

  /** The page's state; `userId` is the session's user. */
  class ProfileView {
    const userId: UserId
    var myItems: seq<Item>
    var myBookings: seq<MyBooking>
    var incomingRequests: seq<IncomingRequest>
    var loading: bool

    constructor (userId: UserId)
      ensures this.userId == userId && myItems == [] && myBookings == [] && incomingRequests == []
      ensures loading
    {
      this.userId := userId;
      myItems, myBookings, incomingRequests, loading := [], [], [], true;
    }

    /** `fetchUserData` up to its three queries: the page shows its spinner. */
    method BeginFetch()
      modifies this`loading
      ensures loading
    {
      loading := true;
    }

    /** `fetchUserData` after its three queries: each list becomes its
        query's rows (none if it failed), and only then is `loading` cleared. */
    method FinishFetch(db: Db, itemsOk: bool, bookingsOk: bool, requestsOk: bool)
      modifies this`myItems, this`myBookings, this`incomingRequests, this`loading
      ensures myItems == if itemsOk then OwnedItems(db.items, userId) else []
      ensures myBookings == if bookingsOk then MyBookings(db.bookings, db.items, userId) else []
      ensures incomingRequests ==
                if requestsOk then IncomingRequests(db.bookings, db.items, db.profiles, userId) else []
      ensures !loading
    {
      myItems := if itemsOk then OwnedItems(db.items, userId) else [];
      myBookings := if bookingsOk then MyBookings(db.bookings, db.items, userId) else [];
      incomingRequests :=
        if requestsOk then IncomingRequests(db.bookings, db.items, db.profiles, userId) else [];
      loading := false;
    }

    /** `updateBookingStatus`: sets the status of the rows with `bookingId`
        to the decision, whoever the caller is and whatever the status was;
        on success the page starts fetching again, on error nothing changes. */
    method UpdateBookingStatus(db: Db, bookingId: BookingId, decision: Decision, ok: bool)
      modifies db, this`loading
      ensures ok ==> db.bookings == WithStatus(old(db.bookings), bookingId, decision.Status()) && loading
      ensures !ok ==> unchanged(db) && loading == old(loading)
      ensures db.profiles == old(db.profiles) && db.socialGraph == old(db.socialGraph)
      ensures db.items == old(db.items)
    {
      if ok {
        db.UpdateStatus(bookingId, decision.Status());
        BeginFetch();
      }
    }
  }
}
