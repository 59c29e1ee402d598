/** Clients of the model walking through a booking: what callers can
    conclude from the handlers' contracts alone. */
module Scenarios {
  import opened Common
  import opened Store
  import MapSection
  import ProfilePage

  /** Two borrowers ask for overlapping days of one item: both requests are
      stored and the shared days are blocked twice. */
  method OverlappingRequests(owner: UserId, a: UserId, c: UserId, day: Day)
    requires owner != a && owner != c && a != c
  {
    var spot := Coords(50.45, 30.52);
    var db := new Db([], [], [Item("x", owner, "Drill", spot, 100)], []);
    var none := MapSection.Response(None, true);

    var viewA := new MapSection.MapView(a, day);
    viewA.PickEnd(Some(day + 2));
    viewA.HandleBooking(db, "x", "b1", true, none);
    assert db.bookings == [Booking("b1", "x", a, day, day + 2, Pending)];

    var viewC := new MapSection.MapView(c, day + 1);
    viewC.PickEnd(Some(day + 3));
    viewC.HandleBooking(db, "x", "b2", true, none);
    assert db.bookings == [Booking("b1", "x", a, day, day + 2, Pending),
                           Booking("b2", "x", c, day + 1, day + 3, Pending)];

    MapSection.SharedDayBlockedTwice(db.bookings[0], db.bookings[1], "x", day + 1);
    assert multiset(MapSection.BlockedDates(db.bookings, "x"))[day + 1] == 2;
  }

  /** The owner confirms a pending request, after which its card shows the
      confirmed badge and no buttons: that gate is the client's only guard.
      A second update of the same row, one that reaches
      `updateBookingStatus` before the refetch or from outside the inbox, is
      not refused and cancels it again. */
  method RepeatedDecision(owner: UserId, a: UserId, day: Day)
    requires owner != a
  {
    var pending := Booking("b1", "x", a, day, day + 2, Pending);
    var db := new Db([], [], [Item("x", owner, "Drill", Coords(50.45, 30.52), 100)], [pending]);
    assert ProfilePage.RequestFooterFor(db.bookings[0].status) == ProfilePage.DecisionButtons;

    var inbox := new ProfilePage.ProfileView(owner);
    inbox.UpdateBookingStatus(db, "b1", Confirm, true);
    assert db.bookings[0].status == Confirmed;
    assert ProfilePage.RequestFooterFor(db.bookings[0].status) == ProfilePage.Verdict(ProfilePage.ConfirmedBadge);

    inbox.UpdateBookingStatus(db, "b1", Cancel, true);
    assert db.bookings[0].status == Cancelled;
  }
}
