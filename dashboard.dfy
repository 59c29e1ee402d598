/** The older, unrouted dashboard: the same trust-circle panel as the
    routed page, except that its search guard counts the query untrimmed and
    leaves the previous results alone, plus the user's own listings and
    bookings. */
module Dashboard {
  import opened Common
  import opened Text
  import opened Store
  import opened Queries
  import DashboardPage


  /** Queries shorter than this are not sent. */
  const MinQueryLength: nat := 3

  /** This component measures the query as typed, whitespace included, in
      UTF-16 code units. */
  predicate SearchAllowed(query: string) {
    Utf16Length(query) >= MinQueryLength
  }

  /** Every query the routed page sends, this one sends too. */
  lemma TrimmedGuardIsStricter(query: string)
    ensures DashboardPage.SearchAllowed(query) ==> SearchAllowed(query)
  {
    TrimShortens(query);
  }

  /** Two letters after two spaces: sent here, refused by the routed page. */
  lemma GuardsDifferOnPadding()
    ensures SearchAllowed("  ab") && !DashboardPage.SearchAllowed("  ab")
  {
    var padded := "  ab";
    assert Lead(padded, 0) == 2 by {
      assert IsWhitespace(padded[0]) && IsWhitespace(padded[1]) && !IsWhitespace(padded[2]);
    }
    assert !IsWhitespace(padded[3]);
    assert Trim(padded) == padded[2..4];
  }

  /** One emoji and one letter are three code units: both components send
      this query. */
  lemma AstralQuerySentByBoth()
    ensures SearchAllowed("\U{1F600}a") && DashboardPage.SearchAllowed("\U{1F600}a")
  {
    DashboardPage.AstralCharacterCountsTwice();
  }

  /** The component's state; `userId` is the session's user. */
  class DashboardView {
    const userId: UserId
    var searchQuery: string
    var searchResults: seq<Profile>
    var friends: seq<Profile>
    var myItems: seq<Item>
    var myBookings: seq<MyBooking>
    var loading: bool

    constructor (userId: UserId)
      ensures this.userId == userId && searchQuery == "" && searchResults == [] && friends == []
      ensures myItems == [] && myBookings == [] && !loading
    {
      this.userId := userId;
      searchQuery, searchResults, friends := "", [], [];
      myItems, myBookings, loading := [], [], false;
    }

    method EditQuery(text: string)
      modifies this`searchQuery
      ensures searchQuery == text
    {
      searchQuery := text;
    }

    /** `fetchUserData`: the user's listings and the user's bookings with
        their items; a failed query gives an empty list. */
    method FetchUserData(db: Db, itemsOk: bool, bookingsOk: bool)
      modifies this`myItems, this`myBookings
      ensures myItems == if itemsOk then OwnedItems(db.items, userId) else []
      ensures myBookings == if bookingsOk then MyBookings(db.bookings, db.items, userId) else []
    {
      myItems := if itemsOk then OwnedItems(db.items, userId) else [];
      myBookings := if bookingsOk then MyBookings(db.bookings, db.items, userId) else [];
    }

    /** `fetchFriends`: the list is replaced only when data came back. */
    method FetchFriends(db: Db, ok: bool)
      modifies this`friends
      ensures friends == if ok then Friends(db.socialGraph, db.profiles, userId) else old(friends)
    {
      if ok {
        friends := Friends(db.socialGraph, db.profiles, userId);
      }
    }

    /** `handleSearch` up to the lookup. A query shorter than three
        code units as typed changes nothing at all; otherwise `loading` is
        set and the query is sent, excluding the user, limited to five. */
    method HandleSearch() returns (lookup: Option<ProfileSearch>)
      modifies this`loading
      ensures !SearchAllowed(searchQuery) ==> lookup == None && loading == old(loading)
      ensures SearchAllowed(searchQuery) ==>
                lookup == Some(ProfileSearch(searchQuery, userId, SearchLimit)) && loading
    {
      if Utf16Length(searchQuery) < MinQueryLength {
        return None;
      }
      loading := true;
      lookup := Some(ProfileSearch(searchQuery, userId, SearchLimit));
    }

    /** `handleSearch` after the lookup: its rows (none if it failed) become
        the results and `loading` is cleared. */
    method ReceiveSearch(db: Db, lookup: ProfileSearch, ok: bool)
      modifies this`searchResults, this`loading
      ensures searchResults == if ok then RunSearch(db.profiles, lookup) else []
      ensures !loading
    {
      searchResults := if ok then RunSearch(db.profiles, lookup) else [];
      loading := false;
    }

    /** `addFriend`: inserts the edge user -> `friendId` with strength 1;
        only when that succeeds are the friends fetched again and the search
        results and query cleared. */
    method AddFriend(db: Db, friendId: UserId, inserted: bool, refetched: bool)
      modifies db, this`friends, this`searchResults, this`searchQuery
      ensures !inserted ==> unchanged(db) && unchanged(this)
      ensures inserted ==>
                && db.socialGraph == old(db.socialGraph) + [Edge(userId, friendId, 1)]
                && searchResults == [] && searchQuery == ""
                && friends == (if refetched then Friends(db.socialGraph, db.profiles, userId) else old(friends))
      ensures db.profiles == old(db.profiles) && db.items == old(db.items) && db.bookings == old(db.bookings)
    {
      if inserted {
        db.InsertEdge(Edge(userId, friendId, 1));
        FetchFriends(db, refetched);
        searchResults := [];
        searchQuery := "";
      }
    }
  }
}
