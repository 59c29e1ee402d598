/** The routed dashboard page's trust-circle panel: profile search with a
    trimmed length guard, the list of people the user trusts, and adding a
    trust edge from a search result. */
module DashboardPage {
  import opened Common
  import opened Text
  import opened Store
  import opened Queries

  /** Queries shorter than this are not sent. */
  const MinQueryLength: nat := 3

  /** This page measures the query after trimming it, in UTF-16 code
      units as JavaScript's `length` does. */
  predicate SearchAllowed(query: string) {
    Utf16Length(Trim(query)) >= MinQueryLength
  }

  /** Two letters padded with spaces are still too short here. */
  lemma PaddedShortQueryRefused()
    ensures !SearchAllowed("  ab  ")
    ensures !SearchAllowed("ab")
    ensures SearchAllowed("abc")
  {
    var padded := "  ab  ";
    assert Lead(padded, 0) == 2 by {
      assert IsWhitespace(padded[0]) && IsWhitespace(padded[1]) && !IsWhitespace(padded[2]);
    }
    assert Trail(padded, 6) == 4 by {
      assert IsWhitespace(padded[5]) && IsWhitespace(padded[4]) && !IsWhitespace(padded[3]);
    }
    assert Trim(padded) == padded[2..4];
    assert !IsWhitespace("ab"[0]);
    assert !IsWhitespace("abc"[0]);
  }

  /** A character outside the Basic Multilingual Plane counts twice: one
      emoji and one letter make a query of length three, which is sent. */
  lemma AstralCharacterCountsTwice()
    ensures Utf16Length("\U{1F600}a") == 3
    ensures SearchAllowed("\U{1F600}a")
  {
    var q := "\U{1F600}a";
    assert !IsWhitespace(q[0]) && !IsWhitespace(q[1]);
    assert Lead(q, 0) == 0 && Trail(q, 2) == 2;
    assert Trim(q) == q[0..2] == q;
  }

  /** The panel's state; `userId` is the session's user. */
  class TrustPanel {
    const userId: UserId
    var searchQuery: string
    var searchResults: seq<Profile>
    var friends: seq<Profile>
    var loading: bool

    constructor (userId: UserId)
      ensures this.userId == userId && searchQuery == "" && searchResults == [] && friends == [] && !loading
    {
      this.userId := userId;
      searchQuery, searchResults, friends, loading := "", [], [], false;
    }

    method EditQuery(text: string)
      modifies this`searchQuery
      ensures searchQuery == text
    {
      searchQuery := text;
    }

    /** `fetchFriends`: on success the list becomes the user's trust circle;
        when the query returns no data the old list stays. */
    method FetchFriends(db: Db, ok: bool)
      modifies this`friends
      ensures friends == if ok then Friends(db.socialGraph, db.profiles, userId) else old(friends)
    {
      if ok {
        friends := Friends(db.socialGraph, db.profiles, userId);
      }
    }

    /** `handleSearch` up to the lookup. A query that is too short once
        trimmed clears the results and sends nothing; otherwise `loading` is
        set and the untrimmed query is sent, excluding the user, limited to
        five. */
    method HandleSearch() returns (lookup: Option<ProfileSearch>)
      modifies this`searchResults, this`loading
      ensures !SearchAllowed(searchQuery) ==>
                lookup == None && searchResults == [] && loading == old(loading)
      ensures SearchAllowed(searchQuery) ==>
                && lookup == Some(ProfileSearch(searchQuery, userId, SearchLimit))
                && loading && searchResults == old(searchResults)
    {
      if Utf16Length(Trim(searchQuery)) < MinQueryLength {
        searchResults := [];
        return None;
      }
      loading := true;
      lookup := Some(ProfileSearch(searchQuery, userId, SearchLimit));
    }

    /** `handleSearch` after the lookup: its rows (none if it failed) become
        the results and `loading` is cleared. */
    method ReceiveSearch(db: Db, lookup: ProfileSearch, ok: bool)
      modifies this`searchResults, this`loading
      ensures searchResults == if ok then RunSearch(db.profiles, lookup) else []
      ensures !loading
    {
      searchResults := if ok then RunSearch(db.profiles, lookup) else [];
      loading := false;
    }

    /** `addFriend`: inserts the edge user -> `friendId` with strength 1 (no
        check for an existing edge or for `friendId` being the user). Only
        when the insert succeeds are the friends fetched again and the
        search results and query cleared. */
    method AddFriend(db: Db, friendId: UserId, inserted: bool, refetched: bool)
      modifies db, this`friends, this`searchResults, this`searchQuery
      ensures !inserted ==> unchanged(db) && unchanged(this)
      ensures inserted ==>
                && db.socialGraph == old(db.socialGraph) + [Edge(userId, friendId, 1)]
                && searchResults == [] && searchQuery == ""
                && friends == (if refetched then Friends(db.socialGraph, db.profiles, userId) else old(friends))
      ensures inserted && refetched ==>
                friends == Friends(old(db.socialGraph), db.profiles, userId) +
                           (if ProfileById(db.profiles, friendId).Some? then [ProfileById(db.profiles, friendId).value] else [])
      ensures db.profiles == old(db.profiles) && db.items == old(db.items) && db.bookings == old(db.bookings)
    {
      if inserted {
        FriendsAfterInsert(db.socialGraph, db.profiles, userId, Edge(userId, friendId, 1));
        db.InsertEdge(Edge(userId, friendId, 1));
        FetchFriends(db, refetched);
        searchResults := [];
        searchQuery := "";
      }
    }
  }
}
