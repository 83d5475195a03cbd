/** The user directory: every other user's profile ordered by display name, a capped
    case-insensitive name search, and live patches of profiles pushed by the store. */
module Users {
  import opened Wrappers
  import opened Seqs
  import opened Sorting
  import opened Text
  import opened ChatTypes
  import opened RemoteStore

  /** The most results a search returns (`limit(10)`). */
  const SearchLimit: nat := 10

  function NotUser(uid: Id): Profile -> bool
  {
    (p: Profile) => p.userId != uid
  }

  /** `order('display_name', ascending)`, by code point. */
  function NameBefore(a: Profile, b: Profile): bool
  {
    LexLess(a.displayName, b.displayName)
  }

  lemma NameBeforeOrder()
    ensures StrictWeakOrder(NameBefore)
  {
    forall a: Profile, b: Profile | NameBefore(a, b) ensures !NameBefore(b, a) {
      LexLessAsymmetric(a.displayName, b.displayName);
    }
    forall a: Profile, b: Profile, c: Profile | NameBefore(a, c) ensures NameBefore(a, b) || NameBefore(b, c) {
      LexLessTotal(a.displayName, b.displayName);
      LexLessTotal(b.displayName, c.displayName);
      if NameBefore(b, a) {
        LexLessTransitive(b.displayName, a.displayName, c.displayName);
      }
      if LexLess(c.displayName, b.displayName) {
        LexLessTransitive(a.displayName, c.displayName, b.displayName);
      }
    }
  }

  /** The directory query: every profile but the user's own, by display name. */
  function Directory(db: Db, uid: Id): seq<Profile>
  {
    SortBy(Filter(db.profiles, NotUser(uid)), NameBefore)
  }

  /** The directory holds every other user's profile once per row, never the user's own, ordered by
      display name. */
  lemma {:induction false} DirectoryIsOthersByName(db: Db, uid: Id)
    ensures var d := Directory(db, uid);
      && multiset(d) == multiset(Filter(db.profiles, NotUser(uid)))
      && (forall p :: p in d <==> p in db.profiles && p.userId != uid)
      && (forall i, j :: 0 <= i < j < |d| ==> !LexLess(d[j].displayName, d[i].displayName))
  {
    var f := Filter(db.profiles, NotUser(uid));
    NameBeforeOrder();
    SortByPermutation(f, NameBefore);
    SortBySorted(f, NameBefore);
    forall p ensures p in Directory(db, uid) <==> p in db.profiles && p.userId != uid {
      FilterIn(db.profiles, NotUser(uid), p);
      assert p in Directory(db, uid) <==> p in multiset(f);
    }
  }

  /** A profile a search matches: another user's whose name contains the query, ignoring case. */
  function Matches(uid: Id, query: string): Profile -> bool
  {
    (p: Profile) => p.userId != uid && ContainsIgnoringCase(p.displayName, query)
  }

  /** `searchUsers(query)`: nothing for no user or a blank query; otherwise the first matching
      profiles, up to the limit; a failed query gives nothing. */
  function SearchUsers(user: Option<Id>, db: Db, query: string, failing: set<Call>): seq<Profile>
  {
    if user.None? || IsBlank(query) then []
    else if SearchProfiles in failing then []
    else Take(Filter(db.profiles, Matches(user.value, query)), SearchLimit)
  }

  /** Search results are other users' matching profiles, the first of them in table order, at most
      ten, and all matches when there are no more than ten. */
  lemma {:induction false} SearchUsersSpec(user: Option<Id>, db: Db, query: string, failing: set<Call>)
    ensures var r := SearchUsers(user, db, query, failing);
      && |r| <= SearchLimit
      && (user.None? || IsBlank(query) || SearchProfiles in failing ==> r == [])
      && (forall k :: 0 <= k < |r| ==> r[k] in db.profiles && r[k].userId != user.value && ContainsIgnoringCase(r[k].displayName, query))
      && (user.Some? ==> r == Filter(db.profiles, Matches(user.value, query))[..|r|])
      && (user.Some? && !IsBlank(query) && SearchProfiles !in failing ==>
            |r| == if |Filter(db.profiles, Matches(user.value, query))| <= SearchLimit then |Filter(db.profiles, Matches(user.value, query))| else SearchLimit)
      && (user.Some? && !IsBlank(query) && SearchProfiles !in failing && |Filter(db.profiles, Matches(user.value, query))| <= SearchLimit ==>
            forall p :: p in db.profiles && Matches(user.value, query)(p) ==> p in r)
  {
    var r := SearchUsers(user, db, query, failing);
    if user.Some? && !IsBlank(query) && SearchProfiles !in failing {
      var all := Filter(db.profiles, Matches(user.value, query));
      forall k | 0 <= k < |r| ensures r[k] in db.profiles && Matches(user.value, query)(r[k]) {
        assert r[k] == all[k];
        FilterIn(db.profiles, Matches(user.value, query), all[k]);
      }
      forall p | p in db.profiles && Matches(user.value, query)(p) && |all| <= SearchLimit ensures p in r {
        FilterIn(db.profiles, Matches(user.value, query), p);
      }
    }
  }

  /** `prev.map(p => p.user_id === updated.user_id ? updated : p)`. */
  function PatchProfile(users: seq<Profile>, updated: Profile): seq<Profile>
  {
    seq(|users|, k requires 0 <= k < |users| => if users[k].userId == updated.userId then updated else users[k])
  }

  /** A patch keeps length and order, replaces exactly the entries of that user, leaves the list as it
      was when the user is not in it, and applying it twice is applying it once. */
  lemma PatchProfileSpec(users: seq<Profile>, updated: Profile)
    ensures var r := PatchProfile(users, updated);
      && |r| == |users|
      && (forall k :: 0 <= k < |users| && users[k].userId != updated.userId ==> r[k] == users[k])
      && (forall k :: 0 <= k < |users| && users[k].userId == updated.userId ==> r[k] == updated)
      && ((forall k :: 0 <= k < |users| ==> users[k].userId != updated.userId) ==> r == users)
      && PatchProfile(r, updated) == r
  {
  }

  /** The hook's observable state. */
  datatype DirectoryState = DirectoryState(users: seq<Profile>, loading: bool, error: Option<Call>)

  /** The state after a fetch by a signed-in user: a success replaces the list (keeping any previous
      error), a failure keeps it and records the error; loading ends. */
  function AfterFetch(s: DirectoryState, db: Db, uid: Id, failing: set<Call>): (r: DirectoryState)
    ensures !r.loading
    ensures SelectUsers in failing ==> r.users == s.users && r.error == Some(SelectUsers)
    ensures SelectUsers !in failing ==> r.error == s.error && forall k :: 0 <= k < |r.users| ==> r.users[k].userId != uid
    ensures SelectUsers !in failing ==> r.users == Directory(db, uid)
  {
    if SelectUsers in failing then s.(loading := false, error := Some(SelectUsers))
    else
      var d := Directory(db, uid);
      forall k | 0 <= k < |d| ensures d[k].userId != uid {
        DirectoryIsOthersByName(db, uid);
        assert d[k] in d;
      }
      s.(users := d, loading := false)
  }

  class UsersHook {
    const user: Option<Id>
    var users: seq<Profile>
    var loading: bool
    var error: Option<Call>

    function State(): DirectoryState
      reads this
    {
      DirectoryState(users, loading, error)
    }

    constructor (user: Option<Id>)
      ensures this.user == user && State() == DirectoryState([], true, None)
    {
      this.user := user;
      users := [];
      loading := true;
      error := None;
    }

    /** `fetchUsers`. */
    method FetchUsers(db: Db, failing: set<Call>)
      modifies this
      ensures user.None? ==> State() == old(State())
      ensures user.Some? ==> State() == AfterFetch(old(State()), db, user.value, failing)
    {
      if user.None? {
        return;
      }
      loading := true;
      if SelectUsers in failing {
        error := Some(SelectUsers);
      } else {
        users := Directory(db, user.value);
      }
      loading := false;
    }

    /** `searchUsers(query)` of the signed-in user. */
    method Search(db: Db, query: string, failing: set<Call>) returns (r: seq<Profile>)
      ensures |r| <= SearchLimit
      ensures user.None? || IsBlank(query) || SearchProfiles in failing ==> r == []
      ensures forall k :: 0 <= k < |r| ==> r[k] in db.profiles && r[k].userId != user.value && ContainsIgnoringCase(r[k].displayName, query)
      ensures r == SearchUsers(user, db, query, failing)
    {
      SearchUsersSpec(user, db, query, failing);
      r := SearchUsers(user, db, query, failing);
    }

    /** A profile update pushed by the store; only a signed-in user subscribes, and then the entries of
        that user are replaced. */
    method OnProfileUpdated(updated: Profile)
      modifies this`users
      ensures user.None? ==> users == old(users)
      ensures user.Some? ==> users == PatchProfile(old(users), updated)
    {
      if user.Some? {
        users := PatchProfile(users, updated);
      }
    }
  }
}
