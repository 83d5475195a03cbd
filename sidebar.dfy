/** The sidebar: the conversation list narrowed by a search box, the "new chat" dialog with its user
    search, and the "new group" dialog with its name and selection of users. */
module Sidebar {
  import opened Wrappers
  import opened Seqs
  import opened Text
  import opened ChatTypes
  import opened RemoteStore
  import Users
  import Conversations

  /** Some member's profile has a display name containing the query, ignoring case. */
  predicate MemberNameMatches(c: ConversationWithDetails, query: string)
  {
    exists k :: 0 <= k < |c.members| && c.members[k].profile.Some? && ContainsIgnoringCase(c.members[k].profile.value.displayName, query)
  }

  /** The conversation's name, or one of its members' names, contains the query, ignoring case. */
  predicate ConversationMatches(c: ConversationWithDetails, query: string)
  {
    || (c.conversation.name.Some? && ContainsIgnoringCase(c.conversation.name.value, query))
    || MemberNameMatches(c, query)
  }

  function MatchesQuery(query: string): ConversationWithDetails -> bool
  {
    (c: ConversationWithDetails) => ConversationMatches(c, query)
  }

  /** `filteredConversations`: everything for an empty query (a query of spaces is not empty), otherwise
      the matching conversations in list order. */
  function FilterConversations(conversations: seq<ConversationWithDetails>, query: string): seq<ConversationWithDetails>
  {
    if query == "" then conversations else Filter(conversations, MatchesQuery(query))
  }

  /** An empty query keeps the list; otherwise a conversation is kept exactly when it matches, and the
      result keeps the list's order. */
  lemma FilterConversationsSpec(conversations: seq<ConversationWithDetails>, query: string)
    ensures var r := FilterConversations(conversations, query);
      && (query == "" ==> r == conversations)
      && (query != "" ==> forall c :: c in r <==> c in conversations && ConversationMatches(c, query))
      && IsSubsequence(r, conversations)
  {
    var r := FilterConversations(conversations, query);
    if query == "" {
      IsSubsequenceRefl(conversations);
    } else {
      forall c ensures c in r <==> c in conversations && ConversationMatches(c, query) {
        FilterIn(conversations, MatchesQuery(query), c);
      }
    }
  }

  lemma {:induction false} IsSubsequenceRefl<T>(s: seq<T>)
    ensures IsSubsequence(s, s)
    decreases |s|
  {
    if |s| > 0 {
      IsSubsequenceRefl(s[1..]);
    }
  }

  predicate Selected(selection: seq<Profile>, uid: Id)
  {
    exists k :: 0 <= k < |selection| && selection[k].userId == uid
  }

  function WithoutUser(uid: Id): Profile -> bool
  {
    (u: Profile) => u.userId != uid
  }

  /** `toggleUserSelection`: a selected user's entries are all removed; an unselected user is added at the end. */
  function ToggleSelection(selection: seq<Profile>, user: Profile): seq<Profile>
  {
    if Selected(selection, user.userId) then Filter(selection, WithoutUser(user.userId))
    else selection + [user]
  }

  /** Toggling removes every entry of a selected user and keeps the others in order, or appends an
      unselected one; either way the user's selection flips. */
  lemma ToggleSelectionSpec(selection: seq<Profile>, user: Profile)
    ensures var r := ToggleSelection(selection, user);
      && (Selected(selection, user.userId) ==>
            && r == Filter(selection, WithoutUser(user.userId))
            && !Selected(r, user.userId)
            && forall u :: u in r <==> u in selection && u.userId != user.userId)
      && (!Selected(selection, user.userId) ==> r == selection + [user] && Selected(r, user.userId))
  {
    var r := ToggleSelection(selection, user);
    if Selected(selection, user.userId) {
      forall u ensures u in r <==> u in selection && u.userId != user.userId {
        FilterIn(selection, WithoutUser(user.userId), u);
      }
    } else {
      assert r[|selection|] == user;
    }
  }

  /** Toggling an unselected user twice gives the selection back. */
  lemma ToggleTwiceRestores(selection: seq<Profile>, user: Profile)
    requires !Selected(selection, user.userId)
    ensures ToggleSelection(ToggleSelection(selection, user), user) == selection
  {
    var once := selection + [user];
    assert once[|selection|] == user;
    FilterAppend(selection, [user], WithoutUser(user.userId));
    FilterAll(selection, WithoutUser(user.userId));
    assert Filter([user], WithoutUser(user.userId)) == [];
  }

  /** No two entries of the selection are the same user. */
  predicate DistinctUsers(selection: seq<Profile>)
  {
    forall i, j :: 0 <= i < j < |selection| ==> selection[i].userId != selection[j].userId
  }

  lemma {:induction false} FilterKeepsDistinct(s: seq<Profile>, p: Profile -> bool)
    requires DistinctUsers(s)
    ensures DistinctUsers(Filter(s, p))
    decreases |s|
  {
    if |s| > 0 {
      FilterKeepsDistinct(s[1..], p);
      var rest := Filter(s[1..], p);
      if p(s[0]) {
        var r := Filter(s, p);
        assert r == [s[0]] + rest;
        forall j | 1 <= j < |r| ensures s[0].userId != r[j].userId {
          assert r[j] == rest[j - 1];
          FilterIn(s[1..], p, rest[j - 1]);
        }
      }
    }
  }

  /** Toggling never makes two entries the same user. */
  lemma ToggleKeepsDistinct(selection: seq<Profile>, user: Profile)
    requires DistinctUsers(selection)
    ensures DistinctUsers(ToggleSelection(selection, user))
  {
    if Selected(selection, user.userId) {
      FilterKeepsDistinct(selection, WithoutUser(user.userId));
    } else {
      var r := selection + [user];
      assert r[|selection|] == user;
    }
  }

  /** The selection after toggling each of `users` in turn. */
  function ToggleAll(selection: seq<Profile>, users: seq<Profile>): seq<Profile>
    decreases |users|
  {
    if |users| == 0 then selection else ToggleAll(ToggleSelection(selection, users[0]), users[1..])
  }

  /** A selection built only by toggling, from an empty one, never holds the same user twice. */
  lemma {:induction false} ToggleAllDistinct(selection: seq<Profile>, users: seq<Profile>)
    requires DistinctUsers(selection)
    ensures DistinctUsers(ToggleAll(selection, users))
    decreases |users|
  {
    if |users| > 0 {
      ToggleKeepsDistinct(selection, users[0]);
      ToggleAllDistinct(ToggleSelection(selection, users[0]), users[1..]);
    }
  }

  /** The group may be created only with a name that is not blank and at least one selected user; the
      "Create Group" button is disabled exactly otherwise. */
  predicate CanCreateGroup(groupName: string, selection: seq<Profile>)
  {
    !IsBlank(groupName) && |selection| > 0
  }

  /** The selected users' ids, in selection order: one id per selected user, and no id twice when no
      user is selected twice. */
  function MemberIds(selection: seq<Profile>): (r: seq<Id>)
    ensures |r| == |selection|
    ensures forall k :: 0 <= k < |r| ==> r[k] == selection[k].userId
    ensures forall p :: p in selection ==> p.userId in r
    ensures forall u :: u in r ==> exists p :: p in selection && p.userId == u
    ensures DistinctUsers(selection) ==> forall i, j :: 0 <= i < j < |r| ==> r[i] != r[j]
  {
    var r := seq(|selection|, k requires 0 <= k < |selection| => selection[k].userId);
    assert forall p :: p in selection ==> p.userId in r by {
      forall p | p in selection ensures p.userId in r {
        var k :| 0 <= k < |selection| && selection[k] == p;
        assert r[k] == p.userId;
      }
    }
    r
  }

  /** The users listed in the "new chat" dialog: the search results while a query is typed, the
      directory otherwise. */
  function VisibleUsers(userSearchQuery: string, searchResults: seq<Profile>, users: seq<Profile>): seq<Profile>
  {
    if userSearchQuery != "" then searchResults else users
  }

  /** After a user search, the dialog lists the directory only for an empty box; a query of spaces
      lists nobody, and any other query lists the search's answer, at most ten users. */
  lemma VisibleAfterSearch(user: Option<Id>, db: Db, query: string, failing: set<Call>, users: seq<Profile>)
    ensures var shown := VisibleUsers(query, SearchOutcome(user, db, query, failing), users);
      && (query == "" ==> shown == users)
      && (query != "" && IsBlank(query) ==> shown == [])
      && (query != "" ==> shown == Users.SearchUsers(user, db, query, failing) && |shown| <= Users.SearchLimit)
  {
    SearchOutcomeIsSearch(user, db, query, failing);
  }

  /** The results a user search leaves: nothing for a blank query, without searching; the search's
      answer otherwise. */
  function SearchOutcome(user: Option<Id>, db: Db, query: string, failing: set<Call>): seq<Profile>
  {
    if IsBlank(query) then [] else Users.SearchUsers(user, db, query, failing)
  }

  /** The guard on a blank query repeats the search's own, so the outcome is the search's answer. */
  lemma SearchOutcomeIsSearch(user: Option<Id>, db: Db, query: string, failing: set<Call>)
    ensures SearchOutcome(user, db, query, failing) == Users.SearchUsers(user, db, query, failing)
    ensures |SearchOutcome(user, db, query, failing)| <= Users.SearchLimit
  {
    Users.SearchUsersSpec(user, db, query, failing);
  }

  class ChatSidebar {
    var searchQuery: string
    var isNewChatOpen: bool
    var isNewGroupOpen: bool
    var selectedUsers: seq<Profile>
    var groupName: string
    var userSearchQuery: string
    var searchResults: seq<Profile>

    /** A sidebar's selection never holds a user twice. */
    predicate Valid()
      reads this
    {
      DistinctUsers(selectedUsers)
    }

    constructor ()
      ensures Valid()
      ensures searchQuery == "" && !isNewChatOpen && !isNewGroupOpen && selectedUsers == []
      ensures groupName == "" && userSearchQuery == "" && searchResults == []
    {
      searchQuery := "";
      isNewChatOpen := false;
      isNewGroupOpen := false;
      selectedUsers := [];
      groupName := "";
      userSearchQuery := "";
      searchResults := [];
    }

    /** `handleUserSearch`: record the query, then show the search's results or nothing. */
    method HandleUserSearch(query: string, user: Option<Id>, db: Db, failing: set<Call>)
      modifies this`userSearchQuery, this`searchResults
      ensures userSearchQuery == query
      ensures searchResults == SearchOutcome(user, db, query, failing)
    {
      userSearchQuery := query;
      if !IsBlank(query) {
        searchResults := Users.SearchUsers(user, db, query, failing);
      } else {
        searchResults := [];
      }
    }

    method ToggleUserSelection(user: Profile)
      requires Valid()
      modifies this`selectedUsers
      ensures selectedUsers == ToggleSelection(old(selectedUsers), user)
      ensures Valid()
    {
      ToggleKeepsDistinct(selectedUsers, user);
      selectedUsers := ToggleSelection(selectedUsers, user);
    }

    /** `handleStartPrivateChat`: open (or find) the private conversation and close the dialog when
        there is one. */
    method HandleStartPrivateChat(hook: Conversations.ConversationsHook, db: Db, other: Profile, failing: set<Call>, newId: Id, rowIds: (Id, Id), now: Millis)
      returns (db': Db)
      modifies this`isNewChatOpen, hook
      ensures hook.user.None? ==> db' == db && isNewChatOpen == old(isNewChatOpen) && hook.State() == old(hook.State())
      ensures hook.user.Some? ==>
        var o := Conversations.CreatePrivateOutcome(db, hook.user.value, other.userId, failing, newId, rowIds, now);
        && db' == o.db
        && isNewChatOpen == (old(isNewChatOpen) && o.conversation.None?)
        && hook.State() == (if o.refetch then Conversations.AfterFetch(old(hook.State()), db', hook.user.value, failing) else old(hook.State()))
    {
      var conv;
      conv, db' := hook.CreatePrivateConversation(db, other.userId, failing, newId, rowIds, now);
      if conv.Some? {
        isNewChatOpen := false;
      }
    }

    /** `handleCreateGroup`: refused unless `CanCreateGroup`; otherwise the group is created with the
        selected users' ids and, when it is, the dialog closes and the name and selection are reset. */
    method HandleCreateGroup(hook: Conversations.ConversationsHook, db: Db, failing: set<Call>, newId: Id, rowIds: seq<Id>, now: Millis)
      returns (db': Db)
      requires Valid()
      requires |rowIds| == |selectedUsers| + 1
      modifies this`isNewGroupOpen, this`groupName, this`selectedUsers, hook
      ensures Valid()
      ensures !old(CanCreateGroup(groupName, selectedUsers)) || hook.user.None? ==>
        && db' == db && groupName == old(groupName) && selectedUsers == old(selectedUsers) && isNewGroupOpen == old(isNewGroupOpen)
        && hook.State() == old(hook.State())
      ensures old(CanCreateGroup(groupName, selectedUsers)) && hook.user.Some? ==>
        var o := Conversations.CreateGroupOutcome(db, hook.user.value, old(groupName), MemberIds(old(selectedUsers)), failing, newId, rowIds, now);
        && db' == o.db
        && hook.State() == (if o.refetch then Conversations.AfterFetch(old(hook.State()), db', hook.user.value, failing) else old(hook.State()))
        && (o.conversation.Some? ==> !isNewGroupOpen && groupName == "" && selectedUsers == [])
        && (o.conversation.None? ==> isNewGroupOpen == old(isNewGroupOpen) && groupName == old(groupName) && selectedUsers == old(selectedUsers))
    {
      if !CanCreateGroup(groupName, selectedUsers) {
        return db;
      }
      var memberIds := MemberIds(selectedUsers);
      var conv;
      conv, db' := hook.CreateGroupConversation(db, groupName, memberIds, failing, newId, rowIds, now);
      if conv.Some? {
        isNewGroupOpen := false;
        groupName := "";
        selectedUsers := [];
      }
    }
  }
}
