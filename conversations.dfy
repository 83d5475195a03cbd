/** The conversation list hook: fetching the signed-in user's conversations with their members,
    newest message and unread count, sorted by recency; creating private and group conversations;
    re-fetching on pushed inserts. */
module Conversations {
  import opened Wrappers
  import opened Seqs
  import opened Sorting
  import opened ChatTypes
  import opened RemoteStore

  // ---------------------------------------------------------------------------------------------
  // Building the list

  /** A membership row joined to the first fetched profile of its user. */
  function WithProfile(m: ConversationMember, profiles: seq<Profile>): MemberWithProfile
  {
    MemberWithProfile(m, ProfileOf(profiles, m.userId))
  }

  /** The fetched membership rows of conversation `cid`, each joined to its profile. */
  function MembersOf(cid: Id, allMembers: seq<ConversationMember>, profiles: seq<Profile>): seq<MemberWithProfile>
  {
    var rows := Filter(allMembers, InConversation(cid));
    seq(|rows|, k requires 0 <= k < |rows| => WithProfile(rows[k], profiles))
  }

  /** The first message of `cid` in the newest-first list, joined to its sender's fetched profile. */
  function LastMessageOf(cid: Id, msgsDesc: seq<Message>, profiles: seq<Profile>): Option<MessageWithSender>
  {
    match Find(msgsDesc, MessageOf(cid))
    case None => None
    case Some(m) => Some(MessageWithSender(m, ProfileOf(profiles, m.senderId)))
  }

  /** One entry of the list; the unread count is always zero. */
  function Details(conv: Conversation, allMembers: seq<ConversationMember>, profiles: seq<Profile>, msgsDesc: seq<Message>)
    : ConversationWithDetails
  {
    ConversationWithDetails(conv, MembersOf(conv.id, allMembers, profiles), LastMessageOf(conv.id, msgsDesc, profiles), Some(0))
  }

  /** The user ids of membership rows, in row order. */
  function MemberUserIds(rows: seq<ConversationMember>): seq<Id>
  {
    seq(|rows|, k requires 0 <= k < |rows| => rows[k].userId)
  }

  /** The four queries on the conversation ids and the join of their results, in table order. */
  function BuildDetails(db: Db, ids: seq<Id>): seq<ConversationWithDetails>
  {
    var convs := Filter(db.conversations, ConversationIn(ids));
    var allMembers := Filter(db.members, MemberIn(ids));
    var profiles := ProfilesIn(db, MemberUserIds(allMembers));
    var msgsDesc := SortBy(Filter(db.messages, MessageIn(ids)), NewerMessage);
    seq(|convs|, k requires 0 <= k < |convs| => Details(convs[k], allMembers, profiles, msgsDesc))
  }

  /** The time an entry is sorted by: its newest message's, or the conversation's creation time. */
  function RecencyKey(c: ConversationWithDetails): Millis
  {
    if c.lastMessage.Some? then c.lastMessage.value.message.createdAt else c.conversation.createdAt
  }

  /** The comparator of the list's sort: the more recent entry comes first. */
  function NewerConversation(a: ConversationWithDetails, b: ConversationWithDetails): bool
  {
    RecencyKey(a) > RecencyKey(b)
  }

  lemma NewerConversationOrder()
    ensures StrictWeakOrder(NewerConversation)
  {
  }

  /** The built list sorted with the list's comparator. */
  function FetchedList(db: Db, ids: seq<Id>): seq<ConversationWithDetails>
  {
    SortBy(BuildDetails(db, ids), NewerConversation)
  }

  /** What a fetch yields: the sorted list, or the first remote call that failed. A user with no
      memberships gets the empty list without the other queries being issued. */
  function FetchResult(db: Db, uid: Id, failing: set<Call>): (r: Result<seq<ConversationWithDetails>, Call>)
    ensures r.Err? ==> r.error in failing
    ensures failing == {} ==> r.Ok?
  {
    if SelectMemberships in failing then Err(SelectMemberships)
    else
      var ids := ConversationIdsOf(db, uid);
      if |ids| == 0 then Ok([])
      else if SelectConversations in failing then Err(SelectConversations)
      else if SelectConversationMembers in failing then Err(SelectConversationMembers)
      else if SelectMemberProfiles in failing then Err(SelectMemberProfiles)
      else if SelectConversationMessages in failing then Err(SelectConversationMessages)
      else Ok(FetchedList(db, ids))
  }

  /** The queries a fetch issues once the user has memberships, in order. */
  const DetailQueries: seq<Call> := [SelectConversations, SelectConversationMembers, SelectMemberProfiles, SelectConversationMessages]

  /** A failed membership query is reported; a user without memberships gets the empty list whatever
      else fails; otherwise the fetch fails exactly when a later query fails, reports the first that
      does, and else yields the sorted list. */
  lemma FetchResultSpec(db: Db, uid: Id, failing: set<Call>)
    ensures var r := FetchResult(db, uid, failing); var ids := ConversationIdsOf(db, uid);
      && (SelectMemberships in failing ==> r == Err(SelectMemberships))
      && (SelectMemberships !in failing && |ids| == 0 ==> r == Ok([]))
      && (SelectMemberships !in failing && |ids| > 0 ==>
            && (r.Ok? <==> forall j :: 0 <= j < |DetailQueries| ==> DetailQueries[j] !in failing)
            && (r.Err? ==> FirstFailure(DetailQueries, failing, r.error))
            && (r.Ok? ==> r == Ok(FetchedList(db, ids))))
  {
    DetailFailureOrder(failing);
  }

  /** The detail queries in issue order: the first failing one, and none failing. */
  lemma DetailFailureOrder(failing: set<Call>)
    ensures SelectConversations in failing ==> FirstFailure(DetailQueries, failing, SelectConversations)
    ensures SelectConversations !in failing && SelectConversationMembers in failing ==>
      FirstFailure(DetailQueries, failing, SelectConversationMembers)
    ensures SelectConversations !in failing && SelectConversationMembers !in failing && SelectMemberProfiles in failing ==>
      FirstFailure(DetailQueries, failing, SelectMemberProfiles)
    ensures (SelectConversations !in failing && SelectConversationMembers !in failing && SelectMemberProfiles !in failing &&
             SelectConversationMessages in failing) ==> FirstFailure(DetailQueries, failing, SelectConversationMessages)
    ensures (forall j :: 0 <= j < |DetailQueries| ==> DetailQueries[j] !in failing) <==>
      (SelectConversations !in failing && SelectConversationMembers !in failing &&
       SelectMemberProfiles !in failing && SelectConversationMessages !in failing)
  {
    var q := DetailQueries;
    if SelectConversations in failing {
      assert q[0] == SelectConversations;
    } else if SelectConversationMembers in failing {
      assert q[1] == SelectConversationMembers;
    } else if SelectMemberProfiles in failing {
      assert q[2] == SelectMemberProfiles;
    } else if SelectConversationMessages in failing {
      assert q[3] == SelectConversationMessages;
    }
  }

  /** The hook's observable state. */
  datatype HookState = HookState(conversations: seq<ConversationWithDetails>, loading: bool, error: Option<Call>)

  /** The state after a fetch by a signed-in user: a success replaces the list and keeps the previous
      error; a failure keeps the list and records the error; loading ends either way. */
  function AfterFetch(s: HookState, db: Db, uid: Id, failing: set<Call>): (r: HookState)
    ensures !r.loading
    ensures r.error == s.error || (r.error.Some? && r.error.value in failing)
    ensures FetchResult(db, uid, failing).Ok? ==>
      r.conversations == FetchResult(db, uid, failing).value && r.error == s.error
    ensures FetchResult(db, uid, failing).Err? ==>
      r.conversations == s.conversations && r.error == Some(FetchResult(db, uid, failing).error)
  {
    match FetchResult(db, uid, failing)
    case Ok(list) => HookState(list, false, s.error)
    case Err(c) => HookState(s.conversations, false, Some(c))
  }

  /** Fetching twice against the same store leaves what fetching once leaves. */
  lemma AfterFetchIdempotent(s: HookState, db: Db, uid: Id, failing: set<Call>)
    ensures AfterFetch(AfterFetch(s, db, uid, failing), db, uid, failing) == AfterFetch(s, db, uid, failing)
  {
  }

  /** A previous error survives any later fetch: nothing clears it. */
  lemma ErrorIsNeverCleared(s: HookState, db: Db, uid: Id, failing: set<Call>)
    requires s.error.Some?
    ensures AfterFetch(s, db, uid, failing).error.Some?
  {
  }

  // ---------------------------------------------------------------------------------------------
  // What a successful fetch contains

  /** The list is ordered newest first. */
  lemma FetchNewestFirst(db: Db, uid: Id, failing: set<Call>)
    requires FetchResult(db, uid, failing).Ok?
    ensures var list := FetchResult(db, uid, failing).value;
      forall i, j :: 0 <= i < j < |list| ==> RecencyKey(list[i]) >= RecencyKey(list[j])
  {
    var ids := ConversationIdsOf(db, uid);
    SuccessfulFetch(db, uid, failing);
    if |ids| > 0 {
      assert FetchedList(db, ids) == SortBy(BuildDetails(db, ids), NewerConversation);
      SortedNewestFirst(BuildDetails(db, ids));
    }
  }

  /** Sorting with the list's comparator orders entries by non-increasing recency. */
  lemma SortedNewestFirst(s: seq<ConversationWithDetails>)
    ensures var list := SortBy(s, NewerConversation);
      forall i, j :: 0 <= i < j < |list| ==> RecencyKey(list[i]) >= RecencyKey(list[j])
  {
    NewerConversationOrder();
    SortBySorted(s, NewerConversation);
  }

  /** The built list has one entry for each conversation row whose id was asked for. */
  lemma FetchedListConversations(db: Db, ids: seq<Id>)
    ensures var list := FetchedList(db, ids);
      && (forall i :: 0 <= i < |list| ==> list[i].conversation in db.conversations && list[i].conversation.id in ids)
      && (forall k :: 0 <= k < |db.conversations| && db.conversations[k].id in ids ==>
            exists i :: 0 <= i < |list| && list[i].conversation == db.conversations[k])
  {
    ListedAreAsked(db, ids);
    AskedAreListed(db, ids);
  }

  lemma ListedAreAsked(db: Db, ids: seq<Id>)
    ensures var list := FetchedList(db, ids);
      forall i :: 0 <= i < |list| ==> list[i].conversation in db.conversations && list[i].conversation.id in ids
  {
    var built := BuildDetails(db, ids);
    var list := FetchedList(db, ids);
    var convs := Filter(db.conversations, ConversationIn(ids));
    SortByPermutation(built, NewerConversation);
    forall i | 0 <= i < |list|
      ensures list[i].conversation in db.conversations && list[i].conversation.id in ids
    {
      assert list[i] in multiset(built);
      var k :| 0 <= k < |built| && built[k] == list[i];
      FilterIn(db.conversations, ConversationIn(ids), convs[k]);
    }
  }

  lemma AskedAreListed(db: Db, ids: seq<Id>)
    ensures var list := FetchedList(db, ids);
      forall k :: 0 <= k < |db.conversations| && db.conversations[k].id in ids ==>
        exists i :: 0 <= i < |list| && list[i].conversation == db.conversations[k]
  {
    var built := BuildDetails(db, ids);
    var list := FetchedList(db, ids);
    var convs := Filter(db.conversations, ConversationIn(ids));
    SortByPermutation(built, NewerConversation);
    forall k | 0 <= k < |db.conversations| && db.conversations[k].id in ids
      ensures exists i :: 0 <= i < |list| && list[i].conversation == db.conversations[k]
    {
      var c := db.conversations[k];
      FilterIn(db.conversations, ConversationIn(ids), c);
      var j :| 0 <= j < |convs| && convs[j] == c;
      assert built[j] in multiset(list);
      var i :| 0 <= i < |list| && list[i] == built[j];
    }
  }

  /** Every entry of `list` is a conversation of the store the user is a member of, and every such
      conversation has an entry. */
  predicate ListsMembershipsOf(db: Db, uid: Id, list: seq<ConversationWithDetails>)
  {
    && (forall i :: 0 <= i < |list| ==> list[i].conversation in db.conversations && IsMemberOf(db, uid, list[i].conversation.id))
    && (forall k :: 0 <= k < |db.conversations| && IsMemberOf(db, uid, db.conversations[k].id) ==>
          exists i :: 0 <= i < |list| && list[i].conversation == db.conversations[k])
  }

  /** The list holds the user's conversations: every entry is a conversation of the store the user is
      a member of, and every such conversation has an entry. */
  lemma FetchListsMemberships(db: Db, uid: Id, failing: set<Call>)
    requires FetchResult(db, uid, failing).Ok?
    ensures ListsMembershipsOf(db, uid, FetchResult(db, uid, failing).value)
  {
    var ids := ConversationIdsOf(db, uid);
    SuccessfulFetch(db, uid, failing);
    if |ids| == 0 {
      NoIdsNoMemberships(db, uid);
    } else {
      ListedMemberships(db, uid, ids);
    }
  }

  lemma SuccessfulFetch(db: Db, uid: Id, failing: set<Call>)
    requires FetchResult(db, uid, failing).Ok?
    ensures |ConversationIdsOf(db, uid)| == 0 ==> FetchResult(db, uid, failing) == Ok([])
    ensures |ConversationIdsOf(db, uid)| > 0 ==> FetchResult(db, uid, failing) == Ok(FetchedList(db, ConversationIdsOf(db, uid)))
  {
  }

  lemma NoIdsNoMemberships(db: Db, uid: Id)
    requires |ConversationIdsOf(db, uid)| == 0
    ensures ListsMembershipsOf(db, uid, [])
  {
    forall k | 0 <= k < |db.conversations|
      ensures !IsMemberOf(db, uid, db.conversations[k].id)
    {
      ConversationIdsOfIff(db, uid, db.conversations[k].id);
    }
  }

  lemma ListedMemberships(db: Db, uid: Id, ids: seq<Id>)
    requires ids == ConversationIdsOf(db, uid)
    ensures ListsMembershipsOf(db, uid, FetchedList(db, ids))
  {
    var list := FetchedList(db, ids);
    FetchedListConversations(db, ids);
    forall i | 0 <= i < |list|
      ensures IsMemberOf(db, uid, list[i].conversation.id)
    {
      ConversationIdsOfIff(db, uid, list[i].conversation.id);
    }
    forall k | 0 <= k < |db.conversations| && IsMemberOf(db, uid, db.conversations[k].id)
      ensures db.conversations[k].id in ids
    {
      ConversationIdsOfIff(db, uid, db.conversations[k].id);
    }
  }

  /** The membership rows of joined members, without their profiles. */
  function RowsOf(members: seq<MemberWithProfile>): seq<ConversationMember>
  {
    seq(|members|, k requires 0 <= k < |members| => members[k].member)
  }

  /** Members of conversation `cid` as the store has them: its membership rows in table order, each
      with its user's profile. */
  predicate MembersFit(db: Db, cid: Id, members: seq<MemberWithProfile>)
  {
    && RowsOf(members) == Filter(db.members, InConversation(cid))
    && forall k :: 0 <= k < |members| ==> members[k].profile == ProfileOf(db.profiles, members[k].member.userId)
  }

  /** The newest message of `cid` as the store has it: absent exactly when the conversation has no
      message; otherwise one of its messages that no other is newer than. */
  predicate NewestFit(db: Db, cid: Id, last: Option<Message>)
  {
    && (last.None? <==> forall k :: 0 <= k < |db.messages| ==> db.messages[k].conversationId != cid)
    && (last.Some? ==>
          && last.value in db.messages && last.value.conversationId == cid
          && forall k :: 0 <= k < |db.messages| && db.messages[k].conversationId == cid ==>
               db.messages[k].createdAt <= last.value.createdAt)
  }

  /** The sender joined to the newest message: a profile of the sender when present, and the sender's
      profile whenever the sender is a member of the conversation. */
  predicate SenderFits(db: Db, cid: Id, m: MessageWithSender)
  {
    && (m.sender.Some? ==> m.sender.value in db.profiles && m.sender.value.userId == m.message.senderId)
    && (IsMemberOf(db, m.message.senderId, cid) ==> m.sender == ProfileOf(db.profiles, m.message.senderId))
  }

  function MessageOfLast(last: Option<MessageWithSender>): Option<Message>
  {
    if last.Some? then Some(last.value.message) else None
  }

  /** What one entry says about its conversation, stated against the store. */
  predicate EntryAgrees(db: Db, e: ConversationWithDetails)
  {
    && MembersFit(db, e.conversation.id, e.members)
    && NewestFit(db, e.conversation.id, MessageOfLast(e.lastMessage))
    && (e.lastMessage.Some? ==> SenderFits(db, e.conversation.id, e.lastMessage.value))
    && e.unreadCount == Some(0)
  }

  lemma UserIdOfFetchedRow(rows: seq<ConversationMember>, m: ConversationMember)
    requires m in rows
    ensures m.userId in MemberUserIds(rows)
  {
    var j :| 0 <= j < |rows| && rows[j] == m;
    assert MemberUserIds(rows)[j] == m.userId;
  }

  /** A member of a fetched conversation has their profile among the fetched ones. */
  lemma FetchedProfileOfMember(db: Db, ids: seq<Id>, uid: Id, cid: Id)
    requires cid in ids && IsMemberOf(db, uid, cid)
    ensures ProfileOf(ProfilesIn(db, MemberUserIds(Filter(db.members, MemberIn(ids)))), uid) == ProfileOf(db.profiles, uid)
  {
    var allMembers := Filter(db.members, MemberIn(ids));
    var k :| 0 <= k < |db.members| && db.members[k].userId == uid && db.members[k].conversationId == cid;
    FilterIn(db.members, MemberIn(ids), db.members[k]);
    UserIdOfFetchedRow(allMembers, db.members[k]);
    ProfileOfFetched(db, MemberUserIds(allMembers), uid);
  }

  lemma {:induction false} MembersAgree(db: Db, ids: seq<Id>, cid: Id, allMembers: seq<ConversationMember>, profiles: seq<Profile>)
    requires cid in ids
    requires allMembers == Filter(db.members, MemberIn(ids))
    requires profiles == ProfilesIn(db, MemberUserIds(allMembers))
    ensures MembersFit(db, cid, MembersOf(cid, allMembers, profiles))
  {
    var rows := Filter(allMembers, InConversation(cid));
    FilterFilter(db.members, MemberIn(ids), InConversation(cid));
    var e := MembersOf(cid, allMembers, profiles);
    assert RowsOf(e) == rows;
    forall k | 0 <= k < |e|
      ensures e[k].profile == ProfileOf(db.profiles, e[k].member.userId)
    {
      var m := rows[k];
      FilterIn(rows, InConversation(cid), m);
      FilterIn(db.members, InConversation(cid), m);
      var j :| 0 <= j < |db.members| && db.members[j] == m;
      assert IsMemberOf(db, m.userId, cid);
      FetchedProfileOfMember(db, ids, m.userId, cid);
    }
  }

  /** In messages sorted newest first, the first one of a conversation is its newest. */
  lemma {:induction false} FirstIsNewest(fetched: seq<Message>, cid: Id)
    ensures var found := Find(SortBy(fetched, NewerMessage), MessageOf(cid));
      && (found.None? <==> forall k :: 0 <= k < |fetched| ==> fetched[k].conversationId != cid)
      && (found.Some? ==>
            && found.value in fetched && found.value.conversationId == cid
            && forall k :: 0 <= k < |fetched| && fetched[k].conversationId == cid ==> fetched[k].createdAt <= found.value.createdAt)
  {
    var desc := SortBy(fetched, NewerMessage);
    SortByPermutation(fetched, NewerMessage);
    if Find(desc, MessageOf(cid)).None? {
      NoneFoundNoMessage(fetched, desc, cid);
    } else {
      NewerMessageOrder();
      SortBySorted(fetched, NewerMessage);
      FoundIsNewest(fetched, desc, cid);
    }
  }

  lemma NoneFoundNoMessage(fetched: seq<Message>, desc: seq<Message>, cid: Id)
    requires multiset(desc) == multiset(fetched)
    requires Find(desc, MessageOf(cid)).None?
    ensures forall k :: 0 <= k < |fetched| ==> fetched[k].conversationId != cid
  {
    forall k | 0 <= k < |fetched| ensures fetched[k].conversationId != cid {
      assert fetched[k] in multiset(desc);
      var t :| 0 <= t < |desc| && desc[t] == fetched[k];
      assert !MessageOf(cid)(desc[t]);
    }
  }

  lemma FoundIsNewest(fetched: seq<Message>, desc: seq<Message>, cid: Id)
    requires multiset(desc) == multiset(fetched) && SortedBy(desc, NewerMessage)
    requires Find(desc, MessageOf(cid)).Some?
    ensures var m := Find(desc, MessageOf(cid)).value;
      && m in fetched && m.conversationId == cid
      && forall k :: 0 <= k < |fetched| && fetched[k].conversationId == cid ==> fetched[k].createdAt <= m.createdAt
  {
    var m := Find(desc, MessageOf(cid)).value;
    var i :| 0 <= i < |desc| && desc[i] == m && MessageOf(cid)(desc[i]) && forall j :: 0 <= j < i ==> !MessageOf(cid)(desc[j]);
    assert m in multiset(fetched);
    forall k | 0 <= k < |fetched| && fetched[k].conversationId == cid
      ensures fetched[k].createdAt <= m.createdAt
    {
      assert fetched[k] in multiset(desc);
      var t :| 0 <= t < |desc| && desc[t] == fetched[k];
      assert MessageOf(cid)(desc[t]);
      if t > i {
        assert !NewerMessage(desc[t], desc[i]);
      }
    }
  }

  /** The fetched messages of a fetched conversation are all its messages. */
  lemma {:induction false} NewestAgrees(db: Db, ids: seq<Id>, cid: Id)
    requires cid in ids
    ensures NewestFit(db, cid, Find(SortBy(Filter(db.messages, MessageIn(ids)), NewerMessage), MessageOf(cid)))
  {
    var fetched := Filter(db.messages, MessageIn(ids));
    FirstIsNewest(fetched, cid);
    var found := Find(SortBy(fetched, NewerMessage), MessageOf(cid));
    forall k | 0 <= k < |db.messages| && db.messages[k].conversationId == cid
      ensures exists t :: 0 <= t < |fetched| && fetched[t] == db.messages[k]
    {
      FilterIn(db.messages, MessageIn(ids), db.messages[k]);
    }
    if found.Some? {
      FilterIn(db.messages, MessageIn(ids), found.value);
    } else {
      forall k | 0 <= k < |db.messages| ensures db.messages[k].conversationId != cid {
      }
    }
  }

  lemma LastMessageAgrees(db: Db, ids: seq<Id>, cid: Id, allMembers: seq<ConversationMember>, profiles: seq<Profile>, msgsDesc: seq<Message>)
    requires cid in ids
    requires allMembers == Filter(db.members, MemberIn(ids))
    requires profiles == ProfilesIn(db, MemberUserIds(allMembers))
    requires msgsDesc == SortBy(Filter(db.messages, MessageIn(ids)), NewerMessage)
    ensures var last := LastMessageOf(cid, msgsDesc, profiles);
      && NewestFit(db, cid, MessageOfLast(last))
      && (last.Some? ==> SenderFits(db, cid, last.value))
  {
    NewestAgrees(db, ids, cid);
    var found := Find(msgsDesc, MessageOf(cid));
    if found.Some? {
      var m := found.value;
      var sender := ProfileOf(profiles, m.senderId);
      if sender.Some? {
        FilterIn(db.profiles, UserIdIn(MemberUserIds(allMembers)), sender.value);
      }
      if IsMemberOf(db, m.senderId, cid) {
        FetchedProfileOfMember(db, ids, m.senderId, cid);
      }
    }
  }

  /** Every entry of the built list agrees with the store. */
  lemma BuildDetailsAgree(db: Db, ids: seq<Id>)
    ensures forall e :: e in BuildDetails(db, ids) ==> EntryAgrees(db, e)
  {
    var convs := Filter(db.conversations, ConversationIn(ids));
    var allMembers := Filter(db.members, MemberIn(ids));
    var profiles := ProfilesIn(db, MemberUserIds(allMembers));
    var msgsDesc := SortBy(Filter(db.messages, MessageIn(ids)), NewerMessage);
    var built := BuildDetails(db, ids);
    forall e | e in built ensures EntryAgrees(db, e) {
      var k :| 0 <= k < |built| && built[k] == e;
      var cid := convs[k].id;
      assert e == Details(convs[k], allMembers, profiles, msgsDesc);
      FilterIn(db.conversations, ConversationIn(ids), convs[k]);
      MembersAgree(db, ids, cid, allMembers, profiles);
      LastMessageAgrees(db, ids, cid, allMembers, profiles, msgsDesc);
    }
  }

  /** Every entry of the sorted list agrees with the store. */
  lemma FetchedListAgrees(db: Db, ids: seq<Id>)
    ensures var list := FetchedList(db, ids);
      forall i :: 0 <= i < |list| ==> EntryAgrees(db, list[i])
  {
    var built := BuildDetails(db, ids);
    var list := FetchedList(db, ids);
    BuildDetailsAgree(db, ids);
    SortByPermutation(built, NewerConversation);
    forall i | 0 <= i < |list| ensures EntryAgrees(db, list[i]) {
      assert list[i] in multiset(built);
    }
  }

  /** Every entry of a fetched list agrees with the store: its members, its newest message, and an
      unread count of zero. */
  lemma FetchEntriesAgree(db: Db, uid: Id, failing: set<Call>)
    requires FetchResult(db, uid, failing).Ok?
    ensures var list := FetchResult(db, uid, failing).value;
      forall i :: 0 <= i < |list| ==> EntryAgrees(db, list[i])
  {
    var ids := ConversationIdsOf(db, uid);
    if |ids| > 0 {
      FetchedListAgrees(db, ids);
    }
  }

  // ---------------------------------------------------------------------------------------------
  // Creating conversations

  /** What a create yields: the conversation returned (none for `null`), the store after its writes,
      and whether the list is re-fetched. */
  datatype CreateOutcome = CreateOutcome(conversation: Option<Conversation>, db: Db, refetch: bool)

  function IdIn(ids: seq<Id>): Id -> bool { (id: Id) => id in ids }
  function PrivateIn(ids: seq<Id>): Conversation -> bool { (c: Conversation) => c.id in ids && c.kind == Private }

  /** The ids of conversations both users are members of; a failed lookup counts as no rows. */
  function SharedConversationIds(db: Db, uid: Id, other: Id, failing: set<Call>): seq<Id>
  {
    var mine := if SelectOwnConversationIds in failing then [] else ConversationIdsOf(db, uid);
    var theirs := if SelectOtherConversationIds in failing then [] else ConversationIdsOf(db, other);
    Filter(mine, IdIn(theirs))
  }

  /** The private conversation the lookup finds: `.single()` yields it only when there is exactly one. */
  function ExistingPrivate(db: Db, uid: Id, other: Id, failing: set<Call>): Option<Conversation>
  {
    var common := SharedConversationIds(db, uid, other, failing);
    if |common| == 0 || SelectPrivateConversation in failing then None
    else Single(Filter(db.conversations, PrivateIn(common)))
  }

  /** A private conversation both users are members of. */
  predicate IsSharedPrivate(db: Db, uid: Id, other: Id, c: Conversation)
  {
    c.kind == Private && IsMemberOf(db, uid, c.id) && IsMemberOf(db, other, c.id)
  }

  function SharedPrivateWith(db: Db, uid: Id, other: Id): Conversation -> bool
  {
    (c: Conversation) => IsSharedPrivate(db, uid, other, c)
  }

  /** The private conversations the two users share, in table order. */
  function SharedPrivates(db: Db, uid: Id, other: Id): seq<Conversation>
  {
    Filter(db.conversations, SharedPrivateWith(db, uid, other))
  }

  const LookupCalls: set<Call> := {SelectOwnConversationIds, SelectOtherConversationIds, SelectPrivateConversation}

  /** When the lookups succeed, the lookup finds a conversation exactly when the two users share
      exactly one private conversation, and then finds that one. */
  lemma {:induction false} ExistingPrivateIsShared(db: Db, uid: Id, other: Id, failing: set<Call>)
    requires failing !! LookupCalls
    ensures ExistingPrivate(db, uid, other, failing) == Single(SharedPrivates(db, uid, other))
  {
    var common := SharedConversationIds(db, uid, other, failing);
    var mine, theirs := ConversationIdsOf(db, uid), ConversationIdsOf(db, other);
    forall cid ensures cid in common <==> IsMemberOf(db, uid, cid) && IsMemberOf(db, other, cid) {
      ConversationIdsOfIff(db, uid, cid);
      ConversationIdsOfIff(db, other, cid);
      FilterIn(mine, IdIn(theirs), cid);
    }
    FilterEquiv(db.conversations, PrivateIn(common), SharedPrivateWith(db, uid, other));
    if |common| == 0 {
      forall i | 0 <= i < |db.conversations| ensures !SharedPrivateWith(db, uid, other)(db.conversations[i]) {
        assert db.conversations[i].id !in common;
      }
      FilterNone(db.conversations, SharedPrivateWith(db, uid, other));
    }
  }

  /** The store's row for a new private conversation. */
  function NewPrivate(newId: Id, uid: Id, now: Millis): Conversation
  {
    Conversation(newId, Private, None, None, Some(uid), now, now)
  }

  /** `createPrivateConversation` for a signed-in user: reuse the shared private conversation when the
      lookup finds one; otherwise insert one, then both membership rows, then re-fetch. A failed insert
      returns nothing; a failed membership insert leaves the conversation row behind. */
  function CreatePrivateOutcome(db: Db, uid: Id, other: Id, failing: set<Call>, newId: Id, rowIds: (Id, Id), now: Millis)
    : (o: CreateOutcome)
    ensures o.refetch ==> o.conversation.Some?
  {
    match ExistingPrivate(db, uid, other, failing)
    case Some(c) => CreateOutcome(Some(c), db, false)
    case None =>
      if InsertConversation in failing then CreateOutcome(None, db, false)
      else
        var conv := NewPrivate(newId, uid, now);
        var db1 := db.(conversations := db.conversations + [conv]);
        if InsertMembers in failing then CreateOutcome(None, db1, false)
        else
          var rows := [ConversationMember(rowIds.0, newId, uid, Admin, now), ConversationMember(rowIds.1, newId, other, Member, now)];
          CreateOutcome(Some(conv), db1.(members := db1.members + rows), true)
  }

  /** The outcomes of a private create: a found conversation is returned with nothing written; a
      failed conversation insert returns nothing and writes nothing; a failed membership insert returns
      nothing and leaves the new conversation row behind; otherwise the user's row as admin and the
      other's as member are added and the list is re-fetched, which happens in no other case. */
  lemma CreatePrivateSpec(db: Db, uid: Id, other: Id, failing: set<Call>, newId: Id, rowIds: (Id, Id), now: Millis)
    ensures var o := CreatePrivateOutcome(db, uid, other, failing, newId, rowIds, now);
      var found := ExistingPrivate(db, uid, other, failing);
      var withConv := db.(conversations := db.conversations + [NewPrivate(newId, uid, now)]);
      && (o.refetch <==> found.None? && InsertConversation !in failing && InsertMembers !in failing)
      && (found.Some? ==> o == CreateOutcome(found, db, false))
      && (found.None? && InsertConversation in failing ==> o == CreateOutcome(None, db, false))
      && (found.None? && InsertConversation !in failing && InsertMembers in failing ==> o == CreateOutcome(None, withConv, false))
      && (o.refetch ==>
            && o.conversation == Some(NewPrivate(newId, uid, now))
            && o.db == withConv.(members := db.members + [ConversationMember(rowIds.0, newId, uid, Admin, now),
                                                          ConversationMember(rowIds.1, newId, other, Member, now)]))
  {
  }

  /** With working lookups, a single shared private conversation is returned and nothing is written. */
  lemma ReusesSharedPrivate(db: Db, uid: Id, other: Id, failing: set<Call>, newId: Id, rowIds: (Id, Id), now: Millis)
    requires failing !! LookupCalls
    requires |SharedPrivates(db, uid, other)| == 1
    ensures CreatePrivateOutcome(db, uid, other, failing, newId, rowIds, now)
         == CreateOutcome(Some(SharedPrivates(db, uid, other)[0]), db, false)
  {
    ExistingPrivateIsShared(db, uid, other, failing);
  }

  /** With two or more shared private conversations the lookup finds none, and another is inserted. */
  lemma DuplicatesCauseAnotherInsert(db: Db, uid: Id, other: Id, failing: set<Call>, newId: Id, rowIds: (Id, Id), now: Millis)
    requires failing !! LookupCalls && InsertConversation !in failing
    requires |SharedPrivates(db, uid, other)| >= 2
    ensures CreatePrivateOutcome(db, uid, other, failing, newId, rowIds, now).db.conversations
         == db.conversations + [NewPrivate(newId, uid, now)]
  {
    ExistingPrivateIsShared(db, uid, other, failing);
  }

  /** No conversation or membership row of the store uses `cid`. */
  predicate FreshConversationId(db: Db, cid: Id)
  {
    && (forall k :: 0 <= k < |db.conversations| ==> db.conversations[k].id != cid)
    && (forall k :: 0 <= k < |db.members| ==> db.members[k].conversationId != cid)
  }

  /** Membership rows added for `cid` leave the memberships of every other conversation as they were. */
  lemma AddedRowsKeepOtherMemberships(db: Db, db2: Db, cid: Id)
    requires |db.members| <= |db2.members| && db2.members[..|db.members|] == db.members
    requires forall k :: |db.members| <= k < |db2.members| ==> db2.members[k].conversationId == cid
    ensures forall u, c :: c != cid ==> (IsMemberOf(db2, u, c) <==> IsMemberOf(db, u, c))
  {
    forall u, c | c != cid ensures IsMemberOf(db2, u, c) <==> IsMemberOf(db, u, c) {
      if IsMemberOf(db2, u, c) {
        var k :| 0 <= k < |db2.members| && db2.members[k].userId == u && db2.members[k].conversationId == c;
        assert db2.members[k] == db2.members[..|db.members|][k];
      }
      if IsMemberOf(db, u, c) {
        var k :| 0 <= k < |db.members| && db.members[k].userId == u && db.members[k].conversationId == c;
        assert db2.members[k] == db2.members[..|db.members|][k];
      }
    }
  }

  /** Creating is idempotent: once a private conversation has been created with a fresh id, creating
      it again returns that conversation and writes nothing. */
  lemma {:induction false} CreatePrivateIdempotent(db: Db, uid: Id, other: Id, newId: Id, rowIds: (Id, Id), now: Millis,
                                                   newId2: Id, rowIds2: (Id, Id), now2: Millis)
    requires SharedPrivates(db, uid, other) == []
    requires FreshConversationId(db, newId)
    ensures var o := CreatePrivateOutcome(db, uid, other, {}, newId, rowIds, now);
      && o.conversation == Some(NewPrivate(newId, uid, now))
      && CreatePrivateOutcome(o.db, uid, other, {}, newId2, rowIds2, now2) == CreateOutcome(o.conversation, o.db, false)
      && CreatePrivateOutcome(o.db, other, uid, {}, newId2, rowIds2, now2) == CreateOutcome(o.conversation, o.db, false)
  {
    ExistingPrivateIsShared(db, uid, other, {});
    var o := CreatePrivateOutcome(db, uid, other, {}, newId, rowIds, now);
    CreatedPrivateShared(db, uid, other, newId, rowIds, now);
    ExistingPrivateIsShared(o.db, uid, other, {});
    ExistingPrivateIsShared(o.db, other, uid, {});
  }

  /** After a first create, the new conversation is the only private one the two users share, seen
      from either of them. */
  lemma CreatedPrivateShared(db: Db, uid: Id, other: Id, newId: Id, rowIds: (Id, Id), now: Millis)
    requires SharedPrivates(db, uid, other) == []
    requires FreshConversationId(db, newId)
    ensures var db2 := CreatePrivateOutcome(db, uid, other, {}, newId, rowIds, now).db;
      && SharedPrivates(db2, uid, other) == [NewPrivate(newId, uid, now)]
      && SharedPrivates(db2, other, uid) == [NewPrivate(newId, uid, now)]
  {
    var db2 := CreatePrivateOutcome(db, uid, other, {}, newId, rowIds, now).db;
    CreatedPrivateRows(db, uid, other, newId, rowIds, now);
    OnlyNewPrivateShared(db, db2, uid, other, NewPrivate(newId, uid, now));
    FilterEquiv(db2.conversations, SharedPrivateWith(db2, other, uid), SharedPrivateWith(db2, uid, other));
  }

  /** A first create adds the conversation row and membership rows of it alone, for both users. */
  lemma CreatedPrivateRows(db: Db, uid: Id, other: Id, newId: Id, rowIds: (Id, Id), now: Millis)
    requires SharedPrivates(db, uid, other) == []
    ensures var db2 := CreatePrivateOutcome(db, uid, other, {}, newId, rowIds, now).db;
      && db2.conversations == db.conversations + [NewPrivate(newId, uid, now)]
      && |db.members| <= |db2.members| && db2.members[..|db.members|] == db.members
      && (forall k :: |db.members| <= k < |db2.members| ==> db2.members[k].conversationId == newId)
      && IsMemberOf(db2, uid, newId) && IsMemberOf(db2, other, newId)
  {
    ExistingPrivateIsShared(db, uid, other, {});
    var db2 := CreatePrivateOutcome(db, uid, other, {}, newId, rowIds, now).db;
    var rows := [ConversationMember(rowIds.0, newId, uid, Admin, now), ConversationMember(rowIds.1, newId, other, Member, now)];
    assert db2 == db.(conversations := db.conversations + [NewPrivate(newId, uid, now)], members := db.members + rows);
    var n := |db.members|;
    assert db2.members[..n] == db.members;
    assert db2.members[n].userId == uid && db2.members[n].conversationId == newId;
    assert db2.members[n + 1].userId == other && db2.members[n + 1].conversationId == newId;
  }

  /** After adding a private conversation with a fresh id and its membership rows, it is the only
      private conversation two users share if they shared none before. */
  lemma OnlyNewPrivateShared(db: Db, db2: Db, uid: Id, other: Id, conv: Conversation)
    requires SharedPrivates(db, uid, other) == []
    requires FreshConversationId(db, conv.id) && conv.kind == Private
    requires db2.conversations == db.conversations + [conv]
    requires |db.members| <= |db2.members| && db2.members[..|db.members|] == db.members
    requires forall k :: |db.members| <= k < |db2.members| ==> db2.members[k].conversationId == conv.id
    requires IsMemberOf(db2, uid, conv.id) && IsMemberOf(db2, other, conv.id)
    ensures SharedPrivates(db2, uid, other) == [conv]
  {
    AddedRowsKeepOtherMemberships(db, db2, conv.id);
    var p1, p2 := SharedPrivateWith(db, uid, other), SharedPrivateWith(db2, uid, other);
    FilterEquiv(db.conversations, p2, p1);
    FilterAppend(db.conversations, [conv], p2);
    FilterSingleton(conv, p2);
    assert p2(conv);
  }

  /** The membership rows of a new group: the creator as admin, then each chosen member, in order. */
  function GroupMemberRows(cid: Id, uid: Id, memberIds: seq<Id>, rowIds: seq<Id>, now: Millis): (r: seq<ConversationMember>)
    requires |rowIds| == |memberIds| + 1
    ensures |r| == |memberIds| + 1
    ensures r[0] == ConversationMember(rowIds[0], cid, uid, Admin, now)
    ensures forall k :: 1 <= k < |r| ==> r[k] == ConversationMember(rowIds[k], cid, memberIds[k - 1], Member, now)
  {
    [ConversationMember(rowIds[0], cid, uid, Admin, now)]
      + seq(|memberIds|, k requires 0 <= k < |memberIds| => ConversationMember(rowIds[k + 1], cid, memberIds[k], Member, now))
  }

  /** The store's row for a new group. */
  function NewGroup(newId: Id, uid: Id, name: string, now: Millis): Conversation
  {
    Conversation(newId, Group, Some(name), None, Some(uid), now, now)
  }

  /** `createGroupConversation` for a signed-in user: insert the group, then all membership rows at
      once, then re-fetch. */
  function CreateGroupOutcome(db: Db, uid: Id, name: string, memberIds: seq<Id>, failing: set<Call>,
                              newId: Id, rowIds: seq<Id>, now: Millis): (o: CreateOutcome)
    requires |rowIds| == |memberIds| + 1
    ensures o.refetch <==> o.conversation.Some?
  {
    if InsertConversation in failing then CreateOutcome(None, db, false)
    else
      var conv := NewGroup(newId, uid, name, now);
      var db1 := db.(conversations := db.conversations + [conv]);
      if InsertMembers in failing then CreateOutcome(None, db1, false)
      else CreateOutcome(Some(conv), db1.(members := db1.members + GroupMemberRows(newId, uid, memberIds, rowIds, now)), true)
  }

  /** A created group's members are exactly its creator, who is its admin, and the chosen users. */
  lemma {:induction false} GroupMembersExactly(db: Db, uid: Id, name: string, memberIds: seq<Id>, failing: set<Call>,
                                               newId: Id, rowIds: seq<Id>, now: Millis)
    requires |rowIds| == |memberIds| + 1
    requires InsertConversation !in failing && InsertMembers !in failing
    requires FreshConversationId(db, newId)
    ensures var o := CreateGroupOutcome(db, uid, name, memberIds, failing, newId, rowIds, now);
      && o.conversation == Some(NewGroup(newId, uid, name, now))
      && o.db.conversations == db.conversations + [NewGroup(newId, uid, name, now)]
      && (forall u :: IsMemberOf(o.db, u, newId) <==> u == uid || u in memberIds)
      && (exists k :: 0 <= k < |o.db.members| && o.db.members[k] == ConversationMember(rowIds[0], newId, uid, Admin, now))
      && o.db.members == db.members + GroupMemberRows(newId, uid, memberIds, rowIds, now)
      && (forall k :: |db.members| <= k < |o.db.members| ==> (o.db.members[k].role == Admin <==> k == |db.members|))
  {
    var o := CreateGroupOutcome(db, uid, name, memberIds, failing, newId, rowIds, now);
    var rows := GroupMemberRows(newId, uid, memberIds, rowIds, now);
    var n := |db.members|;
    assert o.db.members == db.members + rows;
    assert o.db.members[n] == ConversationMember(rowIds[0], newId, uid, Admin, now);
    forall u ensures IsMemberOf(o.db, u, newId) <==> u == uid || u in memberIds {
      if IsMemberOf(o.db, u, newId) {
        var k :| 0 <= k < |o.db.members| && o.db.members[k].userId == u && o.db.members[k].conversationId == newId;
        assert k >= n;
        if k > n {
          assert u == memberIds[k - n - 1];
        }
      }
      if u in memberIds {
        var j :| 0 <= j < |memberIds| && memberIds[j] == u;
        assert o.db.members[n + 1 + j].userId == u;
      }
    }
  }

  // ---------------------------------------------------------------------------------------------
  // The hook

  /** Inserts pushed to the hook: any new message, and new membership rows of the signed-in user. */
  datatype PushEvent = MessageInserted(message: Message) | MemberInserted(member: ConversationMember)

  /** Pushed events that re-fetch the list: every message insert, and a membership insert for the user
      (the subscription's `user_id=eq.` filter drops the others). */
  predicate Refetches(ev: PushEvent, uid: Id)
  {
    ev.MessageInserted? || ev.member.userId == uid
  }

  class ConversationsHook {
    const user: Option<Id>
    var conversations: seq<ConversationWithDetails>
    var loading: bool
    var error: Option<Call>

    function State(): HookState
      reads this
    {
      HookState(conversations, loading, error)
    }

    /** The initial state: no conversations, loading, no error. Without a user it stays so. */
    constructor (user: Option<Id>)
      ensures this.user == user
      ensures State() == HookState([], true, None)
    {
      this.user := user;
      conversations := [];
      loading := true;
      error := None;
    }

    /** `fetchConversations`: the queries in order, stopping at the first failure; the built list is
        sorted in place, newest first. */
    method FetchConversations(db: Db, failing: set<Call>)
      modifies this
      ensures user.None? ==> State() == old(State())
      ensures user.Some? ==> State() == AfterFetch(old(State()), db, user.value, failing)
    {
      if user.None? {
        return;
      }
      var uid := user.value;
      loading := true;
      if SelectMemberships in failing {
        error := Some(SelectMemberships);
        loading := false;
        return;
      }
      var ids := ConversationIdsOf(db, uid);
      if |ids| == 0 {
        conversations := [];
        loading := false;
        return;
      }
      var failed: Option<Call> := None;
      if SelectConversations in failing {
        failed := Some(SelectConversations);
      } else if SelectConversationMembers in failing {
        failed := Some(SelectConversationMembers);
      } else if SelectMemberProfiles in failing {
        failed := Some(SelectMemberProfiles);
      } else if SelectConversationMessages in failing {
        failed := Some(SelectConversationMessages);
      }
      if failed.Some? {
        error := failed;
        loading := false;
        return;
      }
      var built := BuildDetails(db, ids);
      var a := new ConversationWithDetails[|built|](k requires 0 <= k < |built| => built[k]);
      assert a[..] == built;
      SortInPlace(a, NewerConversation);
      conversations := a[..];
      loading := false;
    }

    /** The realtime subscription: a delivered insert re-fetches the list. */
    method OnPushEvent(ev: PushEvent, db: Db, failing: set<Call>)
      modifies this
      ensures user.Some? && Refetches(ev, user.value) ==> State() == AfterFetch(old(State()), db, user.value, failing)
      ensures !(user.Some? && Refetches(ev, user.value)) ==> State() == old(State())
    {
      if user.Some? && Refetches(ev, user.value) {
        FetchConversations(db, failing);
      }
    }

    /** `createPrivateConversation(other)`: returns the conversation (none for `null`) and the store
        after the writes; a successful create re-fetches the list against the new store. */
    method CreatePrivateConversation(db: Db, other: Id, failing: set<Call>, newId: Id, rowIds: (Id, Id), now: Millis)
      returns (conv: Option<Conversation>, db': Db)
      modifies this
      ensures user.None? ==> conv.None? && db' == db && State() == old(State())
      ensures user.Some? ==>
        var o := CreatePrivateOutcome(db, user.value, other, failing, newId, rowIds, now);
        && conv == o.conversation && db' == o.db
        && State() == if o.refetch then AfterFetch(old(State()), db', user.value, failing) else old(State())
    {
      if user.None? {
        return None, db;
      }
      var uid := user.value;
      var existing := ExistingPrivate(db, uid, other, failing);
      if existing.Some? {
        return existing, db;
      }
      if InsertConversation in failing {
        return None, db;
      }
      var c := NewPrivate(newId, uid, now);
      db' := db.(conversations := db.conversations + [c]);
      if InsertMembers in failing {
        return None, db';
      }
      db' := db'.(members := db'.members + [ConversationMember(rowIds.0, newId, uid, Admin, now),
                                            ConversationMember(rowIds.1, newId, other, Member, now)]);
      FetchConversations(db', failing);
      conv := Some(c);
    }

    /** `createGroupConversation(name, memberIds)`, with one server-assigned id per membership row. */
    method CreateGroupConversation(db: Db, name: string, memberIds: seq<Id>, failing: set<Call>, newId: Id, rowIds: seq<Id>, now: Millis)
      returns (conv: Option<Conversation>, db': Db)
      requires |rowIds| == |memberIds| + 1
      modifies this
      ensures user.None? ==> conv.None? && db' == db && State() == old(State())
      ensures user.Some? ==>
        var o := CreateGroupOutcome(db, user.value, name, memberIds, failing, newId, rowIds, now);
        && conv == o.conversation && db' == o.db
        && State() == if o.refetch then AfterFetch(old(State()), db', user.value, failing) else old(State())
    {
      if user.None? {
        return None, db;
      }
      var uid := user.value;
      if InsertConversation in failing {
        return None, db;
      }
      var c := NewGroup(newId, uid, name, now);
      db' := db.(conversations := db.conversations + [c]);
      if InsertMembers in failing {
        return None, db';
      }
      db' := db'.(members := db'.members + GroupMemberRows(newId, uid, memberIds, rowIds, now));
      FetchConversations(db', failing);
      conv := Some(c);
    }
  }
}
