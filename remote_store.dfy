/** The remote store as an in-memory value: its five tables as sequences of rows in
    insertion order, the queries the hooks issue against them, and the writes they make.
    A remote call can fail; every hook operation takes the set of calls that fail. */
module RemoteStore {
  import opened Wrappers
  import opened Seqs
  import opened Sorting
  import opened ChatTypes

  datatype Db = Db(
    profiles: seq<Profile>,
    conversations: seq<Conversation>,
    members: seq<ConversationMember>,
    messages: seq<Message>,
    typing: seq<TypingIndicator>)

  /** The remote calls of the hooks, one constructor per call site. */
  datatype Call =
    // fetchConversations
    | SelectMemberships | SelectConversations | SelectConversationMembers
    | SelectMemberProfiles | SelectConversationMessages
    // createPrivateConversation, createGroupConversation
    | SelectOwnConversationIds | SelectOtherConversationIds | SelectPrivateConversation
    | InsertConversation | InsertMembers
    // useMessages
    | SelectMessages | SelectSenderProfiles | InsertMessage | UpsertTyping
    | SelectUnread | UpdateReadBy(messageId: Id) | SelectPushedSender
    | SelectTypingRows | SelectTypingProfiles
    // useUsers
    | SelectUsers | SearchProfiles

  /** `c` is the first of `queries`, taken in the order they are issued, that fails. */
  predicate FirstFailure(queries: seq<Call>, failing: set<Call>, c: Call)
  {
    exists i :: 0 <= i < |queries| && queries[i] == c && c in failing && forall j :: 0 <= j < i ==> queries[j] !in failing
  }

  // Row filters. Each is a named function so that the same filter is the same value wherever it is used.

  function HasUserId(uid: Id): Profile -> bool { (p: Profile) => p.userId == uid }
  function UserIdIn(uids: seq<Id>): Profile -> bool { (p: Profile) => p.userId in uids }
  function MembershipOf(uid: Id): ConversationMember -> bool { (m: ConversationMember) => m.userId == uid }
  function MemberIn(ids: seq<Id>): ConversationMember -> bool { (m: ConversationMember) => m.conversationId in ids }
  function InConversation(cid: Id): ConversationMember -> bool { (m: ConversationMember) => m.conversationId == cid }
  function ConversationIn(ids: seq<Id>): Conversation -> bool { (c: Conversation) => c.id in ids }
  function MessageIn(ids: seq<Id>): Message -> bool { (m: Message) => m.conversationId in ids }
  function MessageOf(cid: Id): Message -> bool { (m: Message) => m.conversationId == cid }

  /** The conversation ids of a user's membership rows (`select conversation_id ... eq user_id`). */
  function ConversationIdsOf(db: Db, uid: Id): (ids: seq<Id>)
    ensures |ids| == |Filter(db.members, MembershipOf(uid))|
  {
    var rows := Filter(db.members, MembershipOf(uid));
    seq(|rows|, i requires 0 <= i < |rows| => rows[i].conversationId)
  }

  /** A user's conversation ids are exactly the conversations of the user's membership rows. */
  predicate IsMemberOf(db: Db, uid: Id, cid: Id)
  {
    exists k :: 0 <= k < |db.members| && db.members[k].userId == uid && db.members[k].conversationId == cid
  }

  lemma ConversationIdsOfIff(db: Db, uid: Id, cid: Id)
    ensures cid in ConversationIdsOf(db, uid) <==> IsMemberOf(db, uid, cid)
  {
    var rows := Filter(db.members, MembershipOf(uid));
    if cid in ConversationIdsOf(db, uid) {
      var i :| 0 <= i < |rows| && rows[i].conversationId == cid;
      FilterIn(db.members, MembershipOf(uid), rows[i]);
    }
    if IsMemberOf(db, uid, cid) {
      var k :| 0 <= k < |db.members| && db.members[k].userId == uid && db.members[k].conversationId == cid;
      FilterIn(db.members, MembershipOf(uid), db.members[k]);
      var i :| 0 <= i < |rows| && rows[i] == db.members[k];
      assert ConversationIdsOf(db, uid)[i] == cid;
    }
  }

  /** The profiles whose user id is among `uids` (`.in('user_id', uids)`). */
  function ProfilesIn(db: Db, uids: seq<Id>): seq<Profile>
  {
    Filter(db.profiles, UserIdIn(uids))
  }

  /** `profiles.find(p => p.user_id === uid)`: the first profile of that user, if any. */
  function ProfileOf(profiles: seq<Profile>, uid: Id): (r: Option<Profile>)
    ensures r.Some? ==> r.value in profiles && r.value.userId == uid
    ensures r.None? <==> forall k :: 0 <= k < |profiles| ==> profiles[k].userId != uid
  {
    Find(profiles, HasUserId(uid))
  }

  /** Looking a user up among the profiles fetched for a set of users containing them finds their profile in the table. */
  lemma ProfileOfFetched(db: Db, uids: seq<Id>, uid: Id)
    requires uid in uids
    ensures ProfileOf(ProfilesIn(db, uids), uid) == ProfileOf(db.profiles, uid)
  {
    FindInFilter(db.profiles, UserIdIn(uids), HasUserId(uid));
  }

  function NewerMessage(a: Message, b: Message): bool { a.createdAt > b.createdAt }
  function OlderMessage(a: Message, b: Message): bool { a.createdAt < b.createdAt }

  lemma NewerMessageOrder()
    ensures StrictWeakOrder(NewerMessage)
  {
  }

  lemma OlderMessageOrder()
    ensures StrictWeakOrder(OlderMessage)
  {
  }

  /** The primary key of messages: no two rows share an id. */
  predicate UniqueMessageIds(msgs: seq<Message>)
  {
    forall i, j :: 0 <= i < j < |msgs| ==> msgs[i].id != msgs[j].id
  }

  /** `update({ read_by }).eq('id', id)`: every row with that id gets the new list, the others are kept. */
  function SetReadBy(msgs: seq<Message>, id: Id, readBy: seq<Id>): (r: seq<Message>)
    ensures |r| == |msgs|
    ensures forall k :: 0 <= k < |msgs| ==> r[k] == if msgs[k].id == id then msgs[k].(readBy := readBy) else msgs[k]
  {
    seq(|msgs|, k requires 0 <= k < |msgs| => if msgs[k].id == id then msgs[k].(readBy := readBy) else msgs[k])
  }

  /** The typing row of one user in one conversation (the pair the upsert is taken to merge on). */
  predicate IsTypingRowOf(t: TypingIndicator, cid: Id, uid: Id)
  {
    t.conversationId == cid && t.userId == uid
  }

  /** `upsert` taken to merge on the (conversation, user) pair: the row with that pair gets the new
      flag and time, or a new row is added when there is none. The code names no conflict target, so
      this is the intended merge rather than the primary-key merge of the call as written. */
  function UpsertTypingRow(rows: seq<TypingIndicator>, cid: Id, uid: Id, isTyping: bool, now: Millis, newId: Id)
    : (r: seq<TypingIndicator>)
    ensures |r| >= |rows|
    ensures exists k :: 0 <= k < |r| && IsTypingRowOf(r[k], cid, uid)
    ensures forall k :: 0 <= k < |r| && IsTypingRowOf(r[k], cid, uid) ==> r[k].isTyping == isTyping && r[k].updatedAt == now
    ensures forall k :: 0 <= k < |rows| && !IsTypingRowOf(rows[k], cid, uid) ==> r[k] == rows[k]
    ensures (exists k :: 0 <= k < |rows| && IsTypingRowOf(rows[k], cid, uid)) ==>
      && |r| == |rows|
      && forall k :: 0 <= k < |rows| && IsTypingRowOf(rows[k], cid, uid) ==> r[k] == rows[k].(isTyping := isTyping, updatedAt := now)
    ensures (forall k :: 0 <= k < |rows| ==> !IsTypingRowOf(rows[k], cid, uid)) ==>
      r == rows + [TypingIndicator(newId, cid, uid, isTyping, now)]
  {
    if exists k :: 0 <= k < |rows| && IsTypingRowOf(rows[k], cid, uid) then
      var k :| 0 <= k < |rows| && IsTypingRowOf(rows[k], cid, uid);
      var r := seq(|rows|, i requires 0 <= i < |rows| =>
        if IsTypingRowOf(rows[i], cid, uid) then rows[i].(isTyping := isTyping, updatedAt := now) else rows[i]);
      assert IsTypingRowOf(r[k], cid, uid);
      r
    else
      var r := rows + [TypingIndicator(newId, cid, uid, isTyping, now)];
      assert IsTypingRowOf(r[|rows|], cid, uid);
      r
  }
}
