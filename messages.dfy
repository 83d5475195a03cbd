/** The message stream of one conversation: its history in creation order joined to the senders'
    profiles, sending, marking as read, the typing flag, and the pushed inserts and typing changes. */
module Messages {
  import opened Wrappers
  import opened Seqs
  import opened Sorting
  import opened Text
  import opened ChatTypes
  import opened RemoteStore

  /** The hook does anything only with a conversation id (neither null nor empty) and a user. */
  predicate Active(conversationId: Option<Id>, user: Option<Id>)
  {
    conversationId.Some? && conversationId.value != "" && user.Some?
  }

  // ---------------------------------------------------------------------------------------------
  // Fetching

  /** The conversation's messages, oldest first (`order('created_at', ascending)`). */
  function Ascending(db: Db, cid: Id): seq<Message>
  {
    SortBy(Filter(db.messages, MessageOf(cid)), OlderMessage)
  }

  function SenderIds(msgs: seq<Message>): seq<Id>
  {
    seq(|msgs|, k requires 0 <= k < |msgs| => msgs[k].senderId)
  }

  /** Each message joined to the first fetched profile of its sender. */
  function JoinSenders(msgs: seq<Message>, profiles: seq<Profile>): seq<MessageWithSender>
  {
    seq(|msgs|, k requires 0 <= k < |msgs| => MessageWithSender(msgs[k], ProfileOf(profiles, msgs[k].senderId)))
  }

  /** `fetchMessages`: the messages, then their senders' profiles; the first failure is reported. */
  function FetchMessagesResult(db: Db, cid: Id, failing: set<Call>): (r: Result<seq<MessageWithSender>, Call>)
    ensures r.Err? ==> r.error in failing
    ensures failing == {} ==> r.Ok?
  {
    if SelectMessages in failing then Err(SelectMessages)
    else
      var msgs := Ascending(db, cid);
      if SelectSenderProfiles in failing then Err(SelectSenderProfiles)
      else Ok(JoinSenders(msgs, ProfilesIn(db, SenderIds(msgs))))
  }

  /** The queries of `fetchMessages`, in the order they are issued. */
  const MessageQueries: seq<Call> := [SelectMessages, SelectSenderProfiles]

  /** A fetch fails exactly when one of its queries fails, and then reports the first of them; a
      success is the joined history. */
  lemma FetchMessagesSpec(db: Db, cid: Id, failing: set<Call>)
    ensures var r := FetchMessagesResult(db, cid, failing);
      && (r.Ok? <==> SelectMessages !in failing && SelectSenderProfiles !in failing)
      && (r.Err? ==> FirstFailure(MessageQueries, failing, r.error))
      && (r.Ok? ==> r.value == JoinSenders(Ascending(db, cid), ProfilesIn(db, SenderIds(Ascending(db, cid)))))
  {
    var r := FetchMessagesResult(db, cid, failing);
    if SelectMessages in failing {
      assert MessageQueries[0] == r.error;
    } else if SelectSenderProfiles in failing {
      assert MessageQueries[1] == r.error;
    }
  }

  /** The history holds exactly the conversation's messages, oldest first, and messages created at the
      same time keep their table order. */
  lemma {:induction false} AscendingIsHistory(db: Db, cid: Id)
    ensures var h := Ascending(db, cid);
      && multiset(h) == multiset(Filter(db.messages, MessageOf(cid)))
      && (forall i, j :: 0 <= i < j < |h| ==> h[i].createdAt <= h[j].createdAt)
      && (forall m :: Filter(h, TiedWith(OlderMessage, m)) == Filter(Filter(db.messages, MessageOf(cid)), TiedWith(OlderMessage, m)))
  {
    var f := Filter(db.messages, MessageOf(cid));
    OlderMessageOrder();
    SortByPermutation(f, OlderMessage);
    SortBySorted(f, OlderMessage);
    forall m ensures Filter(SortBy(f, OlderMessage), TiedWith(OlderMessage, m)) == Filter(f, TiedWith(OlderMessage, m)) {
      SortByStable(f, OlderMessage, m);
    }
  }

  /** A successful fetch lists the history in order, each message with its sender's profile when the
      store has one. */
  lemma {:induction false} FetchedMessagesJoin(db: Db, cid: Id, failing: set<Call>)
    requires FetchMessagesResult(db, cid, failing).Ok?
    ensures var list := FetchMessagesResult(db, cid, failing).value;
      var h := Ascending(db, cid);
      && |list| == |h|
      && forall k :: 0 <= k < |list| ==> list[k].message == h[k] && list[k].sender == ProfileOf(db.profiles, h[k].senderId)
  {
    var h := Ascending(db, cid);
    var uids := SenderIds(h);
    forall k | 0 <= k < |h| ensures ProfileOf(ProfilesIn(db, uids), h[k].senderId) == ProfileOf(db.profiles, h[k].senderId) {
      assert uids[k] == h[k].senderId;
      ProfileOfFetched(db, uids, h[k].senderId);
    }
  }

  // ---------------------------------------------------------------------------------------------
  // Marking as read

  /** The rows `markAsRead` selects: the conversation's messages that others sent. */
  function Unread(cid: Id, uid: Id): Message -> bool
  {
    (m: Message) => m.conversationId == cid && m.senderId != uid
  }

  function Lacks(uid: Id): Message -> bool
  {
    (m: Message) => uid !in m.readBy
  }

  /** One selected row after its update: the user is appended when absent and the update succeeds. */
  function Marked(m: Message, uid: Id, failing: set<Call>): Message
  {
    if uid !in m.readBy && UpdateReadBy(m.id) !in failing then m.(readBy := m.readBy + [uid]) else m
  }

  /** The messages after a run whose selection succeeded. */
  function MarkedAll(msgs: seq<Message>, cid: Id, uid: Id, failing: set<Call>): (r: seq<Message>)
    ensures |r| == |msgs|
  {
    seq(|msgs|, k requires 0 <= k < |msgs| => if Unread(cid, uid)(msgs[k]) then Marked(msgs[k], uid, failing) else msgs[k])
  }

  /** The number of updates a run issues: one per selected row that lacks the user. */
  function Pending(msgs: seq<Message>, cid: Id, uid: Id): nat
  {
    |Filter(Filter(msgs, Unread(cid, uid)), Lacks(uid))|
  }

  /** A run only appends the user to lists of read receipts: no list shrinks or reorders, no other
      field changes, and the user's own messages are never touched. */
  lemma ReadByOnlyGrows(msgs: seq<Message>, cid: Id, uid: Id, failing: set<Call>)
    ensures var r := MarkedAll(msgs, cid, uid, failing);
      forall k :: 0 <= k < |msgs| ==>
        && r[k] == msgs[k].(readBy := r[k].readBy)
        && msgs[k].readBy <= r[k].readBy
        && (r[k].readBy == msgs[k].readBy || r[k].readBy == msgs[k].readBy + [uid])
        && (msgs[k].senderId == uid || msgs[k].conversationId != cid ==> r[k] == msgs[k])
  {
    var r := MarkedAll(msgs, cid, uid, failing);
    forall k | 0 <= k < |msgs|
      ensures r[k] == msgs[k].(readBy := r[k].readBy)
      ensures r[k].readBy == msgs[k].readBy || r[k].readBy == msgs[k].readBy + [uid]
      ensures msgs[k].readBy <= r[k].readBy
      ensures msgs[k].senderId == uid || msgs[k].conversationId != cid ==> r[k] == msgs[k]
    {
      assert r[k] == if Unread(cid, uid)(msgs[k]) then Marked(msgs[k], uid, failing) else msgs[k];
      var m := Marked(msgs[k], uid, failing);
      assert m.readBy == msgs[k].readBy || m.readBy == msgs[k].readBy + [uid];
      assert (msgs[k].readBy + [uid])[..|msgs[k].readBy|] == msgs[k].readBy;
    }
  }

  /** With no failed update, every message of the conversation from someone else is read by the user
      afterwards, and a second run issues no update and changes nothing. */
  lemma {:induction false} MarkAsReadIdempotent(msgs: seq<Message>, cid: Id, uid: Id, failing: set<Call>)
    requires forall id :: UpdateReadBy(id) !in failing
    ensures var r := MarkedAll(msgs, cid, uid, failing);
      && (forall k :: 0 <= k < |r| && Unread(cid, uid)(r[k]) ==> uid in r[k].readBy)
      && Pending(r, cid, uid) == 0
      && MarkedAll(r, cid, uid, failing) == r
  {
    var r := MarkedAll(msgs, cid, uid, failing);
    var sel := Filter(r, Unread(cid, uid));
    forall k | 0 <= k < |r| && Unread(cid, uid)(r[k]) ensures uid in r[k].readBy {
      assert r[k].readBy == msgs[k].readBy || r[k].readBy == msgs[k].readBy + [uid];
    }
    forall i | 0 <= i < |sel| ensures !Lacks(uid)(sel[i]) {
      FilterIn(r, Unread(cid, uid), sel[i]);
    }
    FilterNone(sel, Lacks(uid));
  }

  /** Some row among `rows` has id `id`. */
  predicate IdAmong(id: Id, rows: seq<Message>)
  {
    exists j :: 0 <= j < |rows| && rows[j].id == id
  }

  /** The messages after the updates for the selected rows `done`: every row with the id of one of
      them is marked. */
  function MarkedUpTo(msgs: seq<Message>, done: seq<Message>, uid: Id, failing: set<Call>): (r: seq<Message>)
    ensures |r| == |msgs|
  {
    seq(|msgs|, k requires 0 <= k < |msgs| => if IdAmong(msgs[k].id, done) then Marked(msgs[k], uid, failing) else msgs[k])
  }

  /** One iteration of the loop: handling row `m` of the store issues its update, if any. */
  lemma MarkedUpToStep(msgs: seq<Message>, done: seq<Message>, m: Message, uid: Id, failing: set<Call>)
    requires UniqueMessageIds(msgs) && m in msgs
    ensures MarkedUpTo(msgs, done + [m], uid, failing)
         == if uid !in m.readBy && UpdateReadBy(m.id) !in failing
            then SetReadBy(MarkedUpTo(msgs, done, uid, failing), m.id, m.readBy + [uid])
            else MarkedUpTo(msgs, done, uid, failing)
  {
    forall k | 0 <= k < |msgs| ensures IdAmong(msgs[k].id, done + [m]) <==> IdAmong(msgs[k].id, done) || msgs[k].id == m.id {
      if IdAmong(msgs[k].id, done + [m]) && !IdAmong(msgs[k].id, done) {
        var j :| 0 <= j < |done + [m]| && (done + [m])[j].id == msgs[k].id;
        assert j == |done|;
      }
      if IdAmong(msgs[k].id, done) {
        var j :| 0 <= j < |done| && done[j].id == msgs[k].id;
        assert (done + [m])[j].id == msgs[k].id;
      }
      if msgs[k].id == m.id {
        assert (done + [m])[|done|] == m;
      }
    }
  }

  /** The loop's step over the selected rows: the store and the count of updates after row `i`. */
  lemma MarkLoopStep(msgs: seq<Message>, rows: seq<Message>, i: nat, cid: Id, uid: Id, failing: set<Call>)
    requires UniqueMessageIds(msgs) && rows == Filter(msgs, Unread(cid, uid)) && i < |rows|
    ensures MarkedUpTo(msgs, rows[..i + 1], uid, failing)
         == if uid !in rows[i].readBy && UpdateReadBy(rows[i].id) !in failing
            then SetReadBy(MarkedUpTo(msgs, rows[..i], uid, failing), rows[i].id, rows[i].readBy + [uid])
            else MarkedUpTo(msgs, rows[..i], uid, failing)
    ensures |Filter(rows[..i + 1], Lacks(uid))| == |Filter(rows[..i], Lacks(uid))| + if uid !in rows[i].readBy then 1 else 0
  {
    var msg := rows[i];
    FilterIn(msgs, Unread(cid, uid), msg);
    assert rows[..i + 1] == rows[..i] + [msg];
    MarkedUpToStep(msgs, rows[..i], msg, uid, failing);
    FilterAppend(rows[..i], [msg], Lacks(uid));
    FilterSingleton(msg, Lacks(uid));
  }

  /** Once every selected row is handled, the store holds the marked messages. */
  lemma MarkedUpToAll(msgs: seq<Message>, cid: Id, uid: Id, failing: set<Call>)
    requires UniqueMessageIds(msgs)
    ensures MarkedUpTo(msgs, Filter(msgs, Unread(cid, uid)), uid, failing) == MarkedAll(msgs, cid, uid, failing)
  {
    var rows := Filter(msgs, Unread(cid, uid));
    forall k | 0 <= k < |msgs| ensures IdAmong(msgs[k].id, rows) <==> Unread(cid, uid)(msgs[k]) {
      FilterIn(msgs, Unread(cid, uid), msgs[k]);
      if IdAmong(msgs[k].id, rows) {
        var j :| 0 <= j < |rows| && rows[j].id == msgs[k].id;
        FilterIn(msgs, Unread(cid, uid), rows[j]);
      }
      if Unread(cid, uid)(msgs[k]) {
        var j :| 0 <= j < |rows| && rows[j] == msgs[k];
      }
    }
  }

  // ---------------------------------------------------------------------------------------------
  // Typing

  function TypingOthers(cid: Id, uid: Id): TypingIndicator -> bool
  {
    (t: TypingIndicator) => t.conversationId == cid && t.isTyping && t.userId != uid
  }

  function TypingUserIds(rows: seq<TypingIndicator>): seq<Id>
  {
    seq(|rows|, k requires 0 <= k < |rows| => rows[k].userId)
  }

  /** The typing set after a typing change: the profiles of the others typing in the conversation;
      a failed query, or no such rows, gives the empty set. */
  function TypingSet(db: Db, cid: Id, uid: Id, failing: set<Call>): seq<Profile>
  {
    if SelectTypingRows in failing then []
    else
      var rows := Filter(db.typing, TypingOthers(cid, uid));
      if |rows| == 0 then []
      else if SelectTypingProfiles in failing then []
      else ProfilesIn(db, TypingUserIds(rows))
  }

  /** A user other than oneself is typing in the conversation. */
  predicate IsTypingIn(db: Db, cid: Id, uid: Id, who: Id)
  {
    exists k :: 0 <= k < |db.typing| && TypingOthers(cid, uid)(db.typing[k]) && db.typing[k].userId == who
  }

  /** With working queries the typing set is exactly the profiles of the others who are typing; it
      never holds the user's own profile, and is empty when nobody else types. */
  lemma {:induction false} TypingSetIsOthersTyping(db: Db, cid: Id, uid: Id, failing: set<Call>)
    requires SelectTypingRows !in failing && SelectTypingProfiles !in failing
    ensures var ts := TypingSet(db, cid, uid, failing);
      && (forall p :: p in ts <==> p in db.profiles && IsTypingIn(db, cid, uid, p.userId))
      && (forall k :: 0 <= k < |ts| ==> ts[k].userId != uid)
  {
    var rows := Filter(db.typing, TypingOthers(cid, uid));
    var ids := TypingUserIds(rows);
    var ts := TypingSet(db, cid, uid, failing);
    forall who ensures who in ids <==> IsTypingIn(db, cid, uid, who) {
      if who in ids {
        var j :| 0 <= j < |rows| && ids[j] == who;
        FilterIn(db.typing, TypingOthers(cid, uid), rows[j]);
      }
      if IsTypingIn(db, cid, uid, who) {
        var k :| 0 <= k < |db.typing| && TypingOthers(cid, uid)(db.typing[k]) && db.typing[k].userId == who;
        FilterIn(db.typing, TypingOthers(cid, uid), db.typing[k]);
        var j :| 0 <= j < |rows| && rows[j] == db.typing[k];
        assert ids[j] == who;
      }
    }
    forall p ensures p in ts <==> p in db.profiles && IsTypingIn(db, cid, uid, p.userId) {
      FilterIn(db.profiles, UserIdIn(ids), p);
    }
    forall k | 0 <= k < |ts| ensures ts[k].userId != uid {
      assert ts[k] in ts;
    }
  }

  // ---------------------------------------------------------------------------------------------
  // The hook

  /** The hook's observable state. */
  datatype StreamState = StreamState(messages: seq<MessageWithSender>, loading: bool, error: Option<Call>, typingUsers: seq<Profile>)

  /** The state after a fetch in an active hook: a success replaces the list (keeping any previous
      error), a failure keeps the list and records the error, and loading ends. */
  function AfterFetch(s: StreamState, db: Db, cid: Id, failing: set<Call>): (r: StreamState)
    ensures !r.loading && r.typingUsers == s.typingUsers
    ensures FetchMessagesResult(db, cid, failing).Ok? ==>
      r.messages == FetchMessagesResult(db, cid, failing).value && r.error == s.error
    ensures FetchMessagesResult(db, cid, failing).Err? ==>
      r.messages == s.messages && r.error == Some(FetchMessagesResult(db, cid, failing).error)
  {
    match FetchMessagesResult(db, cid, failing)
    case Ok(list) => s.(messages := list, loading := false)
    case Err(c) => s.(loading := false, error := Some(c))
  }

  /** The sender profile a pushed message is joined to: the `.single()` profile of its sender. */
  function PushedSender(db: Db, senderId: Id, failing: set<Call>): (r: Option<Profile>)
    ensures r.Some? ==> r.value in db.profiles && r.value.userId == senderId
    ensures SelectPushedSender in failing ==> r.None?
    ensures SelectPushedSender !in failing ==> (r.Some? <==> |Filter(db.profiles, HasUserId(senderId))| == 1)
  {
    if SelectPushedSender in failing then None
    else
      var rows := Filter(db.profiles, HasUserId(senderId));
      var r := Single(rows);
      if r.Some? then
        FilterIn(db.profiles, HasUserId(senderId), rows[0]);
        r
      else r
  }

  /** The loop of `markAsRead`: every selected row lacking the user gets one update, which appends
      the user unless it fails. */
  method MarkLoop(msgs: seq<Message>, cid: Id, uid: Id, failing: set<Call>) returns (writes: nat, marked: seq<Message>)
    requires UniqueMessageIds(msgs)
    ensures marked == MarkedAll(msgs, cid, uid, failing)
    ensures writes == Pending(msgs, cid, uid)
  {
    var rows := Filter(msgs, Unread(cid, uid));
    marked := msgs;
    writes := 0;
    var i := 0;
    ghost var done: seq<Message> := [];
    while i < |rows|
      invariant 0 <= i <= |rows| && done == rows[..i]
      invariant marked == MarkedUpTo(msgs, done, uid, failing)
      invariant writes == |Filter(done, Lacks(uid))|
    {
      var msg := rows[i];
      MarkLoopStep(msgs, rows, i, cid, uid, failing);
      if uid !in msg.readBy {
        if UpdateReadBy(msg.id) !in failing {
          marked := SetReadBy(marked, msg.id, msg.readBy + [uid]);
        }
        writes := writes + 1;
      }
      done := rows[..i + 1];
      i := i + 1;
    }
    assert done == rows;
    MarkedUpToAll(msgs, cid, uid, failing);
  }

  class MessagesHook {
    const conversationId: Option<Id>
    const user: Option<Id>
    var messages: seq<MessageWithSender>
    var loading: bool
    var error: Option<Call>
    var typingUsers: seq<Profile>

    function State(): StreamState
      reads this
    {
      StreamState(messages, loading, error, typingUsers)
    }

    constructor (conversationId: Option<Id>, user: Option<Id>)
      ensures this.conversationId == conversationId && this.user == user
      ensures State() == StreamState([], true, None, [])
    {
      this.conversationId := conversationId;
      this.user := user;
      messages := [];
      loading := true;
      error := None;
      typingUsers := [];
    }

    /** `fetchMessages`. */
    method FetchMessages(db: Db, failing: set<Call>)
      modifies this
      ensures !Active(conversationId, user) ==> State() == old(State())
      ensures Active(conversationId, user) ==> State() == AfterFetch(old(State()), db, conversationId.value, failing)
    {
      if !Active(conversationId, user) {
        return;
      }
      var cid := conversationId.value;
      loading := true;
      if SelectMessages in failing {
        error := Some(SelectMessages);
        loading := false;
        return;
      }
      var msgs := Ascending(db, cid);
      if SelectSenderProfiles in failing {
        error := Some(SelectSenderProfiles);
        loading := false;
        return;
      }
      messages := JoinSenders(msgs, ProfilesIn(db, SenderIds(msgs)));
      loading := false;
    }

    /** `sendMessage(content, type)`: a blank message is refused; otherwise the trimmed text is
        inserted with the user as sender. Returns the stored row, or none. */
    method SendMessage(db: Db, content: string, kind: MessageType, failing: set<Call>, newId: Id, now: Millis)
      returns (sent: Option<Message>, db': Db)
      requires kind != System
      ensures !Active(conversationId, user) || IsBlank(content) || InsertMessage in failing ==> sent.None? && db' == db
      ensures sent.None? ==> db' == db
      ensures sent.Some? ==>
        && Active(conversationId, user) && !IsBlank(content)
        && sent.value == Message(newId, conversationId.value, user.value, Trim(content), kind, [], now, now)
        && db' == db.(messages := db.messages + [sent.value])
      ensures sent.Some? ==> !IsBlank(sent.value.content) && Trim(sent.value.content) == sent.value.content
      ensures Active(conversationId, user) && !IsBlank(content) && InsertMessage !in failing ==>
        && sent == Some(Message(newId, conversationId.value, user.value, Trim(content), kind, [], now, now))
        && db' == db.(messages := db.messages + [sent.value])
    {
      if !Active(conversationId, user) || IsBlank(content) {
        return None, db;
      }
      if InsertMessage in failing {
        return None, db;
      }
      var text := Trim(content);
      TrimIdempotent(content);
      var m := Message(newId, conversationId.value, user.value, text, kind, [], now, now);
      return Some(m), db.(messages := db.messages + [m]);
    }

    /** `updateTypingStatus(isTyping)`: upserts the user's typing row; a failure is ignored. */
    method UpdateTypingStatus(db: Db, isTyping: bool, failing: set<Call>, newId: Id, now: Millis) returns (db': Db)
      ensures !Active(conversationId, user) || UpsertTyping in failing ==> db' == db
      ensures Active(conversationId, user) && UpsertTyping !in failing ==>
        && db' == db.(typing := db'.typing)
        && (exists k :: 0 <= k < |db'.typing| && IsTypingRowOf(db'.typing[k], conversationId.value, user.value))
        && (forall k :: 0 <= k < |db'.typing| && IsTypingRowOf(db'.typing[k], conversationId.value, user.value) ==>
              db'.typing[k].isTyping == isTyping && db'.typing[k].updatedAt == now)
        && |db'.typing| >= |db.typing|
        && (forall k :: 0 <= k < |db.typing| && !IsTypingRowOf(db.typing[k], conversationId.value, user.value) ==> db'.typing[k] == db.typing[k])
        && db'.typing == UpsertTypingRow(db.typing, conversationId.value, user.value, isTyping, now, newId)
      ensures Active(conversationId, user) && UpsertTyping !in failing ==>
        if exists k :: 0 <= k < |db.typing| && IsTypingRowOf(db.typing[k], conversationId.value, user.value)
        then |db'.typing| == |db.typing|
        else db'.typing == db.typing + [TypingIndicator(newId, conversationId.value, user.value, isTyping, now)]
    {
      if !Active(conversationId, user) || UpsertTyping in failing {
        return db;
      }
      db' := db.(typing := UpsertTypingRow(db.typing, conversationId.value, user.value, isTyping, now, newId));
    }

    /** `markAsRead`: selects the conversation's messages from others, then for each selected row that
        lacks the user appends the user to its read receipts. A failed selection ends the run; a failed
        update is skipped. Returns the number of updates issued and the store after them. */
    method MarkAsRead(db: Db, failing: set<Call>) returns (writes: nat, db': Db)
      requires UniqueMessageIds(db.messages)
      ensures !Active(conversationId, user) || SelectUnread in failing ==> writes == 0 && db' == db
      ensures Active(conversationId, user) && SelectUnread !in failing ==>
        && db' == db.(messages := MarkedAll(db.messages, conversationId.value, user.value, failing))
        && writes == Pending(db.messages, conversationId.value, user.value)
    {
      if !Active(conversationId, user) || SelectUnread in failing {
        return 0, db;
      }
      var marked;
      writes, marked := MarkLoop(db.messages, conversationId.value, user.value, failing);
      db' := db.(messages := marked);
    }

    /** A message insert pushed on the conversation's channel: appended at the end of the list with its
        sender's profile. */
    method OnMessageInserted(m: Message, db: Db, failing: set<Call>)
      modifies this`messages
      ensures Active(conversationId, user) && m.conversationId == conversationId.value ==>
        messages == old(messages) + [MessageWithSender(m, PushedSender(db, m.senderId, failing))]
      ensures !(Active(conversationId, user) && m.conversationId == conversationId.value) ==> messages == old(messages)
    {
      if Active(conversationId, user) && m.conversationId == conversationId.value {
        var sender := PushedSender(db, m.senderId, failing);
        messages := messages + [MessageWithSender(m, sender)];
      }
    }

    /** Any change pushed on the conversation's typing channel: the typing set is recomputed. */
    method OnTypingChanged(db: Db, failing: set<Call>)
      modifies this`typingUsers
      ensures Active(conversationId, user) ==> typingUsers == TypingSet(db, conversationId.value, user.value, failing)
      ensures !Active(conversationId, user) ==> typingUsers == old(typingUsers)
    {
      if Active(conversationId, user) {
        typingUsers := TypingSet(db, conversationId.value, user.value, failing);
      }
    }
  }
}
