/** One row of the conversation list: its title, the preview of its last message, the time label's
    day bucket and the unread badge. */
module ConversationItem {
  import opened Wrappers
  import opened Text
  import opened ChatTypes
  import opened RemoteStore
  import ChatPanel
  import Conversations

  /** The row title: a group's name or "Unnamed Group"; the other member's display name or "Unknown User". */
  function DisplayName(c: ConversationWithDetails, user: Option<Id>): string
  {
    if c.conversation.kind == Group then
      ChatPanel.OrElse(if c.conversation.name.Some? then c.conversation.name.value else "", "Unnamed Group")
    else
      var other := ChatPanel.OtherMember(c, user);
      ChatPanel.OrElse(if other.Some? && other.value.profile.Some? then other.value.profile.value.displayName else "", "Unknown User")
  }

  /** The row and the chat panel's header agree on private conversations and on named groups; only
      a group without a name is titled differently. */
  lemma DisplayNameMatchesHeader(c: ConversationWithDetails, user: Option<Id>)
    ensures DisplayName(c, user) != ""
    ensures DisplayName(c, user) == ChatPanel.DisplayName(c, user) <==>
      c.conversation.kind == Private || (c.conversation.name.Some? && c.conversation.name.value != "")
  {
  }

  const OwnPrefix: string := "You: "
  const NoMessages: string := "No messages yet"

  /** The last message's text, prefixed with "You: " when the user sent it. */
  function Preview(c: ConversationWithDetails, user: Option<Id>): string
  {
    if c.lastMessage.None? then NoMessages
    else
      var m := c.lastMessage.value.message;
      if user.Some? && m.senderId == user.value then OwnPrefix + m.content else m.content
  }

  /** Without a last message the row says so; otherwise the preview ends with the message's content,
      preceded by "You: " exactly when the signed-in user sent it. */
  lemma PreviewSpec(c: ConversationWithDetails, user: Option<Id>)
    ensures c.lastMessage.None? ==> Preview(c, user) == NoMessages
    ensures c.lastMessage.Some? ==>
      var m := c.lastMessage.value.message;
      var p := Preview(c, user);
      && |m.content| <= |p|
      && p[|p| - |m.content|..] == m.content
      && (user.Some? && m.senderId == user.value <==> p == OwnPrefix + m.content)
  {
  }

  const DayMs: int := 24 * 60 * 60 * 1000

  /** Which label the time of the last message gets. */
  datatype DayBucket = TimeOfDay | Yesterday | Weekday | MonthAndDay

  /** Whole days elapsed, rounded down (`Math.floor`); Dafny's division by a positive divisor already
      rounds down, negative differences included. */
  function DaysAgo(now: Millis, sentAt: Millis): int
  {
    (now - sentAt) / DayMs
  }

  /** `formatTime` as written: a timestamp even a millisecond in the future falls on day -1, which
      `days < 7` sends to the weekday label. */
  function DayBucketAsWritten(now: Millis, sentAt: Millis): DayBucket
  {
    var days := DaysAgo(now, sentAt);
    if days == 0 then TimeOfDay
    else if days == 1 then Yesterday
    else if days < 7 then Weekday
    else MonthAndDay
  }

  /** A message timestamped one millisecond after the local clock reads is labelled with a weekday. */
  lemma FutureTimestampGetsWeekday()
    ensures DayBucketAsWritten(1000, 1001) == Weekday
  {
    assert DaysAgo(1000, 1001) == -1;
  }

  /** `formatTime` with a timestamp ahead of the local clock read as "today". */
  function DayBucketOf(now: Millis, sentAt: Millis): DayBucket
  {
    var days := DaysAgo(now, sentAt);
    if days <= 0 then TimeOfDay
    else if days == 1 then Yesterday
    else if days < 7 then Weekday
    else MonthAndDay
  }

  /** The buckets in terms of elapsed time: less than a day (or in the future) is the time of day,
      then one day, up to a week, and beyond. The version as written agrees for every timestamp not
      in the future and gives the weekday for every one that is. */
  lemma DayBucketSpec(now: Millis, sentAt: Millis)
    ensures DayBucketOf(now, sentAt) == TimeOfDay <==> now - sentAt < DayMs
    ensures DayBucketOf(now, sentAt) == Yesterday <==> DayMs <= now - sentAt < 2 * DayMs
    ensures DayBucketOf(now, sentAt) == Weekday <==> 2 * DayMs <= now - sentAt < 7 * DayMs
    ensures DayBucketOf(now, sentAt) == MonthAndDay <==> 7 * DayMs <= now - sentAt
    ensures now >= sentAt ==> DayBucketAsWritten(now, sentAt) == DayBucketOf(now, sentAt)
    ensures now < sentAt ==> DayBucketAsWritten(now, sentAt) == Weekday
  {
    DaysAgoBounds(now, sentAt);
  }

  lemma DaysAgoBounds(now: Millis, sentAt: Millis)
    ensures DaysAgo(now, sentAt) * DayMs <= now - sentAt < (DaysAgo(now, sentAt) + 1) * DayMs
  {
  }

  /** What the unread badge slot renders. */
  datatype BadgeSlot =
    | Empty
    | StrayText(text: string)   // a bare value React renders as text, outside the badge
    | Badge(caption: string)

  /** The badge as written: `unreadCount && unreadCount > 0 && <badge>` evaluates to the number 0
      when the count is 0, and React renders that 0. */
  function BadgeAsWritten(unreadCount: Option<int>): BadgeSlot
  {
    if unreadCount.None? then Empty
    else if unreadCount.value == 0 then StrayText("0")
    else if unreadCount.value < 0 then Empty
    else Badge(if unreadCount.value > 9 then "9+" else NatToString(unreadCount.value))
  }

  /** A conversation with no unread message shows a stray "0" next to its preview. */
  lemma ZeroUnreadRendersZero()
    ensures BadgeAsWritten(Some(0)) == StrayText("0")
  {
  }

  /** Every row of a fetched list carries an unread count of 0, so, as written, every row shows the
      stray "0". */
  lemma FetchedRowsShowZero(db: Db, uid: Id, failing: set<Call>)
    requires Conversations.FetchResult(db, uid, failing).Ok?
    ensures var list := Conversations.FetchResult(db, uid, failing).value;
      forall i :: 0 <= i < |list| ==> BadgeAsWritten(list[i].unreadCount) == StrayText("0")
  {
    Conversations.FetchEntriesAgree(db, uid, failing);
  }

  /** The badge as intended: shown only for a positive count, reading "9+" above nine. */
  function BadgeOf(unreadCount: Option<int>): BadgeSlot
  {
    if unreadCount.Some? && unreadCount.value > 0 then
      Badge(if unreadCount.value > 9 then "9+" else NatToString(unreadCount.value))
    else Empty
  }

  /** The badge appears exactly for a positive count, never as stray text; it reads "9+" above nine
      and otherwise the count itself. The two versions differ only on a count of 0. */
  lemma BadgeSpec(unreadCount: Option<int>)
    ensures !BadgeOf(unreadCount).StrayText?
    ensures BadgeOf(unreadCount).Badge? <==> unreadCount.Some? && unreadCount.value > 0
    ensures BadgeOf(unreadCount).Badge? && unreadCount.value > 9 ==> BadgeOf(unreadCount).caption == "9+"
    ensures BadgeOf(unreadCount).Badge? && unreadCount.value <= 9 ==>
      var l := BadgeOf(unreadCount).caption;
      |l| == 1 && ParseDigits(l) == unreadCount.value
    ensures BadgeAsWritten(unreadCount) == BadgeOf(unreadCount) <==> unreadCount != Some(0)
  {
    if unreadCount.Some? && 0 < unreadCount.value <= 9 {
      NatToStringRoundTrip(unreadCount.value);
    }
  }
}
