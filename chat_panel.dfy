/** What the chat panel derives from the open conversation: the call room, the header's name and
    subtitle, the grouping of consecutive messages and the typing line. */
module ChatPanel {
  import opened Wrappers
  import opened Seqs
  import opened Text
  import opened ChatTypes
  import TypingIndicator

  const RoomPrefix: string := "flowchat-"

  /** Messages from one sender closer together than this are shown as one group. */
  const GroupingWindowMs: int := 60000

  /** The call room of the open conversation, or "" when none is open. */
  function RoomName(conversation: Option<ConversationWithDetails>): string
  {
    if conversation.Some? then RoomPrefix + conversation.value.conversation.id else ""
  }

  /** Two open conversations share a room exactly when they have the same id, and a room is never "". */
  lemma RoomNameInjective(a: ConversationWithDetails, b: ConversationWithDetails)
    ensures RoomName(Some(a)) == RoomName(Some(b)) <==> a.conversation.id == b.conversation.id
    ensures RoomName(Some(a)) != ""
  {
    var ra := RoomName(Some(a));
    var rb := RoomName(Some(b));
    if ra == rb {
      assert a.conversation.id == ra[|RoomPrefix|..];
      assert b.conversation.id == rb[|RoomPrefix|..];
    }
    assert |ra| > 0;
  }

  /** A member that is not the signed-in user; with nobody signed in every member qualifies. */
  function NotSelf(user: Option<Id>): MemberWithProfile -> bool
  {
    (m: MemberWithProfile) => user.None? || m.member.userId != user.value
  }

  /** The other party of a private conversation: its first member that is not the user. */
  function OtherMember(c: ConversationWithDetails, user: Option<Id>): Option<MemberWithProfile>
  {
    if c.conversation.kind == Private then Find(c.members, NotSelf(user)) else None
  }

  /** A group has no other member; a private conversation's is the first member that is not the user,
      and there is none only when every member (if any) is the user. */
  lemma OtherMemberSpec(c: ConversationWithDetails, user: Option<Id>)
    ensures c.conversation.kind == Group ==> OtherMember(c, user).None?
    ensures c.conversation.kind == Private ==>
      && (OtherMember(c, user).None? <==> forall j :: 0 <= j < |c.members| ==> user.Some? && c.members[j].member.userId == user.value)
      && (OtherMember(c, user).Some? ==>
            exists k :: 0 <= k < |c.members| && c.members[k] == OtherMember(c, user).value
              && (user.None? || c.members[k].member.userId != user.value)
              && forall j :: 0 <= j < k ==> user.Some? && c.members[j].member.userId == user.value)
  {
  }

  /** A string shown in its place when it is empty (JavaScript's `s || fallback`). */
  function OrElse(s: string, fallback: string): string
  {
    if s == "" then fallback else s
  }

  /** The header title: a group's name or "Group Chat"; the other member's display name or "Unknown User". */
  function DisplayName(c: ConversationWithDetails, user: Option<Id>): string
  {
    if c.conversation.kind == Group then
      OrElse(if c.conversation.name.Some? then c.conversation.name.value else "", "Group Chat")
    else
      var other := OtherMember(c, user);
      OrElse(if other.Some? && other.value.profile.Some? then other.value.profile.value.displayName else "", "Unknown User")
  }

  /** The title is never empty; a named group shows its name, and a private conversation shows its
      other member's display name whenever that is known and not empty. */
  lemma DisplayNameSpec(c: ConversationWithDetails, user: Option<Id>)
    ensures DisplayName(c, user) != ""
    ensures c.conversation.kind == Group ==>
      DisplayName(c, user) == (if c.conversation.name.Some? && c.conversation.name.value != "" then c.conversation.name.value else "Group Chat")
    ensures c.conversation.kind == Private ==>
      var other := OtherMember(c, user);
      DisplayName(c, user) ==
        (if other.Some? && other.value.profile.Some? && other.value.profile.value.displayName != ""
         then other.value.profile.value.displayName else "Unknown User")
  {
  }

  /** The line under the title: the member count of a group; whether the other party is online. */
  function Subtitle(c: ConversationWithDetails, user: Option<Id>): string
  {
    if c.conversation.kind == Group then NatToString(|c.members|) + " members"
    else
      var other := OtherMember(c, user);
      if other.Some? && other.value.profile.Some? && other.value.profile.value.status == Online then "Online" else "Offline"
  }

  /** A private conversation reads "Online" exactly when its other member's profile is online; a
      group's subtitle ends in " members" after the count's digits. */
  lemma SubtitleSpec(c: ConversationWithDetails, user: Option<Id>)
    ensures c.conversation.kind == Private ==>
      (Subtitle(c, user) == "Online" <==>
        OtherMember(c, user).Some? && OtherMember(c, user).value.profile.Some? && OtherMember(c, user).value.profile.value.status == Online)
    ensures c.conversation.kind == Private ==> Subtitle(c, user) in {"Online", "Offline"}
    ensures c.conversation.kind == Group ==>
      var t := Subtitle(c, user);
      var digits := NatToString(|c.members|);
      t == digits + " members" && ParseDigits(t[..|digits|]) == |c.members|
  {
    if c.conversation.kind == Group {
      var digits := NatToString(|c.members|);
      assert Subtitle(c, user)[..|digits|] == digits;
      NatToStringRoundTrip(|c.members|);
    }
  }

  /** A message shown under the previous one without repeating the sender: same sender, less than a
      minute later (an earlier timestamp counts as less). The first message is never grouped. */
  predicate IsGrouped(messages: seq<MessageWithSender>, i: nat)
    requires i < |messages|
  {
    i > 0
    && messages[i - 1].message.senderId == messages[i].message.senderId
    && messages[i].message.createdAt - messages[i - 1].message.createdAt < GroupingWindowMs
  }

  datatype GroupedMessage = GroupedMessage(message: MessageWithSender, isGrouped: bool)

  /** `groupedMessages`: each message with whether it is grouped with the one before. */
  function GroupMessages(messages: seq<MessageWithSender>): (r: seq<GroupedMessage>)
    ensures |r| == |messages|
  {
    seq(|messages|, i requires 0 <= i < |messages| => GroupedMessage(messages[i], IsGrouped(messages, i)))
  }

  function Ungroup(g: seq<GroupedMessage>): seq<MessageWithSender>
  {
    seq(|g|, i requires 0 <= i < |g| => g[i].message)
  }

  /** Grouping keeps every message in place, never groups the first, and groups a message exactly
      when the one before is from the same sender less than a minute earlier. */
  lemma GroupMessagesSpec(messages: seq<MessageWithSender>)
    ensures Ungroup(GroupMessages(messages)) == messages
    ensures |messages| > 0 ==> !GroupMessages(messages)[0].isGrouped
    ensures forall i :: 1 <= i < |messages| ==>
      (GroupMessages(messages)[i].isGrouped <==>
        messages[i - 1].message.senderId == messages[i].message.senderId
        && messages[i].message.createdAt - messages[i - 1].message.createdAt < GroupingWindowMs)
  {
  }

  /** A message shows its sender's avatar in a group, or when it starts a group. */
  function ShowAvatar(kind: ConversationKind, g: GroupedMessage): bool
  {
    kind == Group || !g.isGrouped
  }

  /** In a private conversation an avatar is shown exactly where a group of messages starts, so the
      first message always has one. */
  lemma ShowAvatarSpec(kind: ConversationKind, messages: seq<MessageWithSender>)
    ensures forall i :: 0 <= i < |messages| ==>
      (ShowAvatar(kind, GroupMessages(messages)[i]) <==> kind == Group || !IsGrouped(messages, i))
    ensures |messages| > 0 ==> ShowAvatar(kind, GroupMessages(messages)[0])
  {
  }

  function DisplayNames(users: seq<Profile>): (r: seq<string>)
    ensures |r| == |users|
  {
    seq(|users|, k requires 0 <= k < |users| => users[k].displayName)
  }

  /** The typing line shown under the messages for the users typing. */
  function TypingLine(typingUsers: seq<Profile>): Option<string>
  {
    TypingIndicator.DisplayText(DisplayNames(typingUsers))
  }

  /** A typing line is shown exactly when someone types, and it begins with the first typist's name. */
  lemma TypingLineSpec(typingUsers: seq<Profile>)
    ensures TypingLine(typingUsers).None? <==> |typingUsers| == 0
    ensures |typingUsers| > 0 ==> StartsWith(TypingLine(typingUsers).value, typingUsers[0].displayName)
  {
    TypingIndicator.DisplayTextShape(DisplayNames(typingUsers));
  }
}
