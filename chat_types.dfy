/** The rows of the chat store and the joined views the hooks build from them
    (src/lib/supabase-types.ts). Field names follow the columns in camelCase;
    timestamps are milliseconds since the epoch. */
module ChatTypes {
  import opened Wrappers

  type Id = string
  type Millis = int

  /** `Profile.status`: exactly one of four presence values. */
  datatype Status = Online | Offline | Away | Busy

  function StatusName(s: Status): (r: string)
    ensures r in {"online", "offline", "away", "busy"}
  {
    match s
    case Online => "online"
    case Offline => "offline"
    case Away => "away"
    case Busy => "busy"
  }

  /** Reads a stored status column; any other text is not a status. */
  function ParseStatus(t: string): (r: Option<Status>)
    ensures r.Some? <==> t in {"online", "offline", "away", "busy"}
    ensures r.Some? ==> StatusName(r.value) == t
  {
    if t == "online" then Some(Online)
    else if t == "offline" then Some(Offline)
    else if t == "away" then Some(Away)
    else if t == "busy" then Some(Busy)
    else None
  }

  lemma StatusRoundTrip(s: Status)
    ensures ParseStatus(StatusName(s)) == Some(s)
  {
  }

  datatype Profile = Profile(
    id: Id,
    userId: Id,
    displayName: string,
    avatarUrl: Option<string>,
    status: Status,
    lastSeen: Millis,
    createdAt: Millis,
    updatedAt: Millis)

  /** The limited profile shape: identity, name and avatar only. */
  datatype SearchableProfile = SearchableProfile(userId: Id, displayName: string, avatarUrl: Option<string>)

  /** The searchable shape of a full profile: the same three fields, unchanged. */
  function ToSearchable(p: Profile): (r: SearchableProfile)
    ensures r.userId == p.userId && r.displayName == p.displayName && r.avatarUrl == p.avatarUrl
  {
    SearchableProfile(p.userId, p.displayName, p.avatarUrl)
  }

  /** `Conversation.type`. */
  datatype ConversationKind = Private | Group

  function KindName(k: ConversationKind): (r: string)
    ensures r in {"private", "group"}
  {
    match k
    case Private => "private"
    case Group => "group"
  }

  function ParseKind(t: string): (r: Option<ConversationKind>)
    ensures r.Some? <==> t in {"private", "group"}
    ensures r.Some? ==> KindName(r.value) == t
  {
    if t == "private" then Some(Private) else if t == "group" then Some(Group) else None
  }

  datatype Conversation = Conversation(
    id: Id,
    kind: ConversationKind,
    name: Option<string>,
    avatarUrl: Option<string>,
    createdBy: Option<Id>,
    createdAt: Millis,
    updatedAt: Millis)

  /** `ConversationMember.role`. */
  datatype Role = Admin | Member

  function RoleName(r: Role): (t: string)
    ensures t in {"admin", "member"}
  {
    match r
    case Admin => "admin"
    case Member => "member"
  }

  function ParseRole(t: string): (r: Option<Role>)
    ensures r.Some? <==> t in {"admin", "member"}
    ensures r.Some? ==> RoleName(r.value) == t
  {
    if t == "admin" then Some(Admin) else if t == "member" then Some(Member) else None
  }

  datatype ConversationMember = ConversationMember(
    id: Id,
    conversationId: Id,
    userId: Id,
    role: Role,
    joinedAt: Millis)

  /** `Message.message_type`. */
  datatype MessageType = Text | Image | File | System

  function MessageTypeName(m: MessageType): (t: string)
    ensures t in {"text", "image", "file", "system"}
  {
    match m
    case Text => "text"
    case Image => "image"
    case File => "file"
    case System => "system"
  }

  function ParseMessageType(t: string): (r: Option<MessageType>)
    ensures r.Some? <==> t in {"text", "image", "file", "system"}
    ensures r.Some? ==> MessageTypeName(r.value) == t
  {
    if t == "text" then Some(Text)
    else if t == "image" then Some(Image)
    else if t == "file" then Some(File)
    else if t == "system" then Some(System)
    else None
  }

  datatype Message = Message(
    id: Id,
    conversationId: Id,
    senderId: Id,
    content: string,
    messageType: MessageType,
    readBy: seq<Id>,
    createdAt: Millis,
    updatedAt: Millis)

  datatype TypingIndicator = TypingIndicator(
    id: Id,
    conversationId: Id,
    userId: Id,
    isTyping: bool,
    updatedAt: Millis)

  /** A membership row joined to its member's profile; the profile is absent when none was found. */
  datatype MemberWithProfile = MemberWithProfile(member: ConversationMember, profile: Option<Profile>)

  /** A message joined to its sender's profile; the sender is absent when none was found. */
  datatype MessageWithSender = MessageWithSender(message: Message, sender: Option<Profile>)

  /** A conversation with its members, its newest message and an unread count. */
  datatype ConversationWithDetails = ConversationWithDetails(
    conversation: Conversation,
    members: seq<MemberWithProfile>,
    lastMessage: Option<MessageWithSender>,
    unreadCount: Option<int>)
}
