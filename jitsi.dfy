/** The video-call session: the room name cleaned for the call service, and the flags the hook keeps
    while a call starts, runs and ends. The call service itself is outside the model: its handle is
    a flag, its events are method calls, and whether it starts is a parameter. */
module Jitsi {
  import opened Wrappers
  import opened Seqs
  import opened ChatTypes
  import ChatPanel

  /** The characters a room name keeps: ASCII letters, digits and '-'. */
  predicate AllowedRoomChar(c: char)
  {
    ('a' <= c <= 'z') || ('A' <= c <= 'Z') || ('0' <= c <= '9') || c == '-'
  }

  function Allowed(): char -> bool
  {
    (c: char) => AllowedRoomChar(c)
  }

  /** `roomName.replace(/[^a-zA-Z0-9-]/g, '')`. */
  function Sanitize(roomName: string): string
  {
    Filter(roomName, Allowed())
  }

  predicate IsClean(roomName: string)
  {
    forall k :: 0 <= k < |roomName| ==> AllowedRoomChar(roomName[k])
  }

  /** The cleaned name holds only allowed characters, keeps every allowed character of the name and no
      other, in order; cleaning twice is cleaning once, and a clean name is left as it is. */
  lemma SanitizeSpec(roomName: string)
    ensures IsClean(Sanitize(roomName))
    ensures forall c :: c in Sanitize(roomName) <==> c in roomName && AllowedRoomChar(c)
    ensures IsSubsequence(Sanitize(roomName), roomName)
    ensures Sanitize(Sanitize(roomName)) == Sanitize(roomName)
    ensures IsClean(roomName) ==> Sanitize(roomName) == roomName
  {
    forall c ensures c in Sanitize(roomName) <==> c in roomName && AllowedRoomChar(c) {
      FilterIn(roomName, Allowed(), c);
    }
    FilterFilter(roomName, Allowed(), Allowed());
    if IsClean(roomName) {
      FilterAll(roomName, Allowed());
    }
  }

  /** The chat panel's room for a conversation whose id is clean (as the store's UUIDs are) reaches the
      call service unchanged, so two such conversations never share a call. */
  lemma CleanIdsKeepRoomsApart(a: ConversationWithDetails, b: ConversationWithDetails)
    requires IsClean(a.conversation.id) && IsClean(b.conversation.id)
    ensures Sanitize(ChatPanel.RoomName(Some(a))) == ChatPanel.RoomName(Some(a))
    ensures Sanitize(ChatPanel.RoomName(Some(a))) == Sanitize(ChatPanel.RoomName(Some(b))) <==> a.conversation.id == b.conversation.id
  {
    var ra := ChatPanel.RoomName(Some(a));
    var rb := ChatPanel.RoomName(Some(b));
    assert IsClean(ChatPanel.RoomPrefix);
    assert IsClean(ra) by {
      forall k | 0 <= k < |ra| ensures AllowedRoomChar(ra[k]) {
        if k >= |ChatPanel.RoomPrefix| {
          assert ra[k] == a.conversation.id[k - |ChatPanel.RoomPrefix|];
        }
      }
    }
    assert IsClean(rb) by {
      forall k | 0 <= k < |rb| ensures AllowedRoomChar(rb[k]) {
        if k >= |ChatPanel.RoomPrefix| {
          assert rb[k] == b.conversation.id[k - |ChatPanel.RoomPrefix|];
        }
      }
    }
    SanitizeSpec(ra);
    SanitizeSpec(rb);
    ChatPanel.RoomNameInjective(a, b);
  }

  const ContainerNotReady: string := "Container not ready"
  const ScriptLoadFailed: string := "Failed to load Jitsi script"
  const StartFailed: string := "Failed to start call"

  /** How starting the call service ends: it starts, its script fails to load, or creating the call
      throws, with the thrown error's message when it is an `Error`. */
  datatype Startup = Started | ScriptFailed | Threw(message: Option<string>)

  /** The message recorded for a failed start. */
  function FailureMessage(startup: Startup): string
    requires !startup.Started?
  {
    match startup
    case ScriptFailed => ScriptLoadFailed
    case Threw(message) => if message.Some? then message.value else StartFailed
  }

  /** The hook's flags, whether it holds a handle on a call, the room the last call was started in,
      and the commands sent to the call service. */
  datatype CallState = CallState(
    isLoading: bool,
    isInCall: bool,
    error: Option<string>,
    hasApi: bool,
    room: Option<string>,
    commands: seq<string>,
    disposals: nat)

  function Initial(): CallState
  {
    CallState(false, false, None, false, None, [], 0)
  }

  /** `startCall`: refused with an error when the container is not mounted; otherwise loading with the
      error cleared, then either a handle on the call in the cleaned room, or the failure's message and
      loading off. */
  function Start(s: CallState, containerReady: bool, roomName: string, startup: Startup): CallState
  {
    if !containerReady then s.(error := Some(ContainerNotReady))
    else if !startup.Started? then s.(isLoading := false, error := Some(FailureMessage(startup)))
    else s.(isLoading := true, error := None, hasApi := true, room := Some(Sanitize(roomName)))
  }

  /** Releasing the handle, when there is one. */
  function Dispose(s: CallState): CallState
  {
    if s.hasApi then s.(hasApi := false, disposals := s.disposals + 1) else s
  }

  /** `videoConferenceJoined`. */
  function Joined(s: CallState): CallState
  {
    s.(isLoading := false, isInCall := true)
  }

  /** `videoConferenceLeft` and `readyToClose`: out of the call, handle released. */
  function Left(s: CallState): CallState
  {
    Dispose(s.(isInCall := false))
  }

  /** `endCall`: with a handle, ask the service to hang up (the handle is released half a second
      later by `EndTimerFired`); without one, nothing. */
  function Hangup(s: CallState): CallState
  {
    if s.hasApi then s.(commands := s.commands + ["hangup"]) else s
  }

  /** The half-second timer `endCall` sets. */
  function EndTimerFired(s: CallState): CallState
  {
    Dispose(s).(isInCall := false)
  }

  /** The hook is only in a call while it holds a handle on it. */
  predicate Valid(s: CallState)
  {
    s.isInCall ==> s.hasApi
  }

  /** A refused start only records that the container is missing; a failed start ends loading and
      records the script failure, the thrown error's message, or the generic message for a thrown
      non-error; a successful one clears the error, takes a handle and remembers the cleaned room. */
  lemma StartSpec(s: CallState, containerReady: bool, roomName: string, startup: Startup)
    ensures var r := Start(s, containerReady, roomName, startup);
      && (!containerReady ==> r == s.(error := Some(ContainerNotReady)) && r.isLoading == s.isLoading)
      && (containerReady && startup == ScriptFailed ==> !r.isLoading && r.error == Some(ScriptLoadFailed) && r.hasApi == s.hasApi)
      && (containerReady && startup.Threw? ==> !r.isLoading && r.error.Some? && r.hasApi == s.hasApi)
      && (containerReady && startup.Started? ==> r.isLoading && r.error.None? && r.hasApi && IsClean(r.room.value))
      && (r.error.Some? <==> !containerReady || !startup.Started?)
      && (containerReady && !startup.Started? ==> r == s.(isLoading := false, error := Some(FailureMessage(startup))))
      && (containerReady && startup.Threw? && startup.message.Some? ==> r.error == Some(startup.message.value))
      && (containerReady && startup.Threw? && startup.message.None? ==> r.error == Some(StartFailed))
      && (containerReady && startup.Started? ==>
            r == s.(isLoading := true, error := None, hasApi := true, room := Some(Sanitize(roomName))))
  {
    SanitizeSpec(roomName);
  }

  /** Every transition keeps the hook's invariant; joining needs a handle, as only a started call
      raises that event. */
  lemma TransitionsKeepValid(s: CallState, containerReady: bool, roomName: string, startup: Startup)
    requires Valid(s)
    ensures Valid(Start(s, containerReady, roomName, startup))
    ensures s.hasApi ==> Valid(Joined(s))
    ensures Valid(Left(s)) && !Left(s).isInCall && !Left(s).hasApi
    ensures Valid(Hangup(s))
    ensures Valid(EndTimerFired(s)) && !EndTimerFired(s).isInCall && !EndTimerFired(s).hasApi
  {
  }

  /** Hanging up a running call sends one "hangup", and when the timer fires the call is over and its
      handle released exactly once; without a call, ending does nothing. */
  lemma EndCallSequence(s: CallState)
    ensures !s.hasApi ==> Hangup(s) == s
    ensures s.hasApi ==>
      var r := EndTimerFired(Hangup(s));
      && r.commands == s.commands + ["hangup"]
      && !r.isInCall && !r.hasApi
      && r.disposals == s.disposals + 1
  {
  }

  /** A handle is released at most once: leaving after the timer has fired releases nothing more. */
  lemma DisposeOnce(s: CallState)
    ensures Left(EndTimerFired(s)).disposals == EndTimerFired(s).disposals
    ensures Dispose(Dispose(s)) == Dispose(s)
  {
  }

  class CallSession {
    var containerReady: bool
    var isLoading: bool
    var isInCall: bool
    var error: Option<string>
    var hasApi: bool
    var room: Option<string>
    var commands: seq<string>
    var disposals: nat

    function State(): CallState
      reads this
    {
      CallState(isLoading, isInCall, error, hasApi, room, commands, disposals)
    }

    constructor ()
      ensures State() == Initial() && !containerReady
      ensures Valid(State())
    {
      containerReady := false;
      isLoading := false;
      isInCall := false;
      error := None;
      hasApi := false;
      room := None;
      commands := [];
      disposals := 0;
    }

    /** The container element mounting (or unmounting). */
    method SetContainer(ready: bool)
      modifies this`containerReady
      ensures containerReady == ready
    {
      containerReady := ready;
    }

    method StartCall(roomName: string, startup: Startup)
      modifies this
      ensures containerReady == old(containerReady)
      ensures State() == Start(old(State()), old(containerReady), roomName, startup)
      ensures Valid(old(State())) ==> Valid(State())
    {
      if !containerReady {
        error := Some(ContainerNotReady);
        return;
      }
      isLoading := true;
      error := None;
      if !startup.Started? {
        error := Some(FailureMessage(startup));
        isLoading := false;
        return;
      }
      var clean := Sanitize(roomName);
      room := Some(clean);
      hasApi := true;
    }

    /** `videoConferenceJoined`: the listener is registered on the handle, so the event only arrives
        while one is held. */
    method OnConferenceJoined()
      requires hasApi
      modifies this`isLoading, this`isInCall
      ensures State() == Joined(old(State()))
      ensures Valid(State())
    {
      isLoading := false;
      isInCall := true;
    }

    /** `videoConferenceLeft` or `readyToClose`. */
    method OnConferenceLeft()
      modifies this`isInCall, this`hasApi, this`disposals
      ensures State() == Left(old(State()))
      ensures Valid(State())
    {
      isInCall := false;
      if hasApi {
        disposals := disposals + 1;
        hasApi := false;
      }
    }

    method EndCall()
      modifies this`commands
      ensures State() == Hangup(old(State()))
      ensures Valid(old(State())) ==> Valid(State())
    {
      if hasApi {
        commands := commands + ["hangup"];
      }
    }

    method OnEndTimer()
      modifies this`isInCall, this`hasApi, this`disposals
      ensures State() == EndTimerFired(old(State()))
      ensures Valid(State())
    {
      if hasApi {
        disposals := disposals + 1;
        hasApi := false;
      }
      isInCall := false;
    }

    /** The hook's cleanup on unmount: the handle is released. The session ends here, so `Valid` is not
        promised afterwards. */
    method Unmount()
      modifies this`hasApi, this`disposals
      ensures State() == Dispose(old(State()))
    {
      if hasApi {
        disposals := disposals + 1;
        hasApi := false;
      }
    }
  }
}
