/** The message composer: the text being typed, the debounced "typing" announcements sent to the
    conversation, and sending on click or Enter. Time is a parameter (`now`, in milliseconds); a
    pending stop timer is its deadline, and a `Tick(now)` event is the clock reaching `now`. */
module Composer {
  import opened Wrappers
  import opened Text
  import opened ChatTypes

  /** Milliseconds without input after which typing is announced as stopped. */
  const TypingTimeoutMs: int := 2000

  /** The props the component is rendered with: whether an `onTyping` callback is given, and `disabled`. */
  datatype ComposerProps = ComposerProps(hasOnTyping: bool, disabled: bool)

  /** A call the composer makes to its parent: `onTyping(b)` or `onSendMessage(content)`. */
  datatype ComposerCall = Typing(isTyping: bool) | SendMessage(content: string)

  /** The text, the deadline of the pending stop timer if any, and every call made so far. */
  datatype ComposerState = ComposerState(message: string, timer: Option<Millis>, calls: seq<ComposerCall>)

  /** Something that happens to the composer. */
  datatype ComposerEvent =
    | InputChange(value: string, at: Millis)
    | Tick(at: Millis)
    | SendClick
    | KeyDown(key: string, shift: bool)

  /** What holds between events: a timer is only ever pending when there is a typing callback and
      right after announcing typing, and without a callback no typing call is ever made. */
  predicate Valid(props: ComposerProps, s: ComposerState)
  {
    && (s.timer.Some? ==> props.hasOnTyping && |s.calls| > 0 && s.calls[|s.calls| - 1] == Typing(true))
    && (!props.hasOnTyping ==> forall k :: 0 <= k < |s.calls| ==> s.calls[k].SendMessage?)
  }

  function Initial(): ComposerState
  {
    ComposerState("", None, [])
  }

  /** `handleInputChange`: store the text; with a callback, announce typing and replace any pending
      stop timer by one due `TypingTimeoutMs` from now. */
  function Input(props: ComposerProps, s: ComposerState, value: string, now: Millis): ComposerState
  {
    if props.hasOnTyping then
      ComposerState(value, Some(now + TypingTimeoutMs), s.calls + [Typing(true)])
    else
      s.(message := value)
  }

  /** The clock reaching `now`: a stop timer whose deadline has passed fires `onTyping(false)`. */
  function Clock(s: ComposerState, now: Millis): ComposerState
  {
    if s.timer.Some? && s.timer.value <= now then
      s.(timer := None, calls := s.calls + [Typing(false)])
    else
      s
  }

  /** `handleSend`: ignored when the trimmed text is empty or the composer is disabled; otherwise the
      untrimmed text is sent, the text cleared, typing announced as stopped and the timer cancelled. */
  function Send(props: ComposerProps, s: ComposerState): ComposerState
  {
    if IsBlank(s.message) || props.disabled then s
    else
      var stop := if props.hasOnTyping then [Typing(false)] else [];
      ComposerState("", None, s.calls + [SendMessage(s.message)] + stop)
  }

  /** Enter without Shift sends (and suppresses the newline); any other key is left to the text area. */
  predicate SendsOnKey(key: string, shift: bool)
  {
    key == "Enter" && !shift
  }

  function Step(props: ComposerProps, s: ComposerState, e: ComposerEvent): ComposerState
  {
    match e
    case InputChange(value, at) => Input(props, s, value, at)
    case Tick(at) => Clock(s, at)
    case SendClick => Send(props, s)
    case KeyDown(key, shift) => if SendsOnKey(key, shift) then Send(props, s) else s
  }

  function Run(props: ComposerProps, s: ComposerState, events: seq<ComposerEvent>): ComposerState
    decreases |events|
  {
    if |events| == 0 then s else Run(props, Step(props, s, events[0]), events[1..])
  }

  /** Every event keeps the composer's invariant. */
  lemma StepValid(props: ComposerProps, s: ComposerState, e: ComposerEvent)
    requires Valid(props, s)
    ensures Valid(props, Step(props, s, e))
  {
    var r := Step(props, s, e);
    if !props.hasOnTyping {
      forall k | 0 <= k < |r.calls| ensures r.calls[k].SendMessage? {
        if k < |s.calls| {
          assert r.calls[k] == s.calls[k];
        }
      }
    }
  }

  /** The invariant holds after any sequence of events from the initial state. */
  lemma {:induction false} RunValid(props: ComposerProps, s: ComposerState, events: seq<ComposerEvent>)
    requires Valid(props, s)
    ensures Valid(props, Run(props, s, events))
    decreases |events|
  {
    if |events| > 0 {
      StepValid(props, s, events[0]);
      RunValid(props, Step(props, s, events[0]), events[1..]);
    }
  }

  /** Events never take back a call: the calls made so far stay a prefix. */
  lemma {:induction false} RunExtendsCalls(props: ComposerProps, s: ComposerState, events: seq<ComposerEvent>)
    ensures var r := Run(props, s, events); |s.calls| <= |r.calls| && r.calls[..|s.calls|] == s.calls
    decreases |events|
  {
    if |events| > 0 {
      var s1 := Step(props, s, events[0]);
      assert |s.calls| <= |s1.calls| && s1.calls[..|s.calls|] == s.calls;
      RunExtendsCalls(props, s1, events[1..]);
    }
  }

  /** Input announces typing at once with a callback and makes no call without one. */
  lemma InputAnnouncesTyping(props: ComposerProps, s: ComposerState, value: string, now: Millis)
    ensures var r := Input(props, s, value, now);
      && r.message == value
      && (props.hasOnTyping ==> r.calls == s.calls + [Typing(true)] && r.timer == Some(now + TypingTimeoutMs))
      && (!props.hasOnTyping ==> r.calls == s.calls && r.timer == s.timer)
  {
  }

  /** After an input at `t0` and no other input, the clock announces the stop exactly when it reaches
      `t0 + TypingTimeoutMs`, and never without a callback. */
  lemma StopOnlyAfterQuiet(props: ComposerProps, s: ComposerState, value: string, t0: Millis, t: Millis)
    ensures var s1 := Input(props, s, value, t0);
      var r := Clock(s1, t);
      props.hasOnTyping ==>
        && (t < t0 + TypingTimeoutMs ==> r == s1)
        && (t >= t0 + TypingTimeoutMs ==> r.calls == s1.calls + [Typing(false)] && r.timer.None? && r.message == value)
  {
  }

  /** Two quick inputs leave one pending timer, due after the later one; the earlier deadline fires
      nothing. */
  lemma InputRestartsTimer(props: ComposerProps, s: ComposerState, v1: string, t1: Millis, v2: string, t2: Millis)
    requires props.hasOnTyping && t1 < t2 < t1 + TypingTimeoutMs
    ensures var s2 := Input(props, Input(props, s, v1, t1), v2, t2);
      && s2.timer == Some(t2 + TypingTimeoutMs)
      && Clock(s2, t1 + TypingTimeoutMs) == s2
  {
  }

  /** Sending changes nothing exactly when the text is blank or the composer is disabled; otherwise
      the untrimmed text is the one sent, followed by the stop announcement when there is a callback,
      and the composer is left empty with no timer. */
  lemma SendSpec(props: ComposerProps, s: ComposerState)
    ensures var r := Send(props, s);
      && (IsBlank(s.message) || props.disabled ==> r == s)
      && (!IsBlank(s.message) && !props.disabled ==>
            && r.message == "" && r.timer.None? && r != s
            && |r.calls| > |s.calls| && r.calls[|s.calls|] == SendMessage(s.message)
            && r.calls[..|s.calls|] == s.calls
            && (props.hasOnTyping <==> r.calls[|r.calls| - 1] == Typing(false)))
  {
  }

  /** Enter without Shift is a send; Shift+Enter or another key changes nothing. */
  lemma KeyDownSpec(props: ComposerProps, s: ComposerState, key: string, shift: bool)
    ensures SendsOnKey(key, shift) ==> Step(props, s, KeyDown(key, shift)) == Send(props, s)
    ensures !SendsOnKey(key, shift) ==> Step(props, s, KeyDown(key, shift)) == s
    ensures SendsOnKey(key, shift) <==> key == "Enter" && !shift
  {
  }

  class MessageComposer {
    const props: ComposerProps
    var message: string
    var timer: Option<Millis>
    var calls: seq<ComposerCall>

    function State(): ComposerState
      reads this
    {
      ComposerState(message, timer, calls)
    }

    constructor (props: ComposerProps)
      ensures this.props == props && State() == Initial() && Valid(props, State())
    {
      this.props := props;
      message := "";
      timer := None;
      calls := [];
    }

    method HandleInputChange(value: string, now: Millis)
      requires Valid(props, State())
      modifies this
      ensures State() == Step(props, old(State()), InputChange(value, now))
      ensures Valid(props, State())
    {
      StepValid(props, State(), InputChange(value, now));
      message := value;
      if props.hasOnTyping {
        calls := calls + [Typing(true)];
        timer := Some(now + TypingTimeoutMs);
      }
    }

    /** The clock reaching `now`: the pending timer's callback runs if it is due. */
    method AdvanceClock(now: Millis)
      requires Valid(props, State())
      modifies this
      ensures State() == Step(props, old(State()), ComposerEvent.Tick(now))
      ensures Valid(props, State())
    {
      StepValid(props, State(), ComposerEvent.Tick(now));
      if timer.Some? && timer.value <= now {
        timer := None;
        calls := calls + [Typing(false)];
      }
    }

    method HandleSend()
      requires Valid(props, State())
      modifies this
      ensures State() == Step(props, old(State()), SendClick)
      ensures Valid(props, State())
    {
      StepValid(props, State(), SendClick);
      if IsBlank(message) || props.disabled {
        return;
      }
      var sent := calls + [SendMessage(message)];
      if props.hasOnTyping {
        sent := sent + [Typing(false)];
      }
      calls, message, timer := sent, "", None;
    }

    /** Returns whether the key's default action (a newline) is prevented. */
    method HandleKeyDown(key: string, shift: bool) returns (prevented: bool)
      requires Valid(props, State())
      modifies this
      ensures prevented <==> SendsOnKey(key, shift)
      ensures State() == Step(props, old(State()), KeyDown(key, shift))
      ensures Valid(props, State())
    {
      prevented := SendsOnKey(key, shift);
      if prevented {
        HandleSend();
      }
    }
  }
}
