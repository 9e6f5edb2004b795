/**
 * The debounced text input of components/Input.tsx. Every keyup calls
 * `startedTyping`, cancels the timer it scheduled last and schedules a new
 * one; when a timer fires, `stoppedTyping` receives the keyup event that
 * scheduled it. Time is not modelled: the browser's pending timers are a
 * list, and a timer firing is an event naming it.
 */
module DebouncedInput {
  import opened Base

  /** A keyboard event; `value` is the text of the input when it was raised. */
  datatype KeyEvent = KeyEvent(value: string, stamp: nat)

  /** A scheduled `setTimeout(doneTyping, delay, e)`. */
  datatype Timer = Timer(id: nat, delay: int, event: KeyEvent)

  /** The props that shape the behaviour; the callbacks are only "given or not". */
  datatype InputProps = InputProps(doneTypingInterval: Option<int>, hasStartedTyping: bool, hasStoppedTyping: bool)

  /**
   * The component's `typingTimer` state, the browser's pending timers, the
   * next timer id, and what the two callbacks have been called with.
   */
  datatype InputState = InputState(typingTimer: Option<nat>, timers: seq<Timer>, nextId: nat,
                                   started: seq<KeyEvent>, stopped: seq<KeyEvent>)

  const DefaultInterval := 1000

  /** `doneTypingInterval || 1000` */
  function Delay(interval: Option<int>): (d: int)
    ensures interval.None? || interval == Some(0) ==> d == DefaultInterval
    ensures interval.Some? && interval.value != 0 ==> d == interval.value
  {
    if interval.None? || interval.value == 0 then DefaultInterval else interval.value
  }

  const Initial := InputState(None, [], 0, [], [])

  /** `clearTimeout(id)`: the pending timers without that id. */
  function Cleared(timers: seq<Timer>, id: Option<nat>): (r: seq<Timer>)
    ensures forall t :: t in r <==> t in timers && (id.None? || t.id != id.value)
  {
    var keep := (t: Timer) => id.None? || t.id != id.value;
    forall t ensures t in Keep(timers, keep) <==> t in timers && keep(t) {
      KeepMembership(timers, keep, t);
    }
    Keep(timers, keep)
  }

  /** `onKeyUp`: `startedTyping(e)`, `clearTimeout(typingTimer)`, then a new timer for `e`. */
  function KeyUp(p: InputProps, s: InputState, e: KeyEvent): InputState {
    InputState(Some(s.nextId),
               Cleared(s.timers, s.typingTimer) + [Timer(s.nextId, Delay(p.doneTypingInterval), e)],
               s.nextId + 1,
               s.started + (if p.hasStartedTyping then [e] else []),
               s.stopped)
  }

  /** `onKeyDown`: `startedTyping(e)` directly. */
  function KeyDown(p: InputProps, s: InputState, e: KeyEvent): InputState {
    s.(started := s.started + (if p.hasStartedTyping then [e] else []))
  }

  /** Index of the pending timer with that id, or -1 when it was cleared, already fired or never existed. */
  function PendingIndex(timers: seq<Timer>, id: nat): (k: int)
    ensures -1 <= k < |timers|
    ensures k == -1 <==> forall i :: 0 <= i < |timers| ==> timers[i].id != id
    ensures k >= 0 ==> timers[k].id == id
  {
    if timers == [] then -1
    else if timers[0].id == id then 0
    else
      var k := PendingIndex(timers[1..], id);
      if k == -1 then -1 else k + 1
  }

  /** The browser runs timer `id`: a pending one is removed and calls `stoppedTyping` with its event. */
  function Fire(p: InputProps, s: InputState, id: nat): InputState {
    var k := PendingIndex(s.timers, id);
    if k < 0 then s
    else s.(timers := s.timers[..k] + s.timers[k + 1..],
            stopped := s.stopped + (if p.hasStoppedTyping then [s.timers[k].event] else []))
  }

  /** At most one timer is pending, and it is the one `typingTimer` names. */
  ghost predicate Inv(s: InputState) {
    && |s.timers| <= 1
    && (|s.timers| == 1 ==> s.typingTimer == Some(s.timers[0].id))
    && (s.typingTimer.Some? ==> s.typingTimer.value < s.nextId)
  }

  lemma InitialInv()
    ensures Inv(Initial)
  {
  }

  /** A keyup leaves exactly one timer pending: the new one, for this event. */
  lemma KeyUpKeepsOneTimer(p: InputProps, s: InputState, e: KeyEvent)
    requires Inv(s)
    ensures Inv(KeyUp(p, s, e))
    ensures KeyUp(p, s, e).timers == [Timer(s.nextId, Delay(p.doneTypingInterval), e)]
  {
    var c := Cleared(s.timers, s.typingTimer);
    assert forall t :: t !in c;
  }

  lemma FireKeepsInv(p: InputProps, s: InputState, id: nat)
    requires Inv(s)
    ensures Inv(Fire(p, s, id))
  {
  }

  /** A keydown only reports the start of typing. */
  lemma KeyDownKeepsInv(p: InputProps, s: InputState, e: KeyEvent)
    requires Inv(s)
    ensures Inv(KeyDown(p, s, e)) && KeyDown(p, s, e).timers == s.timers
  {
  }

  /**
   * Of two keyups in a row, only the second reaches `stoppedTyping`: the first
   * one's timer was cleared, so firing it does nothing, while firing the
   * second reports the second event.
   */
  lemma {:induction false} OnlyLastKeyUpFires(p: InputProps, s: InputState, e1: KeyEvent, e2: KeyEvent)
    requires Inv(s)
    ensures var s2 := KeyUp(p, KeyUp(p, s, e1), e2);
            Fire(p, s2, s.nextId) == s2
            && Fire(p, s2, s.nextId + 1).stopped == s.stopped + (if p.hasStoppedTyping then [e2] else [])
            && Fire(p, s2, s.nextId + 1).timers == []
  {
    var s1 := KeyUp(p, s, e1);
    KeyUpKeepsOneTimer(p, s, e1);
    KeyUpKeepsOneTimer(p, s1, e2);
  }

  /** The component together with the browser's timer queue. */
  class Input {
    const props: InputProps
    var typingTimer: Option<nat>
    var timers: seq<Timer>
    var nextId: nat
    var started: seq<KeyEvent>
    var stopped: seq<KeyEvent>

    function State(): InputState
      reads this
    {
      InputState(typingTimer, timers, nextId, started, stopped)
    }

    ghost predicate Valid()
      reads this
    {
      Inv(State())
    }

    constructor (props: InputProps)
      ensures this.props == props && State() == Initial && Valid()
    {
      this.props := props;
      typingTimer, timers, nextId, started, stopped := None, [], 0, [], [];
    }

    method Typing(e: KeyEvent)
      requires Valid()
      modifies this
      ensures Valid() && State() == KeyUp(props, old(State()), e)
      ensures timers == [Timer(old(nextId), Delay(props.doneTypingInterval), e)]
    {
      KeyUpKeepsOneTimer(props, State(), e);
      if props.hasStartedTyping {
        started := started + [e];
      }
      timers := Cleared(timers, typingTimer);
      timers := timers + [Timer(nextId, Delay(props.doneTypingInterval), e)];
      typingTimer := Some(nextId);
      nextId := nextId + 1;
    }

    method OnKeyDown(e: KeyEvent)
      requires Valid()
      modifies this
      ensures Valid() && State() == KeyDown(props, old(State()), e)
    {
      if props.hasStartedTyping {
        started := started + [e];
      }
    }

    /** The event loop runs the timer with this id. */
    method TimerElapsed(id: nat) returns (fired: bool)
      requires Valid()
      modifies this
      ensures Valid() && State() == Fire(props, old(State()), id)
      ensures fired <==> exists i :: 0 <= i < |old(timers)| && old(timers)[i].id == id
    {
      FireKeepsInv(props, State(), id);
      var k := PendingIndex(timers, id);
      if k < 0 {
        return false;
      }
      if props.hasStoppedTyping {
        stopped := stopped + [timers[k].event];
      }
      timers := timers[..k] + timers[k + 1..];
      return true;
    }
  }
}
