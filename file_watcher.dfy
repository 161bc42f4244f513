/** lib/core/fileWatcher.ts: a debounced watcher. Each change, add or unlink
    event cancels the pending timer and schedules a new one 300 ms later; the
    timer calls `onChange` and swallows what it throws. The chokidar
    subscription is the `watching` flag, the event loop's clock is the `now`
    parameter, and `setTimeout`/`clearTimeout` are the `timer` slot. */
module FileWatcher {
  import opened Wrappers

  /** The debounce delay, fixed in the source. */
  const Delay: int := 300

  /** A `setTimeout` handle: when it is due and whether it has already run.
      The source never clears the field after the timer runs, so a spent
      handle stays in the slot until the next event or `stop`. */
  datatype Timer = Timer(due: int, fired: bool)

  datatype WatcherState = WatcherState(watching: bool, timer: Option<Timer>)

  const Fresh := WatcherState(false, None)

  /** A timer is waiting to run. */
  predicate Pending(s: WatcherState)
  {
    s.timer.Some? && !s.timer.value.fired
  }

  /** No timer waits while nothing is watched. */
  predicate Inv(s: WatcherState)
  {
    !s.watching ==> s.timer == None
  }

  /** `stop`: close the subscription, cancel and drop the timer. */
  function Stopped(s: WatcherState): (r: WatcherState)
    ensures !r.watching && r.timer == None
  {
    WatcherState(false, None)
  }

  /** `start`: a running watcher is stopped first, then a new subscription opens. */
  function Started(s: WatcherState): (r: WatcherState)
    ensures r.watching
    ensures r.timer == if s.watching then None else s.timer
  {
    var t := if s.watching then Stopped(s) else s;
    WatcherState(true, t.timer)
  }

  /** `handleFileChange`: cancel the pending timer, schedule one at `now + 300`. */
  function Changed(s: WatcherState, now: int): (r: WatcherState)
    ensures r.watching == s.watching
    ensures Pending(r) && r.timer.value.due == now + Delay
  {
    WatcherState(s.watching, Some(Timer(now + Delay, false)))
  }

  /** The clock reaches `now`: a pending timer that is due runs `onChange`.
      Whatever `onChange` throws is caught, so the watcher stays as it was. */
  function Ticked(s: WatcherState, now: int): (r: (WatcherState, bool))
    ensures r.1 <==> Pending(s) && s.timer.value.due <= now
    ensures r.0.watching == s.watching
    ensures !r.1 ==> r.0 == s
    ensures r.1 ==> r.0.timer == Some(Timer(s.timer.value.due, true))
  {
    if Pending(s) && s.timer.value.due <= now then
      (WatcherState(s.watching, Some(Timer(s.timer.value.due, true))), true)
    else (s, false)
  }

  /** What can happen to a watcher. File events reach `handleFileChange` only
      through the subscription, so they are lost while nothing is watched. */
  datatype Event = StartEvent | StopEvent | FileEvent(at: int) | ClockEvent(at: int)

  /** One event: the new state and whether `onChange` ran. */
  function Step(s: WatcherState, e: Event): (WatcherState, bool)
  {
    match e
    case StartEvent => (Started(s), false)
    case StopEvent => (Stopped(s), false)
    case FileEvent(t) => (if s.watching then Changed(s, t) else s, false)
    case ClockEvent(t) => Ticked(s, t)
  }

  /** A run of events: the final state and the clock readings at which
      `onChange` ran. */
  function Run(s: WatcherState, es: seq<Event>): (WatcherState, seq<int>)
    decreases es
  {
    if es == [] then (s, [])
    else
      var (s1, fired) := Step(s, es[0]);
      var (s2, calls) := Run(s1, es[1..]);
      (s2, (if fired then [es[0].at] else []) + calls)
  }

  /** Every event keeps the invariant: no timer can run once stopped. */
  lemma StepInv(s: WatcherState, e: Event)
    requires Inv(s)
    ensures Inv(Step(s, e).0)
  {
    match e
    case StartEvent =>
    case StopEvent =>
    case FileEvent(t) =>
    case ClockEvent(t) =>
  }

  lemma {:induction false} RunInv(s: WatcherState, es: seq<Event>)
    requires Inv(s)
    ensures Inv(Run(s, es).0)
    decreases es
  {
    if es != [] {
      StepInv(s, es[0]);
      RunInv(Step(s, es[0]).0, es[1..]);
    }
  }

  /** After `stop`, file events and the passing of time call nothing. */
  lemma {:induction false} StoppedStaysSilent(s: WatcherState, es: seq<Event>)
    requires !s.watching && s.timer == None
    requires forall i :: 0 <= i < |es| ==> es[i].FileEvent? || es[i].ClockEvent?
    ensures Run(s, es).1 == []
    ensures Run(s, es).0 == s
    decreases es
  {
    if es != [] {
      assert es[0].FileEvent? || es[0].ClockEvent?;
      assert Step(s, es[0]) == (s, false);
      StoppedStaysSilent(s, es[1..]);
    }
  }

  /** File events at the times `ts`, the clock reaching each of them first,
      and then the clock reaching `last`. */
  function Burst(ts: seq<int>, last: int): seq<Event>
  {
    if ts == [] then [ClockEvent(last)]
    else [ClockEvent(ts[0]), FileEvent(ts[0])] + Burst(ts[1..], last)
  }

  /** Debounce: events less than 300 ms apart run `onChange` exactly once, when
      the clock reaches 300 ms after the last of them; no earlier timer runs in
      between, however the earlier timers were scheduled. */
  lemma {:induction false} BurstFiresOnce(s: WatcherState, ts: seq<int>, last: int)
    requires s.watching && |ts| >= 1
    requires forall i :: 0 < i < |ts| ==> ts[i - 1] <= ts[i] < ts[i - 1] + Delay
    requires Pending(s) ==> ts[0] < s.timer.value.due
    requires last >= ts[|ts| - 1] + Delay
    ensures Run(s, Burst(ts, last)).1 == [last]
    decreases ts
  {
    var es := Burst(ts, last);
    var s1 := Changed(s, ts[0]);
    assert Step(s, es[0]) == (s, false);
    assert es[1..][0] == FileEvent(ts[0]);
    assert Step(s, es[1..][0]) == (s1, false);
    var rest := Burst(ts[1..], last);
    assert es[1..][1..] == rest;
    if |ts| == 1 {
      assert rest == [ClockEvent(last)];
      assert Step(s1, ClockEvent(last)).1;
      assert Run(s1, rest).1 == [last] + Run(Step(s1, ClockEvent(last)).0, []).1;
    } else {
      BurstFiresOnce(s1, ts[1..], last);
    }
    assert Run(s1, rest).1 == [last];
    assert Run(s, es[1..]).1 == Run(s1, rest).1;
    assert Run(s, es).1 == Run(s, es[1..]).1;
  }

  /** The watcher object: the subscription flag and the timer slot. */
  class FileWatcher {
    var watching: bool
    var timer: Option<Timer>

    function State(): WatcherState
      reads this
    {
      WatcherState(watching, timer)
    }

    predicate Valid()
      reads this
    {
      Inv(State())
    }

    constructor()
      ensures State() == Fresh && Valid()
    {
      watching := false;
      timer := None;
    }

    /** `start`. */
    method Start()
      modifies this
      requires Valid()
      ensures State() == Started(old(State())) && Valid()
      ensures watching && timer == None
    {
      if watching {
        Stop();
      }
      watching := true;
    }

    /** `stop`: idempotent; afterwards nothing is watched or scheduled. */
    method Stop()
      modifies this
      ensures State() == Stopped(old(State())) && Valid()
    {
      if watching {
        watching := false;
      }
      if timer.Some? {
        timer := None;
      }
    }

    /** `handleFileChange`, called by the subscription. */
    method HandleFileChange(path: string, now: int)
      modifies this
      requires watching
      ensures State() == Changed(old(State()), now) && Valid()
    {
      timer := Some(Timer(now + Delay, false));
    }

    /** The event loop reaching `now`: runs the debounced callback when due. */
    method Tick(now: int) returns (fired: bool)
      modifies this
      requires Valid()
      ensures (State(), fired) == Ticked(old(State()), now) && Valid()
    {
      fired := false;
      if timer.Some? && !timer.value.fired && timer.value.due <= now {
        timer := Some(Timer(timer.value.due, true));
        fired := true;
      }
    }
  }
}
