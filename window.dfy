/** The window's event loop (src/gfx/window.rs): input events are buffered in arrival
    order, and each `MainEventsCleared` runs every whole fixed tick that has accumulated,
    handing each `update` the same buffered inputs, then renders once.

    Durations are nanoseconds. The wall clock is not read: the time `now` at which
    `MainEventsCleared` is handled is a parameter. The `update` and `render` closures
    and the clearing of the buffer are recorded as a ghost trace of actions. */
module WindowLoop {
  import opened Wrappers
  import opened GameInput
  import Events

  /** `TICK_DUR`: 250 ms. */
  const TICK_DUR: nat := 250_000_000

  /** winit's ControlFlow; `WaitUntil` is never written by the loop and is left out. */
  datatype ControlFlow = Poll | Wait | Exit

  /** winit's top-level Event. */
  datatype Event =
    | NewEvents
    | WindowEvent(we: Events.WindowEvent)
    | DeviceEvent(de: Events.DeviceEvent)
    | UserEvent
    | Suspended
    | Resumed
    | MainEventsCleared
    | RedrawRequested
    | RedrawEventsCleared
    | LoopDestroyed

  /** What the loop does that the outside can observe: an `update(dt, inputs)` call,
      the clearing of the input buffer, a `render()` call. */
  datatype Action = Update(dt: nat, inputs: seq<Input>) | ClearInputs | Render

  // ----- The tick arithmetic of one cycle -----

  /** The number of times `while exec_time > TICK_DUR` runs from accumulated time `e`. */
  function TickCount(e: nat): (n: nat)
    ensures n > 0 <==> e > TICK_DUR
    ensures n * TICK_DUR < e || e == 0
  {
    if e > TICK_DUR then 1 + TickCount(e - TICK_DUR) else 0
  }

  /** The accumulated time left after those ticks. */
  function Carry(e: nat): (c: nat)
    ensures c <= e && c <= TICK_DUR
    ensures c > 0 <==> e > 0
    ensures e <= TICK_DUR ==> c == e
  {
    if e > TICK_DUR then Carry(e - TICK_DUR) else e
  }

  /** Time is conserved, and what is carried is at most one tick (positive unless
      nothing had accumulated). */
  lemma {:induction false} TickConservation(e: nat)
    ensures Carry(e) + TickCount(e) * TICK_DUR == e
    ensures Carry(e) <= TICK_DUR
    ensures e > 0 <==> Carry(e) > 0
  {
    if e > TICK_DUR {
      TickConservation(e - TICK_DUR);
    }
  }

  /** With the strict test, `e` accumulated nanoseconds give max(0, ceil(e / TICK_DUR) - 1)
      ticks, i.e. (e - 1) / TICK_DUR of them. */
  lemma TickCountClosedForm(e: nat)
    ensures TickCount(e) == if e == 0 then 0 else (e - 1) / TICK_DUR
  {
    TickConservation(e);
    if e > 0 {
      var k, c := TickCount(e), Carry(e);
      assert e - 1 == k * TICK_DUR + (c - 1) && 0 <= c - 1 < TICK_DUR;
    }
  }

  /** Exactly one tick's worth of time runs no tick; one nanosecond more runs one. */
  lemma BoundaryTick()
    ensures TickCount(TICK_DUR) == 0 && Carry(TICK_DUR) == TICK_DUR
    ensures TickCount(TICK_DUR + 1) == 1 && Carry(TICK_DUR + 1) == 1
  {
  }

  /** Splitting elapsed time across two cycles changes neither the total number of
      ticks nor what is finally carried. */
  lemma {:induction false} TickSplit(a: nat, b: nat)
    ensures TickCount(a) + TickCount(Carry(a) + b) == TickCount(a + b)
    ensures Carry(Carry(a) + b) == Carry(a + b)
  {
    if a > TICK_DUR {
      TickSplit(a - TICK_DUR, b);
      assert a + b - TICK_DUR == (a - TICK_DUR) + b;
    }
  }

  /** `n` calls `update(TICK_DUR, inputs)`. */
  function Updates(n: nat, inputs: seq<Input>): seq<Action>
  {
    seq(n, _ => Update(TICK_DUR, inputs))
  }

  /** What one `MainEventsCleared` does when `e` nanoseconds have accumulated and
      `inputs` are buffered: the ticks, a clear after the last of them, and one render. */
  function CycleActions(e: nat, inputs: seq<Input>): (acts: seq<Action>)
    ensures |acts| > 0 && acts[|acts| - 1] == Render
    ensures ClearInputs in acts <==> e > TICK_DUR
    ensures acts[0] == if e > TICK_DUR then Update(TICK_DUR, inputs) else Render
  {
    Updates(TickCount(e), inputs) + (if TickCount(e) > 0 then [ClearInputs] else []) + [Render]
  }

  /** Every tick of a cycle gets `TICK_DUR` and the same inputs; the buffer is cleared
      exactly once, right after the last tick, and only if a tick ran; render comes
      once, last. */
  lemma CycleActionsShape(e: nat, inputs: seq<Input>)
    ensures var acts := CycleActions(e, inputs);
      && |acts| == TickCount(e) + (if TickCount(e) > 0 then 2 else 1)
      && (forall i :: 0 <= i < TickCount(e) ==> acts[i] == Update(TICK_DUR, inputs))
      && (TickCount(e) > 0 ==> acts[TickCount(e)] == ClearInputs)
      && acts[|acts| - 1] == Render
      && (forall i :: 0 <= i < |acts| - 1 ==> acts[i] != Render)
      && (forall i, j :: 0 <= i < j < |acts| && acts[i] == ClearInputs ==> acts[j] == Render)
  {
  }

  // ----- The loop's state and how each event changes it -----

  /** The fields of `Window` that the event closure reads and writes, together with
      the control flow it sets. */
  datatype LoopState = LoopState(
    currTime: nat,
    execTime: nat,
    inputBuffer: seq<Input>,
    controlFlow: ControlFlow)

  /** The input that an event pushes onto the buffer, if any. */
  function Pushed(ev: Event): Option<Input>
  {
    match ev
    case WindowEvent(we) => if we.CloseRequested? then None else Events.FromWindow(we)
    case DeviceEvent(de) => Events.FromDevice(de)
    case _ => None
  }

  function PushedSeq(ev: Event): seq<Input>
  {
    if Pushed(ev).Some? then [Pushed(ev).value] else []
  }

  /** The state after the closure has handled `ev`, with the clock reading `now` when
      `MainEventsCleared` is handled. `duration_since(..).unwrap()` panics on a clock
      that went backwards, hence the precondition. */
  function Handle(s: LoopState, ev: Event, now: nat): (t: LoopState)
    requires ev.MainEventsCleared? ==> s.currTime <= now
    ensures t.controlFlow == (if ev == WindowEvent(Events.CloseRequested) then Exit else Poll)
    ensures ev.MainEventsCleared? ==>
      && t.currTime == now && t.execTime <= TICK_DUR
      && t.execTime <= s.execTime + (now - s.currTime)
      && (t.inputBuffer == [] || t.inputBuffer == s.inputBuffer)
    ensures !ev.MainEventsCleared? ==>
      && t.currTime == s.currTime && t.execTime == s.execTime
      && |s.inputBuffer| <= |t.inputBuffer| <= |s.inputBuffer| + 1
      && t.inputBuffer[..|s.inputBuffer|] == s.inputBuffer
  {
    if ev.MainEventsCleared? then
      var e := s.execTime + (now - s.currTime);
      LoopState(now, Carry(e), if TickCount(e) > 0 then [] else s.inputBuffer, Poll)
    else
      LoopState(s.currTime, s.execTime, s.inputBuffer + PushedSeq(ev),
                if ev == WindowEvent(Events.CloseRequested) then Exit else Poll)
  }

  /** The actions the closure performs while handling `ev`. */
  function HandleActions(s: LoopState, ev: Event, now: nat): (acts: seq<Action>)
    requires ev.MainEventsCleared? ==> s.currTime <= now
    ensures acts != [] <==> ev.MainEventsCleared?
    ensures Render in acts <==> ev.MainEventsCleared?
    ensures acts != [] ==> acts[|acts| - 1] == Render
  {
    if ev.MainEventsCleared? then CycleActions(s.execTime + (now - s.currTime), s.inputBuffer) else []
  }

  /** Only a close request exits, and it pushes nothing; every other event leaves the
      loop polling. */
  lemma CloseRequestExits(s: LoopState, ev: Event, now: nat)
    requires ev.MainEventsCleared? ==> s.currTime <= now
    ensures Handle(s, ev, now).controlFlow == Exit <==> ev == WindowEvent(Events.CloseRequested)
    ensures Handle(s, ev, now).controlFlow != Exit ==> Handle(s, ev, now).controlFlow == Poll
    ensures ev == WindowEvent(Events.CloseRequested) ==> Handle(s, ev, now) == s.(controlFlow := Exit)
  {
  }

  /** After a cycle, at most one tick is carried, and time is conserved:
      new `exec_time` + ticks * `TICK_DUR` = old `exec_time` + elapsed. A tick runs
      exactly when more than `TICK_DUR` has accumulated; then the buffer is emptied,
      otherwise it carries over unchanged. */
  lemma CycleConservesTime(s: LoopState, now: nat)
    requires s.currTime <= now
    ensures var t := Handle(s, MainEventsCleared, now);
      && t.currTime == now
      && t.execTime <= TICK_DUR
      && t.execTime + TickCount(s.execTime + (now - s.currTime)) * TICK_DUR
           == s.execTime + (now - s.currTime)
      && (TickCount(s.execTime + (now - s.currTime)) > 0 <==> s.execTime + (now - s.currTime) > TICK_DUR)
      && t.inputBuffer == (if s.execTime + (now - s.currTime) > TICK_DUR then [] else s.inputBuffer)
  {
    TickConservation(s.execTime + (now - s.currTime));
  }

  /** Events other than `MainEventsCleared` handled one after another. */
  function Feed(s: LoopState, evs: seq<Event>): LoopState
    requires forall i :: 0 <= i < |evs| ==> !evs[i].MainEventsCleared?
    decreases |evs|
  {
    if evs == [] then s else Feed(Handle(s, evs[0], 0), evs[1..])
  }

  /** The inputs these events translate to, in arrival order. */
  function Arrivals(evs: seq<Event>): seq<Input>
    decreases |evs|
  {
    if evs == [] then [] else PushedSeq(evs[0]) + Arrivals(evs[1..])
  }

  /** Between cycles, inputs are appended in arrival order, events that translate to
      nothing leave the buffer alone, and the clock is not touched. */
  lemma {:induction false} InputsInArrivalOrder(s: LoopState, evs: seq<Event>)
    requires forall i :: 0 <= i < |evs| ==> !evs[i].MainEventsCleared?
    ensures Feed(s, evs).inputBuffer == s.inputBuffer + Arrivals(evs)
    ensures Feed(s, evs).currTime == s.currTime && Feed(s, evs).execTime == s.execTime
    decreases |evs|
  {
    if evs != [] {
      var s' := Handle(s, evs[0], 0);
      InputsInArrivalOrder(s', evs[1..]);
      assert s.inputBuffer + PushedSeq(evs[0]) + Arrivals(evs[1..])
          == s.inputBuffer + (PushedSeq(evs[0]) + Arrivals(evs[1..]));
    }
  }

  /** The clock readings of successive cycles never go backwards. */
  predicate Monotone(t: nat, nows: seq<nat>)
    ensures Monotone(t, nows) && nows != [] ==> t <= nows[|nows| - 1]
    decreases |nows|
  {
    nows == [] || (t <= nows[0] && Monotone(nows[0], nows[1..]))
  }

  /** Successive `MainEventsCleared` at the given clock readings. */
  function Cycles(s: LoopState, nows: seq<nat>): LoopState
    requires Monotone(s.currTime, nows)
    decreases |nows|
  {
    if nows == [] then s else Cycles(Handle(s, MainEventsCleared, nows[0]), nows[1..])
  }

  /** The number of `update` calls those cycles make. */
  function CyclesTicks(s: LoopState, nows: seq<nat>): nat
    requires Monotone(s.currTime, nows)
    decreases |nows|
  {
    if nows == [] then 0
    else TickCount(s.execTime + (nows[0] - s.currTime))
         + CyclesTicks(Handle(s, MainEventsCleared, nows[0]), nows[1..])
  }

  /** Replayability of the tick count: over any run of cycles, the number of ticks and
      the time finally carried depend only on the total time elapsed, not on when the
      cycles happened. */
  lemma {:induction false} TicksDependOnTotalTime(s: LoopState, nows: seq<nat>)
    requires nows != [] && Monotone(s.currTime, nows)
    ensures var total := s.execTime + (nows[|nows| - 1] - s.currTime);
      CyclesTicks(s, nows) == TickCount(total) && Cycles(s, nows).execTime == Carry(total)
    decreases |nows|
  {
    var e := s.execTime + (nows[0] - s.currTime);
    var s' := Handle(s, MainEventsCleared, nows[0]);
    if |nows| > 1 {
      TicksDependOnTotalTime(s', nows[1..]);
      assert nows[1..][|nows[1..]| - 1] == nows[|nows| - 1];
      assert Monotone(nows[0], nows[1..]);
      TickSplit(e, nows[|nows| - 1] - nows[0]);
      assert e + (nows[|nows| - 1] - nows[0]) == s.execTime + (nows[|nows| - 1] - s.currTime);
    }
  }

  /** Cycles at 0, 260 ms and 600 ms: one tick at 260 ms, one more at 600 ms,
      and 100 ms carried. */
  lemma ThreeCycleScenario()
    ensures var s := LoopState(0, 0, [], Poll);
      var nows := [0, 260_000_000, 600_000_000];
      CyclesTicks(s, nows) == 2 && Cycles(s, nows).execTime == 100_000_000
  {
    var s := LoopState(0, 0, [], Poll);
    var nows := [0, 260_000_000, 600_000_000];
    assert Monotone(0, nows) by {
      assert Monotone(260_000_000, [600_000_000]);
    }
    assert TickCount(600_000_000) == 2 && Carry(600_000_000) == 100_000_000 by {
      assert TickCount(100_000_000) == 0 && Carry(100_000_000) == 100_000_000;
      assert TickCount(350_000_000) == 1 && Carry(350_000_000) == 100_000_000;
    }
    TicksDependOnTotalTime(s, nows);
  }

  // ----- The window object -----

  /** `Window`, reduced to the state its event closure keeps. */
  class Window {
    var currTime: nat
    var execTime: nat
    var inputBuffer: seq<Input>
    var controlFlow: ControlFlow
    /** Every `update`, clear and `render` so far, in order. */
    ghost var actions: seq<Action>

    function State(): LoopState
      reads this
    {
      LoopState(currTime, execTime, inputBuffer, controlFlow)
    }

    /** `Window::new` with the clock reading `now`: nothing accumulated, nothing buffered. */
    constructor (now: nat)
      ensures State() == LoopState(now, 0, [], Poll)
      ensures actions == []
    {
      currTime, execTime, inputBuffer, controlFlow := now, 0, [], Poll;
      actions := [];
    }

    /** The `MainEventsCleared` arm: add the elapsed time, drain whole ticks with the
        strict test, clear the buffer on the last tick, render. */
    method Cycle(now: nat)
      requires currTime <= now
      modifies this
      ensures var e := old(execTime) + (now - old(currTime));
        && currTime == now
        && execTime == Carry(e)
        && inputBuffer == (if TickCount(e) > 0 then [] else old(inputBuffer))
        && controlFlow == old(controlFlow)
        && actions == old(actions) + CycleActions(e, old(inputBuffer))
    {
      execTime := execTime + (now - currTime);
      currTime := now;
      ghost var e := execTime;
      ghost var inputs := inputBuffer;
      ghost var before := actions;
      ghost var n := 0;
      while execTime > TICK_DUR
        invariant currTime == now && controlFlow == old(controlFlow)
        invariant n + TickCount(execTime) == TickCount(e)
        invariant Carry(execTime) == Carry(e)
        invariant execTime > TICK_DUR ==> inputBuffer == inputs && actions == before + Updates(n, inputs)
        invariant execTime <= TICK_DUR && n == 0 ==> inputBuffer == inputs && actions == before
        invariant execTime <= TICK_DUR && n > 0 ==>
          inputBuffer == [] && actions == before + Updates(n, inputs) + [ClearInputs]
        decreases execTime
      {
        actions := actions + [Update(TICK_DUR, inputBuffer)];
        assert Updates(n, inputs) + [Update(TICK_DUR, inputs)] == Updates(n + 1, inputs);
        execTime := execTime - TICK_DUR;
        if execTime <= TICK_DUR {
          inputBuffer := [];
          actions := actions + [ClearInputs];
        }
        n := n + 1;
      }
      actions := actions + [Render];
    }

    /** The event closure passed to `event_loop.run`. */
    method HandleEvent(ev: Event, now: nat)
      requires ev.MainEventsCleared? ==> currTime <= now
      modifies this
      ensures State() == Handle(old(State()), ev, now)
      ensures actions == old(actions) + HandleActions(old(State()), ev, now)
    {
      controlFlow := Poll;
      match ev {
        case WindowEvent(we) =>
          if we.CloseRequested? {
            controlFlow := Exit;
          } else {
            var i := Events.FromWindow(we);
            if i.Some? {
              inputBuffer := inputBuffer + [i.value];
            }
          }
        case DeviceEvent(de) =>
          var i := Events.FromDevice(de);
          if i.Some? {
            inputBuffer := inputBuffer + [i.value];
          }
        case MainEventsCleared =>
          Cycle(now);
        case _ =>
      }
    }
  }
}
