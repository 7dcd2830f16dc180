/** The two gates that make shutdown safe: the engine's `Run` with dynamically added devices,
    and the control server's tracked handlers. Both must never register work after they
    began to wait for it. */
module ShutdownGates {
  import opened Shared

  /** One polling loop: the device it polls and the run it belongs to. */
  datatype Loop = Loop(name: string, run: nat)

  /** A call of `Run`: until its context is cancelled, while it waits for its loops, after the
      wait, and returned. */
  datatype RunStage = Polling | Draining | Joined | Returned

  /** `tally` is the wait group's counter of the current run; `current` is the run whose
      context and wait group the engine holds. */
  datatype Gate = Gate(
    running: bool,
    stopping: bool,
    current: Option<nat>,
    tally: nat,
    devices: set<string>,
    loops: multiset<Loop>,
    runs: map<nat, RunStage>,
    cancelled: set<nat>)

  datatype GateStep =
    | Start(r: nat)
    | Cancel(r: nat)
    | CloseGate(r: nat)
    | WaitReturns(r: nat)
    | Release(r: nat)
    | Add(name: string, saved: bool)
    | LoopEnds(l: Loop)

  const NEW_GATE := Gate(false, false, None, 0, {}, multiset{}, map[], {})

  predicate CanStep(g: Gate, a: GateStep) {
    match a
    case Start(r) => r !in g.runs
    case Cancel(r) => r in g.runs
    case CloseGate(r) => r in g.runs && g.runs[r] == Polling && r in g.cancelled
    case WaitReturns(r) => r in g.runs && g.runs[r] == Draining && g.tally == 0
    case Release(r) => r in g.runs && g.runs[r] == Joined
    case Add(name, saved) => true
    case LoopEnds(l) => l in g.loops && l.run in g.cancelled
  }

  function LoopsFor(devices: set<string>, r: nat): set<Loop> {
    set name | name in devices :: Loop(name, r)
  }

  /** A second `Run` is refused while one runs or stops. */
  function DoStart(g: Gate, r: nat): Gate {
    if g.running || g.stopping then g.(runs := g.runs[r := Returned])
    else g.(running := true, current := Some(r), tally := |g.devices|,
            loops := g.loops + multiset(LoopsFor(g.devices, r)), runs := g.runs[r := Polling])
  }

  /** A device added while the engine runs gets its loop at once. */
  function DoAdd(g: Gate, name: string, saved: bool): Gate {
    if name in g.devices || !saved then g
    else
      var g1 := g.(devices := g.devices + {name});
      if g.running && g.current.Some?
      then g1.(tally := g.tally + 1, loops := g.loops + multiset{Loop(name, g.current.value)}) else g1
  }

  function Step(g: Gate, a: GateStep): Gate
    requires CanStep(g, a)
  {
    match a
    case Start(r) => DoStart(g, r)
    case Cancel(r) => g.(cancelled := g.cancelled + {r})
    case CloseGate(r) => g.(running := false, stopping := true, runs := g.runs[r := Draining])
    case WaitReturns(r) => g.(runs := g.runs[r := Joined])
    case Release(r) => g.(stopping := false, current := None, runs := g.runs[r := Returned])
    case Add(name, saved) => DoAdd(g, name, saved)
    case LoopEnds(l) => g.(loops := g.loops - multiset{l}, tally := if g.tally > 0 then g.tally - 1 else 0)
  }

  /** A device joins exactly when it is new and could be saved; otherwise nothing changes. */
  lemma JoinsIffSaved(g: Gate, name: string, saved: bool)
    ensures var g' := Step(g, Add(name, saved));
            && (name in g'.devices <==> name in g.devices || saved)
            && (name in g.devices || !saved ==> g' == g)
            && g'.devices - {name} == g.devices - {name}
  {}

  /** The engine's flags tell which run, if any, has not returned. */
  predicate Flagged(g: Gate) {
    && (g.running ==> !g.stopping && g.current.Some? && g.current.value in g.runs && g.runs[g.current.value] == Polling)
    && (g.stopping ==> g.current.Some? && g.current.value in g.runs && g.runs[g.current.value] in {Draining, Joined})
    && (!g.running && !g.stopping ==> g.current.None?)
    && (forall r :: r in g.runs && g.runs[r] != Returned ==> g.current == Some(r))
  }

  /** Every loop belongs to the current run, is counted, and is the only one of its device. */
  predicate Counted(g: Gate) {
    && g.tally == |g.loops|
    && (forall l :: l in g.loops ==> g.current == Some(l.run) && l.name in g.devices && g.loops[l] == 1)
    && (g.current.Some? && g.current.value in g.runs && g.runs[g.current.value] == Joined ==> g.loops == multiset{})
    && (g.running && g.current.Some? && g.current.value !in g.cancelled ==>
          forall name :: name in g.devices ==> Loop(name, g.current.value) in g.loops)
  }

  predicate GateOk(g: Gate) {
    Flagged(g) && Counted(g) && (g.current.None? ==> g.loops == multiset{}) && g.cancelled <= g.runs.Keys
  }

  lemma {:induction false} LoopsForSize(devices: set<string>, r: nat)
    ensures |LoopsFor(devices, r)| == |devices|
    decreases |devices|
  {
    if devices != {} {
      var name :| name in devices;
      LoopsForSize(devices - {name}, r);
      assert LoopsFor(devices, r) == LoopsFor(devices - {name}, r) + {Loop(name, r)};
    }
  }

  lemma LoopsForEnds(devices: set<string>, r: nat)
    ensures LoopsFor(devices - devices, r) == {}
  {}

  lemma LoopsForNext(devices: set<string>, todo: set<string>, name: string, r: nat)
    requires name in todo && todo <= devices
    ensures multiset(LoopsFor(devices - (todo - {name}), r)) ==
            multiset(LoopsFor(devices - todo, r)) + multiset{Loop(name, r)}
    ensures |todo - {name}| == |todo| - 1
  {
    assert LoopsFor(devices - (todo - {name}), r) == LoopsFor(devices - todo, r) + {Loop(name, r)};
  }

  lemma StartKeepsOk(g: Gate, r: nat)
    requires GateOk(g) && r !in g.runs
    ensures GateOk(DoStart(g, r))
  {
    LoopsForSize(g.devices, r);
  }

  lemma AddKeepsOk(g: Gate, name: string, saved: bool)
    requires GateOk(g)
    ensures GateOk(DoAdd(g, name, saved))
  {}

  /** Every step keeps the gate in order. */
  lemma StepKeepsOk(g: Gate, a: GateStep)
    requires GateOk(g) && CanStep(g, a)
    ensures GateOk(Step(g, a))
  {
    hide LoopsFor;
    match a
    case Start(r) => StartKeepsOk(g, r);
    case Add(name, saved) => AddKeepsOk(g, name, saved);
    case WaitReturns(r) => assert g.loops == multiset{};
    case _ =>
  }

  predicate GateRun(gates: seq<Gate>, steps: seq<GateStep>) {
    && |gates| == |steps| + 1 && gates[0] == NEW_GATE
    && forall i :: 0 <= i < |steps| ==> CanStep(gates[i], steps[i]) && gates[i + 1] == Step(gates[i], steps[i])
  }

  lemma {:induction false} RunKeepsOk(gates: seq<Gate>, steps: seq<GateStep>, n: nat)
    requires GateRun(gates, steps) && n < |gates|
    ensures GateOk(gates[n])
  {
    hide GateOk, CanStep, Step;
    if n > 0 {
      RunKeepsOk(gates, steps, n - 1);
      StepKeepsOk(gates[n - 1], steps[n - 1]);
    } else {
      NewGateOk();
    }
  }

  lemma NewGateOk()
    ensures GateOk(NEW_GATE)
  {}

  /** In every interleaving of runs, additions and cancellations: no two runs overlap, each
      device has at most one loop, and none belongs to a run that has returned or stopped
      waiting. */
  lemma RunsNeverOverlap(gates: seq<Gate>, steps: seq<GateStep>, n: nat, q: nat, r: nat, name: string)
    requires GateRun(gates, steps) && n < |gates|
    ensures var g := gates[n];
            && (q in g.runs && r in g.runs && g.runs[q] != Returned && g.runs[r] != Returned ==> q == r)
            && (Loop(name, q) in g.loops && Loop(name, r) in g.loops ==> q == r && g.loops[Loop(name, q)] == 1)
            && (Loop(name, r) in g.loops ==> r in g.runs && g.runs[r] in {Polling, Draining})
  {
    hide GateRun;
    RunKeepsOk(gates, steps, n);
  }

  /** While a run polls and is not cancelled, every device has its loop, also one added since. */
  lemma EveryDeviceIsPolled(gates: seq<Gate>, steps: seq<GateStep>, n: nat, r: nat, name: string)
    requires GateRun(gates, steps) && n < |gates|
    requires r in gates[n].runs && gates[n].runs[r] == Polling && r !in gates[n].cancelled && name in gates[n].devices
    ensures Loop(name, r) in gates[n].loops
  {
    hide GateRun;
    RunKeepsOk(gates, steps, n);
  }

  /** Once a run waits, no step registers a loop with it, and it never polls again. */
  lemma NothingRegistersDuringWait(g: Gate, a: GateStep, r: nat, name: string)
    requires GateOk(g) && CanStep(g, a) && r in g.runs && g.runs[r] != Polling
    ensures Step(g, a).loops[Loop(name, r)] <= g.loops[Loop(name, r)]
    ensures r in Step(g, a).runs && Step(g, a).runs[r] != Polling
  {
    hide Counted;
    if a.Start? {
      hide GateOk, Flagged;
      assert Loop(name, r) !in LoopsFor(g.devices, a.r);
    }
  }

  /** A run stops waiting, and returns, only when all its loops have ended. */
  lemma ReturnsAfterItsLoops(g: Gate, r: nat)
    requires GateOk(g) && (CanStep(g, WaitReturns(r)) || CanStep(g, Release(r)))
    ensures forall l :: l in g.loops ==> l.run != r
    ensures g.loops == multiset{}
  {
    if CanStep(g, WaitReturns(r)) {
      assert g.loops == multiset{};
    }
  }

  // ---------------------------------------------------------------------------------
  // The engine's fields.

  /** The part of the engine behind its state lock; each method is one locked section. */
  class RunGate {
    var running: bool
    var stopping: bool
    var current: Option<nat>
    var tally: nat
    var devices: set<string>
    ghost var loops: multiset<Loop>
    ghost var runs: map<nat, RunStage>
    ghost var cancelled: set<nat>

    ghost function View(): Gate
      reads this
    {
      Gate(running, stopping, current, tally, devices, loops, runs, cancelled)
    }

    constructor ()
      ensures View() == NEW_GATE
    {
      running, stopping, current, tally, devices := false, false, None, 0, {};
      loops, runs, cancelled := multiset{}, map[], {};
    }

    method StartDevice(name: string, r: nat)
      modifies this`tally, this`loops
      ensures tally == old(tally) + 1 && loops == old(loops) + multiset{Loop(name, r)}
    {
      tally := tally + 1;
      loops := loops + multiset{Loop(name, r)};
    }

    method StartAll(r: nat)
      modifies this`tally, this`loops
      ensures tally == old(tally) + |devices| && loops == old(loops) + multiset(LoopsFor(devices, r))
    {
      var todo := devices;
      LoopsForEnds(devices, r);
      hide LoopsFor;
      while todo != {}
        invariant todo <= devices
        invariant tally == old(tally) + |devices| - |todo|
        invariant loops == old(loops) + multiset(LoopsFor(devices - todo, r))
      {
        var name :| name in todo;
        LoopsForNext(devices, todo, name, r);
        todo := todo - {name};
        StartDevice(name, r);
      }
      assert devices - todo == devices;
    }

    /** The first locked section of `Run`. */
    method TryRun(r: nat) returns (started: bool)
      requires GateOk(View()) && r !in runs
      modifies this
      ensures View() == DoStart(old(View()), r) && GateOk(View())
      ensures started == (!old(running) && !old(stopping))
    {
      StartKeepsOk(View(), r);
      hide GateOk, LoopsFor;
      if running || stopping {
        runs := runs[r := Returned];
        return false;
      }
      running, current, tally := true, Some(r), 0;
      runs := runs[r := Polling];
      StartAll(r);
      started := true;
    }

    method AddDevice(name: string, saved: bool) returns (ok: bool)
      requires GateOk(View())
      modifies this
      ensures View() == DoAdd(old(View()), name, saved) && GateOk(View())
      ensures ok == (name !in old(devices) && saved)
    {
      AddKeepsOk(View(), name, saved);
      if name in devices || !saved {
        return false;
      }
      devices := devices + {name};
      if running {
        StartDevice(name, current.value);
      }
      ok := true;
    }

    method BeginStopping(r: nat)
      requires GateOk(View()) && CanStep(View(), CloseGate(r))
      modifies this
      ensures View() == Step(old(View()), CloseGate(r)) && GateOk(View())
    {
      StepKeepsOk(View(), CloseGate(r));
      running := false;
      stopping := true;
      runs := runs[r := Draining];
    }

    method FinishStopping(r: nat)
      requires GateOk(View()) && CanStep(View(), Release(r))
      modifies this
      ensures View() == Step(old(View()), Release(r)) && GateOk(View())
      ensures loops == multiset{} && !running && !stopping
    {
      StepKeepsOk(View(), Release(r));
      stopping := false;
      current := None;
      runs := runs[r := Returned];
    }
  }

  // ---------------------------------------------------------------------------------
  // Tracked handlers.

  /** `active` is the wait group's counter; `handlers` are the requests being served. */
  datatype Server = Server(accepting: bool, active: nat, handlers: set<nat>, waited: bool)

  datatype ServerStep = Arrive(t: nat) | Finish(t: nat) | StopAccepting | WaitDone

  predicate CanServe(s: Server, a: ServerStep) {
    match a
    case Arrive(t) => t !in s.handlers
    case Finish(t) => t in s.handlers
    case StopAccepting => true
    case WaitDone => !s.accepting && s.active == 0
  }

  function Serve(s: Server, a: ServerStep): Server {
    match a
    case Arrive(t) => if s.accepting then s.(active := s.active + 1, handlers := s.handlers + {t}) else s
    case Finish(t) => s.(active := if s.active > 0 then s.active - 1 else 0, handlers := s.handlers - {t})
    case StopAccepting => s.(accepting := false)
    case WaitDone => s.(waited := true)
  }

  predicate ServerOk(s: Server) {
    s.active == |s.handlers| && (s.waited ==> !s.accepting && s.handlers == {})
  }

  const NEW_SERVER := Server(true, 0, {}, false)

  predicate ServerRun(servers: seq<Server>, steps: seq<ServerStep>) {
    && |servers| == |steps| + 1 && servers[0] == NEW_SERVER
    && forall i :: 0 <= i < |steps| ==> CanServe(servers[i], steps[i]) && servers[i + 1] == Serve(servers[i], steps[i])
  }

  lemma {:induction false} ServerKeepsOk(servers: seq<Server>, steps: seq<ServerStep>, n: nat)
    requires ServerRun(servers, steps) && n < |servers|
    ensures ServerOk(servers[n])
  {
    if n > 0 {
      ServerKeepsOk(servers, steps, n - 1);
      assert CanServe(servers[n - 1], steps[n - 1]) && servers[n] == Serve(servers[n - 1], steps[n - 1]);
    }
  }

  lemma {:induction false} WaitedStays(servers: seq<Server>, steps: seq<ServerStep>, i: nat, j: nat)
    requires ServerRun(servers, steps) && i <= j < |servers| && servers[i].waited
    ensures servers[j].waited
    decreases j
  {
    if i < j {
      WaitedStays(servers, steps, i, j - 1);
      assert servers[j] == Serve(servers[j - 1], steps[j - 1]);
    }
  }

  /** Once admission is closed and the wait is over, no handler runs, now or ever. */
  lemma NoHandlerAfterWait(servers: seq<Server>, steps: seq<ServerStep>, i: nat, j: nat)
    requires ServerRun(servers, steps) && i <= j < |servers| && servers[i].waited
    ensures servers[j].handlers == {}
  {
    WaitedStays(servers, steps, i, j);
    ServerKeepsOk(servers, steps, j);
  }
}
