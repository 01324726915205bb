/** Starts and stops that succeed: from every reachable state in which the tests allow it,
    a start run to its end leaves a worker in its loop, and a stop run to its end joins the
    worker and returns ESP_OK. */
module LifecycleRuns {
  import opened Bytes
  import opened Lifecycle

  // ---------------------------------------------------------------- what a start has done so far

  /** How far the fields are set, by the position of a start. */
  predicate StartOk(s: State, pc: CallerPc) {
    match pc
    case StartInit => s.run
    case StartClear => s.run && s.phase == Init
    case StartCreate => s.run && s.phase == Init
    case StartUnlock(ok) => ok ==> Launched(s)
    case FailHandle => !s.run
    case FailState => !s.run
    case _ => true
  }

  /** The worker created last is in the handle and has not left the head of its loop. */
  predicate Launched(s: State) {
    && s.run && s.phase == Init && s.bit == None && s.workers != [] && s.handle == Some(|s.workers| - 1)
    && (s.workers[|s.workers| - 1] == LoopTest || s.workers[|s.workers| - 1] == LoopLock)
  }

  /** A dead worker that is not joined has set STOPPED_BIT. */
  predicate Signalled(s: State) {
    s.handle.Some? && IsDead(s, s.handle.value) ==> s.bit == s.handle
  }

  ghost predicate StartInv(s: State) {
    Signalled(s) && forall c: nat :: c < |s.callers| ==> StartOk(s, s.callers[c])
  }

  lemma CallerKeepsStart(s: State, c: nat, created: bool, d: nat)
    requires CallerEnabled(s, c) && d < |s.callers| && StartOk(s, s.callers[c]) && StartOk(s, s.callers[d])
    requires CallerOk(s, c, s.callers[c]) && CallerOk(s, d, s.callers[d])
    ensures var r := CallerExec(s, c, created); |r.callers| == |s.callers| && StartOk(r, r.callers[d])
  {
    OnlyMoves(s, c, created);
    if d != c {
      assert Holds(s.callers[c]) ==> !Holds(s.callers[d]);
    }
  }

  lemma CallerKeepsSignal(s: State, c: nat, created: bool)
    requires CallerEnabled(s, c) && Signalled(s) && CallerOk(s, c, s.callers[c])
    ensures Signalled(CallerExec(s, c, created))
  {
  }

  lemma WorkerKeepsStart(s: State, w: nat, lost: bool, d: nat)
    requires WorkerEnabled(s, w) && WorkerOk(s, w, s.workers[w])
    requires d < |s.callers| && StartOk(s, s.callers[d]) && CallerOk(s, d, s.callers[d])
    ensures StartOk(WorkerExec(s, w, lost), s.callers[d])
  {
  }

  lemma WorkerKeepsSignal(s: State, w: nat, lost: bool)
    requires WorkerEnabled(s, w) && WorkerOk(s, w, s.workers[w]) && Signalled(s)
    ensures Signalled(WorkerExec(s, w, lost)) && WorkerExec(s, w, lost).callers == s.callers
  {
  }

  /** A step for which the lock is free, or which its holder takes as a worker. */
  lemma OtherKeepsStart(s: State, a: Step)
    requires Inv(s) && StartInv(s) && Enabled(s, a) && !a.CallerStep? && !a.WorkerStep?
    ensures StartInv(Exec(s, a))
  {
    hide SharedOk;
    if a.BodyEffect? { assert WorkerOk(s, a.w, s.workers[a.w]); }
    var r := Exec(s, a);
    forall d: nat | d < |r.callers| ensures StartOk(r, r.callers[d]) {
      assert CallerOk(s, d, s.callers[d]) && StartOk(s, s.callers[d]);
    }
  }

  lemma StepKeepsStart(s: State, a: Step)
    requires Inv(s) && StartInv(s) && Enabled(s, a)
    ensures StartInv(Exec(s, a))
  {
    hide CallerExec, WorkerExec, SharedOk, CallerOk, WorkerOk, StartOk, Signalled;
    match a
    case CallerStep(c, created) =>
      assert CallerOk(s, c, s.callers[c]);
      CallerKeepsSignal(s, c, created);
      OnlyMoves(s, c, created);
      forall d: nat | d < |s.callers| ensures StartOk(Exec(s, a), Exec(s, a).callers[d]) {
        CallerKeepsStart(s, c, created, d);
      }
    case WorkerStep(w, lost) =>
      assert WorkerOk(s, w, s.workers[w]);
      WorkerKeepsSignal(s, w, lost);
      forall d: nat | d < |s.callers| ensures StartOk(Exec(s, a), s.callers[d]) {
        WorkerKeepsStart(s, w, lost, d);
      }
    case _ => OtherKeepsStart(s, a);
  }

  lemma {:induction false} RunKeepsStart(trace: seq<State>, steps: seq<Step>, n: nat, i: nat)
    requires IsRun(trace, steps) && Initial(trace[0], n) && i < |trace|
    ensures StartInv(trace[i])
  {
    hide Enabled, Exec, Inv;
    if i > 0 {
      hide StartInv;
      RunKeepsStart(trace, steps, n, i - 1);
      RunKeeps(trace, steps, n, i - 1);
      assert Takes(trace, steps, i - 1);
      StepKeepsStart(trace[i - 1], steps[i - 1]);
    }
  }

  /** In every interleaving, when a start returns ESP_OK its worker is the one in the handle,
      at the head of its loop, with `run` set, STOPPED_BIT clear and nothing left of an
      earlier session. */
  lemma StartReturnsRunning(trace: seq<State>, steps: seq<Step>, n: nat, i: nat, c: nat)
    requires IsRun(trace, steps) && Initial(trace[0], n) && i < |trace|
    requires c < |trace[i].callers| && trace[i].callers[c] == StartUnlock(true)
    ensures Launched(trace[i])
  {
    RunKeepsStart(trace, steps, n, i);
    assert StartOk(trace[i], trace[i].callers[c]);
  }

  /** A stop at its test goes on, to join the worker in the handle, if and only if there is
      one and no other stop is joining it; else it fails. Some worker is unjoined exactly
      while there is one in the handle. */
  lemma StopRefusedIff(trace: seq<State>, steps: seq<Step>, n: nat, i: nat, c: nat)
    requires IsRun(trace, steps) && Initial(trace[0], n) && i < |trace|
    requires c < |trace[i].callers| && trace[i].callers[c] == StopCheck
    ensures var s := trace[i];
            var pc := CallerExec(s, c, true).callers[c];
            && (pc == StopFail <==> s.handle == None || s.stopping.Some?)
            && (pc != StopFail ==> s.handle.Some? && pc == StopMark(s.handle.value))
            && (s.handle.Some? ==> s.handle.value < |s.workers| && s.handle.value !in s.joined)
            && (s.handle == None ==> forall w: nat :: w < |s.workers| ==> IsDead(s, w))
  {
    RunKeeps(trace, steps, n, i);
    var s := trace[i];
    forall w: nat | w < |s.workers| && s.handle == None ensures IsDead(s, w) {
      assert WorkerOk(s, w, s.workers[w]);
    }
  }

  // ---------------------------------------------------------------- runs told step by step

  /** A run so far, and its last state. */
  datatype Story = Story(trace: seq<State>, steps: seq<Step>, now: State)

  ghost predicate Told(r: Story, n: nat) {
    IsRun(r.trace, r.steps) && Initial(r.trace[0], n) && r.trace[|r.steps|] == r.now
  }

  /** `q` goes on from `r` by steps of one caller and one worker only. */
  predicate GoesOn(r: Story, q: Story, c: nat, w: nat) {
    && r.trace <= q.trace && r.steps <= q.steps
    && forall i :: |r.steps| <= i < |q.steps| ==> OfThese(q.steps[i], c, w)
  }

  predicate OfThese(a: Step, c: nat, w: nat) {
    match a
    case CallStart(d) => d == c
    case CallStop(d) => d == c
    case CallerStep(d, _) => d == c
    case WorkerStep(v, _) => v == w
    case _ => false
  }

  lemma Next(r: Story, n: nat, a: Step, c: nat, w: nat) returns (q: Story)
    requires Told(r, n) && Enabled(r.now, a) && OfThese(a, c, w)
    ensures Told(q, n) && q.now == Exec(r.now, a) && GoesOn(r, q, c, w)
  {
    hide Enabled, Exec, OfThese, Initial;
    q := Story(r.trace + [Exec(r.now, a)], r.steps + [a], Exec(r.now, a));
    forall i | 0 <= i < |q.steps| ensures Takes(q.trace, q.steps, i) {
      if i < |r.steps| { assert Takes(r.trace, r.steps, i); }
    }
  }

  lemma GoesOnTwice(r: Story, p: Story, q: Story, c: nat, w: nat)
    requires GoesOn(r, p, c, w) && GoesOn(p, q, c, w)
    ensures GoesOn(r, q, c, w)
  {
    hide OfThese;
    forall i | |r.steps| <= i < |q.steps| ensures OfThese(q.steps[i], c, w) {
      if i < |p.steps| { assert q.steps[i] == p.steps[i]; }
    }
  }

  /** One more step of the caller. */
  lemma Caller(r: Story, q: Story, n: nat, created: bool, c: nat, w: nat) returns (p: Story)
    requires Told(q, n) && GoesOn(r, q, c, w) && CallerEnabled(q.now, c)
    ensures Told(p, n) && p.now == CallerExec(q.now, c, created) && GoesOn(r, p, c, w)
  {
    hide Told, GoesOn, CallerEnabled, CallerExec;
    p := Next(q, n, CallerStep(c, created), c, w);
    GoesOnTwice(r, q, p, c, w);
  }

  /** One more step of the worker. */
  lemma Work(r: Story, q: Story, n: nat, lost: bool, c: nat, w: nat) returns (p: Story)
    requires Told(q, n) && GoesOn(r, q, c, w) && WorkerEnabled(q.now, w)
    ensures Told(p, n) && p.now == WorkerExec(q.now, w, lost) && GoesOn(r, p, c, w)
  {
    hide Told, GoesOn, WorkerEnabled, WorkerExec;
    p := Next(q, n, WorkerStep(w, lost), c, w);
    GoesOnTwice(r, q, p, c, w);
  }

  lemma ToldInv(r: Story, n: nat)
    requires Told(r, n)
    ensures Inv(r.now) && StartInv(r.now)
  {
    RunKeeps(r.trace, r.steps, n, |r.steps|);
    RunKeepsStart(r.trace, r.steps, n, |r.steps|);
  }

  // ---------------------------------------------------------------- a start

  /** The fields a start sets before it creates the task. */
  lemma StartSets(r: Story, n: nat, c: nat, w: nat) returns (q: Story)
    requires Told(r, n) && r.now.lock == None && r.now.handle == None && IdlePhase(r.now.phase)
    requires c < |r.now.callers| && r.now.callers[c] == Idle
    ensures Told(q, n) && GoesOn(r, q, c, w)
    ensures q.now == r.now.(lock := Some(Actor.Caller(c)), run := true, phase := Init, bit := None,
                            callers := r.now.callers[c := StartCreate])
  {
    hide Told, GoesOn;
    q := Next(r, n, CallStart(c), c, w);
    q := Caller(r, q, n, true, c, w);
    assert q.now == r.now.(lock := Some(Actor.Caller(c)), callers := r.now.callers[c := StartRun]);
    q := Caller(r, q, n, true, c, w);
    q := Caller(r, q, n, true, c, w);
    q := Caller(r, q, n, true, c, w);
  }

  /** From every reachable state with the lock free and no worker in the handle, a start run
      to its end creates a worker and returns ESP_OK. */
  lemma StartSucceeds(r: Story, n: nat, c: nat) returns (q: Story)
    requires Told(r, n) && r.now.lock == None && r.now.handle == None
    requires c < |r.now.callers| && r.now.callers[c] == Idle
    ensures Told(q, n) && GoesOn(r, q, c, |r.now.workers|)
    ensures q.now == r.now.(run := true, phase := Init, bit := None, handle := Some(|r.now.workers|),
                            workers := r.now.workers + [LoopTest])
  {
    ToldInv(r, n);
    assert IdlePhase(r.now.phase);
    hide Told, GoesOn, Inv, StartInv;
    q := StartSets(r, n, c, |r.now.workers|);
    q := Caller(r, q, n, true, c, |r.now.workers|);
    q := Caller(r, q, n, true, c, |r.now.workers|);
    assert q.now.callers == r.now.callers;
  }

  /** If the task cannot be created, the start fails and leaves the client stopped. */
  lemma StartFails(r: Story, n: nat, c: nat) returns (q: Story)
    requires Told(r, n) && r.now.lock == None && r.now.handle == None
    requires c < |r.now.callers| && r.now.callers[c] == Idle
    ensures Told(q, n) && GoesOn(r, q, c, |r.now.workers|)
    ensures q.now == r.now.(run := false, phase := Disconnected, bit := None)
  {
    ToldInv(r, n);
    assert IdlePhase(r.now.phase);
    hide Told, GoesOn, Inv, StartInv;
    q := StartSets(r, n, c, |r.now.workers|);
    q := Caller(r, q, n, false, c, |r.now.workers|);
    q := Caller(r, q, n, false, c, |r.now.workers|);
    q := Caller(r, q, n, false, c, |r.now.workers|);
    assert q.now == r.now.(lock := Some(Actor.Caller(c)), run := false, bit := None, phase := Init,
                           callers := r.now.callers[c := FailState]);
    q := Caller(r, q, n, false, c, |r.now.workers|);
    q := Caller(r, q, n, false, c, |r.now.workers|);
    assert q.now.callers == r.now.callers;
  }

  // ---------------------------------------------------------------- a stop

  /** The locked part of a stop, up to the wait. */
  lemma StopBegins(r: Story, n: nat, c: nat, w: nat) returns (q: Story)
    requires Told(r, n) && r.now.lock == None && r.now.handle == Some(w) && r.now.stopping == None
    requires c < |r.now.callers| && r.now.callers[c] == Idle
    ensures Told(q, n) && GoesOn(r, q, c, w)
    ensures q.now == r.now.(stopping := Some(c), run := false, phase := Disconnected,
                            callers := r.now.callers[c := StopWait(w)])
  {
    var s := r.now;
    hide Told, GoesOn;
    q := Next(r, n, CallStop(c), c, w);
    q := Caller(r, q, n, true, c, w);
    assert q.now == s.(lock := Some(Actor.Caller(c)), callers := s.callers[c := StopMark(w)]);
    q := Caller(r, q, n, true, c, w);
    q := Caller(r, q, n, true, c, w);
    q := Caller(r, q, n, true, c, w);
    assert q.now == s.(lock := Some(Actor.Caller(c)), stopping := Some(c), run := false, phase := Disconnected,
                       callers := s.callers[c := StopUnlock(w)]);
    q := Caller(r, q, n, true, c, w);
  }

  /** The exit of a worker that finds `run` false. */
  lemma WorkerExits(r: Story, q: Story, n: nat, c: nat, w: nat) returns (p: Story)
    requires Told(q, n) && GoesOn(r, q, c, w) && w < |q.now.workers| && !q.now.run
    requires q.now.workers[w] == LoopTest || q.now.workers[w] == ExitClose || q.now.workers[w] == ExitState
             || q.now.workers[w] == ExitSignal
    ensures Told(p, n) && GoesOn(r, p, c, w)
    ensures p.now == q.now.(workers := q.now.workers[w := Dead], bit := Some(w), phase := p.now.phase)
  {
    hide Told, GoesOn;
    p := q;
    if p.now.workers[w] == LoopTest { p := Work(r, p, n, false, c, w); }
    if p.now.workers[w] == ExitClose { p := Work(r, p, n, false, c, w); }
    if p.now.workers[w] == ExitState { p := Work(r, p, n, false, c, w); }
    assert p.now == q.now.(workers := q.now.workers[w := ExitSignal], phase := p.now.phase);
    p := Work(r, p, n, false, c, w);
  }

  /** With the lock free, a worker anywhere in its loop comes back to its head. */
  lemma WorkerComesRound(r: Story, q: Story, n: nat, c: nat, w: nat) returns (p: Story)
    requires Told(q, n) && GoesOn(r, q, c, w) && w < |q.now.workers| && q.now.lock == None
    requires q.now.workers[w] == LoopLock || q.now.workers[w] == Poll || q.now.workers[w] == AbortLock
    ensures Told(p, n) && GoesOn(r, p, c, w)
    ensures p.now == q.now.(workers := q.now.workers[w := LoopTest], phase := p.now.phase)
  {
    hide Told, GoesOn;
    p := q;
    if p.now.workers[w] == AbortLock {
      p := Work(r, p, n, false, c, w);
      p := Work(r, p, n, false, c, w);
      p := Work(r, p, n, false, c, w);
    } else {
      if p.now.workers[w] == LoopLock {
        p := Work(r, p, n, false, c, w);
        p := Work(r, p, n, false, c, w);
        assert p.now == q.now.(workers := q.now.workers[w := Poll]);
      }
      p := Work(r, p, n, false, c, w);
    }
  }

  /** With the lock free and `run` false, the worker in the handle ends and sets its bit. */
  lemma WorkerEnds(r: Story, q: Story, n: nat, c: nat, w: nat) returns (p: Story)
    requires Told(q, n) && GoesOn(r, q, c, w) && q.now.lock == None && !q.now.run && q.now.handle == Some(w)
    ensures Told(p, n) && GoesOn(r, p, c, w) && w < |q.now.workers|
    ensures p.now == q.now.(workers := q.now.workers[w := Dead], bit := Some(w), phase := p.now.phase)
  {
    ToldInv(q, n);
    assert WorkerOk(q.now, w, q.now.workers[w]);
    hide Told, GoesOn, Inv, StartInv;
    p := q;
    if q.now.workers[w] == LoopLock || q.now.workers[w] == Poll || q.now.workers[w] == AbortLock {
      p := WorkerComesRound(r, q, n, c, w);
    }
    if q.now.workers[w] != Dead { p := WorkerExits(r, p, n, c, w); }
  }

  /** The stop sees the bit and joins. */
  lemma StopEnds(r: Story, q: Story, n: nat, c: nat, w: nat) returns (p: Story)
    requires Told(q, n) && GoesOn(r, q, c, w) && q.now.lock == None && q.now.bit.Some?
    requires c < |q.now.callers| && q.now.callers[c] == StopWait(w)
    ensures Told(p, n) && GoesOn(r, p, c, w)
    ensures p.now == q.now.(handle := None, stopping := None, joined := q.now.joined + {w}, stops := q.now.stops + 1,
                            callers := q.now.callers[c := Idle])
  {
    hide Told, GoesOn;
    p := Caller(r, q, n, true, c, w);
    p := Caller(r, p, n, true, c, w);
    assert p.now == q.now.(lock := Some(Actor.Caller(c)), callers := q.now.callers[c := StopForget(w)]);
    p := Caller(r, p, n, true, c, w);
    p := Caller(r, p, n, true, c, w);
    p := Caller(r, p, n, true, c, w);
  }

  /** From every reachable state with the lock free, a worker in the handle and no other
      stop joining it, a stop run to its end joins that worker and returns ESP_OK, by steps
      of the two alone. */
  lemma StopSucceeds(r: Story, n: nat, c: nat) returns (q: Story)
    requires Told(r, n) && r.now.lock == None && r.now.handle.Some? && r.now.stopping == None
    requires c < |r.now.callers| && r.now.callers[c] == Idle
    ensures var w := r.now.handle.value;
            && Told(q, n) && GoesOn(r, q, c, w)
            && IsDead(q.now, w) && q.now.bit == Some(w)
            && q.now.stops == r.now.stops + 1 && q.now.joined == r.now.joined + {w}
            && q.now.handle == None && q.now.stopping == None && q.now.lock == None && !q.now.run
            && IdlePhase(q.now.phase)
            && q.now.callers == r.now.callers && |q.now.workers| == |r.now.workers|
  {
    var w := r.now.handle.value;
    hide Told, GoesOn;
    q := StopBegins(r, n, c, w);
    q := WorkerEnds(r, q, n, c, w);
    q := StopEnds(r, q, n, c, w);
    assert q.now.callers == r.now.callers;
    ToldInv(q, n);
  }

  /** So a client can be started and stopped: one start, one worker, one stop. */
  lemma StartStop(s: State, n: nat) returns (q: Story)
    requires Initial(s, n) && n > 0
    ensures Told(q, n) && q.trace[0] == s && q.now.stops == 1 == |q.now.workers| && q.now.joined == {0}
    ensures q.now.handle == None && q.now.lock == None && q.now.callers == s.callers
  {
    var r := Story([s], [], s);
    q := StartSucceeds(r, n, 0);
    var p := q;
    q := StopSucceeds(p, n, 0);
    assert q.trace[0] == p.trace[0] == r.trace[0];
  }

  // ---------------------------------------------------------------- the worker

  /** A worker leaves its loop at the test of `run`, and only when that is false. */
  lemma WorkerLeavesIff(s: State, w: nat, lost: bool)
    requires WorkerEnabled(s, w)
    ensures Leaving(WorkerExec(s, w, lost).workers[w]) && !Leaving(s.workers[w]) <==>
            s.workers[w] == LoopTest && !s.run
  {
  }

  predicate Leaving(pc: WorkerPc) {
    Exiting(pc) || pc == Dead
  }

  /** From every reachable state with the lock free, a worker that polls a lost connection
      waits for the reconnect, and goes on in its loop. */
  lemma LostConnectionAborts(r: Story, n: nat, c: nat, w: nat) returns (q: Story)
    requires Told(r, n) && r.now.lock == None && r.now.phase == Connected
    requires w < |r.now.workers| && r.now.workers[w] == Poll
    ensures Told(q, n) && GoesOn(r, q, c, w)
    ensures q.now == r.now.(phase := WaitReconnect, workers := r.now.workers[w := LoopTest])
  {
    hide Told, GoesOn;
    q := Next(r, n, WorkerStep(w, true), c, w);
    q := Work(r, q, n, true, c, w);
    assert q.now == r.now.(lock := Some(Actor.Worker(w)), workers := r.now.workers[w := AbortState]);
    q := Work(r, q, n, true, c, w);
    q := Work(r, q, n, true, c, w);
  }
}
