/** The start/stop/worker protocol of mqtt_client.c as a concurrent system: any number of
    caller threads and any number of workers over time, one access to the client at a
    time, interleaved in any order. */
module Lifecycle {
  import opened Bytes

  datatype Phase = Init | Disconnected | Connected | WaitReconnect

  datatype Actor = Caller(c: nat) | Worker(w: nat)

  /** Where a caller of esp_mqtt_client_start or esp_mqtt_client_stop is; `w` is the
      worker a stop is about to join. */
  datatype CallerPc =
    | Idle
    | StartCheck | StartRun | StartInit | StartClear | StartCreate
    | FailRun | FailHandle | FailState
    | StartUnlock(ok: bool)
    | StopCheck
    | StopMark(w: nat) | StopRun(w: nat) | StopState(w: nat) | StopUnlock(w: nat)
    | StopWait(w: nat) | StopRelock(w: nat) | StopForget(w: nat) | StopUnmark(w: nat) | StopReturn(w: nat)
    | StopFail

  /** Where a worker task is. */
  datatype WorkerPc =
    | LoopTest | LoopLock | Body | Poll | AbortLock | AbortState | AbortUnlock
    | ExitClose | ExitState | ExitSignal | Dead

  datatype State = State(
    lock: Option<Actor>,
    handle: Option<nat>,     // task_handle
    run: bool,
    stopping: Option<nat>,   // the flag, with the caller that set it
    phase: Phase,
    bit: Option<nat>,        // STOPPED_BIT, with the worker that set it
    callers: seq<CallerPc>,
    workers: seq<WorkerPc>,  // every worker ever created: one for each start that succeeds
    joined: set<nat>,        // workers whose stop returned ESP_OK
    stops: nat)              // stop calls that returned ESP_OK

  predicate IdlePhase(p: Phase) { p == Init || p == Disconnected }

  /** The caller owns the API lock. */
  predicate Holds(pc: CallerPc) {
    !pc.Idle? && !pc.StopWait? && !pc.StopRelock?
  }

  predicate WorkerHolds(pc: WorkerPc) {
    pc == Body || pc == AbortState || pc == AbortUnlock
  }

  datatype Step =
    | CallStart(c: nat)
    | CallStop(c: nat)
    | CallerStep(c: nat, created: bool)            // `created`: the task could be created
    | ApiAbort                                     // a publishing caller loses the connection
    | BodyEffect(w: nat, phase: Phase, quit: bool) // one turn of the task under the lock
    | WorkerStep(w: nat, lost: bool)               // `lost`: polling the transport failed

  function Goto(s: State, c: nat, pc: CallerPc): (t: State)
    requires c < |s.callers|
  {
    s.(callers := s.callers[c := pc])
  }

  function WorkerGoto(s: State, w: nat, pc: WorkerPc): (t: State)
    requires w < |s.workers|
  {
    s.(workers := s.workers[w := pc])
  }

  // ---------------------------------------------------------------- callers

  predicate CallerEnabled(s: State, c: nat) {
    && c < |s.callers|
    && match s.callers[c]
       case Idle => false
       case StopWait(_) => s.bit.Some?
       case StopRelock(_) => s.lock == None
       case _ => true
  }

  /** The test of esp_mqtt_client_start. */
  predicate StartRefused(s: State) {
    s.handle.Some? || !IdlePhase(s.phase)
  }

  /** The test of esp_mqtt_client_stop. A worker may not stop itself either. */
  predicate StopRefused(s: State) {
    s.handle == None || s.stopping.Some?
  }

  function CallerExec(s: State, c: nat, created: bool): (r: State)
    requires CallerEnabled(s, c)
  {
    match s.callers[c]
    case Idle => s
    // esp_mqtt_client_start
    case StartCheck =>
      if StartRefused(s) then Goto(s, c, StartUnlock(false)) else Goto(s, c, StartRun)
    case StartRun => Goto(s.(run := true), c, StartInit)
    case StartInit => Goto(s.(phase := Init), c, StartClear)
    case StartClear => Goto(s.(bit := None), c, StartCreate)
    case StartCreate =>
      if created then Goto(s.(workers := s.workers + [LoopTest], handle := Some(|s.workers|)), c, StartUnlock(true))
      else Goto(s, c, FailRun)
    case FailRun => Goto(s.(run := false), c, FailHandle)
    case FailHandle => Goto(s.(handle := None), c, FailState)
    case FailState => Goto(s.(phase := Disconnected), c, StartUnlock(false))
    case StartUnlock(_) => Goto(s.(lock := None), c, Idle)
    // esp_mqtt_client_stop
    case StopCheck =>
      if StopRefused(s) then Goto(s, c, StopFail) else Goto(s, c, StopMark(s.handle.value))
    case StopFail => Goto(s.(lock := None), c, Idle)
    case StopMark(w) => Goto(s.(stopping := Some(c)), c, StopRun(w))
    case StopRun(w) => Goto(s.(run := false), c, StopState(w))
    case StopState(w) => Goto(s.(phase := Disconnected), c, StopUnlock(w))
    case StopUnlock(w) => Goto(s.(lock := None), c, StopWait(w))
    case StopWait(w) => Goto(s, c, StopRelock(w))
    case StopRelock(w) => Goto(s.(lock := Some(Caller(c))), c, StopForget(w))
    case StopForget(w) => Goto(s.(handle := None), c, StopUnmark(w))
    case StopUnmark(w) => Goto(s.(stopping := None), c, StopReturn(w))
    case StopReturn(w) => Goto(s.(lock := None, joined := s.joined + {w}, stops := s.stops + 1), c, Idle)
  }

  // ---------------------------------------------------------------- workers

  predicate WorkerEnabled(s: State, w: nat) {
    w < |s.workers| && s.workers[w] != Dead
        && (s.workers[w] == LoopLock || s.workers[w] == AbortLock ==> s.lock == None)
  }

  function WorkerExec(s: State, w: nat, lost: bool): (r: State)
    requires WorkerEnabled(s, w)
  {
    match s.workers[w]
    case LoopTest => WorkerGoto(s, w, if s.run then LoopLock else ExitClose)
    case LoopLock => WorkerGoto(s.(lock := Some(Worker(w))), w, Body)
    case Body => WorkerGoto(s.(lock := None), w, Poll)
    case Poll => WorkerGoto(s, w, if s.phase == Connected && lost then AbortLock else LoopTest)
    case AbortLock => WorkerGoto(s.(lock := Some(Worker(w))), w, AbortState)
    case AbortState => WorkerGoto(s.(phase := WaitReconnect), w, AbortUnlock)
    case AbortUnlock => WorkerGoto(s.(lock := None), w, LoopTest)
    case ExitClose => WorkerGoto(s, w, ExitState)
    case ExitState => WorkerGoto(s.(phase := Disconnected), w, ExitSignal)
    case ExitSignal => WorkerGoto(s.(bit := Some(w)), w, Dead)
    case Dead => s
  }

  // ---------------------------------------------------------------- runs

  predicate Enabled(s: State, a: Step) {
    match a
    case CallStart(c) => c < |s.callers| && s.callers[c] == Idle && s.lock == None
    case CallStop(c) => c < |s.callers| && s.callers[c] == Idle && s.lock == None
    case CallerStep(c, _) => CallerEnabled(s, c)
    case ApiAbort => s.lock == None && s.phase == Connected
    case BodyEffect(w, _, _) => w < |s.workers| && s.workers[w] == Body
    case WorkerStep(w, _) => WorkerEnabled(s, w)
  }

  function Exec(s: State, a: Step): (r: State)
    requires Enabled(s, a)
  {
    match a
    case CallStart(c) => Goto(s.(lock := Some(Caller(c))), c, StartCheck)
    case CallStop(c) => Goto(s.(lock := Some(Caller(c))), c, StopCheck)
    case CallerStep(c, created) => CallerExec(s, c, created)
    case ApiAbort => s.(phase := WaitReconnect)
    case BodyEffect(_, phase, quit) => s.(phase := phase, run := s.run && !quit)
    case WorkerStep(w, lost) => WorkerExec(s, w, lost)
  }

  /** A client just initialised, with `n` threads that may call it. */
  predicate Initial(s: State, n: nat) {
    && s.lock == None && s.handle == None && !s.run && s.stopping == None && s.phase == Init && s.bit == None
    && |s.callers| == n && (forall c :: 0 <= c < n ==> s.callers[c] == Idle)
    && s.workers == [] && s.joined == {} && s.stops == 0
  }

  /** `trace[i]` is the state before `steps[i]`. */
  ghost predicate IsRun(trace: seq<State>, steps: seq<Step>) {
    && |trace| == |steps| + 1
    && (forall i :: 0 <= i < |steps| ==> Takes(trace, steps, i))
  }

  ghost predicate Takes(trace: seq<State>, steps: seq<Step>, i: nat)
    requires |trace| == |steps| + 1 && i < |steps|
  {
    Enabled(trace[i], steps[i]) && trace[i + 1] == Exec(trace[i], steps[i])
  }

  // ---------------------------------------------------------------- the invariant

  /** What a caller's position says about the shared state. */
  predicate CallerOk(s: State, c: nat, pc: CallerPc) {
    && (Holds(pc) <==> s.lock == Some(Caller(c)))
    && (s.stopping == Some(c) <==>
          pc.StopRun? || pc.StopState? || pc.StopUnlock? || pc.StopWait? || pc.StopRelock? || pc.StopForget?
              || pc.StopUnmark?)
    && match pc
       case StartRun => s.handle == None
       case StartInit => s.handle == None
       case StartClear => s.handle == None
       case StartCreate => s.handle == None && s.bit == None
       case FailRun => s.handle == None
       case FailHandle => s.handle == None
       case FailState => s.handle == None
       case StopMark(w) => s.handle == Some(w) && s.stopping == None
       case StopRun(w) => s.handle == Some(w)
       case StopState(w) => s.handle == Some(w) && !s.run
       case StopUnlock(w) => s.handle == Some(w) && !s.run
       case StopWait(w) => s.handle == Some(w) && !s.run
       case StopRelock(w) => s.handle == Some(w) && !s.run && IsDead(s, w)
       case StopForget(w) => s.handle == Some(w) && !s.run && IsDead(s, w)
       case StopUnmark(w) => s.handle == None && IsDead(s, w) && w !in s.joined
       case StopReturn(w) => s.handle == None && IsDead(s, w) && w !in s.joined
       case _ => true
  }

  predicate IsDead(s: State, w: nat) {
    w < |s.workers| && s.workers[w] == Dead
  }

  predicate WorkerOk(s: State, w: nat, pc: WorkerPc) {
    && (WorkerHolds(pc) <==> s.lock == Some(Worker(w)))
    && (pc != Dead ==> s.handle == Some(w))
    && (pc == ExitSignal ==> IdlePhase(s.phase))
  }

  predicate SharedOk(s: State) {
    && (s.handle.Some? ==> s.handle.value < |s.workers| && s.handle.value !in s.joined)
    && (s.handle == None || IsDead(s, s.handle.value) ==> IdlePhase(s.phase))
    && (s.bit.Some? ==> IsDead(s, s.bit.value) && (s.handle == None || s.handle == s.bit))
    && (s.stopping.Some? ==> s.stopping.value < |s.callers|)
    && (forall w :: w in s.joined ==> w < |s.workers|)
    && s.stops == |s.joined|
  }

  ghost predicate CallersOk(s: State) {
    forall c: nat :: c < |s.callers| ==> CallerOk(s, c, s.callers[c])
  }

  ghost predicate WorkersOk(s: State) {
    forall w: nat :: w < |s.workers| ==> WorkerOk(s, w, s.workers[w])
  }

  ghost predicate Inv(s: State) {
    SharedOk(s) && CallersOk(s) && WorkersOk(s)
  }

  // ---------------------------------------------------------------- steps keep it

  predicate Starting(pc: CallerPc) {
    pc.StartCheck? || pc.StartRun? || pc.StartInit? || pc.StartClear? || pc.StartCreate? || pc.FailRun?
        || pc.FailHandle? || pc.FailState? || pc.StartUnlock?
  }

  predicate Failing(pc: CallerPc) { pc.StartCreate? || pc.FailRun? || pc.FailHandle? || pc.FailState?
      || pc.StartUnlock? }

  predicate Joining(pc: CallerPc) { pc.StopWait? || pc.StopRelock? || pc.StopForget? || pc.StopUnmark?
      || pc.StopReturn? }

  lemma OnlyMoves(s: State, c: nat, created: bool)
    requires CallerEnabled(s, c)
    ensures var r := CallerExec(s, c, created);
            |r.callers| == |s.callers| && forall d: nat :: d < |s.callers| && d != c ==> r.callers[d] == s.callers[d]
  {
  }

  lemma StartEarlyKeepsItself(s: State, c: nat, created: bool)
    requires SharedOk(s) && CallerEnabled(s, c) && Starting(s.callers[c]) && CallerOk(s, c, s.callers[c])
    requires !Failing(s.callers[c])
    ensures var r := CallerExec(s, c, created); |r.callers| == |s.callers| && CallerOk(r, c, r.callers[c])
  {
  }

  lemma StartLateKeepsItself(s: State, c: nat, created: bool)
    requires SharedOk(s) && CallerEnabled(s, c) && Starting(s.callers[c]) && CallerOk(s, c, s.callers[c])
    requires Failing(s.callers[c])
    ensures var r := CallerExec(s, c, created); |r.callers| == |s.callers| && CallerOk(r, c, r.callers[c])
  {
  }

  lemma StartKeepsItself(s: State, c: nat, created: bool)
    requires SharedOk(s) && CallerEnabled(s, c) && Starting(s.callers[c]) && CallerOk(s, c, s.callers[c])
    ensures var r := CallerExec(s, c, created); |r.callers| == |s.callers| && CallerOk(r, c, r.callers[c])
  {
    hide CallerExec, CallerOk, SharedOk;
    if Failing(s.callers[c]) { StartLateKeepsItself(s, c, created); } else { StartEarlyKeepsItself(s, c, created); }
  }

  lemma StartKeepsOther(s: State, c: nat, created: bool, d: nat)
    requires SharedOk(s) && CallerEnabled(s, c) && Starting(s.callers[c]) && CallerOk(s, c, s.callers[c])
    requires c != d < |s.callers| && CallerOk(s, d, s.callers[d])
    ensures var r := CallerExec(s, c, created); CallerOk(r, d, s.callers[d])
  {
  }

  lemma StartKeepsCaller(s: State, c: nat, created: bool, d: nat)
    requires SharedOk(s) && CallerEnabled(s, c) && Starting(s.callers[c]) && CallerOk(s, c, s.callers[c])
    requires d < |s.callers| && CallerOk(s, d, s.callers[d])
    ensures var r := CallerExec(s, c, created); |r.callers| == |s.callers| && CallerOk(r, d, r.callers[d])
  {
    OnlyMoves(s, c, created);
    hide CallerExec, CallerOk, SharedOk;
    if d == c { StartKeepsItself(s, c, created); } else { StartKeepsOther(s, c, created, d); }
  }

  lemma StopEarlyKeepsItself(s: State, c: nat, created: bool)
    requires SharedOk(s) && CallerEnabled(s, c) && !Starting(s.callers[c]) && CallerOk(s, c, s.callers[c])
    requires !Joining(s.callers[c])
    ensures var r := CallerExec(s, c, created); |r.callers| == |s.callers| && CallerOk(r, c, r.callers[c])
  {
  }

  lemma StopLateKeepsItself(s: State, c: nat, created: bool)
    requires SharedOk(s) && CallerEnabled(s, c) && !Starting(s.callers[c]) && CallerOk(s, c, s.callers[c])
    requires Joining(s.callers[c])
    ensures var r := CallerExec(s, c, created); |r.callers| == |s.callers| && CallerOk(r, c, r.callers[c])
  {
  }

  lemma StopKeepsItself(s: State, c: nat, created: bool)
    requires SharedOk(s) && CallerEnabled(s, c) && !Starting(s.callers[c]) && CallerOk(s, c, s.callers[c])
    ensures var r := CallerExec(s, c, created); |r.callers| == |s.callers| && CallerOk(r, c, r.callers[c])
  {
    hide CallerExec, CallerOk, SharedOk;
    if Joining(s.callers[c]) { StopLateKeepsItself(s, c, created); } else { StopEarlyKeepsItself(s, c, created); }
  }

  lemma StopKeepsOther(s: State, c: nat, created: bool, d: nat)
    requires SharedOk(s) && CallerEnabled(s, c) && !Starting(s.callers[c]) && CallerOk(s, c, s.callers[c])
    requires c != d < |s.callers| && CallerOk(s, d, s.callers[d])
    ensures var r := CallerExec(s, c, created); CallerOk(r, d, s.callers[d])
  {
  }

  lemma StopKeepsCaller(s: State, c: nat, created: bool, d: nat)
    requires SharedOk(s) && CallerEnabled(s, c) && !Starting(s.callers[c]) && CallerOk(s, c, s.callers[c])
    requires d < |s.callers| && CallerOk(s, d, s.callers[d])
    ensures var r := CallerExec(s, c, created); |r.callers| == |s.callers| && CallerOk(r, d, r.callers[d])
  {
    OnlyMoves(s, c, created);
    hide CallerExec, CallerOk, SharedOk;
    if d == c { StopKeepsItself(s, c, created); } else { StopKeepsOther(s, c, created, d); }
  }

  lemma CallerKeepsWorker(s: State, c: nat, created: bool, w: nat)
    requires CallerEnabled(s, c) && CallerOk(s, c, s.callers[c])
    requires w < |s.workers| && WorkerOk(s, w, s.workers[w])
    ensures var r := CallerExec(s, c, created); |s.workers| <= |r.workers| && WorkerOk(r, w, r.workers[w])
  {
  }

  lemma StartKeepsShared(s: State, c: nat, created: bool)
    requires SharedOk(s) && CallerEnabled(s, c) && Starting(s.callers[c]) && CallerOk(s, c, s.callers[c])
    ensures SharedOk(CallerExec(s, c, created))
  {
  }

  lemma StopKeepsShared(s: State, c: nat, created: bool)
    requires SharedOk(s) && CallerEnabled(s, c) && !Starting(s.callers[c]) && CallerOk(s, c, s.callers[c])
    ensures SharedOk(CallerExec(s, c, created))
  {
  }

  /** A worker that was just created is the one in the handle. */
  lemma NewWorkerOk(s: State, c: nat, created: bool)
    requires CallerEnabled(s, c) && CallerOk(s, c, s.callers[c])
    ensures var r := CallerExec(s, c, created);
            |r.workers| <= |s.workers| + 1
                && (|r.workers| == |s.workers| + 1 ==> WorkerOk(r, |s.workers|, r.workers[|s.workers|]))
  {
  }

  lemma CallerKeeps(s: State, c: nat, created: bool)
    requires Inv(s) && CallerEnabled(s, c)
    ensures Inv(CallerExec(s, c, created))
  {
    var r := CallerExec(s, c, created);
    assert CallerOk(s, c, s.callers[c]);
    assert |r.callers| == |s.callers|;
    hide CallerExec, CallerOk, WorkerOk, SharedOk;
    if Starting(s.callers[c]) { StartKeepsShared(s, c, created); } else { StopKeepsShared(s, c, created); }
    forall d: nat | d < |r.callers| ensures CallerOk(r, d, r.callers[d]) {
      if Starting(s.callers[c]) { StartKeepsCaller(s, c, created, d); } else { StopKeepsCaller(s, c, created, d); }
    }
    NewWorkerOk(s, c, created);
    forall w: nat | w < |r.workers| ensures WorkerOk(r, w, r.workers[w]) {
      if w < |s.workers| { CallerKeepsWorker(s, c, created, w); }
    }
  }

  lemma WorkerKeepsCaller(s: State, w: nat, lost: bool, d: nat)
    requires SharedOk(s) && WorkerEnabled(s, w) && d < |s.callers| && CallerOk(s, d, s.callers[d])
             && WorkerOk(s, w, s.workers[w])
    ensures CallerOk(WorkerExec(s, w, lost), d, s.callers[d])
  {
  }

  lemma WorkerKeepsWorker(s: State, w: nat, lost: bool, v: nat)
    requires WorkerEnabled(s, w) && v < |s.workers| && WorkerOk(s, v, s.workers[v]) && WorkerOk(s, w, s.workers[w])
    ensures var r := WorkerExec(s, w, lost); WorkerOk(r, v, r.workers[v])
  {
  }

  predicate Exiting(pc: WorkerPc) {
    pc == ExitClose || pc == ExitState || pc == ExitSignal
  }

  lemma LoopKeepsShared(s: State, w: nat, lost: bool)
    requires SharedOk(s) && WorkerEnabled(s, w) && WorkerOk(s, w, s.workers[w]) && !Exiting(s.workers[w])
    ensures SharedOk(WorkerExec(s, w, lost))
  {
    var r := WorkerExec(s, w, lost);
    assert r == s.(lock := r.lock, phase := r.phase, workers := r.workers) && r.workers[w] != Dead;
    assert forall v :: 0 <= v < |s.workers| && v != w ==> r.workers[v] == s.workers[v];
    hide WorkerExec, WorkerEnabled;
  }

  lemma ExitKeepsShared(s: State, w: nat, lost: bool)
    requires SharedOk(s) && WorkerEnabled(s, w) && WorkerOk(s, w, s.workers[w]) && Exiting(s.workers[w])
    ensures SharedOk(WorkerExec(s, w, lost))
  {
  }

  lemma WorkerKeepsShared(s: State, w: nat, lost: bool)
    requires SharedOk(s) && WorkerEnabled(s, w) && WorkerOk(s, w, s.workers[w])
    ensures SharedOk(WorkerExec(s, w, lost))
    ensures WorkerExec(s, w, lost).callers == s.callers && |WorkerExec(s, w, lost).workers| == |s.workers|
  {
    hide SharedOk, WorkerOk;
    if Exiting(s.workers[w]) { ExitKeepsShared(s, w, lost); } else { LoopKeepsShared(s, w, lost); }
  }

  lemma WorkerKeeps(s: State, w: nat, lost: bool)
    requires Inv(s) && WorkerEnabled(s, w)
    ensures Inv(WorkerExec(s, w, lost))
  {
    hide WorkerExec, SharedOk, CallerOk, WorkerOk;
    var r := WorkerExec(s, w, lost);
    WorkerKeepsShared(s, w, lost);
    forall d: nat | d < |r.callers| ensures CallerOk(r, d, r.callers[d]) {
      WorkerKeepsCaller(s, w, lost, d);
    }
    forall v: nat | v < |r.workers| ensures WorkerOk(r, v, r.workers[v]) {
      WorkerKeepsWorker(s, w, lost, v);
    }
  }

  lemma StepKeeps(s: State, a: Step)
    requires Inv(s) && Enabled(s, a)
    ensures Inv(Exec(s, a))
  {
    match a
    case CallerStep(c, created) =>
      hide CallersOk, WorkersOk, SharedOk, CallerExec;
      CallerKeeps(s, c, created);
    case WorkerStep(w, lost) =>
      hide CallersOk, WorkersOk, SharedOk, WorkerExec;
      WorkerKeeps(s, w, lost);
    case CallStart(c) => EntryKeeps(s, a, c);
    case CallStop(c) => EntryKeeps(s, a, c);
    case ApiAbort => FieldKeeps(s, Exec(s, a));
    case BodyEffect(w, phase, quit) =>
      assert WorkerOk(s, w, s.workers[w]);
      FieldKeeps(s, Exec(s, a));
  }

  lemma EntryKeeps(s: State, a: Step, c: nat)
    requires Inv(s) && Enabled(s, a) && (a == CallStart(c) || a == CallStop(c))
    ensures Inv(Exec(s, a))
  {
    var r := Exec(s, a);
    forall d: nat | d < |r.callers| ensures CallerOk(r, d, r.callers[d]) {
      assert CallerOk(s, d, s.callers[d]);
    }
    forall w: nat | w < |r.workers| ensures WorkerOk(r, w, r.workers[w]) {
      assert WorkerOk(s, w, s.workers[w]);
    }
  }

  /** The phase changes while a worker is in its loop, and `run` may drop. */
  lemma FieldKeeps(s: State, r: State)
    requires Inv(s) && r == s.(phase := r.phase, run := r.run) && (r.run ==> s.run)
    requires s.handle.Some? && !IsDead(s, s.handle.value) && s.workers[s.handle.value] != ExitSignal
    ensures Inv(r)
  {
    forall d: nat | d < |r.callers| ensures CallerOk(r, d, r.callers[d]) {
      assert CallerOk(s, d, s.callers[d]);
    }
    forall w: nat | w < |r.workers| ensures WorkerOk(r, w, r.workers[w]) {
      assert WorkerOk(s, w, s.workers[w]);
    }
  }

  // ---------------------------------------------------------------- the claims

  lemma {:induction false} RunKeeps(trace: seq<State>, steps: seq<Step>, n: nat, i: nat)
    requires IsRun(trace, steps) && Initial(trace[0], n) && i < |trace|
    ensures Inv(trace[i])
  {
    hide Enabled, Exec;
    if i == 0 {
      InitialOk(trace[0], n);
    } else {
      RunKeeps(trace, steps, n, i - 1);
      assert Takes(trace, steps, i - 1);
      StepKeeps(trace[i - 1], steps[i - 1]);
    }
  }

  lemma InitialOk(s: State, n: nat)
    requires Initial(s, n)
    ensures Inv(s)
  {
  }

  /** At most one worker is alive, and it is the one in `task_handle`. */
  lemma AtMostOneWorker(trace: seq<State>, steps: seq<Step>, n: nat, i: nat, v: nat, w: nat)
    requires IsRun(trace, steps) && Initial(trace[0], n) && i < |trace|
    requires v < |trace[i].workers| && trace[i].workers[v] != Dead
    requires w < |trace[i].workers| && trace[i].workers[w] != Dead
    ensures v == w && trace[i].handle == Some(w)
  {
    RunKeeps(trace, steps, n, i);
    assert WorkerOk(trace[i], v, trace[i].workers[v]) && WorkerOk(trace[i], w, trace[i].workers[w]);
  }

  /** A stop that sees STOPPED_BIT sees it from the worker it joins, and while it waits
      `run` stays false, so that worker leaves its loop at the next test. */
  lemma BitIsOfJoinedWorker(trace: seq<State>, steps: seq<Step>, n: nat, i: nat, c: nat, w: nat)
    requires IsRun(trace, steps) && Initial(trace[0], n) && i < |trace|
    requires c < |trace[i].callers| && trace[i].callers[c] == StopWait(w)
    ensures !trace[i].run && trace[i].handle == Some(w)
    ensures trace[i].bit.Some? ==> trace[i].bit == Some(w) && IsDead(trace[i], w)
  {
    RunKeeps(trace, steps, n, i);
    assert CallerOk(trace[i], c, trace[i].callers[c]);
  }

  lemma {:induction false} DeadStays(trace: seq<State>, steps: seq<Step>, w: nat, i: nat, j: nat)
    requires IsRun(trace, steps) && i <= j < |trace| && IsDead(trace[i], w)
    ensures IsDead(trace[j], w)
  {
    if i < j {
      DeadStays(trace, steps, w, i, j - 1);
      assert Takes(trace, steps, j - 1);
      DeadStep(trace[j - 1], steps[j - 1], w);
    }
  }

  lemma DeadStep(s: State, a: Step, w: nat)
    requires Enabled(s, a) && IsDead(s, w)
    ensures IsDead(Exec(s, a), w)
  {
  }

  /** The step is an access to the client by worker `w`. */
  predicate AccessBy(a: Step, w: nat) {
    (a.WorkerStep? || a.BodyEffect?) && a.w == w
  }

  /** When a stop is about to return ESP_OK, its worker has made its last access. */
  lemma StopAfterLastAccess(trace: seq<State>, steps: seq<Step>, n: nat, i: nat, c: nat, w: nat, j: nat)
    requires IsRun(trace, steps) && Initial(trace[0], n) && i < |steps|
    requires c < |trace[i].callers| && trace[i].callers[c] == StopReturn(w)
    requires i <= j < |steps|
    ensures w < |trace[i].workers| && !AccessBy(steps[j], w)
  {
    RunKeeps(trace, steps, n, i);
    assert CallerOk(trace[i], c, trace[i].callers[c]);
    DeadStays(trace, steps, w, i, j);
    assert Takes(trace, steps, j);
  }

  lemma JoinedBound(joined: set<nat>, n: nat)
    requires forall w :: w in joined ==> w < n
    ensures |joined| <= n
  {
    if n == 0 {
      assert joined == {};
    } else {
      JoinedBound(joined - {n - 1}, n - 1);
    }
  }

  /** Every stop that returned ESP_OK joined a worker of its own: their number is that of
      the joined workers, so at most that of the successful starts. */
  lemma StopsMatchStarts(trace: seq<State>, steps: seq<Step>, n: nat, i: nat)
    requires IsRun(trace, steps) && Initial(trace[0], n) && i < |trace|
    ensures var s := trace[i]; s.stops == |s.joined| <= |s.workers| && forall w :: w in s.joined ==> IsDead(s, w)
  {
    RunKeeps(trace, steps, n, i);
    var s := trace[i];
    JoinedBound(s.joined, |s.workers|);
    forall w | w in s.joined ensures IsDead(s, w) {
      assert WorkerOk(s, w, s.workers[w]);
    }
  }

  /** A start is refused exactly when a worker has not been joined yet: never because a
      finished session left another phase behind. */
  lemma RefusedIffUnjoined(trace: seq<State>, steps: seq<Step>, n: nat, i: nat, c: nat)
    requires IsRun(trace, steps) && Initial(trace[0], n) && i < |trace|
    requires c < |trace[i].callers| && trace[i].callers[c] == StartCheck
    ensures CallerExec(trace[i], c, true).callers[c] == StartUnlock(false) <==> trace[i].handle.Some?
  {
    RunKeeps(trace, steps, n, i);
  }

  /** From inside the worker's own event handler, start and stop both fail. */
  lemma ReentrantCallsFail(trace: seq<State>, steps: seq<Step>, n: nat, i: nat, w: nat)
    requires IsRun(trace, steps) && Initial(trace[0], n) && i < |trace|
    requires w < |trace[i].workers| && trace[i].workers[w] == Body
    ensures StartRefused(trace[i]) && (StopRefused(trace[i]) || trace[i].handle == Some(w))
  {
    RunKeeps(trace, steps, n, i);
    assert WorkerOk(trace[i], w, trace[i].workers[w]);
  }
}
