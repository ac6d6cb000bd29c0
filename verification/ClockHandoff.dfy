/** The Master Clock / Worker hand-off: a tick count, an auto-reset event that coalesces, and a wait that is decided by
    the count the Worker has routed, not by the event that wakes it. */
module ClockHandoff {

  /** Where the Master Clock thread is. `waitWorker(tick)` is Check and Blocked; the rest is clockTick(). */
  datatype Clock =
    | Check(tick: nat)     // about to compare routed_ with tick
    | Blocked(tick: nat)   // in WaitForSingleObject(workerDone_)
    | ReadIn               // Master IN slots -> DAW inputs
    | WriteOut             // DAW outputs -> Master OUT slots
    | Count                // OUT blocks stored, clockTicks_ not yet counted up
    | Signal               // counted, Master_Tick not yet set

  /** Where the Worker thread is. `began` is how many ticks had stored their OUT blocks when this doTick began. */
  datatype Worker =
    | Asleep
    | Woken                          // Master_Tick consumed
    | Loaded(now: nat)               // clockTicks_ read into ticksSeen_
    | Routing(now: nat, began: nat)  // inside doTick()
    | Routed(now: nat)               // doTick() done, routed_ not yet stored
    | Announce                       // routed_ stored, workerDone_ not yet set

  /** A finished doTick. */
  datatype Pass = Pass(now: nat, began: nat)

  /** ticks = clockTicks_, routed = routed_, seen/haveTicks = ticksSeen_/haveTicks_, skipped = blocks handed to skip();
      stored counts the ticks whose OUT blocks are stored, woke the wakes that found a new count, passes the finished
      doTicks, timedOut whether some waitWorker has returned false. */
  datatype State = State(base: nat, ticks: nat, stored: nat, routed: nat, tickEvent: bool, doneEvent: bool,
                         clock: Clock, worker: Worker, seen: nat, haveTicks: bool,
                         skipped: nat, woke: nat, origin: int, passes: seq<Pass>, timedOut: bool)

  datatype Step =
    | Compare(giveUp: bool)   // waitWorker's test; giveUp: the time is over
    | WakeClock(signaled: bool)
    | FinishIn
    | FinishOut
    | CountTick
    | SetTick
    | WakeWorker
    | LoadTicks
    | BeginTick
    | EndTick
    | StoreRouted
    | SetDone

  /** setTickCounter ran, the Worker's thread started: ticks of an earlier start count as routed. */
  ghost predicate Initial(s: State) {
    && s.routed == s.ticks == s.base == s.stored
    && s.clock == Check(s.ticks) && s.worker == Asleep
    && !s.haveTicks && s.skipped == 0 && s.woke == 0 && s.passes == [] && !s.timedOut
  }

  predicate Enabled(s: State, step: Step) {
    match step
    case Compare(giveUp) => s.clock.Check? && (giveUp ==> s.routed < s.clock.tick)
    case WakeClock(signaled) => s.clock.Blocked? && (signaled ==> s.doneEvent)
    case FinishIn => s.clock.ReadIn?
    case FinishOut => s.clock.WriteOut?
    case CountTick => s.clock.Count?
    case SetTick => s.clock.Signal?
    case WakeWorker => s.worker.Asleep? && s.tickEvent
    case LoadTicks => s.worker.Woken?
    case BeginTick => s.worker.Loaded?
    case EndTick => s.worker.Routing?
    case StoreRouted => s.worker.Routed?
    case SetDone => s.worker.Announce?
  }

  function Do(s: State, step: Step): State
    requires Enabled(s, step)
  {
    match step
    case Compare(giveUp) =>
      if s.routed >= s.clock.tick then s.(clock := ReadIn)
      else if giveUp then s.(clock := ReadIn, timedOut := true)
      else s.(clock := Blocked(s.clock.tick))
    case WakeClock(signaled) =>
      s.(clock := Check(s.clock.tick), doneEvent := if signaled then false else s.doneEvent)
    case FinishIn => s.(clock := WriteOut)
    case FinishOut => s.(clock := Count, stored := s.stored + 1)
    case CountTick => s.(clock := Signal, ticks := s.ticks + 1)
    case SetTick => s.(clock := Check(s.ticks), tickEvent := true)
    case WakeWorker => s.(worker := Woken, tickEvent := false)
    case LoadTicks =>
      var now := s.ticks;
      var missed := if s.haveTicks && now > s.seen + 1 then now - s.seen - 1 else 0;
      s.(worker := Loaded(now), seen := now, haveTicks := true, skipped := s.skipped + missed,
         woke := if !s.haveTicks || now > s.seen then s.woke + 1 else s.woke,
         origin := if s.haveTicks then s.origin else now - 1)
    case BeginTick => s.(worker := Routing(s.worker.now, s.stored))
    case EndTick => s.(worker := Routed(s.worker.now), passes := s.passes + [Pass(s.worker.now, s.worker.began)])
    case StoreRouted => s.(worker := Announce, routed := s.worker.now)
    case SetDone => s.(worker := Asleep, doneEvent := true)
  }

  // ---------------------------------------------------------------- in every run

  /** The tick count the n-th doTick saw; the count at the start for n = 0. */
  function NowOf(base: nat, passes: seq<Pass>, n: nat): nat
    requires n <= |passes|
  {
    if n == 0 then base else passes[n - 1].now
  }

  ghost predicate Inv(s: State) {
    && s.base <= s.routed <= s.ticks <= s.stored
    && s.stored == s.ticks + (if s.clock.Count? then 1 else 0)
    && (s.clock.Check? || s.clock.Blocked? ==> s.clock.tick == s.ticks)
    && (forall k :: 0 <= k < |s.passes| ==> s.passes[k].now <= s.passes[k].began && s.base <= s.passes[k].now <= s.ticks)
    && (if s.worker.Routed?
        then
          && s.passes != [] && NowOf(s.base, s.passes, |s.passes|) == s.worker.now
          && s.routed == NowOf(s.base, s.passes, |s.passes| - 1)
        else s.routed == NowOf(s.base, s.passes, |s.passes|))
    && (s.worker.Loaded? || s.worker.Routing? || s.worker.Routed? ==> s.base <= s.worker.now <= s.ticks)
    && (s.worker.Routing? ==> s.worker.now <= s.worker.began)
    && (if s.haveTicks then s.seen <= s.ticks && s.origin + s.woke + s.skipped == s.seen
        else (s.worker.Asleep? || s.worker.Woken?) && s.passes == [] && s.woke == 0 && s.skipped == 0)
  }

  predicate ClockStep(step: Step) {
    step.Compare? || step.WakeClock? || step.FinishIn? || step.FinishOut? || step.CountTick? || step.SetTick?
  }

  lemma ClockStepKeepsInv(s: State, step: Step)
    requires Inv(s) && Enabled(s, step) && ClockStep(step)
    ensures Inv(Do(s, step))
  {
    var s' := Do(s, step);
    assert s'.base == s.base && s'.routed == s.routed && s'.worker == s.worker && s'.passes == s.passes;
    assert s'.seen == s.seen && s'.haveTicks == s.haveTicks && s'.origin + s'.woke + s'.skipped == s.origin + s.woke + s.skipped;
  }

  lemma WorkerStepKeepsInv(s: State, step: Step)
    requires Inv(s) && Enabled(s, step) && !ClockStep(step)
    ensures Inv(Do(s, step))
  {
  }

  lemma StepKeepsInv(s: State, step: Step)
    requires Inv(s) && Enabled(s, step)
    ensures Inv(Do(s, step)) && Do(s, step).base == s.base && (s.timedOut ==> Do(s, step).timedOut)
  {
    if ClockStep(step) { ClockStepKeepsInv(s, step); } else { WorkerStepKeepsInv(s, step); }
  }

  // ---------------------------------------------------------------- without a timed-out wait

  predicate Resting(w: Worker) {
    w.Asleep? || w.Announce?
  }

  /** The two threads in step: the Worker routes tick `ticks` exactly while the clock waits for it. */
  ghost predicate InStep(s: State) {
    && (forall k :: 0 <= k < |s.passes| ==> s.passes[k].now == s.base + k + 1)
    && |s.passes| == (if s.worker.Routed? then s.worker.now else s.routed) - s.base
    && (match s.clock
        case ReadIn => Resting(s.worker) && !s.tickEvent && s.routed == s.ticks
        case WriteOut => Resting(s.worker) && !s.tickEvent && s.routed == s.ticks
        case Count => Resting(s.worker) && !s.tickEvent && s.routed == s.ticks
        case Signal => Resting(s.worker) && !s.tickEvent && s.routed + 1 == s.ticks
        case _ =>
          if Resting(s.worker) then s.routed + (if s.tickEvent then 1 else 0) == s.ticks
          else !s.tickEvent && s.routed + 1 == s.ticks && (!s.worker.Woken? ==> s.worker.now == s.ticks))
    && (if s.haveTicks
        then s.skipped == 0 && s.seen == (if Resting(s.worker) || s.worker.Woken? then s.routed else s.ticks)
        else s.routed == s.base && s.skipped == 0)
  }

  lemma ClockStepKeepsInStep(s: State, step: Step)
    requires Inv(s) && Enabled(s, step) && InStep(s) && ClockStep(step) && !Do(s, step).timedOut
    ensures InStep(Do(s, step))
  {
  }

  lemma WorkerStepKeepsInStep(s: State, step: Step)
    requires Inv(s) && Enabled(s, step) && InStep(s) && !ClockStep(step)
    ensures InStep(Do(s, step))
  {
  }

  // ---------------------------------------------------------------- runs

  ghost predicate Runs(s: State, steps: seq<Step>, s': State)
    decreases |steps|
  {
    if steps == [] then s' == s else Enabled(s, steps[0]) && Runs(Do(s, steps[0]), steps[1..], s')
  }

  lemma {:induction false} RunKeepsInv(s: State, steps: seq<Step>, s': State)
    requires Inv(s) && Runs(s, steps, s')
    ensures Inv(s') && s'.base == s.base
    ensures s.timedOut ==> s'.timedOut
    decreases |steps|
  {
    if steps != [] {
      StepKeepsInv(s, steps[0]);
      RunKeepsInv(Do(s, steps[0]), steps[1..], s');
    }
  }

  lemma {:induction false} RunKeepsInStep(s: State, steps: seq<Step>, s': State)
    requires Inv(s) && InStep(s) && Runs(s, steps, s') && !s'.timedOut
    ensures InStep(s')
    decreases |steps|
  {
    if steps != [] {
      var next := Do(s, steps[0]);
      StepKeepsInv(s, steps[0]);
      RunKeepsInv(next, steps[1..], s');
      if ClockStep(steps[0]) { ClockStepKeepsInStep(s, steps[0]); } else { WorkerStepKeepsInStep(s, steps[0]); }
      RunKeepsInStep(next, steps[1..], s');
    }
  }

  // ---------------------------------------------------------------- what the hand-off promises

  /** In every run: when waitWorker(tick) is about to return true, either no tick has happened since the Worker started,
      or a doTick that began after tick `tick` had stored its OUT blocks has finished. */
  lemma RoutedMeansRouted(s0: State, steps: seq<Step>, s: State)
    requires Initial(s0) && Runs(s0, steps, s)
    requires s.clock.Check? && s.routed >= s.clock.tick
    ensures s.clock.tick == s.base || exists k :: 0 <= k < |s.passes| && s.passes[k].began >= s.clock.tick
  {
    RunKeepsInv(s0, steps, s);
    if s.clock.tick != s.base {
      var k := |s.passes| - (if s.worker.Routed? then 2 else 1);
      assert s.passes[k].began >= s.passes[k].now;
    }
  }

  /** In every run: each tick the Worker has learned of was either a wake of its own or handed to skip(), so the HW
      devices are moved on by every tick's block; and a wake counts a tick at most once. */
  lemma EveryTickAccounted(s0: State, steps: seq<Step>, s: State)
    requires Initial(s0) && Runs(s0, steps, s) && s.haveTicks
    ensures s.woke + s.skipped == s.seen - s.origin && s.seen <= s.ticks
  {
    RunKeepsInv(s0, steps, s);
  }

  /** From a clear Master_Tick event and with no wait timed out, every tick up to the routed one was routed by exactly
      one doTick, in order, none was skipped, and the clock's shared-memory copies never overlap a doTick. */
  lemma ExactlyOnce(s0: State, steps: seq<Step>, s: State)
    requires Initial(s0) && !s0.tickEvent && Runs(s0, steps, s) && !s.timedOut
    ensures s.base <= s.routed <= s.ticks <= s.routed + 1 && s.skipped == 0
    ensures s.routed - s.base <= |s.passes| && forall k :: 0 <= k < |s.passes| ==> s.passes[k].now == s.base + k + 1
    ensures forall k, l :: 0 <= k < |s.passes| && 0 <= l < |s.passes| && s.passes[k].now == s.passes[l].now ==> k == l
    ensures s.clock.ReadIn? || s.clock.WriteOut? ==> !s.worker.Routing? && s.routed == s.ticks
  {
    RunKeepsInv(s0, steps, s);
    RunKeepsInStep(s0, steps, s);
  }

  // ---------------------------------------------------------------- exactly once, exactly when

  /** The newest tick the Worker has read. */
  function ReadCount(s: State): nat {
    if s.haveTicks then s.seen else s.base
  }

  /** Every tick of the run was counted after the Worker had read the one before. */
  ghost predicate CountsInTime(s: State, steps: seq<Step>)
    decreases |steps|
  {
    steps == [] ||
    (Enabled(s, steps[0]) && (steps[0].CountTick? ==> ReadCount(s) == s.ticks) && CountsInTime(Do(s, steps[0]), steps[1..]))
  }

  predicate InDoTick(w: Worker) {
    w.Loaded? || w.Routing?
  }

  /** No tick is on its way to the Worker or in a doTick. */
  predicate Settled(s: State) {
    !s.tickEvent && !s.clock.Signal? && !s.worker.Woken? && !InDoTick(s.worker)
  }

  /** Each tick since the start was routed by exactly one doTick, in order. */
  ghost predicate OnceEach(s: State) {
    |s.passes| == s.ticks - s.base && forall k :: 0 <= k < |s.passes| ==> s.passes[k].now == s.base + k + 1
  }

  function One(b: bool): nat {
    if b then 1 else 0
  }

  /** At most one tick is on its way to the Worker, and each one before it has had its doTick. */
  ghost predicate Paced(s: State) {
    && s.ticks == ReadCount(s) + One(s.clock.Signal?) + One(s.tickEvent) + One(s.worker.Woken?) <= ReadCount(s) + 1
    && |s.passes| + One(InDoTick(s.worker)) == ReadCount(s) - s.base
    && (InDoTick(s.worker) ==> s.worker.now == ReadCount(s))
    && forall k :: 0 <= k < |s.passes| ==> s.passes[k].now == s.base + k + 1
  }

  lemma ClockStepKeepsPaced(s: State, step: Step)
    requires Paced(s) && Enabled(s, step) && ClockStep(step) && (step.CountTick? ==> ReadCount(s) == s.ticks)
    ensures Paced(Do(s, step))
  {
    var s' := Do(s, step);
    assert s'.base == s.base && s'.worker == s.worker && s'.passes == s.passes && ReadCount(s') == ReadCount(s);
  }

  lemma WorkerStepKeepsPaced(s: State, step: Step)
    requires Paced(s) && Enabled(s, step) && !ClockStep(step)
    ensures Paced(Do(s, step))
  {
  }

  lemma {:induction false} RunKeepsPaced(s: State, steps: seq<Step>, s': State)
    requires Paced(s) && Runs(s, steps, s') && CountsInTime(s, steps)
    ensures Paced(s')
    decreases |steps|
  {
    if steps != [] {
      if ClockStep(steps[0]) { ClockStepKeepsPaced(s, steps[0]); } else { WorkerStepKeepsPaced(s, steps[0]); }
      RunKeepsPaced(Do(s, steps[0]), steps[1..], s');
    }
  }

  /** No doTick is ahead of what the Worker has read. */
  ghost predicate Behind(s: State) {
    && s.base <= ReadCount(s) <= s.ticks
    && (InDoTick(s.worker) ==> s.worker.now <= ReadCount(s))
    && forall k :: 0 <= k < |s.passes| ==> s.passes[k].now <= ReadCount(s)
  }

  lemma StepKeepsBehind(s: State, step: Step)
    requires Behind(s) && Enabled(s, step)
    ensures Behind(Do(s, step))
  {
  }

  /** Tick t is past, and has no doTick. */
  ghost predicate Missed(s: State, t: nat) {
    && s.base < t < s.ticks && (InDoTick(s.worker) ==> s.worker.now != t)
    && forall k :: 0 <= k < |s.passes| ==> s.passes[k].now != t
  }

  lemma StepKeepsMissed(s: State, step: Step, t: nat)
    requires Missed(s, t) && Enabled(s, step)
    ensures Missed(Do(s, step), t)
  {
  }

  lemma {:induction false} RunKeepsMissed(s: State, steps: seq<Step>, s': State, t: nat)
    requires Missed(s, t) && Runs(s, steps, s')
    ensures Missed(s', t)
    decreases |steps|
  {
    if steps != [] {
      StepKeepsMissed(s, steps[0], t);
      RunKeepsMissed(Do(s, steps[0]), steps[1..], s', t);
    }
  }

  /** A tick counted before the Worker had read the one before leaves that one without a doTick for good. */
  lemma {:induction false} LateCountMisses(s: State, steps: seq<Step>, s': State) returns (t: nat)
    requires Behind(s) && Runs(s, steps, s') && !CountsInTime(s, steps)
    ensures Missed(s', t)
    decreases |steps|
  {
    var next := Do(s, steps[0]);
    if steps[0].CountTick? && ReadCount(s) != s.ticks {
      t := s.ticks;
      RunKeepsMissed(next, steps[1..], s', t);
    } else {
      StepKeepsBehind(s, steps[0]);
      t := LateCountMisses(next, steps[1..], s');
    }
  }

  /** From a clear Master_Tick event, whenever no tick is on its way: each tick was routed by exactly one doTick, in order,
      if and only if the Worker had read every tick before the clock counted the next. */
  lemma OnceExactlyWhen(s0: State, steps: seq<Step>, s: State)
    requires Initial(s0) && !s0.tickEvent && Runs(s0, steps, s) && Settled(s)
    ensures OnceEach(s) <==> CountsInTime(s0, steps)
  {
    if CountsInTime(s0, steps) {
      RunKeepsPaced(s0, steps, s);
    } else {
      var t := LateCountMisses(s0, steps, s);
      MissedIsNotOnce(s, t);
    }
  }

  lemma MissedIsNotOnce(s: State, t: nat)
    requires Missed(s, t)
    ensures !OnceEach(s)
  {
    var k := t - s.base - 1;
    if k < |s.passes| { assert s.passes[k].now != t; }
  }

  /** How often a step was taken. */
  function Taken(steps: seq<Step>, step: Step): nat
    decreases |steps|
  {
    if steps == [] then 0 else One(steps[0] == step) + Taken(steps[1..], step)
  }

  /** The doTicks finished, and the one a wake has begun. */
  function Wakes(s: State): nat {
    |s.passes| + One(s.worker.Woken? || InDoTick(s.worker))
  }

  lemma StepTaken(s: State, step: Step)
    requires Enabled(s, step)
    ensures Do(s, step).ticks == s.ticks + One(step.CountTick?) && Wakes(Do(s, step)) == Wakes(s) + One(step.WakeWorker?)
  {
  }

  lemma {:induction false} TakenIs(s: State, steps: seq<Step>, s': State)
    requires Runs(s, steps, s')
    ensures s'.ticks == s.ticks + Taken(steps, CountTick) && Wakes(s') == Wakes(s) + Taken(steps, WakeWorker)
    decreases |steps|
  {
    if steps != [] {
      StepTaken(s, steps[0]);
      TakenIs(Do(s, steps[0]), steps[1..], s');
    }
  }

  /** With ticks counted in time, doTicks can only repeat, and as long as none has they are in order. */
  ghost predicate Repeating(s: State) {
    var passes := |s.passes| + One(InDoTick(s.worker));
    && ReadCount(s) <= s.ticks <= ReadCount(s) + One(s.clock.Signal? || s.tickEvent || s.worker.Woken?)
    && passes >= ReadCount(s) - s.base
    && (InDoTick(s.worker) ==> s.worker.now == ReadCount(s))
    && (passes == ReadCount(s) - s.base ==> forall k :: 0 <= k < |s.passes| ==> s.passes[k].now == s.base + k + 1)
  }

  lemma ClockStepKeepsRepeating(s: State, step: Step)
    requires Repeating(s) && Enabled(s, step) && ClockStep(step) && (step.CountTick? ==> ReadCount(s) == s.ticks)
    ensures Repeating(Do(s, step))
  {
    var s' := Do(s, step);
    assert s'.base == s.base && s'.worker == s.worker && s'.passes == s.passes && ReadCount(s') == ReadCount(s);
  }

  lemma WorkerStepKeepsRepeating(s: State, step: Step)
    requires Repeating(s) && Enabled(s, step) && !ClockStep(step)
    ensures Repeating(Do(s, step))
  {
  }

  lemma {:induction false} RunKeepsRepeating(s: State, steps: seq<Step>, s': State)
    requires Repeating(s) && Runs(s, steps, s') && CountsInTime(s, steps)
    ensures Repeating(s')
    decreases |steps|
  {
    if steps != [] {
      if ClockStep(steps[0]) { ClockStepKeepsRepeating(s, steps[0]); } else { WorkerStepKeepsRepeating(s, steps[0]); }
      RunKeepsRepeating(Do(s, steps[0]), steps[1..], s');
    }
  }

  /** Whatever the Master_Tick event held at the start: each tick was routed exactly once, in order, if and only if the
      Worker read every tick in time and woke once for each. */
  lemma OnceWhateverTheEvent(s0: State, steps: seq<Step>, s: State)
    requires Initial(s0) && Runs(s0, steps, s) && Settled(s)
    ensures OnceEach(s) <==> CountsInTime(s0, steps) && Taken(steps, WakeWorker) == Taken(steps, CountTick)
  {
    TakenIs(s0, steps, s);
    RunKeepsInv(s0, steps, s);
    if CountsInTime(s0, steps) {
      RunKeepsRepeating(s0, steps, s);
    } else {
      var t := LateCountMisses(s0, steps, s);
      MissedIsNotOnce(s, t);
    }
  }

  /** Without a timed-out wait every tick is counted in time. */
  lemma {:induction false} NoTimeOutIsInTime(s: State, steps: seq<Step>, s': State)
    requires Inv(s) && InStep(s) && Runs(s, steps, s') && !s'.timedOut
    ensures CountsInTime(s, steps)
    decreases |steps|
  {
    if steps != [] {
      var next := Do(s, steps[0]);
      StepKeepsInv(s, steps[0]);
      RunKeepsInv(next, steps[1..], s');
      if ClockStep(steps[0]) { ClockStepKeepsInStep(s, steps[0]); } else { WorkerStepKeepsInStep(s, steps[0]); }
      NoTimeOutIsInTime(next, steps[1..], s');
    }
  }

  /** From an event left set by an earlier start the Worker routes a tick that was routed before. */
  lemma LeftoverEventRoutesOldTick(s0: State) returns (steps: seq<Step>, s: State)
    requires Initial(s0) && s0.tickEvent
    ensures Runs(s0, steps, s) && !s.timedOut && s.ticks == s.base && Settled(s) && CountsInTime(s0, steps)
    ensures |s.passes| == 1 && s.passes[0].now == s.base && !OnceEach(s)
  {
    steps, s := Then(s0, [], s0, WakeWorker);
    steps, s := OnePass(s0, steps, s);
    NoCountIsInTime(s0, steps, s);
  }

  lemma {:induction false} NoCountIsInTime(s: State, steps: seq<Step>, s': State)
    requires Runs(s, steps, s') && CountTick !in steps
    ensures CountsInTime(s, steps)
    decreases |steps|
  {
    if steps != [] { NoCountIsInTime(Do(s, steps[0]), steps[1..], s'); }
  }

  /** A timed-out wait can break it: the event coalesces two ticks while the Worker is between waking and
      reading the count, and is then found set again. Tick base + 1 is never routed on its own, tick base + 2 twice. */
  lemma TimedOutWaitRoutesTwice(s0: State) returns (steps: seq<Step>, s: State)
    requires Initial(s0) && !s0.tickEvent
    ensures Runs(s0, steps, s) && s.timedOut
    ensures |s.passes| == 2 && s.passes[0].now == s.passes[1].now == s0.base + 2
  {
    steps, s := TwoTicksOneWake(s0);
    steps, s := OnePass(s0, steps, s);
    steps, s := Then(s0, steps, s, StoreRouted);
    steps, s := Then(s0, steps, s, SetDone);
    steps, s := Then(s0, steps, s, WakeWorker);
    steps, s := OnePass(s0, steps, s);
  }

  lemma OnePass(s0: State, steps: seq<Step>, s: State) returns (steps': seq<Step>, s': State)
    requires Runs(s0, steps, s) && s.worker == Woken
    ensures Runs(s0, steps', s') && steps' == steps + [LoadTicks, BeginTick, EndTick]
    ensures s'.worker == Routed(s.ticks) && s'.tickEvent == s.tickEvent && s'.ticks == s.ticks && s'.clock == s.clock
    ensures s'.base == s.base
    ensures s'.passes == s.passes + [Pass(s.ticks, s.stored)] && s'.timedOut == s.timedOut && s'.stored == s.stored
  {
    steps', s' := Then(s0, steps, s, LoadTicks);
    steps', s' := Then(s0, steps', s', BeginTick);
    steps', s' := Then(s0, steps', s', EndTick);
  }

  /** Two ticks while the Worker has consumed the first one's event and not read the count. */
  lemma TwoTicksOneWake(s0: State) returns (steps: seq<Step>, s: State)
    requires Initial(s0) && !s0.tickEvent
    ensures Runs(s0, steps, s)
    ensures s.worker == Woken && s.tickEvent && s.ticks == s0.base + 2 && s.passes == [] && s.timedOut
  {
    steps, s := OneTick(s0, [], s0, false);
    steps, s := Then(s0, steps, s, WakeWorker);
    steps, s := OneTick(s0, steps, s, true);
  }

  lemma OneTick(s0: State, steps: seq<Step>, s: State, giveUp: bool) returns (steps': seq<Step>, s': State)
    requires Runs(s0, steps, s) && s.clock == Check(s.ticks) && (giveUp <==> s.routed < s.ticks)
    ensures Runs(s0, steps', s')
    ensures s'.clock == Check(s'.ticks) && s'.ticks == s.ticks + 1 && s'.tickEvent && s'.worker == s.worker
    ensures s'.passes == s.passes && s'.timedOut == (s.timedOut || giveUp) && s'.routed == s.routed
  {
    steps', s' := Then(s0, steps, s, Compare(giveUp));
    steps', s' := Then(s0, steps', s', FinishIn);
    steps', s' := Then(s0, steps', s', FinishOut);
    steps', s' := Then(s0, steps', s', CountTick);
    steps', s' := Then(s0, steps', s', SetTick);
  }

  lemma Then(s0: State, steps: seq<Step>, s: State, step: Step) returns (steps': seq<Step>, s': State)
    requires Runs(s0, steps, s) && Enabled(s, step)
    ensures s' == Do(s, step) && steps' == steps + [step] && Runs(s0, steps', s')
  {
    steps', s' := steps + [step], Do(s, step);
    RunExtends(s0, steps, s, step);
  }

  lemma {:induction false} RunExtends(s0: State, steps: seq<Step>, s: State, step: Step)
    requires Runs(s0, steps, s) && Enabled(s, step)
    ensures Runs(s0, steps + [step], Do(s, step))
    decreases |steps|
  {
    if steps == [] {
      assert (steps + [step])[1..] == [];
    } else {
      RunExtends(Do(s0, steps[0]), steps[1..], s, step);
      assert (steps + [step])[1..] == steps[1..] + [step];
    }
  }
}
