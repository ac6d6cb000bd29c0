/** Claiming one of a Bridge's four places: driver instances in any number of processes race on owner[] with
    compare-exchange, take over places of exited processes, and give places back. */
module BridgePlaces {
  import opened BridgeLayout

  // ---------------------------------------------------------------- one claim on its own

  /** A place claim can take: free, or held by another process that has exited. */
  predicate Takeable(owner: seq<int>, i: nat, me: int, running: set<int>)
    requires i < |owner|
  {
    owner[i] == 0 || (owner[i] != me && owner[i] !in running)
  }

  /** claimClientPlace without interference: the lowest free place, else the lowest place of an exited process,
      else none. -1 when the Bridge is full. */
  method ClaimClientPlace(owner: array<int>, me: int, running: set<int>) returns (place: int)
    requires owner.Length == PLACES && me != 0 && 0 !in running
    modifies owner
    ensures -1 <= place < PLACES
    ensures place == -1 <==> forall i :: 0 <= i < PLACES ==> !Takeable(old(owner[..]), i, me, running)
    ensures place == -1 ==> owner[..] == old(owner[..])
    ensures place >= 0 ==> owner[..] == old(owner[..])[place := me] && Takeable(old(owner[..]), place, me, running)
    ensures place >= 0 ==> forall i :: 0 <= i < place ==> old(owner[i]) != 0
    ensures place >= 0 && old(owner[place]) != 0 ==>
              (forall i :: 0 <= i < PLACES ==> old(owner[i]) != 0)
              && forall i :: 0 <= i < place ==> !Takeable(old(owner[..]), i, me, running)
  {
    place := -1;
    ghost var was := owner[..];
    for i := 0 to PLACES
      invariant place == -1 && owner[..] == was
      invariant forall k :: 0 <= k < i ==> owner[k] != 0
    {
      if owner[i] == 0 {
        assert Takeable(was, i, me, running);
        owner[i] := me;
        return i;
      }
    }
    for i := 0 to PLACES
      invariant place == -1 && owner[..] == was
      invariant forall k :: 0 <= k < PLACES ==> owner[k] != 0
      invariant forall k :: 0 <= k < i ==> !Takeable(owner[..], k, me, running)
    {
      var held := owner[i];
      if held != 0 && held != me && held !in running {
        assert Takeable(was, i, me, running);
        owner[i] := me;
        return i;
      }
    }
  }

  // ---------------------------------------------------------------- all claims together

  /** Where a driver instance is in claimClientPlace or releaseClientPlace; `place` is its clientId once it has one. */
  datatype Phase =
    | Idle
    | Seek(at: nat)                 // first loop: compare-exchange against 0
    | Probe(at: nat)                // second loop: about to read owner[at]
    | Judge(at: nat, held: int)     // read; about to ask whether `held` still runs
    | Swap(at: nat, held: int)      // it does not: about to compare-exchange against `held`
    | Full                          // claim failed
    | Fresh(place: nat)             // claimed; counts not reset yet
    | Holding(place: nat)
    | Leaving(place: nat)           // counts reset; owner not given back yet
    | Dead                          // its process has exited

  datatype Instance = Instance(pid: int, phase: Phase)

  /** `owner` is shared; `born` are the process IDs ever used, `running` those alive. */
  datatype State = State(owner: seq<int>, born: set<int>, running: set<int>, instances: seq<Instance>)

  datatype Step =
    | Spawn(newPid: int)
    | Open(pid: int)                   // a new driver instance in process pid
    | Exit(exiting: int)               // the process ends, cleanly or not
    | BeginClaim(who: nat)
    | TryFree(who: nat)
    | ReadOwner(who: nat)
    | AskRunning(who: nat, saysRunning: bool)
    | TrySwap(who: nat)
    | ResetCounts(who: nat)
    | BeginRelease(who: nat)
    | GiveBack(who: nat)

  ghost predicate Initial(s: State) {
    s == State([0, 0, 0, 0], {}, {}, [])
  }

  predicate Holds(c: Instance, i: nat) {
    (c.phase.Fresh? || c.phase.Holding? || c.phase.Leaving?) && c.phase.place == i
  }

  predicate PhaseFits(p: Phase) {
    match p
    case Seek(at) => at < PLACES
    case Probe(at) => at < PLACES
    case Judge(at, _) => at < PLACES
    case Swap(at, _) => at < PLACES
    case Fresh(place) => place < PLACES
    case Holding(place) => place < PLACES
    case Leaving(place) => place < PLACES
    case _ => true
  }

  predicate Shaped(s: State) {
    |s.owner| == PLACES && forall k :: 0 <= k < |s.instances| ==> PhaseFits(s.instances[k].phase)
  }

  predicate Enabled(s: State, step: Step)
    requires Shaped(s)
  {
    match step
    case Spawn(pid) => pid != 0 && pid !in s.born      // process IDs are not reused
    case Open(pid) => pid in s.running
    case Exit(pid) => pid in s.running
    case BeginClaim(k) => k < |s.instances| && s.instances[k].phase.Idle?
    case TryFree(k) => k < |s.instances| && s.instances[k].phase.Seek?
    case ReadOwner(k) => k < |s.instances| && s.instances[k].phase.Probe?
    case AskRunning(k, saysRunning) =>
      // ProcessRunning may call an exited process running (access denied), never the other way round
      k < |s.instances| && s.instances[k].phase.Judge? && (s.instances[k].phase.held in s.running ==> saysRunning)
    case TrySwap(k) => k < |s.instances| && s.instances[k].phase.Swap?
    case ResetCounts(k) => k < |s.instances| && s.instances[k].phase.Fresh?
    case BeginRelease(k) => k < |s.instances| && s.instances[k].phase.Holding?
    case GiveBack(k) => k < |s.instances| && s.instances[k].phase.Leaving?
  }

  function Move(s: State, k: nat, phase: Phase): State
    requires k < |s.instances|
  {
    s.(instances := s.instances[k := s.instances[k].(phase := phase)])
  }

  function NextProbe(at: nat): Phase {
    if at + 1 < PLACES then Probe(at + 1) else Full
  }

  function Do(s: State, step: Step): State
    requires Shaped(s) && Enabled(s, step)
  {
    match step
    case Spawn(pid) => s.(born := s.born + {pid}, running := s.running + {pid})
    case Open(pid) => s.(instances := s.instances + [Instance(pid, Idle)])
    case Exit(pid) =>
      s.(running := s.running - {pid},
         instances := seq(|s.instances|, k requires 0 <= k < |s.instances| =>
           if s.instances[k].pid == pid then s.instances[k].(phase := Dead) else s.instances[k]))
    case BeginClaim(k) => Move(s, k, Seek(0))
    case TryFree(k) =>
      var i := s.instances[k].phase.at;
      if s.owner[i] == 0 then Move(s, k, Fresh(i)).(owner := s.owner[i := s.instances[k].pid])
      else Move(s, k, if i + 1 < PLACES then Seek(i + 1) else Probe(0))
    case ReadOwner(k) =>
      var i := s.instances[k].phase.at;
      Move(s, k, Judge(i, s.owner[i]))
    case AskRunning(k, saysRunning) =>
      var Judge(i, held) := s.instances[k].phase;
      Move(s, k, if held != 0 && held != s.instances[k].pid && !saysRunning then Swap(i, held) else NextProbe(i))
    case TrySwap(k) =>
      var Swap(i, held) := s.instances[k].phase;
      if s.owner[i] == held then Move(s, k, Fresh(i)).(owner := s.owner[i := s.instances[k].pid])
      else Move(s, k, NextProbe(i))
    case ResetCounts(k) => Move(s, k, Holding(s.instances[k].phase.place))
    case BeginRelease(k) => Move(s, k, Leaving(s.instances[k].phase.place))
    case GiveBack(k) =>
      var i := s.instances[k].phase.place;
      if s.owner[i] == s.instances[k].pid then Move(s, k, Idle).(owner := s.owner[i := 0])
      else Move(s, k, Idle)
  }

  /** An instance that has a place is its recorded owner and runs; and the process a take-over is about to replace
      has exited for good. */
  ghost predicate InstanceOk(c: Instance, owner: seq<int>, born: set<int>, running: set<int>)
    requires |owner| == PLACES
  {
    && PhaseFits(c.phase)
    && (!c.phase.Dead? ==> c.pid in running)
    && (forall i :: 0 <= i < PLACES && Holds(c, i) ==> owner[i] == c.pid)
    && (c.phase.Swap? ==> c.phase.held !in running && c.phase.held in born)
    && (c.phase.Judge? ==> c.phase.held == 0 || c.phase.held in born)
  }

  ghost predicate Distinct(instances: seq<Instance>) {
    forall k, l, i :: 0 <= k < l < |instances| && 0 <= i < PLACES && Holds(instances[k], i) ==> !Holds(instances[l], i)
  }

  ghost predicate Inv(s: State) {
    && |s.owner| == PLACES && s.running <= s.born && 0 !in s.born
    && (forall i :: 0 <= i < PLACES ==> s.owner[i] == 0 || s.owner[i] in s.born)
    && (forall k :: 0 <= k < |s.instances| ==> InstanceOk(s.instances[k], s.owner, s.born, s.running))
    && Distinct(s.instances)
  }

  /** A compare-exchange that succeeded: place i had no owner that runs, so no instance had it. */
  lemma GainKeepsInv(s: State, k: nat, i: nat)
    requires Inv(s) && k < |s.instances| && i < PLACES && s.instances[k].pid in s.running
    requires s.owner[i] !in s.running
    ensures Inv(Move(s, k, Fresh(i)).(owner := s.owner[i := s.instances[k].pid]))
  {
    var c := s.instances[k];
    forall l | 0 <= l < |s.instances| ensures !Holds(s.instances[l], i) {
      assert InstanceOk(s.instances[l], s.owner, s.born, s.running);
    }
    forall l | 0 <= l < |s.instances| && l != k
      ensures InstanceOk(s.instances[l], s.owner[i := c.pid], s.born, s.running)
    {
      assert InstanceOk(s.instances[l], s.owner, s.born, s.running);
    }
  }

  /** A step that changes only one instance's phase, and gives it no place. */
  lemma MoveKeepsInv(s: State, k: nat, phase: Phase)
    requires Inv(s) && k < |s.instances| && !s.instances[k].phase.Dead?
    requires InstanceOk(s.instances[k].(phase := phase), s.owner, s.born, s.running)
    requires forall i :: 0 <= i < PLACES && Holds(s.instances[k].(phase := phase), i) ==> Holds(s.instances[k], i)
    ensures Inv(Move(s, k, phase))
  {
  }

  lemma GiveBackKeepsInv(s: State, k: nat, i: nat)
    requires Inv(s) && k < |s.instances| && i < PLACES && s.instances[k].phase == Leaving(i)
    ensures s.owner[i] == s.instances[k].pid
    ensures Inv(Move(s, k, Idle).(owner := s.owner[i := 0]))
  {
    assert InstanceOk(s.instances[k], s.owner, s.born, s.running);
    assert Holds(s.instances[k], i);
    forall l | 0 <= l < |s.instances| && l != k
      ensures InstanceOk(s.instances[l], s.owner[i := 0], s.born, s.running)
    {
      assert InstanceOk(s.instances[l], s.owner, s.born, s.running);
      assert !Holds(s.instances[l], i);
    }
  }

  lemma ExitKeepsInv(s: State, pid: int)
    requires Inv(s) && pid in s.running && Shaped(s)
    ensures Inv(Do(s, Exit(pid)))
  {
    var s' := Do(s, Exit(pid));
    forall l | 0 <= l < |s.instances| ensures InstanceOk(s'.instances[l], s'.owner, s'.born, s'.running) {
      assert InstanceOk(s.instances[l], s.owner, s.born, s.running);
    }
  }

  lemma SpawnKeepsInv(s: State, pid: int)
    requires Inv(s) && pid != 0 && pid !in s.born
    ensures Inv(s.(born := s.born + {pid}, running := s.running + {pid}))
  {
    forall l | 0 <= l < |s.instances|
      ensures InstanceOk(s.instances[l], s.owner, s.born + {pid}, s.running + {pid})
    {
      assert InstanceOk(s.instances[l], s.owner, s.born, s.running);
    }
  }

  lemma OpenKeepsInv(s: State, pid: int)
    requires Inv(s) && pid in s.running
    ensures Inv(s.(instances := s.instances + [Instance(pid, Idle)]))
  {
  }

  predicate Looking(step: Step) {
    step.BeginClaim? || step.ReadOwner? || step.AskRunning? || step.ResetCounts? || step.BeginRelease?
  }

  /** The steps that only read, or only change the instance's own phase. */
  lemma LookingKeepsInv(s: State, step: Step)
    requires Inv(s) && Shaped(s) && Enabled(s, step) && Looking(step)
    ensures Inv(Do(s, step))
  {
    var k := step.who;
    assert InstanceOk(s.instances[k], s.owner, s.born, s.running);
    MoveKeepsInv(s, k, Do(s, step).instances[k].phase);
  }

  /** The compare-exchanges. */
  lemma SwapKeepsInv(s: State, step: Step)
    requires Inv(s) && Shaped(s) && Enabled(s, step) && (step.TryFree? || step.TrySwap? || step.GiveBack?)
    ensures Inv(Do(s, step))
  {
    var k := step.who;
    var c := s.instances[k];
    assert InstanceOk(c, s.owner, s.born, s.running);
    if step.GiveBack? {
      GiveBackKeepsInv(s, k, c.phase.place);
    } else if (step.TryFree? && s.owner[c.phase.at] == 0) || (step.TrySwap? && s.owner[c.phase.at] == c.phase.held) {
      GainKeepsInv(s, k, c.phase.at);
    } else {
      MoveKeepsInv(s, k, Do(s, step).instances[k].phase);
    }
  }

  lemma StepKeepsInv(s: State, step: Step)
    requires Inv(s) && Shaped(s) && Enabled(s, step)
    ensures Inv(Do(s, step))
  {
    match step
    case Spawn(pid) => SpawnKeepsInv(s, pid);
    case Open(pid) => OpenKeepsInv(s, pid);
    case Exit(pid) => ExitKeepsInv(s, pid);
    case _ => if Looking(step) { LookingKeepsInv(s, step); } else { SwapKeepsInv(s, step); }
  }

  lemma InvShapes(s: State)
    requires Inv(s)
    ensures Shaped(s)
  {
    forall k | 0 <= k < |s.instances| ensures PhaseFits(s.instances[k].phase) {
      assert InstanceOk(s.instances[k], s.owner, s.born, s.running);
    }
  }

  // ---------------------------------------------------------------- runs

  ghost predicate Runs(s: State, steps: seq<Step>, s': State)
    decreases |steps|
  {
    if steps == [] then s' == s
    else Shaped(s) && Enabled(s, steps[0]) && Runs(Do(s, steps[0]), steps[1..], s')
  }

  ghost predicate Reachable(s: State) {
    exists s0: State, steps: seq<Step> :: Initial(s0) && Runs(s0, steps, s)
  }

  lemma {:induction false} RunKeepsInv(s: State, steps: seq<Step>, s': State)
    requires Inv(s) && Runs(s, steps, s')
    ensures Inv(s')
    decreases |steps|
  {
    if steps != [] {
      InvShapes(s);
      StepKeepsInv(s, steps[0]);
      RunKeepsInv(Do(s, steps[0]), steps[1..], s');
    }
  }

  lemma ReachableInv(s: State)
    requires Reachable(s)
    ensures Inv(s)
  {
    var s0: State, steps: seq<Step> :| Initial(s0) && Runs(s0, steps, s);
    RunKeepsInv(s0, steps, s);
  }

  // ---------------------------------------------------------------- what claiming promises

  /** In every interleaving of claims, releases, exits and take-overs, a place is held by at most one driver instance
      of a running process (two instances in one process included), and owner[] names that process. */
  lemma OneHolder(s: State, k: nat, l: nat, i: nat)
    requires Reachable(s) && k < |s.instances| && l < |s.instances| && i < PLACES
    requires Holds(s.instances[k], i) && Holds(s.instances[l], i)
    ensures k == l && |s.owner| == PLACES && s.owner[i] == s.instances[k].pid && s.instances[k].pid in s.running
  {
    ReachableInv(s);
    assert InstanceOk(s.instances[k], s.owner, s.born, s.running);
  }

  /** The steps by which instance k itself gives up its place, or its process ends. */
  predicate GivesUp(step: Step, k: nat, pid: int) {
    step == BeginRelease(k) || step == GiveBack(k) || step == Exit(pid)
  }

  /** A running instance never loses its place: whatever everybody else does, it keeps it until it releases it or its
      process ends. */
  lemma {:induction false} NeverLosesPlace(s: State, steps: seq<Step>, s': State, k: nat, i: nat)
    requires Inv(s) && Runs(s, steps, s') && k < |s.instances| && i < PLACES && Holds(s.instances[k], i)
    requires forall n :: 0 <= n < |steps| ==> !GivesUp(steps[n], k, s.instances[k].pid)
    ensures k < |s'.instances| && Holds(s'.instances[k], i) && |s'.owner| == PLACES && s'.owner[i] == s.instances[k].pid
    decreases |steps|
  {
    if steps == [] {
      assert InstanceOk(s.instances[k], s.owner, s.born, s.running);
    } else {
      InvShapes(s);
      StepKeepsInv(s, steps[0]);
      var next := Do(s, steps[0]);
      assert !GivesUp(steps[0], k, s.instances[k].pid);
      assert k < |next.instances| && Holds(next.instances[k], i) && next.instances[k].pid == s.instances[k].pid;
      forall n | 0 <= n < |steps[1..]| ensures !GivesUp(steps[1..][n], k, s.instances[k].pid) {
        assert steps[1..][n] == steps[n + 1];
      }
      NeverLosesPlace(next, steps[1..], s', k, i);
    }
  }
}
