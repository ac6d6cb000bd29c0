/** The Worker / network thread gate of a Network Stream: the network thread may reallocate a stream's ring and scratch
    only while the Worker is outside it. */
module StreamGate {

  /** Where the Worker is in enter() ... leave(). `generation` is the stream's allocation it found on entering. */
  datatype Worker =
    | Outside
    | Tested                    // read active: true
    | Marked                    // busy set, active not yet read again
    | Inside(generation: nat)   // enter() returned true
    | BackingOff                // second read: false; busy not yet cleared

  /** Where the network thread is with this stream. Closed lasts from close() returning until active is set. */
  datatype Network = Serving | Spinning | Closed

  datatype State = State(active: bool, busy: bool, worker: Worker, network: Network, generation: nat)

  datatype Step =
    | Test | Mark | Retest | BackOff | Touch | LeaveGate       // Worker
    | BeginClose | SpinOnce | Reallocate | Activate            // network thread

  ghost predicate Initial(s: State) {
    s == State(false, false, Outside, Serving, 0)
  }

  predicate Enabled(s: State, step: Step) {
    match step
    case Test => s.worker.Outside?
    case Mark => s.worker.Tested?
    case Retest => s.worker.Marked?
    case BackOff => s.worker.BackingOff?
    case Touch => s.worker.Inside?
    case LeaveGate => s.worker.Inside?
    case BeginClose => s.network.Serving? || s.network.Closed?
    case SpinOnce => s.network.Spinning?
    case Reallocate => s.network.Closed?
    case Activate => s.network.Closed?
  }

  function Do(s: State, step: Step): State
    requires Enabled(s, step)
  {
    match step
    case Test => if s.active then s.(worker := Tested) else s
    case Mark => s.(worker := Marked, busy := true)
    case Retest => s.(worker := if s.active then Inside(s.generation) else BackingOff)
    case BackOff => s.(worker := Outside, busy := false)
    case Touch => s
    case LeaveGate => s.(worker := Outside, busy := false)
    case BeginClose => s.(network := Spinning, active := false)
    case SpinOnce => if s.busy then s else s.(network := Closed)
    case Reallocate => s.(generation := s.generation + 1)
    case Activate => s.(network := Serving, active := true)
  }

  ghost predicate Inv(s: State) {
    && (s.busy <==> s.worker.Marked? || s.worker.Inside? || s.worker.BackingOff?)
    && (s.network.Spinning? || s.network.Closed? ==> !s.active)
    && (s.network.Closed? ==> !s.worker.Inside?)
    && (s.worker.Inside? ==> s.worker.generation == s.generation)
  }

  ghost predicate Runs(s: State, steps: seq<Step>, s': State)
    decreases |steps|
  {
    if steps == [] then s' == s else Enabled(s, steps[0]) && Runs(Do(s, steps[0]), steps[1..], s')
  }

  lemma {:induction false} RunKeepsInv(s: State, steps: seq<Step>, s': State)
    requires Inv(s) && Runs(s, steps, s')
    ensures Inv(s')
    decreases |steps|
  {
    if steps != [] {
      assert Inv(Do(s, steps[0]));
      RunKeepsInv(Do(s, steps[0]), steps[1..], s');
    }
  }

  /** Between close() returning and active being set again, the Worker is never between a successful enter() and
      leave(): every reallocation runs with the Worker outside, and a Worker inside always has the current one. */
  lemma GateExcludes(s0: State, steps: seq<Step>, s: State)
    requires Initial(s0) && Runs(s0, steps, s)
    ensures s.network.Closed? ==> !s.worker.Inside?
    ensures s.worker.Inside? ==> s.worker.generation == s.generation
    ensures Enabled(s, Reallocate) ==> !Enabled(s, Touch)
  {
    RunKeepsInv(s0, steps, s);
  }

  /** How many Worker moves the spin can still have to wait for. */
  function Rank(w: Worker): nat {
    match w
    case Outside => 0
    case Tested => 3
    case Marked => 2
    case _ => 1
  }

  /** close() returns: while it spins, the Worker cannot get further in, each of its moves other than using the stream
      brings it nearer the outside, and once it is there the next look at busy ends the spin. */
  lemma CloseReturns(s0: State, steps: seq<Step>, s: State, step: Step)
    requires Initial(s0) && Runs(s0, steps, s) && s.network.Spinning? && Enabled(s, step)
    ensures step.Mark? || step.Retest? || step.BackOff? || step.LeaveGate? ==>
              Rank(Do(s, step).worker) < Rank(s.worker) && Do(s, step).network.Spinning?
    ensures step.Test? || step.Touch? ==> Do(s, step) == s
    ensures step.SpinOnce? && Rank(s.worker) == 0 ==> Do(s, step).network.Closed?
  {
    RunKeepsInv(s0, steps, s);
  }
}
