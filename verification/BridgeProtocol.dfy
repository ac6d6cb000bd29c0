/** The Shared Bridge block protocol: one Worker and four client places over one shared region.

    Every atomic action of the Worker's tick and of a client's clock thread is one step, and an audio block
    is moved one cell at a time, so a reader can meet a half-written block. The theorems at the end say that
    the six-slot rings and the 2..5 block delay keep that from mattering. */
module BridgeProtocol {
  import opened Arithmetic
  import opened BridgeLayout
  import opened Sequences
  import Bits

  const CELLS: nat := CHANNELS * FRAMES   // one cell per channel and frame

  type Block = b: seq<real> | |b| == CELLS witness seq(CELLS, _ => 0.0)

  const SILENCE: Block := Constant(0.0)

  function Constant(v: real): (b: Block)
    ensures forall c :: 0 <= c < CELLS ==> b[c] == v
  {
    seq(CELLS, _ => v)
  }

  type Ring = r: seq<Block> | |r| == RING witness [SILENCE, SILENCE, SILENCE, SILENCE, SILENCE, SILENCE]

  const EMPTY_RING: Ring := [SILENCE, SILENCE, SILENCE, SILENCE, SILENCE, SILENCE]

  // ---------------------------------------------------------------- delay

  /** BridgeDelayBlocks, in the source's 32-bit unsigned arithmetic. */
  function DelayBlocks(bridgeBuffer: int, asioBuffer: int): (d: int)
    requires 0 <= bridgeBuffer < Bits.TWO32 && 0 <= asioBuffer < Bits.TWO32
  {
    var extra := if asioBuffer != 0 then ((bridgeBuffer + asioBuffer - 1) % Bits.TWO32) / asioBuffer else 1;
    var delay := (1 + extra) % Bits.TWO32;
    if delay < 2 then 2 else if delay > RING - 1 then RING - 1 else delay
  }

  /** The delay never reaches the ring size, whatever the two buffers hold; and while the 32-bit sum does not
      wrap it is the least number of blocks, between 2 and 5, that covers one block plus the Bridge buffer. */
  lemma DelayFitsRing(bridgeBuffer: int, asioBuffer: int)
    requires 0 <= bridgeBuffer < Bits.TWO32 && 0 <= asioBuffer < Bits.TWO32
    ensures 2 <= DelayBlocks(bridgeBuffer, asioBuffer) <= RING - 1
    ensures 0 < asioBuffer && bridgeBuffer + asioBuffer < Bits.TWO32 && DelayBlocks(bridgeBuffer, asioBuffer) < RING - 1 ==>
              bridgeBuffer <= (DelayBlocks(bridgeBuffer, asioBuffer) - 1) * asioBuffer
    ensures 0 < asioBuffer && bridgeBuffer + asioBuffer < Bits.TWO32 && DelayBlocks(bridgeBuffer, asioBuffer) > 2 ==>
              (DelayBlocks(bridgeBuffer, asioBuffer) - 2) * asioBuffer < bridgeBuffer
  {
    if 0 < asioBuffer && bridgeBuffer + asioBuffer < Bits.TWO32 {
      var q := (bridgeBuffer + asioBuffer - 1) / asioBuffer;
      CeilingQuotient(bridgeBuffer, asioBuffer);
      ClampedQuotient(bridgeBuffer, asioBuffer, q);
    }
  }

  lemma ClampedQuotient(n: int, a: int, q: int)
    requires 0 <= q && 0 < a && n <= q * a && (q - 1) * a < n
    ensures q < RING - 2 ==> n <= (if q < 1 then 1 else q) * a
    ensures q > 1 ==> ((if q > RING - 2 then RING - 2 else q) - 1) * a < n
  {
    if q > RING - 2 { MulLe(RING - 3, q - 1, a); }
    if q < 1 { MulLe(q, 1, a); }
  }

  // ---------------------------------------------------------------- state

  /** A block the client has taken in: what it copied, and how many blocks the Worker had published when it finished. */
  datatype Heard = Heard(cells: seq<real>, at: nat)

  /** Where a place is: nobody there, an app holding it, inside start(), between blocks, inside clockTick(), or
      inside stop(). */
  datatype Phase =
    | Free                                             // no app (never claimed, released, or the app exited)
    | Claiming                                         // owner set, counts not yet reset
    | Held                                             // held by an app without a clock thread
    | Releasing                                        // clientBlocks reset, owner not yet
    | Clearing                                         // start(): the place's ring is being zeroed
    | Joining                                          // nextBlock_ taken, clientBlocks not set yet
    | Waiting                                          // on the Bridge tick event
    | Batch(published: int)                            // catching up to `published`
    | CopyIn(published: int, taken: seq<real>)         // clockTick: Master block -> app inputs
    | CopyOut(published: int, out: seq<real>, copied: nat)  // clockTick: app outputs -> ring
    | Stopping                                         // clock thread gone, clientBlocks not reset

  /** One client place. `owned`, `blocks`, `skipped` and `ring` are the shared fields owner (held or not),
      clientBlocks, clientSkipped and fromClient; `next`, `inCells` and `outCells` are the app's own nextBlock_ and
      channel bindings. The rest records the current run: the tick it started in, the block count it joined at
      (-1: not joined), the skip count then, whether the ring slot of block `next` is being overwritten, and, by
      block number, what the app took in and what it produced. */
  datatype Client = Client(owned: bool, phase: Phase, next: int, blocks: int, skipped: nat, ring: Ring,
                           inCells: seq<nat>, outCells: seq<nat>,
                           since: nat, joined: int, skipBase: int, torn: bool,
                           heard: map<int, Heard>, outs: map<int, seq<real>>)

  /** The Worker's tick: publishing block t, then mixing block t - delay. The Worker has read the first `counted` places'
      counts and the first `checked` places' owners. `have[i]`: place i's count reaches past the block and, once read,
      its owner is an app; `clean[i]`: its ring has not been zeroed by a start() since the Worker read its count;
      `took[i]`: what was read from it, cell by cell. */
  datatype Worker =
    | Resting
    | Publishing
    | Mixing(delay: int, counted: nat, checked: nat, have: seq<bool>, clean: seq<bool>,
             sums: seq<real>, added: seq<nat>, took: seq<Block>)

  /** What one tick mixed. */
  datatype Mix = Mix(delay: int, have: seq<bool>, clean: seq<bool>, sums: seq<real>, took: seq<Block>)

  /** `master` and `toClients` are the shared masterBlocks and toClients; `published` and `mixes` record every tick. */
  datatype State = State(master: nat, toClients: Ring, worker: Worker, clients: seq<Client>,
                         published: seq<Block>, mixes: seq<Mix>)

  /** The Worker's actions within one tick. */
  datatype WorkStep =
    | BeginTick
    | WriteCell(cell: nat, value: real)
    | BeginMix(tickDelay: int)
    | ReadCount
    | ReadOwner
    | AddCell(cell: nat)
    | Publish

  /** The actions of the app at a place (and of its exit). */
  datatype AppStep =
    | Claim
    | ResetCounts
    | Leave
    | Disown
    | Start(ins: seq<nat>, outs: seq<nat>)
    | ClearCell(slot: nat, cell: nat)
    | TakeCount
    | Announce
    | Wake
    | BeginBlock
    | HearCell
    | SwitchBuffers(produced: seq<real>)
    | PlayCell
    | Produce
    | EndBatch
    | EndThread
    | Stop
    | Crash

  datatype Step = Work(work: WorkStep) | App(place: nat, app: AppStep)

  const FREE_PLACE: Client := Client(false, Free, 0, 0, 0, EMPTY_RING, [], [], 0, -1, 0, false, map[], map[])

  ghost predicate Initial(s: State) {
    && s.master == 0 && s.toClients == EMPTY_RING && s.worker == Resting
    && s.published == [] && s.mixes == []
    && |s.clients| == PLACES
    && forall i :: 0 <= i < PLACES ==> s.clients[i] == FREE_PLACE
  }

  // ---------------------------------------------------------------- the client's steps

  predicate AreCells(cells: seq<nat>) {
    forall k :: 0 <= k < |cells| ==> cells[k] < CELLS
  }

  predicate AllAdded(added: seq<nat>)
    requires |added| == CELLS
  {
    forall c :: 0 <= c < CELLS ==> added[c] == PLACES
  }

  /** Whether the app at a place can take `step` now, with the Worker's count at `master`. */
  predicate ClientEnabled(c: Client, master: int, step: AppStep)
  {
    match step
    case Claim => c.phase.Free?
    case ResetCounts => c.phase.Claiming?
    case Leave => c.phase.Held?
    case Disown => c.phase.Releasing?
    case Start(ins, outs) => c.phase.Held? && AreCells(ins) && AreCells(outs)
    case ClearCell(slot, cell) => c.phase.Clearing? && slot < RING && cell < CELLS
    case TakeCount => c.phase.Clearing? && c.ring == EMPTY_RING
    case Announce => c.phase.Joining?
    case Wake => c.phase.Waiting?
    case BeginBlock => c.phase.Batch? && c.next < c.phase.published
    case HearCell => c.phase.CopyIn? && |c.phase.taken| < |c.inCells| && c.inCells[|c.phase.taken|] < CELLS
    case SwitchBuffers(produced) => c.phase.CopyIn? && |c.phase.taken| == |c.inCells| && |produced| == |c.outCells|
    case PlayCell =>
      && c.phase.CopyOut? && c.phase.copied < |c.outCells| == |c.phase.out| && c.outCells[c.phase.copied] < CELLS
    case Produce => c.phase.CopyOut? && c.phase.copied == |c.outCells|
    case EndBatch => c.phase.Batch? && c.next >= c.phase.published
    case EndThread => c.phase.Waiting? || c.phase.Batch?
    case Stop => c.phase.Stopping?
    case Crash => true
  }

  /** The app's step; the Worker's ring is only read. */
  function ClientDo(c: Client, master: nat, toClients: Ring, step: AppStep): Client
    requires ClientEnabled(c, master, step)
  {
    match step
    case Claim => c.(phase := Claiming, owned := true)
    case ResetCounts => c.(phase := Held, blocks := -1, skipped := 0, skipBase := c.skipBase - c.skipped)
    case Leave => c.(phase := Releasing, blocks := -1)
    case Disown => c.(phase := Free, owned := false)
    case Start(ins, outs) =>
      c.(phase := Clearing, inCells := ins, outCells := outs, since := master, joined := -1, torn := false,
         heard := map[], outs := map[])
    case ClearCell(slot, cell) => c.(ring := c.ring[slot := c.ring[slot][cell := 0.0]])
    case TakeCount => c.(phase := Joining, next := master, joined := master, skipBase := c.skipped)
    case Announce => c.(phase := Waiting, blocks := c.next)
    case Wake =>
      var published := master;
      if published > c.next then
        if published - c.next >= RING
        then c.(phase := Batch(published), next := published - 1, skipped := c.skipped + (published - 1 - c.next))
        else c.(phase := Batch(published))
      else if published < c.next then c.(next := published, blocks := published)
      else c
    case BeginBlock => c.(phase := CopyIn(c.phase.published, []))
    case HearCell =>
      c.(phase := c.phase.(taken := c.phase.taken + [toClients[c.next % RING][c.inCells[|c.phase.taken|]]]))
    case SwitchBuffers(produced) =>
      c.(phase := CopyOut(c.phase.published, produced, 0), torn := true,
         heard := c.heard[c.next := Heard(c.phase.taken, master)])
    case PlayCell =>
      var slot := c.next % RING;
      c.(ring := c.ring[slot := c.ring[slot][c.outCells[c.phase.copied] := c.phase.out[c.phase.copied]]],
         phase := c.phase.(copied := c.phase.copied + 1))
    case Produce =>
      c.(phase := Batch(c.phase.published), next := c.next + 1, blocks := c.next + 1,
         outs := c.outs[c.next := c.phase.out], torn := false)
    case EndBatch => c.(phase := Waiting)
    case EndThread => c.(phase := Stopping)
    case Stop => c.(phase := Held, blocks := -1)
    case Crash => c.(phase := Free)
  }

  // ---------------------------------------------------------------- the system's steps

  predicate Shaped(s: State) {
    && |s.clients| == PLACES
    && (s.worker.Mixing? ==>
      |s.worker.have| == PLACES && |s.worker.clean| == PLACES && |s.worker.sums| == CELLS && |s.worker.added| == CELLS
      && |s.worker.took| == PLACES)
  }

  predicate WorkEnabled(s: State, step: WorkStep)
    requires Shaped(s)
  {
    match step
    case BeginTick => s.worker.Resting?
    case WriteCell(cell, _) => s.worker.Publishing? && cell < CELLS
    case BeginMix(delay) => s.worker.Publishing? && 2 <= delay <= RING - 1
    case ReadCount => s.worker.Mixing? && s.worker.counted == s.worker.checked < PLACES
    case ReadOwner => s.worker.Mixing? && s.worker.counted == s.worker.checked + 1 <= PLACES
    case AddCell(cell) =>
      s.worker.Mixing? && s.worker.checked == PLACES && cell < CELLS && s.worker.added[cell] < PLACES
    case Publish => s.worker.Mixing? && s.worker.checked == PLACES && AllAdded(s.worker.added)
  }

  /** Reading one place's count: does it reach past the block to mix, or is the app late for it? */
  function Counted(w: Worker, c: Client, master: nat): Worker
    requires w.Mixing? && w.counted < |w.have| && w.counted < |w.clean|
  {
    var mixBlock := master - w.delay;
    var have := c.blocks >= 0 && mixBlock >= 0 && c.blocks > mixBlock;
    Mixing(w.delay, w.counted + 1, w.checked, w.have[w.counted := have], w.clean[w.counted := true],
           w.sums, w.added, w.took)
  }

  /** Reading its owner: nothing is taken from a place no app holds. */
  function Checked(w: Worker, c: Client): Worker
    requires w.Mixing? && w.checked < |w.have|
  {
    Mixing(w.delay, w.counted, w.checked + 1, w.have[w.checked := w.have[w.checked] && c.owned], w.clean,
           w.sums, w.added, w.took)
  }

  /** Adding the next place's value of one cell to the mix. */
  function Add(w: Worker, cell: nat, value: real): Worker
    requires w.Mixing? && cell < CELLS && |w.sums| == |w.added| == CELLS
    requires w.added[cell] < |w.have| && w.added[cell] < |w.took|
  {
    var i := w.added[cell];
    if w.have[i]
    then Mixing(w.delay, w.counted, w.checked, w.have, w.clean, w.sums[cell := w.sums[cell] + value], w.added[cell := i + 1],
                w.took[i := w.took[i][cell := value]])
    else Mixing(w.delay, w.counted, w.checked, w.have, w.clean, w.sums, w.added[cell := i + 1], w.took)
  }

  function WorkDo(s: State, step: WorkStep): State
    requires Shaped(s) && WorkEnabled(s, step)
  {
    match step
    case BeginTick => State(s.master, s.toClients, Publishing, s.clients, s.published, s.mixes)
    case WriteCell(cell, value) =>
      var slot := s.master % RING;
      State(s.master, s.toClients[slot := s.toClients[slot][cell := value]], s.worker, s.clients, s.published, s.mixes)
    case BeginMix(delay) =>
      var none := seq(PLACES, _ => false);
      State(s.master, s.toClients,
            Mixing(delay, 0, 0, none, none, SILENCE, seq(CELLS, _ => 0), seq(PLACES, _ => SILENCE)),
            s.clients, s.published, s.mixes)
    case ReadCount =>
      State(s.master, s.toClients, Counted(s.worker, s.clients[s.worker.counted], s.master), s.clients, s.published, s.mixes)
    case ReadOwner =>
      State(s.master, s.toClients, Checked(s.worker, s.clients[s.worker.checked]), s.clients, s.published, s.mixes)
    case AddCell(cell) =>
      var value := s.clients[s.worker.added[cell]].ring[(s.master - s.worker.delay) % RING][cell];
      State(s.master, s.toClients, Add(s.worker, cell, value), s.clients, s.published, s.mixes)
    case Publish =>
      State(s.master + 1, s.toClients, Resting, s.clients, s.published + [s.toClients[s.master % RING]],
            s.mixes + [Mix(s.worker.delay, s.worker.have, s.worker.clean, s.worker.sums, s.worker.took)])
  }

  /** What an app's step does to the tick in progress: a start() spoils what the Worker took from that place. */
  function Disturb(w: Worker, place: nat, step: AppStep): Worker
    requires w.Mixing? ==> place < |w.clean|
  {
    if step.Start? && w.Mixing? then w.(clean := w.clean[place := false]) else w
  }

  predicate Enabled(s: State, step: Step)
    requires Shaped(s)
  {
    match step
    case Work(work) => WorkEnabled(s, work)
    case App(place, app) => place < PLACES && ClientEnabled(s.clients[place], s.master, app)
  }

  function Do(s: State, step: Step): State
    requires Shaped(s) && Enabled(s, step)
  {
    match step
    case Work(work) => WorkDo(s, work)
    case App(place, app) =>
      State(s.master, s.toClients, Disturb(s.worker, place, app),
            s.clients[place := ClientDo(s.clients[place], s.master, s.toClients, app)], s.published, s.mixes)
  }

  // ---------------------------------------------------------------- what a place's ring holds

  predicate OutsFit(c: Client) {
    AreCells(c.outCells) && forall j :: j in c.outs ==> |c.outs[j]| == |c.outCells|
  }

  /** Silence with the first n bound cells written, in binding order. */
  function Paint(cells: seq<nat>, values: seq<real>, n: nat): (b: Block)
    requires AreCells(cells) && n <= |cells| && n <= |values|
    ensures forall c :: 0 <= c < CELLS && c !in cells[..n] ==> b[c] == 0.0
  {
    if n == 0 then SILENCE else Paint(cells, values, n - 1)[cells[n - 1] := values[n - 1]]
  }

  /** The newest block the run produced that is at most x and shares x's ring slot; -1 if there is none. */
  function Latest(outs: map<int, seq<real>>, x: int, joined: int): (j: int)
    ensures j == -1 || (j in outs && joined <= j <= x && j % RING == x % RING)
    decreases x - joined
  {
    if x < joined || x < 0 then -1 else if x in outs then x else Latest(outs, x - RING, joined)
  }

  lemma SlotBefore(k: int, x: int)
    requires k < x && k % RING == x % RING
    ensures k <= x - RING && (x - RING) % RING == x % RING
  {
  }

  /** Latest is the greatest such block. */
  lemma {:induction false} LatestIsGreatest(outs: map<int, seq<real>>, x: int, joined: int, k: int)
    requires 0 <= joined <= k <= x && k in outs && k % RING == x % RING
    ensures k <= Latest(outs, x, joined)
    decreases x - joined
  {
    if x !in outs {
      SlotBefore(k, x);
      LatestIsGreatest(outs, x - RING, joined, k);
    }
  }

  /** What the Worker must find in the slot of block x: the latest block produced for it, silence if none. */
  function Content(c: Client, x: int): Block
    requires OutsFit(c)
  {
    var j := Latest(c.outs, x, c.joined);
    if j == -1 then SILENCE else Paint(c.outCells, c.outs[j], |c.outCells|)
  }

  /** Producing block m changes what slots hold only from m on, and only m's slot. */
  lemma {:induction false} LatestAfterProduce(outs: map<int, seq<real>>, m: int, out: seq<real>, x: int, joined: int)
    requires x < m || x % RING != m % RING
    ensures Latest(outs[m := out], x, joined) == Latest(outs, x, joined)
    decreases x - joined
  {
    if joined <= x && 0 <= x && x !in outs { LatestAfterProduce(outs, m, out, x - RING, joined); }
  }

  lemma {:induction false} LatestBeyond(outs: map<int, seq<real>>, m: int, x: int, joined: int)
    requires 0 <= joined <= m <= x && m in outs && x % RING == m % RING
    requires forall j :: j in outs ==> j <= m
    ensures Latest(outs, x, joined) == m
    decreases x - joined
  {
    if x > m { LatestBeyond(outs, m, x - RING, joined); }
  }

  /** Two block numbers less than a ring apart share a slot only if they are the same. */
  lemma SameSlot(x: int, m: int)
    requires m - RING < x
    ensures x % RING == m % RING ==> m <= x
    ensures x < m ==> x % RING != m % RING
  {
  }

  // ---------------------------------------------------------------- invariants

  predicate Running(p: Phase) {
    p.Joining? || p.Waiting? || p.Batch? || p.CopyIn? || p.CopyOut? || p.Stopping?
  }

  /** The slot of block x holds what it must, unless it is the one being overwritten. */
  ghost predicate SlotHolds(c: Client, x: int)
    requires OutsFit(c)
  {
    (c.torn && x % RING == c.next % RING) || c.ring[x % RING] == Content(c, x)
  }

  /** A joined run's own numbers and ring. */
  ghost predicate RunInv(c: Client, master: nat) {
    && 0 <= c.joined <= c.next <= master && c.blocks <= c.next && c.since <= master
    && OutsFit(c)
    && (forall j :: j in c.outs ==> c.joined <= j < c.next)
    && |c.outs| + (c.skipped - c.skipBase) == c.next - c.joined
    && (forall k, cell :: 0 <= k < RING && 0 <= cell < CELLS && cell !in c.outCells ==> c.ring[k][cell] == 0.0)
    && (forall x :: c.next - RING <= x ==> SlotHolds(c, x))
  }

  ghost predicate HeardInv(c: Client, published: seq<Block>) {
    && AreCells(c.inCells)
    && forall m :: m in c.heard && c.heard[m].at <= m + 5 ==>
         0 <= m < |published| && |c.heard[m].cells| == |c.inCells|
         && forall k :: 0 <= k < |c.inCells| ==> c.heard[m].cells[k] == published[m][c.inCells[k]]
  }

  ghost predicate PhaseInv(c: Client, master: nat, published: seq<Block>) {
    && AreCells(c.inCells) && |published| == master
    && (Running(c.phase) ==> c.joined >= 0)
    && (c.phase.Held? || c.phase.Clearing? || c.phase.Joining? ==> c.blocks == -1)
    && (c.phase.Clearing? ==> c.joined == -1 && c.outs == map[] && !c.torn)
    && (c.phase.Joining? || c.phase.Waiting? || c.phase.Batch? || c.phase.CopyIn? ==> !c.torn)
    && (c.phase.Batch? ==> c.next <= c.phase.published <= master)
    && (c.phase.CopyIn? ==>
      && 0 <= c.next < c.phase.published <= master && |c.phase.taken| <= |c.inCells|
      && (master < c.next + RING ==>
        forall k :: 0 <= k < |c.phase.taken| ==> c.phase.taken[k] == published[c.next][c.inCells[k]]))
    && (c.phase.CopyOut? ==>
      && c.torn && 0 <= c.next < c.phase.published <= master
      && AreCells(c.outCells) && c.phase.copied <= |c.outCells| == |c.phase.out|
      && forall cell :: cell in c.outCells[..c.phase.copied] ==>
           c.ring[c.next % RING][cell] == Paint(c.outCells, c.phase.out, c.phase.copied)[cell])
  }

  ghost predicate ClientInv(c: Client, master: nat, published: seq<Block>) {
    && c.joined >= -1 && OutsFit(c)
    && (c.joined == -1 ==> c.blocks <= 0 && c.outs == map[])
    && (c.joined >= 0 ==> RunInv(c, master))
    && c.since <= master
    && HeardInv(c, published)
    && PhaseInv(c, master, published)
  }

  /** The sum over the places the Worker found a block from, of what it read there. */
  function Total(have: seq<bool>, took: seq<Block>, n: nat, cell: nat): real
    requires n <= |have| && n <= |took| && cell < CELLS
  {
    if n == 0 then 0.0 else Total(have, took, n - 1, cell) + (if have[n - 1] then took[n - 1][cell] else 0.0)
  }

  /** The tick in progress, seen from place i. */
  ghost predicate MixingInv(w: Worker, master: nat, c: Client, i: nat)
    requires i < PLACES && OutsFit(c)
  {
    w.Mixing? && |w.have| == |w.clean| == |w.took| == PLACES && |w.added| == CELLS && w.have[i] && w.clean[i] ==>
      && c.joined >= 0 && 0 <= master - w.delay < c.next
      && forall cell :: 0 <= cell < CELLS && i < w.added[cell] ==> w.took[i][cell] == Content(c, master - w.delay)[cell]
  }

  /** The finished ticks of the current run, seen from place i. */
  ghost predicate MixedInv(mixes: seq<Mix>, c: Client, i: nat)
    requires i < PLACES && OutsFit(c)
  {
    forall t :: c.since <= t < |mixes| && |mixes[t].have| == |mixes[t].clean| == |mixes[t].took| == PLACES
                && mixes[t].have[i] && mixes[t].clean[i] ==>
      c.joined >= 0 && 0 <= t - mixes[t].delay < c.next && mixes[t].took[i] == Content(c, t - mixes[t].delay)
  }

  /** The published blocks still whole in the Worker's ring. */
  ghost predicate WithinReach(master: nat, toClients: Ring, published: seq<Block>) {
    |published| == master &&
    forall j :: 0 <= j < master && master - RING < j ==> toClients[j % RING] == published[j]
  }

  ghost predicate TickInv(w: Worker) {
    w.Mixing? ==>
      && |w.have| == |w.clean| == |w.took| == PLACES && |w.sums| == |w.added| == CELLS
      && 2 <= w.delay < RING && w.checked <= w.counted <= PLACES
      && forall cell :: 0 <= cell < CELLS ==>
           w.added[cell] <= PLACES && w.sums[cell] == Total(w.have, w.took, w.added[cell], cell)
           && (w.added[cell] > 0 ==> w.checked == PLACES)
  }

  ghost predicate MixOk(m: Mix) {
    && 2 <= m.delay < RING
    && |m.have| == |m.clean| == |m.took| == PLACES && |m.sums| == CELLS
    && forall cell :: 0 <= cell < CELLS ==> m.sums[cell] == Total(m.have, m.took, PLACES, cell)
  }

  ghost predicate WorkerInv(s: State) {
    && Shaped(s)
    && WithinReach(s.master, s.toClients, s.published)
    && TickInv(s.worker)
    && |s.mixes| == s.master && forall t :: 0 <= t < s.master ==> MixOk(s.mixes[t])
  }

  ghost predicate PlaceInv(s: State, i: nat)
    requires Shaped(s) && i < PLACES
  {
    && ClientInv(s.clients[i], s.master, s.published)
    && MixingInv(s.worker, s.master, s.clients[i], i)
    && MixedInv(s.mixes, s.clients[i], i)
  }

  ghost predicate Inv(s: State) {
    WorkerInv(s) && forall i :: 0 <= i < PLACES ==> PlaceInv(s, i)
  }

  // ---------------------------------------------------------------- every step keeps the invariants

  lemma PaintStep(cells: seq<nat>, values: seq<real>, n: nat, slot: Block, slot': Block)
    requires AreCells(cells) && n < |cells| && n < |values|
    requires forall c :: c in cells[..n] ==> slot[c] == Paint(cells, values, n)[c]
    requires slot' == slot[cells[n] := values[n]]
    ensures forall c :: c in cells[..n + 1] ==> slot'[c] == Paint(cells, values, n + 1)[c]
  {
    assert cells[..n + 1] == cells[..n] + [cells[n]];
  }

  /** A slot that is silent outside the bound cells and painted inside them is the painted block. */
  lemma PaintedWhole(cells: seq<nat>, values: seq<real>, slot: Block)
    requires AreCells(cells) && |values| == |cells|
    requires forall c :: 0 <= c < CELLS && c !in cells ==> slot[c] == 0.0
    requires forall c :: c in cells[..|cells|] ==> slot[c] == Paint(cells, values, |cells|)[c]
    ensures slot == Paint(cells, values, |cells|)
  {
    assert cells[..|cells|] == cells;
  }

  lemma SameRun(c: Client, c': Client, master: nat)
    requires RunInv(c, master)
    requires c'.joined == c.joined && c'.next == c.next && c'.ring == c.ring && c'.outs == c.outs && c'.torn == c.torn
    requires c'.outCells == c.outCells && c'.since == c.since && c'.skipped - c'.skipBase == c.skipped - c.skipBase
    requires c'.blocks <= c'.next
    ensures RunInv(c', master)
  {
    forall x | c'.next - RING <= x ensures SlotHolds(c', x) {
      assert SlotHolds(c, x);
    }
  }

  lemma PlayKeeps(c: Client, master: nat, published: seq<Block>, c': Client, step: AppStep, toClients: Ring)
    requires ClientInv(c, master, published) && step.PlayCell? && ClientEnabled(c, master, step)
    requires c' == ClientDo(c, master, toClients, step)
    ensures ClientInv(c', master, published)
  {
    var slot := c.next % RING;
    PaintStep(c.outCells, c.phase.out, c.phase.copied, c.ring[slot], c'.ring[slot]);
    forall x | c'.next - RING <= x ensures SlotHolds(c', x) {
      assert SlotHolds(c, x);
    }
  }

  /** A finished block: the app's run one block further, its slot holding what it produced. */
  function Finished(c: Client): Client
    requires c.phase.CopyOut?
  {
    c.(phase := Batch(c.phase.published), outs := c.outs[c.next := c.phase.out], torn := false,
       next := c.next + 1, blocks := c.next + 1)
  }

  lemma FinishedContent(c: Client, x: int)
    requires OutsFit(c) && c.phase.CopyOut? && |c.phase.out| == |c.outCells|
    requires forall j :: j in c.outs ==> j < c.next
    requires 0 <= c.joined <= c.next
    ensures OutsFit(Finished(c))
    ensures x < c.next || x % RING != c.next % RING ==> Content(Finished(c), x) == Content(c, x)
    ensures x >= c.next && x % RING == c.next % RING ==>
              Content(Finished(c), x) == Paint(c.outCells, c.phase.out, |c.outCells|)
  {
    if x < c.next || x % RING != c.next % RING {
      LatestAfterProduce(c.outs, c.next, c.phase.out, x, c.joined);
    } else {
      LatestBeyond(Finished(c).outs, c.next, x, c.joined);
    }
  }

  lemma FinishedSlotHolds(c: Client, x: int)
    requires OutsFit(c) && c.phase.CopyOut? && |c.phase.out| == |c.outCells| && 0 <= c.joined <= c.next
    requires forall j :: j in c.outs ==> j < c.next
    requires c.ring[c.next % RING] == Paint(c.outCells, c.phase.out, |c.outCells|)
    requires c.next + 1 - RING <= x && SlotHolds(c, x)
    ensures OutsFit(Finished(c)) && SlotHolds(Finished(c), x)
  {
    SameSlot(x, c.next);
    FinishedContent(c, x);
  }

  lemma ProduceKeepsRun(c: Client, master: nat, published: seq<Block>)
    requires ClientInv(c, master, published) && c.phase.CopyOut? && c.phase.copied == |c.outCells|
    ensures RunInv(Finished(c), master)
  {
    PaintedWhole(c.outCells, c.phase.out, c.ring[c.next % RING]);
    forall x | c.next + 1 - RING <= x ensures OutsFit(Finished(c)) && SlotHolds(Finished(c), x) {
      assert SlotHolds(c, x);
      FinishedSlotHolds(c, x);
    }
    assert Finished(c).outs.Keys == c.outs.Keys + {c.next};
  }

  lemma ProduceKeeps(c: Client, master: nat, published: seq<Block>, c': Client, step: AppStep, toClients: Ring)
    requires ClientInv(c, master, published) && step.Produce? && ClientEnabled(c, master, step)
    requires c' == ClientDo(c, master, toClients, step)
    ensures ClientInv(c', master, published)
    ensures forall x :: x < c.next ==> Content(c', x) == Content(c, x)
  {
    ProduceKeepsRun(c, master, published);
    assert c' == Finished(c);
    forall x | x < c.next ensures Content(c', x) == Content(c, x) { FinishedContent(c, x); }
  }

  lemma HearKeeps(c: Client, master: nat, published: seq<Block>, c': Client, step: AppStep, toClients: Ring)
    requires ClientInv(c, master, published) && step.HearCell? && ClientEnabled(c, master, step)
    requires WithinReach(master, toClients, published)
    requires c' == ClientDo(c, master, toClients, step)
    ensures ClientInv(c', master, published)
  {
    SameRun(c, c', master);
  }

  lemma JoinKeeps(c: Client, master: nat, published: seq<Block>, c': Client, step: AppStep, toClients: Ring)
    requires ClientInv(c, master, published) && step.TakeCount? && ClientEnabled(c, master, step)
    requires c' == ClientDo(c, master, toClients, step)
    ensures ClientInv(c', master, published)
  {
  }

  /** Moving past blocks never produced leaves every slot good for the blocks ahead. */
  lemma SkippingKeepsRun(c: Client, c': Client, master: nat)
    requires RunInv(c, master) && !c.torn && c.next <= c'.next <= master
    requires c' == c.(next := c'.next, phase := c'.phase, skipped := c.skipped + (c'.next - c.next))
    ensures RunInv(c', master)
  {
    forall x | c'.next - RING <= x ensures SlotHolds(c', x) {
      assert SlotHolds(c, x);
    }
  }

  lemma WakeKeeps(c: Client, master: nat, published: seq<Block>, c': Client, step: AppStep, toClients: Ring)
    requires ClientInv(c, master, published) && step.Wake? && ClientEnabled(c, master, step)
    requires c' == ClientDo(c, master, toClients, step)
    ensures ClientInv(c', master, published)
  {
    SkippingKeepsRun(c, c', master);
  }

  lemma SwitchKeeps(c: Client, master: nat, published: seq<Block>, c': Client, step: AppStep, toClients: Ring)
    requires ClientInv(c, master, published) && step.SwitchBuffers? && ClientEnabled(c, master, step)
    requires c' == ClientDo(c, master, toClients, step)
    ensures ClientInv(c', master, published)
  {
    forall x | c'.next - RING <= x ensures SlotHolds(c', x) {
      assert SlotHolds(c, x);
    }
  }

  predicate Arriving(step: AppStep) {
    step.Start? || step.ClearCell? || step.Announce? || step.BeginBlock? || step.EndBatch?
  }

  predicate Leaving(step: AppStep) {
    step.Claim? || step.ResetCounts? || step.Leave? || step.Disown? || step.EndThread? || step.Stop? || step.Crash?
  }

  lemma ArrivingKeeps(c: Client, master: nat, published: seq<Block>, c': Client, step: AppStep, toClients: Ring)
    requires ClientInv(c, master, published) && Arriving(step) && ClientEnabled(c, master, step)
    requires c' == ClientDo(c, master, toClients, step)
    ensures ClientInv(c', master, published)
  {
    if c'.joined >= 0 { SameRun(c, c', master); }
  }

  lemma LeavingKeeps(c: Client, master: nat, published: seq<Block>, c': Client, step: AppStep, toClients: Ring)
    requires ClientInv(c, master, published) && Leaving(step) && ClientEnabled(c, master, step)
    requires c' == ClientDo(c, master, toClients, step)
    ensures ClientInv(c', master, published)
  {
    if c'.joined >= 0 { SameRun(c, c', master); }
  }

  lemma ClientKeeps(c: Client, master: nat, published: seq<Block>, c': Client, step: AppStep, toClients: Ring)
    requires ClientInv(c, master, published) && ClientEnabled(c, master, step)
    requires WithinReach(master, toClients, published)
    requires c' == ClientDo(c, master, toClients, step)
    ensures ClientInv(c', master, published)
  {
    if step.PlayCell? { PlayKeeps(c, master, published, c', step, toClients); }
    else if step.Produce? { ProduceKeeps(c, master, published, c', step, toClients); }
    else if step.HearCell? { HearKeeps(c, master, published, c', step, toClients); }
    else if step.TakeCount? { JoinKeeps(c, master, published, c', step, toClients); }
    else if step.Wake? { WakeKeeps(c, master, published, c', step, toClients); }
    else if step.SwitchBuffers? { SwitchKeeps(c, master, published, c', step, toClients); }
    else if Arriving(step) { ArrivingKeeps(c, master, published, c', step, toClients); }
    else { LeavingKeeps(c, master, published, c', step, toClients); }
  }

  /** Within a run, what a slot holds for a block already behind the app never changes. */
  lemma ClientExtends(c: Client, master: nat, published: seq<Block>, c': Client, step: AppStep, toClients: Ring)
    requires ClientInv(c, master, published) && ClientEnabled(c, master, step)
    requires c' == ClientDo(c, master, toClients, step)
    requires c.joined >= 0 && !step.Start?
    ensures c'.joined == c.joined && c.next <= c'.next && c'.since == c.since
    ensures forall x :: x < c.next ==> Content(c', x) == Content(c, x)
  {
    if step.Produce? {
      ProduceKeeps(c, master, published, c', step, toClients);
    } else {
      assert c'.outs == c.outs && c'.outCells == c.outCells && c'.joined == c.joined;
    }
  }

  /** A place's own step leaves what the Worker found there, in this tick and earlier ones, as it was. */
  lemma ClientStepKeepsMixes(s: State, c: Client, c': Client, step: AppStep, i: nat)
    requires i < PLACES && WorkerInv(s) && ClientInv(c, s.master, s.published) && ClientEnabled(c, s.master, step)
    requires c' == ClientDo(c, s.master, s.toClients, step) && !step.Start?
    requires MixingInv(s.worker, s.master, c, i) && MixedInv(s.mixes, c, i) && OutsFit(c')
    ensures MixingInv(s.worker, s.master, c', i) && MixedInv(s.mixes, c', i)
  {
    if c.joined >= 0 {
      ClientExtends(c, s.master, s.published, c', step, s.toClients);
    } else {
      assert c'.since == c.since;
    }
  }

  lemma AppStepKeepsPlace(s: State, step: Step, i: nat)
    requires i < PLACES && WorkerInv(s) && PlaceInv(s, i) && step.App? && Enabled(s, step)
    ensures PlaceInv(Do(s, step), i)
  {
    if i == step.place {
      var c := s.clients[i];
      var c' := ClientDo(c, s.master, s.toClients, step.app);
      ClientKeeps(c, s.master, s.published, c', step.app, s.toClients);
      if !step.app.Start? { ClientStepKeepsMixes(s, c, c', step.app, i); }
    }
  }

  lemma AppStepKeepsWorker(s: State, step: Step)
    requires WorkerInv(s) && step.App? && Enabled(s, step)
    ensures WorkerInv(Do(s, step))
  {
  }

  // the Worker's own steps

  predicate Reads(step: WorkStep) {
    step.ReadCount? || step.ReadOwner?
  }

  lemma WorkKeepsWorker(s: State, step: WorkStep)
    requires WorkerInv(s) && WorkEnabled(s, step) && !Reads(step) && !step.AddCell?
    ensures WorkerInv(WorkDo(s, step))
  {
  }

  lemma {:induction false} TotalOf(have: seq<bool>, took: seq<Block>, have': seq<bool>, took': seq<Block>, n: nat, cell: nat)
    requires n <= |have| == |have'| && n <= |took| == |took'| && cell < CELLS
    requires forall k :: 0 <= k < n ==> have[k] == have'[k] && (have[k] ==> took[k][cell] == took'[k][cell])
    ensures Total(have, took, n, cell) == Total(have', took', n, cell)
  {
    if n > 0 { TotalOf(have, took, have', took', n - 1, cell); }
  }

  lemma AddKeepsTick(s: State, step: WorkStep)
    requires WorkerInv(s) && WorkEnabled(s, step) && step.AddCell?
    ensures WorkerInv(WorkDo(s, step))
  {
    var w, w' := s.worker, WorkDo(s, step).worker;
    forall cell | 0 <= cell < CELLS ensures w'.sums[cell] == Total(w'.have, w'.took, w'.added[cell], cell) {
      TotalOf(w.have, w.took, w'.have, w'.took, w.added[cell], cell);
    }
  }

  lemma CheckKeepsTick(s: State, step: WorkStep)
    requires WorkerInv(s) && WorkEnabled(s, step) && Reads(step)
    ensures WorkerInv(WorkDo(s, step))
  {
    var w' := WorkDo(s, step).worker;
    forall cell | 0 <= cell < CELLS ensures w'.added[cell] == 0 && w'.sums[cell] == Total(w'.have, w'.took, 0, cell) {
      assert w'.added[cell] == s.worker.added[cell];
    }
  }

  lemma PublishKeepsClient(c: Client, master: nat, published: seq<Block>, block: Block)
    requires ClientInv(c, master, published)
    ensures ClientInv(c, master + 1, published + [block])
  {
    assert forall m :: 0 <= m < |published| ==> (published + [block])[m] == published[m];
    assert c.joined >= 0 ==> RunInv(c, master + 1);
    assert HeardInv(c, published + [block]);
    assert PhaseInv(c, master + 1, published + [block]);
  }

  lemma MixedAppends(mixes: seq<Mix>, m: Mix, c: Client, i: nat)
    requires i < PLACES && OutsFit(c) && MixedInv(mixes, c, i) && |m.have| == |m.clean| == |m.took| == PLACES
    requires m.have[i] && m.clean[i] ==>
      c.joined >= 0 && 0 <= |mixes| - m.delay < c.next && Same(m.took[i], Content(c, |mixes| - m.delay))
    ensures MixedInv(mixes + [m], c, i)
  {
    forall t | c.since <= t < |mixes| ensures (mixes + [m])[t] == mixes[t] {
    }
  }

  lemma TookAll(w: Worker, master: nat, c: Client, i: nat)
    requires i < PLACES && OutsFit(c) && TickInv(w) && MixingInv(w, master, c, i)
    requires w.Mixing? && AllAdded(w.added) && w.have[i] && w.clean[i]
    ensures Same(w.took[i], Content(c, master - w.delay))
  {
    assert w.took[i] == Content(c, master - w.delay);
  }

  lemma PublishKeepsPlace(s: State, step: WorkStep, i: nat)
    requires i < PLACES && Shaped(s) && |s.mixes| == s.master && TickInv(s.worker) && PlaceInv(s, i) && step.Publish? && WorkEnabled(s, step)
    ensures PlaceInv(WorkDo(s, step), i)
  {
    var c, w := s.clients[i], s.worker;
    PublishKeepsClient(c, s.master, s.published, s.toClients[s.master % RING]);
    if w.have[i] && w.clean[i] { TookAll(w, s.master, c, i); }
    MixedAppends(s.mixes, Mix(w.delay, w.have, w.clean, w.sums, w.took), c, i);
  }

  /** The slot being mixed is not the one the app is writing, and holds what it must. */
  lemma MixSlotHolds(c: Client, master: nat, delay: int)
    requires c.joined >= 0 && RunInv(c, master) && 2 <= delay < RING && 0 <= master - delay < c.next
    ensures (master - delay) % RING != c.next % RING
    ensures c.ring[(master - delay) % RING] == Content(c, master - delay)
  {
    SameSlot(master - delay, c.next);
    assert SlotHolds(c, master - delay);
  }

  lemma CountKeepsMixing(w: Worker, master: nat, c: Client, published: seq<Block>, looked: Client, i: nat)
    requires i < PLACES && TickInv(w) && w.Mixing? && w.counted == w.checked < PLACES
    requires ClientInv(c, master, published) && MixingInv(w, master, c, i)
    requires w.counted == i ==> looked == c
    ensures MixingInv(Counted(w, looked, master), master, c, i)
  {
    assert forall cell :: 0 <= cell < CELLS ==> w.added[cell] == 0;
  }

  lemma AddKeepsMixing(w: Worker, master: nat, c: Client, i: nat, cell: nat, value: real)
    requires i < PLACES && TickInv(w) && w.Mixing? && cell < CELLS && w.added[cell] < PLACES
    requires OutsFit(c) && MixingInv(w, master, c, i)
    requires w.added[cell] == i && w.have[i] && w.clean[i] ==> value == Content(c, master - w.delay)[cell]
    ensures MixingInv(Add(w, cell, value), master, c, i)
  {
    var w' := Add(w, cell, value);
    if w.have[i] && w.clean[i] {
      var x := Content(c, master - w.delay);
      forall k | 0 <= k < CELLS && i < w'.added[k] ensures w'.took[i][k] == x[k] {
        if k != cell || w.added[cell] != i { assert i < w.added[k]; }
      }
    }
  }

  /** Only the tick in progress changes: a place keeps its invariant if it keeps its view of the tick. */
  lemma TickKeepsPlace(s: State, s': State, i: nat)
    requires i < PLACES && Shaped(s) && Shaped(s') && PlaceInv(s, i)
    requires s'.clients == s.clients && s'.mixes == s.mixes && s'.master == s.master && s'.published == s.published
    requires MixingInv(s'.worker, s.master, s.clients[i], i)
    ensures PlaceInv(s', i)
  {
  }

  lemma CheckKeepsPlace(s: State, step: WorkStep, i: nat)
    requires i < PLACES && Shaped(s) && TickInv(s.worker) && PlaceInv(s, i) && WorkEnabled(s, step) && Reads(step)
    ensures PlaceInv(WorkDo(s, step), i)
  {
    if step.ReadCount? {
      CountKeepsMixing(s.worker, s.master, s.clients[i], s.published, s.clients[s.worker.counted], i);
    }
    TickKeepsPlace(s, WorkDo(s, step), i);
  }

  /** The value the Worker reads for a place it found a block for is the one that place must hold. */
  lemma ReadHolds(c: Client, master: nat, published: seq<Block>, w: Worker, i: nat, cell: nat)
    requires i < PLACES && ClientInv(c, master, published) && MixingInv(w, master, c, i) && TickInv(w) && cell < CELLS
    requires w.Mixing? && w.have[i] && w.clean[i]
    ensures c.ring[(master - w.delay) % RING][cell] == Content(c, master - w.delay)[cell]
  {
    MixSlotHolds(c, master, w.delay);
  }

  lemma AddKeepsPlace(s: State, step: WorkStep, i: nat)
    requires i < PLACES && Shaped(s) && TickInv(s.worker) && PlaceInv(s, i) && WorkEnabled(s, step) && step.AddCell?
    ensures PlaceInv(WorkDo(s, step), i)
  {
    var c, w := s.clients[i], s.worker;
    var value := s.clients[w.added[step.cell]].ring[(s.master - w.delay) % RING][step.cell];
    AddKeepsView(c, s.master, s.published, w, i, step.cell, value);
    var s' := WorkDo(s, step);
    assert s'.worker == Add(w, step.cell, value);
    TickKeepsPlace(s, s', i);
  }

  lemma AddKeepsView(c: Client, master: nat, published: seq<Block>, w: Worker, i: nat, cell: nat, value: real)
    requires i < PLACES && TickInv(w) && w.Mixing? && cell < CELLS && w.added[cell] < PLACES
    requires ClientInv(c, master, published) && MixingInv(w, master, c, i)
    requires w.added[cell] == i ==> value == c.ring[(master - w.delay) % RING][cell]
    ensures MixingInv(Add(w, cell, value), master, c, i)
  {
    if w.have[i] && w.clean[i] { ReadHolds(c, master, published, w, i, cell); }
    AddKeepsMixing(w, master, c, i, cell, value);
  }

  lemma WriteKeepsPlace(s: State, step: WorkStep, i: nat)
    requires i < PLACES && WorkerInv(s) && PlaceInv(s, i) && WorkEnabled(s, step)
    requires step.BeginTick? || step.WriteCell? || step.BeginMix?
    ensures PlaceInv(WorkDo(s, step), i)
  {
    TickKeepsPlace(s, WorkDo(s, step), i);
  }

  lemma WorkKeepsInv(s: State, step: WorkStep)
    requires Inv(s) && WorkEnabled(s, step)
    ensures Inv(WorkDo(s, step))
  {
    if Reads(step) { CheckKeepsTick(s, step); }
    else if step.AddCell? { AddKeepsTick(s, step); }
    else { WorkKeepsWorker(s, step); }
    forall i | 0 <= i < PLACES ensures PlaceInv(WorkDo(s, step), i) {
      assert PlaceInv(s, i);
      if Reads(step) { CheckKeepsPlace(s, step, i); }
      else if step.AddCell? { AddKeepsPlace(s, step, i); }
      else if step.Publish? { PublishKeepsPlace(s, step, i); }
      else { WriteKeepsPlace(s, step, i); }
    }
  }

  /** Every step of the Worker and of every app keeps the invariants. */
  lemma StepKeepsInv(s: State, step: Step)
    requires Inv(s) && Enabled(s, step)
    ensures Inv(Do(s, step))
  {
    if step.Work? {
      WorkKeepsInv(s, step.work);
    } else {
      AppStepKeepsWorker(s, step);
      forall i | 0 <= i < PLACES ensures PlaceInv(Do(s, step), i) {
        assert PlaceInv(s, i);
        AppStepKeepsPlace(s, step, i);
      }
    }
  }

  lemma InitialInv(s: State)
    requires Initial(s)
    ensures Inv(s)
  {
    forall i | 0 <= i < PLACES ensures PlaceInv(s, i) {
      assert s.clients[i] == FREE_PLACE;
    }
  }

  // ---------------------------------------------------------------- runs

  /** A run of the whole system: the state it ends in, or none if some step cannot be taken. */
  ghost predicate Runs(s: State, steps: seq<Step>, s': State)
    decreases |steps|
  {
    if steps == [] then s' == s
    else Shaped(s) && Enabled(s, steps[0]) && Runs(Do(s, steps[0]), steps[1..], s')
  }

  ghost predicate Reachable(s: State) {
    exists s0: State, steps: seq<Step> :: Initial(s0) && Runs(s0, steps, s)
  }

  lemma {:induction false} RunKeepsInv(s: State, steps: seq<Step>, s': State)
    requires Inv(s) && Runs(s, steps, s')
    ensures Inv(s')
    decreases |steps|
  {
    if steps != [] {
      StepKeepsInv(s, steps[0]);
      RunKeepsInv(Do(s, steps[0]), steps[1..], s');
    }
  }

  lemma ReachableInv(s: State)
    requires Reachable(s)
    ensures Inv(s)
  {
    var s0: State, steps: seq<Step> :| Initial(s0) && Runs(s0, steps, s);
    InitialInv(s0);
    RunKeepsInv(s0, steps, s);
  }

  // ---------------------------------------------------------------- what the protocol promises

  /** The last binding of a cell decides what a painted block holds there. */
  lemma {:induction false} PaintAt(cells: seq<nat>, values: seq<real>, n: nat, k: nat)
    requires AreCells(cells) && k < n <= |cells| && n <= |values|
    requires forall j :: k < j < n ==> cells[j] != cells[k]
    ensures Paint(cells, values, n)[cells[k]] == values[k]
  {
    if k < n - 1 { PaintAt(cells, values, n - 1, k); }
  }

  /** No app is ever ahead of the Worker, and every block it has produced lies between its join and the Worker. */
  lemma NeverAhead(s: State, i: nat)
    requires Reachable(s) && i < PLACES
    ensures |s.clients| == PLACES
    ensures s.clients[i].joined >= 0 ==>
              s.clients[i].joined <= s.clients[i].next <= s.master && s.clients[i].blocks <= s.clients[i].next
    ensures forall j :: j in s.clients[i].outs ==> s.clients[i].joined <= j < s.master
  {
    ReachableInv(s);
    assert PlaceInv(s, i);
  }

  /** Every block since the join was either produced or counted as skipped. */
  lemma ProducedOrSkipped(s: State, i: nat)
    requires Reachable(s) && i < PLACES
    ensures |s.clients| == PLACES
    ensures s.clients[i].joined >= 0 ==>
              s.clients[i].joined + |s.clients[i].outs| + (s.clients[i].skipped - s.clients[i].skipBase) == s.clients[i].next
  {
    ReachableInv(s);
    assert PlaceInv(s, i);
  }

  /** An app that finished taking in block m while the Worker had published at most m + 5 blocks got exactly what the
      Worker published as block m, however the Worker's writes fell between its reads. */
  lemma InputIsPublished(s: State, i: nat, m: int, k: nat)
    requires Reachable(s) && i < PLACES && |s.clients| == PLACES
    requires m in s.clients[i].heard && s.clients[i].heard[m].at <= m + 5 && k < |s.clients[i].inCells|
    ensures 0 <= m < |s.published| && s.clients[i].inCells[k] < CELLS && |s.clients[i].heard[m].cells| == |s.clients[i].inCells|
    ensures s.clients[i].heard[m].cells[k] == s.published[m][s.clients[i].inCells[k]]
  {
    ReachableInv(s);
    assert PlaceInv(s, i);
  }

  /** The skip rule: a batch starts with the Worker at most five blocks past the app's next block, never skips the
      newest block, and an app that is not a whole ring behind skips nothing. */
  lemma WakeRestoresReach(s: State, i: nat)
    requires Reachable(s) && Shaped(s) && Enabled(s, App(i, Wake))
    ensures var c := s.clients[i];
            var c' := Do(s, App(i, Wake)).clients[i];
            && c'.next <= s.master <= c'.next + 5
            && (c'.phase.Batch? <==> c.next < s.master)
            && (c'.phase.Batch? ==> c'.phase.published == s.master && c'.next < s.master)
            && (c'.next != c.next <==> s.master - c.next >= RING)
            && c'.skipped - c.skipped == c'.next - c.next
            && c'.blocks == c.blocks
  {
    ReachableInv(s);
    assert PlaceInv(s, i);
  }

  /** While the Worker mixes a place it found a block for, and until a start() there, the slot it reads is not the one
      the app is writing, and it holds the latest block produced for it: the greatest produced number that is at most
      t - delay and shares its slot, or silence if the run has produced none. */
  lemma MixedSlotIsWhole(s: State, i: nat)
    requires Reachable(s) && i < PLACES && Shaped(s)
    requires s.worker.Mixing? && s.worker.have[i] && s.worker.clean[i]
    ensures var c := s.clients[i];
            var x := s.master - s.worker.delay;
            && OutsFit(c) && 0 <= x < c.next
            && x % RING != c.next % RING
            && c.ring[x % RING] == Content(c, x)
            && (Latest(c.outs, x, c.joined) == -1 <==> forall k :: k in c.outs && k <= x ==> k % RING != x % RING)
  {
    ReachableInv(s);
    assert PlaceInv(s, i);
    var c := s.clients[i];
    var x := s.master - s.worker.delay;
    MixSlotHolds(c, s.master, s.worker.delay);
    if k :| k in c.outs && k <= x && k % RING == x % RING {
      LatestIsGreatest(c.outs, x, c.joined, k);
    }
  }

  lemma {:induction false} AllBetween(keys: set<int>, lo: int, hi: int)
    requires lo <= hi && |keys| == hi - lo && forall k :: k in keys ==> lo <= k < hi
    ensures forall k :: lo <= k < hi ==> k in keys
    decreases hi - lo
  {
    if lo < hi {
      if hi - 1 in keys {
        AllBetween(keys - {hi - 1}, lo, hi - 1);
        assert forall k :: k in keys - {hi - 1} ==> k in keys;
      } else {
        FitsBetween(keys, lo, hi - 1);
      }
    }
  }

  lemma {:induction false} FitsBetween(keys: set<int>, lo: int, hi: int)
    requires lo <= hi && forall k :: k in keys ==> lo <= k < hi
    ensures |keys| <= hi - lo
    decreases hi - lo
  {
    if lo < hi { FitsBetween(keys - {hi - 1}, lo, hi - 1); } else { assert keys == {}; }
  }

  /** An app that has skipped nothing in its run reaches Master IN delayed by exactly `delay` blocks: in every tick t
      that found a block from it, the Worker read the block it produced as number t - delay, or silence if that lies
      before its join. So ticks with one delay take consecutive blocks, with no gap and no repeat. */
  lemma DelayedExactly(s: State, i: nat, t: nat)
    requires Reachable(s) && i < PLACES && |s.clients| == PLACES
    requires s.clients[i].joined >= 0 && s.clients[i].skipped == s.clients[i].skipBase
    requires s.clients[i].since <= t < |s.mixes| && |s.mixes[t].have| == |s.mixes[t].clean| == |s.mixes[t].took| == PLACES
    requires s.mixes[t].have[i] && s.mixes[t].clean[i]
    ensures var c := s.clients[i];
            var x := t - s.mixes[t].delay;
            && AreCells(c.outCells)
            && (x < c.joined ==> s.mixes[t].took[i] == SILENCE)
            && (c.joined <= x ==> x in c.outs && |c.outs[x]| == |c.outCells|
                                  && s.mixes[t].took[i] == Paint(c.outCells, c.outs[x], |c.outCells|))
  {
    ReachableInv(s);
    assert PlaceInv(s, i);
    var c := s.clients[i];
    AllBetween(c.outs.Keys, c.joined, c.next);
  }

  /** Every tick's mix is the sum, over the places it found a block from, of what it read there. */
  lemma MixIsSum(s: State, t: nat, cell: nat)
    requires Reachable(s) && t < |s.mixes| && cell < CELLS
    ensures MixOk(s.mixes[t])
    ensures s.mixes[t].sums[cell] == Total(s.mixes[t].have, s.mixes[t].took, PLACES, cell)
  {
    ReachableInv(s);
  }
}
