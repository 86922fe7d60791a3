/** How rides are started, fed and filed: the request handlers and the reaper
    (rider_handlers.go, rider_wiring.go) over the live rides in memory and the
    rides and riders tables (rider_store.go, db/query.sql.go). A step is one
    section under the aggregator's lock or one database transaction; requests,
    sweeps and other instances interleave between any two. */
module RideFiling {
  import opened Prelude
  import Verification
  import Schedule
  import opened Reputation
  import opened Sessions
  import opened Registry
  import Batches

  type Pid = nat

  datatype RideProgress = RideProgress(state: State, corroborated: bool, counts: Counts)

  datatype RideOutcome = RideOutcome(reason: EndReason, progress: RideProgress, delta: int, rejected: bool, corroborated: bool)

  /** A row of rides; mine is false for a ride of another instance. */
  datatype RideRow = RideRow(riderId: string, mine: bool, active: bool, progress: RideProgress, reason: EndReason)

  /** A row of riders, as far as rides change it. */
  datatype RiderRow = RiderRow(score: int, tier: Tier, total: nat, corroborated: nat, rejected: nat)

  /** One ride filed with its outcome, for the rider. */
  datatype Filing = Filing(id: string, riderId: string, outcome: RideOutcome)

  /** The ride a start request wants. */
  datatype Wish = Wish(id: string, riderId: string, key: TripKey, trip: Option<Schedule.TripInfo>)

  /** What the caller of finishRide does next: nothing, the rest of its sweep,
      the start that superseded the ride, or retiring a ride the store had
      already ended. */
  datatype Then = Stop | Sweep(rest: seq<string>) | Begin(wish: Wish) | Retire(id: string)

  /** How finishRide returned. */
  datatype Finish = Rescored(tier: Tier) | NotActive | StoreError

  /** Where a request stands. Ending to Retiering is finishRide, Waiting to
      Adding handleStartRide, Posting to Recording handlePositions. */
  datatype Pc =
    | Ending(id: string, reason: EndReason, after: Then)
    | Writing(id: string, outcome: RideOutcome, after: Then)
    | Filed(id: string, riderId: string, tier: Tier, after: Then)
    | Dropping(id: string, after: Then)
    | Retiering(riderId: string, tier: Tier, after: Then)
    | Waiting(wish: Wish)
    | Looking(wish: Wish)
    | Loading(wish: Wish)
    | Inserting(wish: Wish, tier: Tier)
    | Adding(wish: Wish, tier: Tier, startedAt: Time)
    | Posting(id: string, blocked: bool)
    | Fetching(id: string, blocked: bool, key: TripKey)
    | Recording(id: string, progress: RideProgress, ended: Option<EndReason>)
    | Over

  /** past holds every ride ever registered as memory last had it; lost the rides
      whose insert took effect but was reported as an error. filings are the
      outcomes committed, in order, and opening the riders as they were before. */
  datatype World = World(
    reg: Registry, rows: map<string, RideRow>, riders: map<string, RiderRow>, filings: seq<Filing>,
    locks: map<string, Pid>, procs: map<Pid, Pc>, past: map<string, Ride>, lost: set<string>, opening: map<string, RiderRow>)

  /** How a database step goes: as meant, with an error and nothing written, or
      with an error after the commit took effect. */
  datatype Luck = Fine | Error | CommitLost

  datatype Action =
    | EndRequest(pid: Pid, id: string, reason: EndReason)
    | StartRequest(pid: Pid, wish: Wish)
    | Post(pid: Pid, id: string)
    | Reap(pid: Pid, order: seq<string>, now: Time)
    | Apply(pid: Pid, points: seq<Verification.Point>, ctx: Batches.Context)
    | Advance(pid: Pid, luck: Luck, now: Time)
    | Register(riderId: string)
    | ForeignStart(id: string, riderId: string)
    | ForeignFinish(id: string, outcome: RideOutcome)
    | ForeignSweep

  // ---- The store -----------------------------------------------------------

  function ProgressOf(s: RideSummary): RideProgress {
    RideProgress(s.state, s.corroborated, s.counts)
  }

  function OutcomeOf(s: RideSummary): RideOutcome {
    RideOutcome(s.endReason, ProgressOf(s), ScoreDelta(s), s.state == Rejected, s.corroborated)
  }

  const NEW_RIDER := RiderRow(0, TierNew, 0, 0, 0)

  function Rescore(r: RiderRow, o: RideOutcome): RiderRow {
    RiderRow(Clamp(r.score + o.delta), TierFor(Clamp(r.score + o.delta)), r.total + 1,
      r.corroborated + (if o.corroborated then 1 else 0), r.rejected + (if o.rejected then 1 else 0))
  }

  predicate Active(s: World, id: string) {
    id in s.rows && s.rows[id].active
  }

  predicate HasActive(s: World, riderId: string) {
    exists id | id in s.rows :: s.rows[id].active && s.rows[id].riderId == riderId
  }

  /** FinishRide, where EndRide finds the row active. */
  function FinishRide(s: World, id: string, o: RideOutcome): World
    requires Active(s, id) && s.rows[id].riderId in s.riders
  {
    var row := s.rows[id];
    s.(rows := s.rows[id := row.(active := false, progress := o.progress, reason := o.reason)],
       riders := s.riders[row.riderId := Rescore(s.riders[row.riderId], o)],
       filings := s.filings + [Filing(id, row.riderId, o)])
  }

  function RecordProgress(s: World, id: string, p: RideProgress): World
    requires Active(s, id)
  {
    s.(rows := s.rows[id := s.rows[id].(progress := p)])
  }

  function InsertRide(s: World, w: Wish, mine: bool): World {
    s.(rows := s.rows[w.id := RideRow(w.riderId, mine, true, RideProgress(Pending, false, Counts(0, 0, 0, 0)), NotEnded)])
  }

  // ---- Steps ---------------------------------------------------------------

  /** The rider whose starts the request has locked out. */
  function Holds(pc: Pc): Option<string> {
    match pc
    case Looking(w) => Some(w.riderId)
    case Loading(w) => Some(w.riderId)
    case Inserting(w, _) => Some(w.riderId)
    case Adding(w, _, _) => Some(w.riderId)
    case Ending(_, _, Begin(w)) => Some(w.riderId)
    case Writing(_, _, Begin(w)) => Some(w.riderId)
    case Filed(_, _, _, Begin(w)) => Some(w.riderId)
    case Dropping(_, Begin(w)) => Some(w.riderId)
    case Retiering(_, _, Begin(w)) => Some(w.riderId)
    case _ => None
  }

  function Move(s: World, pid: Pid, pc: Pc): World {
    var before := if pid in s.procs then Holds(s.procs[pid]) else None;
    s.(procs := s.procs[pid := pc],
       locks := if Holds(pc) == before then s.locks
                else if Holds(pc).Some? then s.locks[Holds(pc).value := pid]
                else s.locks - {before.value})
  }

  function Resume(t: Then, f: Finish): Pc {
    match t
    case Stop => Over
    case Sweep(rest) => if |rest| == 0 then Over else Ending(rest[0], Idle, Sweep(rest[1..]))
    case Retire(id) => Ending(id, Idle, Stop)
    case Begin(w) =>
      match f
      case Rescored(tier) => Inserting(w, tier)
      case NotActive => Loading(w)
      case StoreError => Over
  }

  predicate Enabled(s: World, a: Action) {
    match a
    case EndRequest(pid, id, reason) => pid !in s.procs && s.reg.Live(id) && ClientReason(reason)
    case StartRequest(pid, _) => pid !in s.procs
    case Post(pid, id) => pid !in s.procs && s.reg.Live(id)
    case Reap(pid, order, now) => pid !in s.procs && (set id | id in order) == s.reg.Reap(now).Ended()
    case Apply(pid, _, _) => pid in s.procs && s.procs[pid].Fetching?
    case Advance(pid, luck, _) =>
      && pid in s.procs
      && (match s.procs[pid]
          case Over => false
          case Fetching(_, _, _) => false
          case Waiting(w) => luck == Fine && w.riderId !in s.locks
          // Ids are random and never repeat; a row's rider exists.
          case Inserting(w, _) => w.id !in s.rows && w.riderId in s.riders
          case Writing(id, _, _) => true
          case Recording(_, _, _) => true
          case Loading(_) => luck != CommitLost
          case _ => luck == Fine)
    case Register(riderId) => riderId !in s.riders
    case ForeignStart(id, riderId) => id !in s.rows && riderId in s.riders && !HasActive(s, riderId)
    case ForeignFinish(id, _) => Active(s, id) && !s.rows[id].mine && s.rows[id].riderId in s.riders
    case ForeignSweep => true
  }

  /** What a step changes beside the request itself. */
  function Effect(s: World, pc: Pc, luck: Luck, now: Time): World
  {
    match pc
    case Ending(id, reason, _) => s.(reg := s.reg.End(id, reason, now))
    case Writing(id, o, _) =>
      if luck == Error || !Active(s, id) || s.rows[id].riderId !in s.riders then s else FinishRide(s, id, o)
    case Filed(id, _, _, _) => s.(reg := s.reg.Remove(id))
    case Dropping(id, _) => s.(reg := s.reg.Remove(id))
    case Retiering(u, tier, _) => s.(reg := s.reg.SetTier(u, tier))
    case Inserting(w, _) =>
      if luck == Error || HasActive(s, w.riderId) then s
      else InsertRide(s, w, true).(lost := if luck == CommitLost then s.lost + {w.id} else s.lost)
    case Adding(w, tier, startedAt) => s.(reg := s.reg.Add(NewRide(w.id, w.riderId, w.key, w.trip, tier, startedAt)))
    case Recording(id, p, _) => if luck == Error || !Active(s, id) then s else RecordProgress(s, id, p)
    case _ => s
  }

  /** Where it leads. */
  function Next(s: World, pc: Pc, luck: Luck, now: Time): Pc {
    match pc
    case Ending(id, reason, t) =>
      if id !in s.reg.rides then Resume(t, NotActive)
      else Writing(id, OutcomeOf(s.reg.rides[id].End(reason, now).Summary()), t)
    case Writing(id, o, t) =>
      if luck == Fine && !Active(s, id) then Dropping(id, t)
      else if luck != Fine || s.rows[id].riderId !in s.riders then Resume(t, StoreError)
      else Filed(id, s.rows[id].riderId, Rescore(s.riders[s.rows[id].riderId], o).tier, t)
    case Filed(_, u, tier, t) => Retiering(u, tier, t)
    case Dropping(_, t) => Resume(t, NotActive)
    case Retiering(_, tier, t) => Resume(t, Rescored(tier))
    case Waiting(w) => Looking(w)
    case Looking(w) =>
      if s.reg.ActiveRide(w.riderId).Some? then Ending(s.reg.ActiveRide(w.riderId).value, Superseded, Begin(w)) else Loading(w)
    case Loading(w) => if luck == Error || w.riderId !in s.riders then Over else Inserting(w, s.riders[w.riderId].tier)
    case Inserting(w, tier) => if luck != Fine || HasActive(s, w.riderId) then Over else Adding(w, tier, now)
    case Adding(_, _, _) => Over
    case Posting(id, blocked) => if s.reg.Live(id) then Fetching(id, blocked, s.reg.rides[id].key) else Over
    case Recording(id, _, ended) =>
      var gone := luck == Fine && !Active(s, id);
      if ended.Some? then Ending(id, ended.value, if gone then Retire(id) else Stop)
      else if gone then Ending(id, Idle, Stop) else Over
    case Fetching(_, _, _) => pc
    case Over => Over
  }

  /** A batch is folded in if the ride is still live and on the trip the trusted
      position was fetched for. */
  function Fold(s: World, pid: Pid, points: seq<Verification.Point>, ctx: Batches.Context): World
    requires pid in s.procs && s.procs[pid].Fetching?
  {
    var Fetching(id, blocked, key) := s.procs[pid];
    if !s.reg.Live(id) || s.reg.rides[id].key != key then Move(s, pid, Over)
    else
      var done := Batches.ApplyBatch(s.reg.rides[id], points, ctx);
      Move(s.(reg := s.reg.Update(id, done.ride)), pid, AfterBatch(id, blocked, done))
  }

  /** Nothing a blocked rider reports is stored; a ride the engine ended is filed. */
  function AfterBatch(id: string, blocked: bool, done: Batches.Progress): Pc {
    var r := done.ride;
    if !blocked && |done.applied| > 0 then Recording(id, ProgressOf(r.Summary()), if r.ended then Some(r.endReason) else None)
    else if r.ended then Ending(id, r.endReason, Stop) else Over
  }

  function Act(s: World, a: Action): World
    requires Enabled(s, a)
  {
    match a
    case EndRequest(pid, id, reason) => Move(s, pid, Ending(id, reason, Stop))
    case StartRequest(pid, w) => Move(s, pid, Waiting(w))
    case Post(pid, id) => Move(s, pid, Posting(id, s.reg.rides[id].tier == TierBlocked))
    case Reap(pid, order, now) => Move(s.(reg := s.reg.Reap(now)), pid, Resume(Sweep(order), NotActive))
    case Apply(pid, points, ctx) => Fold(s, pid, points, ctx)
    case Advance(pid, luck, now) => Move(Effect(s, s.procs[pid], luck, now), pid, Next(s, s.procs[pid], luck, now))
    case Register(u) => s.(riders := s.riders[u := NEW_RIDER], opening := s.opening[u := NEW_RIDER])
    case ForeignStart(id, u) => InsertRide(s, Wish(id, u, TripKey("", ""), None), false)
    case ForeignFinish(id, o) => FinishRide(s, id, o)
    case ForeignSweep =>
      s.(rows := map id | id in s.rows ::
           if s.rows[id].active then s.rows[id].(active := false, reason := ServerRestart) else s.rows[id])
  }

  function Do(s: World, a: Action): World
    requires Enabled(s, a)
  {
    Recall(Act(s, a))
  }

  function Recall(s: World): World {
    s.(past := s.past + s.reg.rides)
  }

  /** The process starts with no rides of its own; a ride's rider exists. */
  ghost predicate Init(s: World) {
    && s.reg == Registry(map[], map[]) && s.locks == map[] && s.procs == map[] && s.past == map[] && s.lost == {}
    && s.filings == [] && s.opening == s.riders && (forall id | id in s.rows :: !s.rows[id].mine)
    && KnownRiders(s)
  }

  ghost predicate KnownRiders(s: World) {
    forall id | id in s.rows :: s.rows[id].riderId in s.riders
  }

  // ---- What always holds ---------------------------------------------------

  /** The rider after the filings meant for them. */
  ghost function Standing(opening: RiderRow, filings: seq<Filing>, riderId: string): RiderRow {
    if |filings| == 0 then opening
    else
      var before := Standing(opening, filings[..|filings| - 1], riderId);
      var last := filings[|filings| - 1];
      if last.riderId == riderId then Rescore(before, last.outcome) else before
  }

  ghost predicate ScoresInv(s: World) {
    s.riders.Keys == s.opening.Keys && forall u | u in s.riders :: s.riders[u] == Standing(s.opening[u], s.filings, u)
  }

  /** Memory: the registered rides are the latest of past, and each is of a row
      of this process. */
  ghost predicate MemoryInv(s: World) {
    && s.reg.Valid() && s.reg.OneEach()
    && (forall id | id in s.reg.rides :: id in s.past && s.past[id] == s.reg.rides[id])
    && (forall id | id in s.past :: id in s.rows && s.rows[id].mine && s.past[id].riderId == s.rows[id].riderId)
  }

  /** A filed ride's row has ended, and what was filed is what memory last had. */
  ghost predicate FiledInv(s: World) {
    forall f | f in s.filings ::
      && f.id in s.rows && !s.rows[f.id].active && s.rows[f.id].riderId == f.riderId && f.riderId in s.riders
      && (s.rows[f.id].mine ==>
            && f.id in s.past && s.past[f.id].ended && f.outcome == OutcomeOf(s.past[f.id].Summary())
            && s.rows[f.id].progress == f.outcome.progress && s.rows[f.id].reason == f.outcome.reason)
  }

  ghost predicate OnceInv(filings: seq<Filing>) {
    forall i, j | 0 <= i < j < |filings| :: filings[i].id != filings[j].id
  }

  ghost predicate IsAdding(s: World, id: string) {
    exists p | p in s.procs :: s.procs[p].Adding? && s.procs[p].wish.id == id
  }

  /** Every open row of this process has its ride in memory, but between a
      start's insert and its Add, or when the insert was thought to have failed. */
  ghost predicate RowsInv(s: World) {
    forall id | Active(s, id) && s.rows[id].mine :: id in s.reg.rides || IsAdding(s, id) || id in s.lost
  }

  ghost predicate LocksInv(s: World) {
    && (forall p | p in s.procs && Holds(s.procs[p]).Some? ::
          Holds(s.procs[p]).value in s.locks && s.locks[Holds(s.procs[p]).value] == p)
    && (forall u | u in s.locks :: s.locks[u] in s.procs && Holds(s.procs[s.locks[u]]) == Some(u))
  }

  /** A ride that has ended, with the outcome it came to. */
  ghost predicate Settled(s: World, id: string, o: RideOutcome) {
    id in s.past && s.past[id].ended && o == OutcomeOf(s.past[id].Summary())
  }

  ghost predicate Closed(s: World, id: string) {
    id in s.rows && !s.rows[id].active
  }

  /** The start has the rider to itself, but for the ride it is ending. */
  ghost predicate Clear(s: World, t: Then) {
    t.Begin? ==> s.reg.NoneLive(t.wish.riderId)
  }

  ghost predicate OnlyLive(s: World, riderId: string, id: string) {
    forall other | s.reg.Live(other) && s.reg.rides[other].riderId == riderId :: other == id
  }

  /** What a request may rely on at each step. */
  ghost predicate PcInv(s: World, pc: Pc) {
    match pc
    case Ending(id, _, t) => t.Begin? ==> OnlyLive(s, t.wish.riderId, id)
    case Writing(id, o, t) => Settled(s, id, o) && Clear(s, t)
    case Filed(id, _, _, t) => Closed(s, id) && Clear(s, t)
    case Dropping(id, t) => Closed(s, id) && Clear(s, t)
    case Retiering(_, _, t) => Clear(s, t)
    case Loading(w) => s.reg.NoneLive(w.riderId)
    case Inserting(w, _) => s.reg.NoneLive(w.riderId)
    case Adding(w, _, _) =>
      && s.reg.NoneLive(w.riderId) && w.id !in s.past && w.id !in s.lost
      && w.id in s.rows && s.rows[w.id].mine && s.rows[w.id].riderId == w.riderId
    case _ => true
  }

  ghost predicate LostInv(s: World) {
    forall id | id in s.lost :: id in s.rows && s.rows[id].mine && id !in s.past
  }

  ghost predicate TablesInv(s: World) {
    MemoryInv(s) && FiledInv(s) && OnceInv(s.filings) && ScoresInv(s) && LostInv(s)
  }

  /** But for the request that is taking a step, and the row it may have opened. */
  ghost predicate InvBut(s: World, pid: Pid) {
    TablesInv(s) && LocksInv(s) && forall p | p in s.procs && p != pid :: PcInv(s, s.procs[p])
  }

  ghost predicate Inv(s: World) {
    TablesInv(s) && RowsInv(s) && LocksInv(s) && forall p | p in s.procs :: PcInv(s, s.procs[p])
  }

  // ---- Moving on -----------------------------------------------------------

  lemma MoveKeepsLocks(s: World, pid: Pid, pc: Pc)
    requires LocksInv(s)
    requires pid !in s.procs ==> Holds(pc).None?
    requires pid in s.procs && Holds(pc).Some? && Holds(pc) != Holds(s.procs[pid]) ==>
               Holds(s.procs[pid]).None? && Holds(pc).value !in s.locks
    ensures LocksInv(Move(s, pid, pc))
  {
  }

  lemma HoldersDiffer(s: World, p: Pid, q: Pid)
    requires LocksInv(s) && p in s.procs && q in s.procs && p != q && Holds(s.procs[p]).Some?
    ensures Holds(s.procs[p]) != Holds(s.procs[q])
  {
  }

  lemma MoveKeepsRows(s: World, pid: Pid, pc: Pc)
    requires RowsInv(s)
    requires pid in s.procs && s.procs[pid].Adding? ==>
               s.procs[pid].wish.id in s.reg.rides || (pc.Adding? && pc.wish == s.procs[pid].wish)
    ensures RowsInv(Move(s, pid, pc))
  {
    var s' := Move(s, pid, pc);
    forall id | Active(s', id) && s'.rows[id].mine && id !in s'.reg.rides && id !in s'.lost ensures IsAdding(s', id) {
      assert IsAdding(s, id);
      var p :| p in s.procs && s.procs[p].Adding? && s.procs[p].wish.id == id;
      if p != pid {
        assert s'.procs[p] == s.procs[p];
      } else {
        assert s'.procs[pid].wish.id == id;
      }
    }
  }

  lemma MoveKeepsInv(s: World, pid: Pid, pc: Pc)
    requires InvBut(s, pid) && LocksInv(Move(s, pid, pc)) && RowsInv(Move(s, pid, pc)) && PcInv(s, pc)
    ensures Inv(Move(s, pid, pc))
  {
    var s' := Move(s, pid, pc);
    forall p | p in s'.procs ensures PcInv(s', s'.procs[p]) {
      SameData(s, s', s'.procs[p]);
    }
    assert forall f | f in s'.filings :: f in s.filings;
  }

  lemma SameData(s: World, s': World, pc: Pc)
    requires s'.reg == s.reg && s'.past == s.past && s'.rows == s.rows && s'.lost == s.lost && PcInv(s, pc)
    ensures PcInv(s', pc)
  {
  }

  // ---- The registry changes ------------------------------------------------

  /** Live rides may go on or end, and ended ones stay as they are or go. */
  ghost predicate Evolves(g: Registry, g': Registry) {
    forall id | id in g'.rides ::
      && id in g.rides && g'.rides[id].riderId == g.rides[id].riderId
      && (g.rides[id].ended ==> g'.rides[id] == g.rides[id])
  }

  ghost predicate SameTables(s: World, s': World) {
    && s'.rows == s.rows && s'.riders == s.riders && s'.filings == s.filings && s'.lost == s.lost && s'.opening == s.opening
    && s'.procs == s.procs && s'.locks == s.locks
  }

  ghost predicate RegistryStep(s: World, s': World) {
    && SameTables(s, s') && Evolves(s.reg, s'.reg) && s'.reg.Valid() && s'.reg.OneEach()
    && s'.past == s.past + s'.reg.rides
    && (forall id | id in s.reg.rides :: id in s'.reg.rides || !Active(s, id))
  }

  lemma EndedIsPast(s: World, s': World, id: string)
    requires MemoryInv(s) && RegistryStep(s, s') && id in s.past && s.past[id].ended
    ensures id in s'.past && s'.past[id] == s.past[id]
  {
  }

  lemma RegistryKeepsPc(s: World, s': World, pc: Pc)
    requires MemoryInv(s) && RegistryStep(s, s') && PcInv(s, pc)
    ensures PcInv(s', pc)
  {
    assert s'.past.Keys == s.past.Keys;
    if pc.Writing? {
      EndedIsPast(s, s', pc.id);
    }
  }

  lemma RegistryKeepsTables(s: World, s': World)
    requires TablesInv(s) && RegistryStep(s, s')
    ensures TablesInv(s')
  {
    assert s'.past.Keys == s.past.Keys;
    forall f | f in s'.filings && s'.rows[f.id].mine ensures f.id in s'.past && s'.past[f.id] == s.past[f.id] {
      EndedIsPast(s, s', f.id);
    }
  }

  lemma RegistryKeepsRows(s: World, s': World)
    requires RowsInv(s) && RegistryStep(s, s')
    ensures RowsInv(s')
  {
    forall id | Active(s', id) && s'.rows[id].mine ensures id in s'.reg.rides || IsAdding(s', id) || id in s'.lost {
      if IsAdding(s, id) {
        assert IsAdding(s', id);
      }
    }
  }

  lemma RegistryKeepsInv(s: World, s': World, pid: Pid)
    requires InvBut(s, pid) && RegistryStep(s, s')
    ensures InvBut(s', pid)
  {
    RegistryKeepsTables(s, s');
    forall p | p in s'.procs && p != pid ensures PcInv(s', s'.procs[p]) {
      RegistryKeepsPc(s, s', s.procs[p]);
    }
  }

  // ---- The tables change ---------------------------------------------------

  /** Rows may be added, written while they are open, and closed. */
  ghost predicate TablesStep(s: World, s': World) {
    && s'.reg == s.reg && s'.past == s.past && s'.procs == s.procs && s'.locks == s.locks
    && (forall id | id in s.rows ::
          && id in s'.rows && s'.rows[id].mine == s.rows[id].mine && s'.rows[id].riderId == s.rows[id].riderId
          && (!s.rows[id].active ==> s'.rows[id] == s.rows[id]))
    && (forall id | id in s'.lost && id !in s.lost :: id !in s.rows && id in s'.rows && s'.rows[id].mine)
  }

  lemma TablesKeepPc(s: World, s': World, pc: Pc)
    requires TablesStep(s, s') && PcInv(s, pc)
    ensures PcInv(s', pc)
  {
  }

  lemma TablesKeepOthers(s: World, s': World, pid: Pid)
    requires TablesStep(s, s') && forall p | p in s.procs && p != pid :: PcInv(s, s.procs[p])
    ensures forall p | p in s'.procs && p != pid :: PcInv(s', s'.procs[p])
  {
    forall p | p in s'.procs && p != pid ensures PcInv(s', s'.procs[p]) {
      TablesKeepPc(s, s', s.procs[p]);
    }
  }

  /** Nothing filed, nobody rescored. */
  lemma UnfiledKeepsTables(s: World, s': World)
    requires TablesInv(s) && TablesStep(s, s') && s'.filings == s.filings && s'.riders == s.riders && s'.opening == s.opening
    requires forall id | id in s.lost :: id in s'.lost
    ensures TablesInv(s')
  {
    forall id | id in s'.lost ensures id in s'.rows && s'.rows[id].mine && id !in s'.past {
      if id !in s.lost {
        assert id !in s.rows;
      }
    }
  }

  lemma StandingSnoc(opening: RiderRow, filings: seq<Filing>, f: Filing, riderId: string)
    ensures Standing(opening, filings + [f], riderId) ==
            if f.riderId == riderId then Rescore(Standing(opening, filings, riderId), f.outcome)
            else Standing(opening, filings, riderId)
  {
    assert (filings + [f])[..|filings|] == filings;
  }

  lemma FilingKeepsScores(s: World, id: string, o: RideOutcome)
    requires ScoresInv(s) && Active(s, id) && s.rows[id].riderId in s.riders
    ensures ScoresInv(FinishRide(s, id, o))
  {
    var s' := FinishRide(s, id, o);
    var f := Filing(id, s.rows[id].riderId, o);
    forall u | u in s'.riders ensures s'.riders[u] == Standing(s'.opening[u], s'.filings, u) {
      StandingSnoc(s.opening[u], s.filings, f, u);
    }
  }

  lemma FilingIsTheFirst(s: World, id: string, o: RideOutcome)
    requires FiledInv(s) && OnceInv(s.filings) && Active(s, id) && s.rows[id].riderId in s.riders
    ensures OnceInv(FinishRide(s, id, o).filings)
  {
    var s' := FinishRide(s, id, o);
    forall i, j | 0 <= i < j < |s'.filings| ensures s'.filings[i].id != s'.filings[j].id {
      assert s.filings[i] in s.filings;
    }
  }

  /** What is filed for a ride of this process is what memory last had of it. */
  lemma FilingKeepsTables(s: World, id: string, o: RideOutcome)
    requires TablesInv(s) && Active(s, id) && s.rows[id].riderId in s.riders
    requires s.rows[id].mine ==> Settled(s, id, o)
    ensures TablesInv(FinishRide(s, id, o)) && TablesStep(s, FinishRide(s, id, o))
  {
    FilingKeepsScores(s, id, o);
    FilingIsTheFirst(s, id, o);
    FilingKeepsFiled(s, id, o);
  }

  lemma FilingKeepsFiled(s: World, id: string, o: RideOutcome)
    requires FiledInv(s) && Active(s, id) && s.rows[id].riderId in s.riders
    requires s.rows[id].mine ==> Settled(s, id, o)
    ensures FiledInv(FinishRide(s, id, o))
  {
    var s' := FinishRide(s, id, o);
    forall f | f in s'.filings && f in s.filings ensures f.id != id && s'.rows[f.id] == s.rows[f.id] {
    }
  }

  lemma TablesKeepRows(s: World, s': World)
    requires RowsInv(s) && TablesStep(s, s') && s.lost <= s'.lost
    requires forall id | Active(s', id) && s'.rows[id].mine :: id in s.rows || id in s'.lost
    ensures RowsInv(s')
  {
    forall id | Active(s', id) && s'.rows[id].mine ensures id in s'.reg.rides || IsAdding(s', id) || id in s'.lost {
      if id !in s'.lost {
        assert Active(s, id);
        if IsAdding(s, id) {
          assert IsAdding(s', id);
        }
      }
    }
  }

  // ---- Every step keeps it -------------------------------------------------

  /** A step moves its request on from the state its effect leaves. */
  lemma StepKeepsInv(m: World, pid: Pid, pc: Pc)
    requires InvBut(m, pid) && RowsInv(m) && PcInv(m, pc) && LocksInv(Move(m, pid, pc)) && Recall(m) == m
    requires pid in m.procs && m.procs[pid].Adding? ==> m.procs[pid].wish.id in m.reg.rides
    ensures Inv(Recall(Move(m, pid, pc)))
  {
    MoveKeepsRows(m, pid, pc);
    MoveKeepsInv(m, pid, pc);
    assert Recall(Move(m, pid, pc)) == Move(m, pid, pc);
  }

  lemma RecallIsStable(s: World)
    requires MemoryInv(s)
    ensures Recall(s) == s
  {
    assert s.past + s.reg.rides == s.past;
  }

  lemma ResumeFits(s: World, t: Then, f: Finish)
    requires Clear(s, t)
    ensures PcInv(s, Resume(t, f))
    ensures Holds(Resume(t, f)).None? || (t.Begin? && Holds(Resume(t, f)) == Some(t.wish.riderId))
    ensures !Resume(t, f).Adding?
  {
  }

  lemma RecallMove(s: World, pid: Pid, pc: Pc)
    ensures Recall(Recall(s)) == Recall(s)
    ensures Move(Recall(s), pid, pc) == Recall(Move(s, pid, pc))
  {
    assert s.past + s.reg.rides + s.reg.rides == s.past + s.reg.rides;
  }

  /** A request that only changes the registry. */
  lemma RegistryMove(s: World, reg: Registry, pid: Pid, pc: Pc)
    requires Inv(s) && RegistryStep(s, Recall(s.(reg := reg))) && PcInv(Recall(s.(reg := reg)), pc)
    requires LocksInv(Move(s, pid, pc))
    requires pid in s.procs ==> !s.procs[pid].Adding?
    ensures Inv(Recall(Move(s.(reg := reg), pid, pc)))
  {
    var m := Recall(s.(reg := reg));
    RegistryKeepsInv(s, m, pid);
    RegistryKeepsRows(s, m);
    RecallMove(s.(reg := reg), pid, pc);
    StepKeepsInv(m, pid, pc);
    RecallMove(m, pid, pc);
  }

  lemma UpdateIsAStep(s: World, id: string, r: Ride)
    requires Inv(s) && s.reg.Live(id) && r.id == id && r.riderId == s.reg.rides[id].riderId
    ensures RegistryStep(s, Recall(s.(reg := s.reg.Update(id, r))))
  {
    UpdateKeepsOneEach(s.reg, id, r);
  }

  lemma NoStep(s: World)
    requires Inv(s)
    ensures RegistryStep(s, Recall(s.(reg := s.reg))) && Recall(s) == s
  {
    RecallIsStable(s);
  }

  /** Where nothing changes but where the request stands. */
  lemma PlainMove(s: World, pid: Pid, pc: Pc)
    requires Inv(s) && PcInv(s, pc) && LocksInv(Move(s, pid, pc))
    requires pid in s.procs ==> !s.procs[pid].Adding?
    ensures Inv(Recall(Move(s, pid, pc)))
  {
    NoStep(s);
    StepKeepsInv(s, pid, pc);
  }

  lemma EndEvolves(g: Registry, id: string, reason: EndReason, at: Time)
    requires g.Valid() && g.OneEach()
    ensures Evolves(g, g.End(id, reason, at)) && g.End(id, reason, at).rides.Keys == g.rides.Keys
    ensures g.End(id, reason, at).Valid() && g.End(id, reason, at).OneEach()
    ensures id in g.rides ==> g.End(id, reason, at).rides[id] == g.rides[id].End(reason, at)
    ensures !g.End(id, reason, at).Live(id)
  {
    if id in g.rides {
      UpdateKeepsOneEach(g, id, g.rides[id].End(reason, at));
    }
  }

  /** Once the ride it supersedes has ended, the start has the rider to itself. */
  lemma EndingClears(g: Registry, g': Registry, id: string, u: string)
    requires Evolves(g, g') && !g'.Live(id)
    requires forall other | g.Live(other) && g.rides[other].riderId == u :: other == id
    ensures g'.NoneLive(u)
  {
  }

  lemma EndIsAStep(s: World, id: string, reason: EndReason, at: Time)
    requires Inv(s)
    ensures RegistryStep(s, Recall(s.(reg := s.reg.End(id, reason, at))))
  {
    EndEvolves(s.reg, id, reason, at);
  }

  lemma EndingIsFit(s: World, pc: Pc, now: Time, m: World)
    requires Inv(s) && pc.Ending? && PcInv(s, pc) && m == Recall(s.(reg := s.reg.End(pc.id, pc.reason, now)))
    ensures RegistryStep(s, m) && PcInv(m, Next(s, pc, Fine, now))
    ensures Holds(Next(s, pc, Fine, now)).None? || Holds(Next(s, pc, Fine, now)) == Holds(pc)
  {
    EndEvolves(s.reg, pc.id, pc.reason, now);
    if pc.after.Begin? {
      EndingClears(s.reg, m.reg, pc.id, pc.after.wish.riderId);
    }
    if pc.id !in s.reg.rides {
      ResumeFits(m, pc.after, NotActive);
    }
  }

  lemma EndingKeepsInv(s: World, pid: Pid, now: Time)
    requires Inv(s) && pid in s.procs && s.procs[pid].Ending?
    ensures Inv(Do(s, Advance(pid, Fine, now)))
  {
    var pc := s.procs[pid];
    assert PcInv(s, pc);
    var g := s.reg.End(pc.id, pc.reason, now);
    EndingIsFit(s, pc, now, Recall(s.(reg := g)));
    MoveKeepsLocks(s, pid, Next(s, pc, Fine, now));
    RegistryMove(s, g, pid, Next(s, pc, Fine, now));
  }

  lemma RemoveIsAStep(s: World, id: string)
    requires Inv(s) && Closed(s, id)
    ensures RegistryStep(s, Recall(s.(reg := s.reg.Remove(id))))
  {
    RemoveKeepsOneEach(s.reg, id);
  }

  lemma RemovingKeepsInv(s: World, pid: Pid, now: Time)
    requires Inv(s) && pid in s.procs && (s.procs[pid].Filed? || s.procs[pid].Dropping?)
    ensures Inv(Do(s, Advance(pid, Fine, now)))
  {
    var pc := s.procs[pid];
    assert PcInv(s, pc);
    RemoveIsAStep(s, pc.id);
    RemovingIsFit(s, pc, now, Recall(s.(reg := s.reg.Remove(pc.id))));
    MoveKeepsLocks(s, pid, Next(s, pc, Fine, now));
    RegistryMove(s, s.reg.Remove(pc.id), pid, Next(s, pc, Fine, now));
  }

  lemma RemovingIsFit(s: World, pc: Pc, now: Time, m: World)
    requires MemoryInv(s) && (pc.Filed? || pc.Dropping?) && PcInv(s, pc) && RegistryStep(s, m)
    ensures PcInv(m, Next(s, pc, Fine, now)) && KeepsLock(pc, Next(s, pc, Fine, now))
  {
    RegistryKeepsPc(s, m, pc);
    ResumeFits(m, pc.after, NotActive);
  }

  lemma SetTierIsAStep(s: World, u: string, tier: Tier)
    requires Inv(s)
    ensures RegistryStep(s, Recall(s.(reg := s.reg.SetTier(u, tier))))
  {
    if s.reg.ActiveRide(u).Some? {
      var id := s.reg.ActiveRide(u).value;
      UpdateIsAStep(s, id, s.reg.rides[id].(tier := tier));
    } else {
      NoStep(s);
    }
  }

  lemma RetieringKeepsInv(s: World, pid: Pid, now: Time)
    requires Inv(s) && pid in s.procs && s.procs[pid].Retiering?
    ensures Inv(Do(s, Advance(pid, Fine, now)))
  {
    var Retiering(u, tier, t) := s.procs[pid];
    assert PcInv(s, s.procs[pid]);
    SetTierIsAStep(s, u, tier);
    var m := Recall(s.(reg := s.reg.SetTier(u, tier)));
    RegistryKeepsPc(s, m, s.procs[pid]);
    ResumeFits(m, t, Rescored(tier));
    MoveKeepsLocks(s, pid, Resume(t, Rescored(tier)));
    RegistryMove(s, s.reg.SetTier(u, tier), pid, Resume(t, Rescored(tier)));
  }

  /** pc' keeps the rider's lock, or gives it up. */
  predicate KeepsLock(pc: Pc, pc': Pc) {
    Holds(pc').None? || Holds(pc') == Holds(pc)
  }

  lemma TablesMove(s: World, m: World, pid: Pid, pc: Pc)
    requires Inv(s) && TablesStep(s, m) && TablesInv(m) && RowsInv(m) && PcInv(m, pc)
    requires pid in s.procs && !s.procs[pid].Adding? && KeepsLock(s.procs[pid], pc)
    ensures Inv(Recall(Move(m, pid, pc)))
  {
    TablesKeepOthers(s, m, pid);
    RecallIsStable(m);
    MoveKeepsLocks(m, pid, pc);
    StepKeepsInv(m, pid, pc);
  }

  lemma FilingIsFit(s: World, id: string, o: RideOutcome)
    requires Inv(s) && Settled(s, id, o) && Active(s, id) && s.rows[id].riderId in s.riders
    ensures var m := FinishRide(s, id, o); TablesStep(s, m) && TablesInv(m) && RowsInv(m) && Closed(m, id)
  {
    FilingKeepsTables(s, id, o);
    TablesKeepRows(s, FinishRide(s, id, o));
  }

  lemma WritingGoes(s: World, pc: Pc, luck: Luck, now: Time, files: bool)
    requires pc.Writing? && files == (Active(s, pc.id) && s.rows[pc.id].riderId in s.riders)
    ensures Effect(s, pc, luck, now) == if files && luck != Error then FinishRide(s, pc.id, pc.outcome) else s
    ensures Next(s, pc, luck, now) == Resume(pc.after, StoreError)
         || (luck == Fine && !Active(s, pc.id) && Next(s, pc, luck, now) == Dropping(pc.id, pc.after))
         || (luck == Fine && files && Next(s, pc, luck, now) ==
               Filed(pc.id, s.rows[pc.id].riderId, Rescore(s.riders[s.rows[pc.id].riderId], pc.outcome).tier, pc.after))
  {
  }

  lemma WritingIsFit(s: World, pc: Pc, luck: Luck, now: Time, m: World)
    requires Inv(s) && pc.Writing? && PcInv(s, pc) && m == Effect(s, pc, luck, now)
    ensures TablesStep(s, m) && TablesInv(m) && RowsInv(m) && PcInv(m, Next(s, pc, luck, now))
    ensures KeepsLock(pc, Next(s, pc, luck, now))
  {
    var files := Active(s, pc.id) && s.rows[pc.id].riderId in s.riders;
    WritingGoes(s, pc, luck, now, files);
    if files && luck != Error {
      FilingIsFit(s, pc.id, pc.outcome);
    }
    WritingLeads(s, pc, luck, now, m);
  }

  lemma WritingLeads(s: World, pc: Pc, luck: Luck, now: Time, m: World)
    requires KnownStep(s, m) && pc.Writing? && PcInv(s, pc) && pc.id in s.rows
    requires luck == Fine && Active(s, pc.id) && s.rows[pc.id].riderId in s.riders ==> Closed(m, pc.id)
    ensures PcInv(m, Next(s, pc, luck, now)) && KeepsLock(pc, Next(s, pc, luck, now))
  {
    ResumeFits(m, pc.after, StoreError);
  }

  /** Memory stays, and so do the rows that have ended. */
  ghost predicate KnownStep(s: World, m: World) {
    m.reg == s.reg && forall id | Closed(s, id) :: Closed(m, id)
  }

  lemma RecordingIsFit(s: World, pc: Pc, luck: Luck, now: Time, m: World)
    requires Inv(s) && pc.Recording? && m == Effect(s, pc, luck, now)
    ensures TablesStep(s, m) && TablesInv(m) && RowsInv(m) && PcInv(m, Next(s, pc, luck, now))
    ensures KeepsLock(pc, Next(s, pc, luck, now))
  {
    if m != s {
      UnfiledKeepsTables(s, m);
      TablesKeepRows(s, m);
    }
  }

  lemma WritingKeepsInv(s: World, pid: Pid, luck: Luck, now: Time)
    requires Inv(s) && pid in s.procs && (s.procs[pid].Writing? || s.procs[pid].Recording?)
    ensures Inv(Recall(Move(Effect(s, s.procs[pid], luck, now), pid, Next(s, s.procs[pid], luck, now))))
  {
    var pc := s.procs[pid];
    var m := Effect(s, pc, luck, now);
    assert PcInv(s, pc);
    if pc.Writing? {
      WritingIsFit(s, pc, luck, now, m);
    } else {
      RecordingIsFit(s, pc, luck, now, m);
    }
    TablesMove(s, m, pid, Next(s, pc, luck, now));
  }
}
