/** Every refresh and revocation comes to an answer, and every request of the app
    that waits for a trade is told how it went: in how many steps, and that none
    is ever stuck (auth_refresh.go, TokenRefresher.swift). */
module TokenCompletion {
  import opened Prelude
  import opened RefreshTokens
  import opened TokenLineage
  import opened TokenClient
  import TokenSteps
  import TokenRuns

  // ---- The server ----------------------------------------------------------

  predicate Answered(pc: Pc) {
    pc.Replied? || pc.Revoked? || pc.RevokeFailed?
  }

  /** The steps a request may yet take. */
  function StepsLeft(pc: Pc): nat {
    match pc
    case Reading(_) => 8
    case Checking(_, _, _) => 7
    case FindingUser(_, _) => 6
    case Rotating(_, _, _) => 5
    case Locked(_, _, _) => 4
    case Marked(_, _, _) => 3
    case Inserted(_, _, _, _) => 2
    case Rotated(_, _) => 1
    case Revoking(_, _) => 3
    case RevokeLocked(_, _) => 2
    case RevokeDeleted(_, _, _) => 1
    case _ => 0
  }

  function OwnSteps(actions: seq<Action>, pid: Pid): nat {
    if |actions| == 0 then 0
    else (if actions[0].Advance? && actions[0].pid == pid then 1 else 0) + OwnSteps(actions[1..], pid)
  }

  lemma StepSpends(s: State, pid: Pid, luck: Luck)
    requires Enabled(s, Advance(pid, luck))
    ensures pid in Do(s, Advance(pid, luck)).procs
    ensures StepsLeft(Do(s, Advance(pid, luck)).procs[pid]) < StepsLeft(s.procs[pid])
  {
    var pc := s.procs[pid];
    if luck == Error {
      TokenSteps.ErrorStep(s, pid);
    } else if pc.Reading? || pc.Checking? || pc.FindingUser? {
      TokenSteps.CheckingSteps(s, pid);
    } else if pc.Inserted? {
      TokenSteps.RotationCommits(s, pid, luck);
    } else if pc.Revoking? || pc.RevokeLocked? || pc.RevokeDeleted? {
      TokenSteps.RevocationSteps(s, pid, luck);
    } else {
      TokenSteps.RotationSteps(s, pid, luck);
    }
  }

  /** A request takes eight steps of its own at most, whatever else goes on, and
      is answered when it has none left. */
  lemma {:induction false} AnsweredInEightSteps(s: State, actions: seq<Action>, s': State, pid: Pid)
    requires Reaches(s, actions, s') && pid in s.procs
    ensures pid in s'.procs && StepsLeft(s'.procs[pid]) + OwnSteps(actions, pid) <= StepsLeft(s.procs[pid]) <= 8
    ensures StepsLeft(s'.procs[pid]) == 0 <==> Answered(s'.procs[pid])
    decreases |actions|
  {
    if |actions| > 0 {
      if actions[0].Advance? && actions[0].pid == pid {
        StepSpends(s, pid, actions[0].luck);
      } else {
        OthersStay(s, actions[0], pid);
      }
      AnsweredInEightSteps(Do(s, actions[0]), actions[1..], s', pid);
    }
  }

  /** The request can take its next step, or waits for its user's row, and then
      the one that has it can. */
  ghost predicate GoesOn(s: State, pid: Pid)
    requires pid in s.procs
  {
    Enabled(s, Advance(pid, Fine))
    || ((s.procs[pid].Rotating? || s.procs[pid].Revoking?) && exists holder ::
          holder in s.procs && Holds(s.procs[holder]) == Some(s.procs[pid].user) && Enabled(s, Advance(holder, Fine)))
  }

  lemma GoesOnIn(s: State, pid: Pid)
    requires LocksInv(s) && pid in s.procs && !Answered(s.procs[pid])
    ensures GoesOn(s, pid)
  {
    if !Enabled(s, Advance(pid, Fine)) {
      var holder := s.held[s.procs[pid].user];
      assert Holds(s.procs[holder]) == Some(s.procs[pid].user);
    }
  }

  /** And no request is stuck: in every state a run leads to, one not answered can
      take its next step, or waits for its user's row while the one that has it,
      and waits for nothing, can. */
  lemma NoRequestIsStuck(s: State, pid: Pid)
    requires Reachable(s) && pid in s.procs
    ensures Answered(s.procs[pid]) || GoesOn(s, pid)
  {
    ReachableInv(s);
    if !Answered(s.procs[pid]) {
      GoesOnIn(s, pid);
    }
  }

  // ---- The app -------------------------------------------------------------

  /** The request is a refresh, or the revocation one has turned into. */
  predicate Refreshes(pc: Pc) {
    match pc
    case Revoking(_, cause) => cause.AfterReuse?
    case RevokeLocked(_, cause) => cause.AfterReuse?
    case RevokeDeleted(_, cause, _) => cause.AfterReuse?
    case Revoked(_, _, _) => false
    case RevokeFailed(_, _) => false
    case _ => true
  }

  /** Whoever waits does so for the trade that is out, or one that is over. */
  ghost predicate WaitsInv(c: Client) {
    && (forall id | id in c.requests && c.requests[id].Waiting? :: IsKnown(c, c.requests[id].trade))
    && (forall p | p in c.sent :: p in c.srv.procs && Refreshes(c.srv.procs[p]))
  }

  predicate IsKnown(c: Client, trade: nat) {
    trade in c.outcomes || (c.trade.Some? && c.trade.value.id == trade)
  }

  lemma StepRefreshes(s: State, a: Action, p: Pid)
    requires Enabled(s, a) && p in s.procs && Refreshes(s.procs[p])
    ensures p in Do(s, a).procs && Refreshes(Do(s, a).procs[p])
  {
    if !(a.Advance? && a.pid == p) {
      OthersStay(s, a, p);
    }
  }

  lemma ServerKeepsWaits(c: Client, a: Action, c': Client)
    requires WaitsInv(c) && Enabled(c.srv, a) && c'.srv == Do(c.srv, a)
    requires c'.requests == c.requests && c'.outcomes == c.outcomes && c'.sent == c.sent
    requires forall trade | IsKnown(c, trade) :: IsKnown(c', trade)
    ensures WaitsInv(c')
  {
    forall p | p in c'.sent ensures p in c'.srv.procs && Refreshes(c'.srv.procs[p]) {
      StepRefreshes(c.srv, a, p);
    }
  }

  lemma EventKeepsWaits(c: Client, e: Event)
    requires WaitsInv(c) && Possible(c, e)
    ensures WaitsInv(Happen(c, e))
  {
    match e
    case Server(a) => ServerKeepsWaits(c, a, Happen(c, e));
    case SignIn(user) => ServerKeepsWaits(c, Login(user), Happen(c, e));
    case Send(pid) =>
      var c' := Happen(c, e);
      ServerKeepsWaits(c, Present(pid, c.trade.value.tok), c'.(sent := c.sent));
    case AfterUnauthorized(id, failed, read) => UnauthorizedKeepsWaits(c, id, failed, read);
    case BeforeExpiry(id, observed, due, read) => EarlyKeepsWaits(c, id, observed, due, read);
    case Resume(_, _) => StoreKeepsWaits(c, e);
    case Store(_) => StoreKeepsWaits(c, e);
    case SignOut => StoreKeepsWaits(c, e);
    case Drop(_) => StoreKeepsWaits(c, e);
    case _ => TradeKeepsWaits(c, e);
  }

  lemma UnauthorizedKeepsWaits(c: Client, id: nat, failed: Token, read: bool)
    requires WaitsInv(c)
    ensures WaitsInv(Unauthorized(c, id, failed, read))
  {
  }

  lemma EarlyKeepsWaits(c: Client, id: nat, observed: Token, due: bool, read: bool)
    requires WaitsInv(c)
    ensures WaitsInv(Early(c, id, observed, due, read))
  {
  }

  lemma StoreKeepsWaits(c: Client, e: Event)
    requires WaitsInv(c) && Possible(c, e) && (e.Resume? || e.Store? || e.SignOut? || e.Drop?)
    ensures WaitsInv(Happen(c, e))
  {
  }

  lemma TradeKeepsWaits(c: Client, e: Event)
    requires WaitsInv(c) && Possible(c, e) && (e.Unsent? || e.Abandon? || e.Deliver? || e.Save?)
    ensures WaitsInv(Happen(c, e))
  {
    TradeIsToldOf(c, e);
    SameWaits(c, Happen(c, e));
  }

  lemma TradeIsToldOf(c: Client, e: Event)
    requires Possible(c, e) && (e.Unsent? || e.Abandon? || e.Deliver? || e.Save?)
    ensures OnlyTold(c, Happen(c, e))
  {
    match e
    case Deliver(read, cleared) => HearTells(c, c.srv.procs[c.trade.value.pid].reply, read, cleared);
    case Save(written, cleared) => SaveTells(c, written, cleared);
    case _ =>
  }

  /** The trade goes on, or those who wait for it can be told. */
  ghost predicate OnlyTold(c: Client, c': Client) {
    && c'.srv == c.srv && c'.sent == c.sent && c'.requests == c.requests && c.outcomes.Keys <= c'.outcomes.Keys
    && (c'.trade == c.trade || (c.trade.Some? && c.trade.value.id in c'.outcomes))
  }

  lemma HearTells(c: Client, reply: Reply, read: bool, cleared: bool)
    requires c.trade.Some?
    ensures OnlyTold(c, Hear(c, reply, read, cleared))
  {
  }

  lemma SaveTells(c: Client, written: bool, cleared: bool)
    requires Possible(c, Save(written, cleared))
    ensures OnlyTold(c, Happen(c, Save(written, cleared)))
  {
  }

  lemma SameWaits(c: Client, c': Client)
    requires WaitsInv(c) && OnlyTold(c, c')
    ensures WaitsInv(c')
  {
  }

  lemma {:induction false} TraceKeepsWaits(states: seq<Client>, events: seq<Event>, n: nat)
    requires TokenRuns.Trace(states, events) && n < |states|
    ensures WaitsInv(states[n]) && TokenRuns.RunInv(states[n])
  {
    if n == 0 {
      TokenRuns.BeginsRun(states[0]);
    } else {
      TraceKeepsWaits(states, events, n - 1);
      assert TokenRuns.StepAt(states, events, n - 1);
      EventKeepsWaits(states[n - 1], events[n - 1]);
      TokenRuns.EventKeepsRun(states[n - 1], events[n - 1]);
    }
  }

  /** The trade that is out can go on: out to the server, through it, or back. */
  ghost predicate TradeGoesOn(c: Client)
    requires c.trade.Some?
  {
    match c.trade.value
    case Queued(_, _) => Possible(c, Unsent) && forall pid | pid !in c.srv.procs :: Possible(c, Send(pid))
    case Out(_, _, pid) =>
      && pid in c.srv.procs
      && (if c.srv.procs[pid].Replied? then forall read, cleared :: Possible(c, Deliver(read, cleared))
          else GoesOn(c.srv, pid))
  }

  /** What the request waits for can happen next: the app's write to the store, its
      own resuming, or a step of its trade. */
  ghost predicate Served(c: Client, id: nat)
    requires id in c.requests && c.requests[id].Waiting?
  {
    if c.turn.Saving? then forall written, cleared :: Possible(c, Save(written, cleared))
    else if c.turn.Dropping? then forall written :: Possible(c, Drop(written))
    else if c.requests[id].trade in c.outcomes then forall read :: Possible(c, Resume(id, read))
    else c.trade.Some? && c.trade.value.id == c.requests[id].trade && TradeGoesOn(c)
  }

  /** Over whole runs in which anything may go wrong nobody waits for what cannot
      come: whoever waits is waiting for the trade that is out or one that is over,
      and can be told, or the trade can go on. */
  lemma NobodyWaitsInVain(states: seq<Client>, events: seq<Event>, n: nat, id: nat)
    requires TokenRuns.Trace(states, events) && n < |states|
    requires id in states[n].requests && states[n].requests[id].Waiting?
    ensures Served(states[n], id)
  {
    TraceKeepsWaits(states, events, n);
    ServedIn(states[n], id);
  }

  lemma TradeGoesOnIn(c: Client)
    requires WaitsInv(c) && LocksInv(c.srv) && c.turn.Idle? && c.trade.Some?
    requires c.trade.value.Out? ==> c.trade.value.pid in c.sent
    ensures TradeGoesOn(c)
  {
    if c.trade.value.Out? && !c.srv.procs[c.trade.value.pid].Replied? {
      GoesOnIn(c.srv, c.trade.value.pid);
    }
  }

  lemma ServedIn(c: Client, id: nat)
    requires WaitsInv(c) && LocksInv(c.srv) && TokenRuns.TradedInv(c) && id in c.requests && c.requests[id].Waiting?
    ensures Served(c, id)
  {
    if c.turn.Idle? && c.requests[id].trade !in c.outcomes {
      TradeGoesOnIn(c);
    }
  }
}
