/** Runs of the client and the server of TokenClient in which anything may go
    wrong: answers lost, commits reported as errors, trades given up on, a token
    store that fails. When is a spent token left in the store, and when does a
    request drop a token that no trade has presented? */
module TokenRuns {
  import opened Prelude
  import opened RefreshTokens
  import opened TokenLineage
  import opened TokenClient

  // ---- What holds whatever happens -----------------------------------------

  /** The app's requests, each on the token it presented; whoever else may spend
      a token spends one that is not the app's. */
  ghost predicate SentInv(c: Client) {
    && (forall p | p in c.sent :: p in c.srv.procs && c.sent[p] in c.traded)
    && (forall p | p in c.sent && CanSpend(c.srv.procs[p]) :: c.srv.procs[p].tok == c.sent[p])
    && (forall p | p in c.srv.procs && p !in c.sent && CanSpend(c.srv.procs[p]) ::
          c.srv.procs[p].tok in c.srv.seen && !Ours(c, c.srv.procs[p].tok))
  }

  /** Trades are numbered in order, and the last is the one in flight. */
  ghost predicate TradedInv(c: Client) {
    && (forall t | t in c.traded :: t in c.srv.seen && Ours(c, t))
    && (forall n | n in c.outcomes :: n < |c.traded|)
    && (c.trade.Some? ==> c.trade.value.id + 1 == |c.traded| && c.traded[c.trade.value.id] == c.trade.value.tok
                          && c.trade.value.id !in c.outcomes)
    && (c.trade.Some? && c.trade.value.Out? ==> c.trade.value.pid in c.sent && c.sent[c.trade.value.pid] == c.trade.value.tok)
    && (c.turn.Saving? ==> c.trade.Some? && c.trade.value.Out? && c.trade.value.pid in c.srv.procs
                           && c.srv.procs[c.trade.value.pid].Replied? && Heir(c) == Some(c.turn.heir))
  }

  /** What the request has been handed, or is about to be. */
  function HeirOf(pc: Pc): Option<Token> {
    match pc
    case Rotated(_, heir) => Some(heir)
    case Replied(_, Issued(heir)) => Some(heir)
    case _ => None
  }

  /** What the trade in flight may yet be handed. */
  function Heir(c: Client): Option<Token> {
    if c.trade.None? || c.trade.value.Queued? || c.trade.value.pid !in c.srv.procs then None
    else HeirOf(c.srv.procs[c.trade.value.pid])
  }

  /** A token that has not been in the store, and so in no trade. */
  ghost predicate New(c: Client, t: Token) {
    t in c.srv.seen && Ours(c, t) && t !in c.traded && Refreshable(c) != Some(t)
  }

  /** What may still enter the store is new, so that no token enters twice. */
  ghost predicate EnteringInv(c: Client) {
    && (forall t | t in c.arriving :: t in c.logins && New(c, t))
    && (Heir(c).Some? ==> Heir(c).value in c.srv.parent && New(c, Heir(c).value))
    && (Refreshable(c).Some? ==> Refreshable(c).value in c.srv.seen && Ours(c, Refreshable(c).value))
    && (Refreshable(c).Some? && c.trade.Some? && Refreshable(c).value != c.trade.value.tok ==> Refreshable(c).value !in c.traded)
  }

  ghost predicate RunInv(c: Client) {
    Inv(c.srv) && LoginsInv(c) && SentInv(c) && TradedInv(c) && EnteringInv(c)
  }

  // ---- Server steps keep it ------------------------------------------------

  lemma ServerKeepsSentInv(c: Client, a: Action, c': Client)
    requires RunInv(c) && ServerStep(c, a, c') && c'.traded == c.traded && c'.sent == c.sent
    requires a.Present? ==> a.tok in c.srv.seen && !Ours(c, a.tok)
    ensures SentInv(c')
  {
    forall p | p in c'.srv.procs && CanSpend(c'.srv.procs[p])
      ensures p in c.sent ==> c'.srv.procs[p].tok == c.sent[p]
      ensures p !in c.sent ==> c'.srv.procs[p].tok in c'.srv.seen && !Ours(c', c'.srv.procs[p].tok)
    {
      WasAlreadySpending(c.srv, a, p);
      if p !in c.sent {
        OwnershipStays(c, a, c', c'.srv.procs[p].tok);
      }
    }
    forall p | p in c.sent ensures p in c'.srv.procs {
      ProcsStay(c.srv, a, p);
    }
  }

  lemma ProcsStay(s: State, a: Action, p: Pid)
    requires Enabled(s, a) && p in s.procs
    ensures p in Do(s, a).procs
  {
    if a.Advance? {
      ForwardMovesOne(s, a.pid, a.luck == CommitLost);
    }
  }

  lemma HeirIsCommitted(s: State, pc: Pc, luck: Luck)
    requires !pc.Replied? && !pc.Revoked? && !pc.RevokeFailed?
    ensures var pc' := if luck == Error then Failure(pc) else Next(s, pc, luck == CommitLost);
            HeirOf(pc').None? || HeirOf(pc') == HeirOf(pc) || (luck != Error && pc.Inserted? && HeirOf(pc') == Some(pc.heir))
  {
  }

  /** What the trade may be handed comes from its commit, or was there before. */
  lemma HeirFrom(c: Client, a: Action, c': Client)
    requires RunInv(c) && ServerStep(c, a, c') && c'.trade == c.trade && Heir(c').Some?
    ensures Heir(c') == Heir(c)
         || (Spends(c.srv, a, c.trade.value.tok) && Heir(c') == Some(c.srv.procs[a.pid].heir))
  {
    var pid := c.trade.value.pid;
    if a.Advance? && a.pid == pid {
      AdvanceLeadsTo(c.srv, pid, a.luck);
      HeirIsCommitted(c.srv, c.srv.procs[pid], a.luck);
    } else {
      assert pid in c.sent;
      OthersStay(c.srv, a, pid);
    }
  }

  lemma NewStays(c: Client, a: Action, c': Client, t: Token)
    requires Inv(c.srv) && ServerStep(c, a, c') && New(c, t) && c'.traded == c.traded && c'.store == c.store
    ensures New(c', t)
  {
    OwnershipStays(c, a, c', t);
  }

  lemma ServerKeepsHeir(c: Client, a: Action, c': Client)
    requires RunInv(c) && ServerStep(c, a, c')
    requires c'.trade == c.trade && c'.traded == c.traded && c'.store == c.store && Heir(c').Some?
    ensures Heir(c').value in c'.srv.parent && New(c', Heir(c').value)
  {
    var h := Heir(c').value;
    HeirFrom(c, a, c');
    StepParents(c.srv, a);
    if Heir(c) == Heir(c') {
      NewStays(c, a, c', h);
    } else {
      assert PcInv(c.srv, c.srv.procs[a.pid]);
      HeirIsUnspent(c, a, c', c.trade.value.tok);
    }
  }

  lemma ServerKeepsTraded(c: Client, a: Action, c': Client)
    requires RunInv(c) && ServerStep(c, a, c')
    requires c' == c.(srv := c'.srv, arriving := c'.arriving, logins := c'.logins)
    ensures TradedInv(c')
  {
    forall t | t in c'.traded ensures t in c'.srv.seen && Ours(c', t) {
      OwnershipStays(c, a, c', t);
    }
    if c.turn.Saving? {
      SavingStays(c, a, c');
    }
  }

  lemma SavingStays(c: Client, a: Action, c': Client)
    requires Enabled(c.srv, a) && c'.srv == Do(c.srv, a) && c'.trade == c.trade
    requires c.trade.Some? && c.trade.value.Out? && c.trade.value.pid in c.srv.procs && c.srv.procs[c.trade.value.pid].Replied?
    ensures c.trade.value.pid in c'.srv.procs && c'.srv.procs[c.trade.value.pid].Replied? && Heir(c') == Heir(c)
  {
    RepliedStays(c.srv, a, c.trade.value.pid);
    ProcsStay(c.srv, a, c.trade.value.pid);
  }

  lemma ServerKeepsEntering(c: Client, a: Action, c': Client)
    requires RunInv(c) && ServerStep(c, a, c') && c' == c.(srv := c'.srv)
    ensures EnteringInv(c')
  {
    forall t | t in c'.arriving ensures New(c', t) {
      NewStays(c, a, c', t);
    }
    if Heir(c').Some? {
      ServerKeepsHeir(c, a, c');
    }
    if Refreshable(c).Some? {
      OwnershipStays(c, a, c', Refreshable(c).value);
    }
  }

  lemma ServerKeepsRun(c: Client, a: Action)
    requires RunInv(c) && Possible(c, Server(a))
    ensures RunInv(Happen(c, Server(a)))
  {
    var c' := Happen(c, Server(a));
    StepKeepsInv(c.srv, a);
    StepParents(c.srv, a);
    ServerKeepsSentInv(c, a, c');
    ServerKeepsTraded(c, a, c');
    ServerKeepsEntering(c, a, c');
  }

  /** A sign-in's token is new. */
  lemma SignInKeepsRun(c: Client, user: User)
    requires RunInv(c) && Possible(c, SignIn(user))
    ensures RunInv(Happen(c, SignIn(user)))
  {
    var c' := Happen(c, SignIn(user));
    var a := Login(user);
    StepKeepsInv(c.srv, a);
    StepParents(c.srv, a);
    ServerKeepsSentInv(c, a, c');
    ServerKeepsTraded(c, a, c');
    SignInKeepsEntering(c, user);
  }

  lemma SignInKeepsEntering(c: Client, user: User)
    requires RunInv(c) && Possible(c, SignIn(user))
    ensures EnteringInv(Happen(c, SignIn(user)))
  {
    var c' := Happen(c, SignIn(user));
    forall t | t in c.arriving ensures New(c', t) {
      NewStays(c, Login(user), c', t);
    }
    if Heir(c').Some? {
      ServerKeepsHeir(c, Login(user), c');
    }
    if Refreshable(c).Some? {
      OwnershipStays(c, Login(user), c', Refreshable(c).value);
    }
    SignInIsNew(c, user);
  }

  lemma SignInIsNew(c: Client, user: User)
    requires RunInv(c) && Possible(c, SignIn(user))
    ensures New(Happen(c, SignIn(user)), c.srv.next)
  {
    assert c.srv.next !in c.srv.seen && c.srv.next !in Happen(c, SignIn(user)).srv.parent;
  }

  // ---- The app's turns keep it ---------------------------------------------

  lemma SendKeepsSent(c: Client, pid: Pid)
    requires RunInv(c) && Possible(c, Send(pid))
    ensures SentInv(Happen(c, Send(pid))) && TradedInv(Happen(c, Send(pid)))
  {
    PresentMintsNone(c.srv, pid, c.trade.value.tok);
    SameChains(c, Happen(c, Send(pid)));
  }

  lemma SendKeepsEntering(c: Client, pid: Pid)
    requires RunInv(c) && Possible(c, Send(pid))
    ensures EnteringInv(Happen(c, Send(pid)))
  {
    PresentMintsNone(c.srv, pid, c.trade.value.tok);
    SameChains(c, Happen(c, Send(pid)));
  }

  lemma SendKeepsRun(c: Client, pid: Pid)
    requires RunInv(c) && Possible(c, Send(pid))
    ensures RunInv(Happen(c, Send(pid)))
  {
    StepKeepsInv(c.srv, Present(pid, c.trade.value.tok));
    PresentMintsNone(c.srv, pid, c.trade.value.tok);
    SendKeepsSent(c, pid);
    SendKeepsEntering(c, pid);
  }

  ghost predicate SameServer(c: Client, c': Client) {
    c'.srv == c.srv && c'.logins == c.logins && c'.arriving == c.arriving && c'.sent == c.sent
  }

  /** Whatever leaves the trade alone and stores no new refresh token. */
  lemma StoreLessKeepsRun(c: Client, c': Client)
    requires RunInv(c) && SameServer(c, c') && c'.trade == c.trade && c'.traded == c.traded && c'.outcomes == c.outcomes
    requires c'.turn == c.turn || !c'.turn.Saving?
    requires Refreshable(c').None? || Refreshable(c') == Refreshable(c)
    ensures RunInv(c')
  {
    TurnKeepsSent(c, c');
    TurnKeepsEntering(c, c');
  }

  lemma TurnKeepsSent(c: Client, c': Client)
    requires SentInv(c) && TradedInv(c) && SameServer(c, c')
    requires c'.trade == c.trade && c'.traded == c.traded && c'.outcomes == c.outcomes
    requires c'.turn == c.turn || !c'.turn.Saving?
          || (c.trade.Some? && c.trade.value.Out? && c.trade.value.pid in c.srv.procs
              && c.srv.procs[c.trade.value.pid].Replied? && Heir(c) == Some(c'.turn.heir))
    ensures SentInv(c') && TradedInv(c')
  {
    SameChains(c, c');
  }

  lemma TurnKeepsEntering(c: Client, c': Client)
    requires EnteringInv(c) && SameServer(c, c') && c'.trade == c.trade && c'.traded == c.traded
    requires Refreshable(c').None? || Refreshable(c') == Refreshable(c)
    ensures EnteringInv(c')
  {
    SameChains(c, c');
  }

  /** A trade starts from the stored token. */
  lemma StartKeepsRun(c: Client, c': Client)
    requires RunInv(c) && SameServer(c, c') && c.trade.None? && c'.store == c.store && Refreshable(c).Some?
    requires c'.traded == c.traded + [Refreshable(c).value] && c'.outcomes == c.outcomes && !c'.turn.Saving?
    requires c'.trade == Some(Queued(|c.traded|, Refreshable(c).value))
    ensures RunInv(c')
  {
  }

  lemma AskKeepsRun(c: Client, c': Client)
    requires RunInv(c) && c.turn.Idle? && Asks(c, c')
    ensures RunInv(c')
  {
    if c'.trade == c.trade {
      StoreLessKeepsRun(c, c');
    } else {
      StartKeepsRun(c, c');
    }
  }

  /** The trade ends: the store is as it was, emptied, or holds what the trade
      was handed. */
  lemma FinishKeepsRun(c: Client, c': Client)
    requires RunInv(c) && SameServer(c, c') && c.trade.Some? && c'.trade.None? && c'.traded == c.traded && !c'.turn.Saving?
    requires c'.outcomes.Keys == c.outcomes.Keys + {c.trade.value.id}
    requires Refreshable(c').None? || Refreshable(c') == Refreshable(c) || Refreshable(c') == Heir(c)
    ensures RunInv(c')
  {
  }

  lemma SavingKeepsRun(c: Client, heir: Token)
    requires RunInv(c) && c.trade.Some? && c.trade.value.Out? && c.trade.value.pid in c.srv.procs
    requires c.srv.procs[c.trade.value.pid].Replied? && Heir(c) == Some(heir)
    ensures RunInv(c.(turn := Saving(heir)))
  {
    TurnKeepsSent(c, c.(turn := Saving(heir)));
    TurnKeepsEntering(c, c.(turn := Saving(heir)));
  }

  lemma HearKeepsRun(c: Client, read: bool, cleared: bool)
    requires RunInv(c) && Possible(c, Deliver(read, cleared))
    ensures RunInv(Happen(c, Deliver(read, cleared)))
  {
    var c' := Happen(c, Deliver(read, cleared));
    var reply := c.srv.procs[c.trade.value.pid].reply;
    HearChanges(c, reply, read, cleared);
    if c'.trade.None? {
      FinishKeepsRun(c, c');
    } else {
      SavingKeepsRun(c, reply.token);
    }
  }

  lemma SaveKeepsRun(c: Client, written: bool, cleared: bool)
    requires RunInv(c) && Possible(c, Save(written, cleared))
    ensures RunInv(Happen(c, Save(written, cleared)))
  {
    SaveChanges(c, written, cleared);
    FinishKeepsRun(c, Happen(c, Save(written, cleared)));
  }

  lemma SaveChanges(c: Client, written: bool, cleared: bool)
    requires Possible(c, Save(written, cleared))
    ensures var c' := Happen(c, Save(written, cleared));
            && SameServer(c, c') && c'.trade.None? && c'.traded == c.traded && c'.turn.Idle?
            && c'.outcomes.Keys == c.outcomes.Keys + {c.trade.value.id}
            && (Refreshable(c').None? || Refreshable(c') == Refreshable(c) || Refreshable(c') == Some(c.turn.heir))
  {
  }

  lemma WakeKeepsRun(c: Client, id: nat, read: bool)
    requires RunInv(c) && Possible(c, Resume(id, read))
    ensures RunInv(Happen(c, Resume(id, read)))
  {
    StoreLessKeepsRun(c, Happen(c, Resume(id, read)));
  }

  /** A token just stored has not been in the store before. */
  lemma StoreKeepsRun(c: Client, tok: Token)
    requires RunInv(c) && Possible(c, Store(tok))
    ensures RunInv(Happen(c, Store(tok)))
  {
  }

  lemma EventKeepsRun(c: Client, e: Event)
    requires RunInv(c) && Possible(c, e)
    ensures RunInv(Happen(c, e))
  {
    match e
    case Server(a) => ServerKeepsRun(c, a);
    case SignIn(user) => SignInKeepsRun(c, user);
    case Store(tok) => StoreKeepsRun(c, tok);
    case Send(pid) => SendKeepsRun(c, pid);
    case AfterUnauthorized(id, failed, read) =>
      UnauthorizedAsks(c, id, failed, read);
      AskKeepsRun(c, Unauthorized(c, id, failed, read));
    case BeforeExpiry(id, observed, due, read) =>
      EarlyAsks(c, id, observed, due, read);
      AskKeepsRun(c, Early(c, id, observed, due, read));
    case Unsent => FinishKeepsRun(c, Happen(c, e));
    case Abandon => FinishKeepsRun(c, Happen(c, e));
    case Deliver(read, cleared) => HearKeepsRun(c, read, cleared);
    case Save(written, cleared) => SaveKeepsRun(c, written, cleared);
    case SignOut => StoreLessKeepsRun(c, Happen(c, e));
    case Resume(id, read) => WakeKeepsRun(c, id, read);
    case Drop(_) => StoreLessKeepsRun(c, Happen(c, e));
  }

  // ---- Runs ----------------------------------------------------------------

  /** A run from the start, whatever goes wrong: events[k] leads from states[k] to
      the next. */
  ghost predicate Trace(states: seq<Client>, events: seq<Event>) {
    |states| == |events| + 1 && Begins(states[0]) && forall k | 0 <= k < |events| :: StepAt(states, events, k)
  }

  ghost predicate StepAt(states: seq<Client>, events: seq<Event>, k: nat)
    requires |states| == |events| + 1 && k < |events|
  {
    Possible(states[k], events[k]) && states[k + 1] == Happen(states[k], events[k])
  }

  lemma BeginsRun(c: Client)
    requires Begins(c)
    ensures RunInv(c)
  {
    InitInv(c.srv);
  }

  lemma {:induction false} RunInvAt(states: seq<Client>, events: seq<Event>, n: nat)
    requires Trace(states, events) && n <= |events|
    ensures RunInv(states[n])
    decreases n
  {
    if n == 0 {
      BeginsRun(states[0]);
    } else {
      RunInvAt(states, events, n - 1);
      assert StepAt(states, events, n - 1);
      EventKeepsRun(states[n - 1], events[n - 1]);
    }
  }
}
