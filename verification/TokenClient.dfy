/** The app's half of refresh tokens (TokenRefresher.swift): one trade of the
    stored refresh token at a time, composed with the server of RefreshTokens.
    The refresher is an actor: its turns do not overlap, but between any two of
    them, and between reading and writing the token store within one, sign-ins,
    sign-outs and the server go on. */
module TokenClient {
  import opened Prelude
  import opened RefreshTokens
  import opened TokenLineage

  /** What the token store holds. An access token goes by the number of the
      refresh token it was handed out with. */
  datatype Stored = Stored(access: Token, refresh: Option<Token>)

  datatype Outcome = Retry(access: Token) | Denied | Unreachable

  /** The `inFlight` task, numbered: not yet run, or with its request sent. */
  datatype Trade = Queued(id: nat, tok: Token) | Out(id: nat, tok: Token, pid: Pid)

  /** A turn that has read the store and is to write it: `save` the pair handed
      back for the trade's token, or drop the refresh token from what it read. */
  datatype Turn = Idle | Saving(heir: Token) | Dropping(current: Stored)

  /** A request of the app: waiting for a trade, to drop `drops` if the trade is
      refused, or done. One that refreshes early goes out with the token it
      observed when the trade does not succeed, and drops nothing. */
  datatype Request = Waiting(trade: nat, drops: Option<Token>, observed: Option<Token>) | Done(outcome: Outcome)

  /** traded lists the tokens the trades were started for, in order, and sent the
      one each request of the app presents. arriving holds the tokens of sign-ins
      the server has answered and the app has yet to store; logins those of all
      its sign-ins. */
  datatype Client = Client(
    srv: State, store: Option<Stored>, trade: Option<Trade>, traded: seq<Token>, sent: map<Pid, Token>,
    outcomes: map<nat, Outcome>, turn: Turn, requests: map<nat, Request>, arriving: set<Token>, logins: set<Token>)

  /** `read`, `written` and `cleared` say whether the token store complied. */
  datatype Event =
    | Server(a: Action)
    | SignIn(user: User)
    | Store(tok: Token)
    | SignOut
    | AfterUnauthorized(id: nat, failed: Token, read: bool)
    | BeforeExpiry(id: nat, observed: Token, due: bool, read: bool)
    | Send(pid: Pid)
    | Unsent
    | Abandon
    | Deliver(read: bool, cleared: bool)
    | Save(written: bool, cleared: bool)
    | Resume(id: nat, read: bool)
    | Drop(written: bool)

  // ---- Turns ---------------------------------------------------------------

  function Refreshable(c: Client): Option<Token> {
    if c.store.Some? then c.store.value.refresh else None
  }

  /** Whose chain of tokens t is in. */
  ghost predicate Ours(c: Client, t: Token) {
    Root(c.srv.parent, t) in c.logins
  }

  ghost predicate Possible(c: Client, e: Event) {
    match e
    // Others present tokens they were handed, never this client's.
    case Server(b) => Enabled(c.srv, b) && (b.Present? ==> b.tok in c.srv.seen && !Ours(c, b.tok))
    case SignIn(user) => Enabled(c.srv, Login(user))
    case Store(tok) => tok in c.arriving
    case SignOut => true
    case AfterUnauthorized(id, _, _) => c.turn.Idle? && id !in c.requests
    case BeforeExpiry(id, _, _, _) => c.turn.Idle? && id !in c.requests
    case Send(pid) => c.turn.Idle? && c.trade.Some? && c.trade.value.Queued? && Enabled(c.srv, Present(pid, c.trade.value.tok))
    case Unsent => c.turn.Idle? && c.trade.Some? && c.trade.value.Queued?
    case Abandon => c.turn.Idle? && c.trade.Some? && c.trade.value.Out?
    case Deliver(_, _) =>
      && c.turn.Idle? && c.trade.Some? && c.trade.value.Out?
      && c.trade.value.pid in c.srv.procs && c.srv.procs[c.trade.value.pid].Replied?
    case Save(_, _) => c.turn.Saving? && c.trade.Some?
    case Resume(id, _) =>
      c.turn.Idle? && id in c.requests && c.requests[id].Waiting? && c.requests[id].trade in c.outcomes
    case Drop(_) => c.turn.Dropping?
  }

  function Finish(c: Client, outcome: Outcome): Client
    requires c.trade.Some?
  {
    c.(trade := None, outcomes := c.outcomes[c.trade.value.id := outcome])
  }

  function Start(c: Client, tok: Token): Client {
    c.(trade := Some(Queued(|c.traded|, tok)), traded := c.traded + [tok])
  }

  function Await(c: Client, id: nat, drops: Option<Token>, observed: Option<Token>): Client
    requires c.trade.Some?
  {
    c.(requests := c.requests[id := Waiting(c.trade.value.id, drops, observed)])
  }

  function Answer(c: Client, id: nat, outcome: Outcome): Client {
    c.(requests := c.requests[id := Done(outcome)])
  }

  function Unauthorized(c: Client, id: nat, failed: Token, read: bool): Client {
    if !read then Answer(c, id, Unreachable)
    else if c.store.None? then Answer(c, id, Denied)
    else if c.store.value.access != failed then Answer(c, id, Retry(c.store.value.access))
    else if c.trade.Some? then Await(c, id, c.store.value.refresh, None)
    else if c.store.value.refresh.None? then Answer(c, id, Denied)
    else Await(Start(c, c.store.value.refresh.value), id, c.store.value.refresh, None)
  }

  /** Going out with the observed token is a Retry with it here. */
  function Early(c: Client, id: nat, observed: Token, due: bool, read: bool): Client {
    if !read || c.store.None? then Answer(c, id, Retry(observed))
    else if c.store.value.access != observed then Answer(c, id, Retry(c.store.value.access))
    else if c.trade.Some? then Await(c, id, None, Some(observed))
    else if !due || c.store.value.refresh.None? then Answer(c, id, Retry(observed))
    else Await(Start(c, c.store.value.refresh.value), id, None, Some(observed))
  }

  /** The trade hears back, and reads the store to save what it was handed. */
  function Hear(c: Client, reply: Reply, read: bool, cleared: bool): Client
    requires c.trade.Some?
  {
    match reply
    case Issued(heir) =>
      if !read then Finish(if cleared then c.(store := None) else c, Retry(heir))
      else if Refreshable(c) != Some(c.trade.value.tok) then Finish(c, Retry(heir))
      else c.(turn := Saving(heir))
    case Refused(_) => Finish(c, Denied)
    case Failed => Finish(c, Unreachable)
  }

  /** A waiting request learns how the trade went. */
  function Wake(c: Client, id: nat, read: bool): Client
    requires id in c.requests && c.requests[id].Waiting? && c.requests[id].trade in c.outcomes
  {
    var w := c.requests[id];
    var outcome := c.outcomes[w.trade];
    var told := Answer(c, id, if w.observed.Some? && !outcome.Retry? then Retry(w.observed.value) else outcome);
    if outcome.Denied? && w.drops.Some? && read && Refreshable(c) == w.drops
    then told.(turn := Dropping(c.store.value)) else told
  }

  function Happen(c: Client, e: Event): Client
    requires Possible(c, e)
  {
    match e
    case Server(b) => c.(srv := Do(c.srv, b))
    case SignIn(user) =>
      c.(srv := Do(c.srv, Login(user)), arriving := c.arriving + {c.srv.next}, logins := c.logins + {c.srv.next})
    case Store(tok) => c.(store := Some(Stored(tok, Some(tok))), arriving := c.arriving - {tok})
    case SignOut => c.(store := None)
    case AfterUnauthorized(id, failed, read) => Unauthorized(c, id, failed, read)
    case BeforeExpiry(id, observed, due, read) => Early(c, id, observed, due, read)
    case Send(pid) =>
      c.(srv := Do(c.srv, Present(pid, c.trade.value.tok)), trade := Some(Out(c.trade.value.id, c.trade.value.tok, pid)),
         sent := c.sent[pid := c.trade.value.tok])
    case Unsent => Finish(c, Unreachable)
    case Abandon => Finish(c, Unreachable)
    case Deliver(read, cleared) => Hear(c, c.srv.procs[c.trade.value.pid].reply, read, cleared)
    case Save(written, cleared) =>
      var heir := c.turn.heir;
      var c' := if written then c.(store := Some(Stored(heir, Some(heir)))) else if cleared then c.(store := None) else c;
      Finish(c'.(turn := Idle), Retry(heir))
    case Resume(id, read) => Wake(c, id, read)
    case Drop(written) =>
      c.(store := if written then Some(c.turn.current.(refresh := None)) else c.store, turn := Idle)
  }

  ghost predicate Begins(c: Client) {
    && Init(c.srv) && c.store.None? && c.trade.None? && c.turn.Idle?
    && c.traded == [] && c.sent == map[] && c.outcomes == map[] && c.requests == map[] && c.arriving == {} && c.logins == {}
  }

  // ---- What holds while replies are delivered ------------------------------

  /** A token of this client that nobody has exchanged. */
  ghost predicate Unspent(c: Client, t: Token) {
    t in c.srv.seen && Ours(c, t) && !HasChild(c.srv, t)
  }

  /** The steps of a refresh before its rotation commits. */
  predicate CanSpend(pc: Pc) {
    pc.Reading? || pc.Checking? || pc.FindingUser? || pc.Rotating? || pc.Locked? || pc.Marked? || pc.Inserted?
  }

  /** How the client's request stands with the token it presented: unspent
      until exchanged for one that is. */
  ghost predicate OnTrack(c: Client, tok: Token, pc: Pc) {
    match pc
    case Rotated(t, heir) => t == tok && Unspent(c, heir)
    case Replied(t, Issued(heir)) => t == tok && Unspent(c, heir)
    case Replied(t, _) => t == tok && Unspent(c, tok)
    case Revoking(_, cause) => cause == AfterReuse(tok) && Unspent(c, tok)
    case RevokeLocked(_, cause) => cause == AfterReuse(tok) && Unspent(c, tok)
    case RevokeDeleted(_, cause, _) => cause == AfterReuse(tok) && Unspent(c, tok)
    case Revoked(_, _, _) => false
    case RevokeFailed(_, _) => false
    case _ => pc.tok == tok && Unspent(c, tok)
  }

  ghost predicate LoginsInv(c: Client) {
    forall t | t in c.logins :: t in c.srv.seen && t !in c.srv.parent
  }

  ghost predicate Sent(c: Client, p: Pid) {
    c.trade.Some? && c.trade.value.Out? && c.trade.value.pid == p
  }

  /** Whoever else may spend a token spends one that is not the client's. */
  ghost predicate OthersInv(c: Client) {
    forall p | p in c.srv.procs && CanSpend(c.srv.procs[p]) && !Sent(c, p) ::
      c.srv.procs[p].tok in c.srv.seen && !Ours(c, c.srv.procs[p].tok)
  }

  ghost predicate TradeInv(c: Client) {
    match c.trade
    case None => !c.turn.Saving?
    case Some(Queued(_, tok)) => Unspent(c, tok) && tok !in c.arriving && !c.turn.Saving?
    case Some(Out(_, tok, pid)) =>
      && tok in c.srv.seen && Ours(c, tok) && tok !in c.arriving
      && pid in c.srv.procs && OnTrack(c, tok, c.srv.procs[pid])
      && (c.turn.Saving? ==> c.srv.procs[pid] == Replied(tok, Issued(c.turn.heir)))
  }

  /** Every token the client may yet present is unspent, but for one: the stored
      one while its own trade is out. */
  ghost predicate StoreInv(c: Client) {
    && (forall t | t in c.arriving :: t in c.logins && Unspent(c, t))
    && (Refreshable(c).Some? ==>
          && Refreshable(c).value !in c.arriving
          && Refreshable(c).value in c.srv.seen && Ours(c, Refreshable(c).value)
          && ((c.trade.Some? && c.trade.value.Out? && c.trade.value.tok == Refreshable(c).value)
              || Unspent(c, Refreshable(c).value)))
  }

  ghost predicate ClientInv(c: Client) {
    Inv(c.srv) && LoginsInv(c) && OthersInv(c) && TradeInv(c) && StoreInv(c)
  }

  /** A refresh the server has processed is answered and its answer arrives, and
      the store can at least be cleared: no commit reported as an error, no
      failure after one, no reply given up on. */
  ghost predicate Faithful(c: Client, e: Event) {
    match e
    case Server(Advance(p, luck)) => Sent(c, p) && p in c.srv.procs ==>
        !(c.srv.procs[p].Inserted? && luck == CommitLost) && !(c.srv.procs[p].Rotated? && luck == Error)
    case Abandon => false
    case Deliver(read, cleared) => read || cleared
    case Save(written, cleared) => written || cleared
    case _ => true
  }

  // ---- What a server step does to the chains of tokens ---------------------

  /** The step commits a rotation. */
  predicate Commits(s: State, a: Action) {
    a.Advance? && a.luck != Error && a.pid in s.procs && s.procs[a.pid].Inserted?
  }

  /** The step exchanges t. */
  predicate Spends(s: State, a: Action, t: Token) {
    Commits(s, a) && s.procs[a.pid].tok == t
  }

  lemma StepParents(s: State, a: Action)
    requires Inv(s) && Enabled(s, a)
    ensures s.seen <= Do(s, a).seen
    ensures Commits(s, a) ==>
      var Inserted(tok, user, _, heir) := s.procs[a.pid];
      Do(s, a).parent == s.parent[heir := tok] && heir in Do(s, a).seen && Unborn(s, heir, user)
    ensures !Commits(s, a) ==> Do(s, a).parent == s.parent
  {
    if a.Advance? {
      assert PcInv(s, s.procs[a.pid]);
    }
  }

  lemma StepChildren(s: State, a: Action, t: Token)
    requires Inv(s) && Enabled(s, a) && !Spends(s, a, t) && !HasChild(s, t)
    ensures !HasChild(Do(s, a), t)
  {
    StepParents(s, a);
  }

  lemma StepRoots(s: State, a: Action, t: Token)
    requires Inv(s) && Enabled(s, a) && t in s.seen
    ensures Root(Do(s, a).parent, t) == Root(s.parent, t)
  {
    StepParents(s, a);
    if Commits(s, a) {
      LeafChangesNoAncestor(s.parent, s.procs[a.pid].heir, s.procs[a.pid].tok, t, 0);
    }
  }

  lemma {:induction false} RootIsEarlier(parent: map<Token, Token>, t: Token)
    ensures Root(parent, t) <= t
    decreases t
  {
    if t in parent && parent[t] < t {
      RootIsEarlier(parent, parent[t]);
    }
  }

  // ---- Server steps --------------------------------------------------------

  ghost predicate ServerStep(c: Client, a: Action, c': Client) {
    Enabled(c.srv, a) && c'.srv == Do(c.srv, a) && c.logins <= c'.logins && c'.logins <= c.logins + {c.srv.next}
  }

  lemma UnspentStays(c: Client, a: Action, c': Client, t: Token)
    requires Inv(c.srv) && ServerStep(c, a, c') && Unspent(c, t) && !Spends(c.srv, a, t)
    ensures Unspent(c', t)
  {
    StepParents(c.srv, a);
    StepChildren(c.srv, a, t);
    StepRoots(c.srv, a, t);
  }

  lemma OwnershipStays(c: Client, a: Action, c': Client, t: Token)
    requires Inv(c.srv) && ServerStep(c, a, c') && t in c.srv.seen
    ensures t in c'.srv.seen && Ours(c', t) == Ours(c, t)
  {
    StepParents(c.srv, a);
    StepRoots(c.srv, a, t);
    RootIsEarlier(c.srv.parent, t);
  }

  /** Nobody else spends a token of the client. */
  lemma OthersSpendTheirOwn(c: Client, a: Action, t: Token)
    requires Inv(c.srv) && OthersInv(c) && Enabled(c.srv, a) && Spends(c.srv, a, t) && !Sent(c, a.pid)
    ensures !Ours(c, t)
  {
  }

  /** The client's token is exchanged for one that is its own and unspent. */
  lemma HeirIsUnspent(c: Client, a: Action, c': Client, tok: Token)
    requires Inv(c.srv) && ServerStep(c, a, c') && Spends(c.srv, a, tok) && Ours(c, tok) && tok in c.srv.seen
    ensures Unspent(c', c.srv.procs[a.pid].heir)
  {
    var heir := c.srv.procs[a.pid].heir;
    assert PcInv(c.srv, c.srv.procs[a.pid]);
    StepParents(c.srv, a);
    LeafInherits(c.srv.parent, heir, tok, 0);
    StepChildren(c.srv, a, heir);
  }

  lemma UnspentStaysOurs(c: Client, a: Action, c': Client, t: Token)
    requires ClientInv(c) && ServerStep(c, a, c') && Unspent(c, t)
    requires Spends(c.srv, a, t) ==> !Sent(c, a.pid)
    ensures Unspent(c', t)
  {
    if Spends(c.srv, a, t) {
      OthersSpendTheirOwn(c, a, t);
    }
    UnspentStays(c, a, c', t);
  }

  lemma ServerKeepsLogins(c: Client, a: Action, c': Client)
    requires ClientInv(c) && ServerStep(c, a, c') && c'.logins == c.logins
    ensures LoginsInv(c')
  {
    StepParents(c.srv, a);
  }

  lemma ServerKeepsOthers(c: Client, a: Action, c': Client)
    requires ClientInv(c) && ServerStep(c, a, c') && c'.trade == c.trade
    requires a.Present? ==> a.tok in c.srv.seen && !Ours(c, a.tok)
    ensures OthersInv(c')
  {
    forall p | p in c'.srv.procs && CanSpend(c'.srv.procs[p]) && !Sent(c', p)
      ensures c'.srv.procs[p].tok in c'.srv.seen && !Ours(c', c'.srv.procs[p].tok)
    {
      WasAlreadySpending(c.srv, a, p);
      OwnershipStays(c, a, c', c'.srv.procs[p].tok);
    }
  }

  lemma WasAlreadySpending(s: State, a: Action, p: Pid)
    requires Enabled(s, a) && p in Do(s, a).procs && CanSpend(Do(s, a).procs[p])
    ensures (a.Present? && a.pid == p && a.tok == Do(s, a).procs[p].tok)
         || (p in s.procs && CanSpend(s.procs[p]) && s.procs[p].tok == Do(s, a).procs[p].tok)
  {
    if a.Advance? {
      AdvanceStillSpends(s, a.pid, a.luck, p);
    }
  }

  lemma SpendingComesFirst(s: State, pc: Pc, pc': Pc)
    requires pc' == Failure(pc) || pc' == Next(s, pc, false) || pc' == Next(s, pc, true)
    requires CanSpend(pc')
    ensures CanSpend(pc) && pc.tok == pc'.tok
  {
  }

  lemma AdvanceStillSpends(s: State, pid: Pid, luck: Luck, p: Pid)
    requires Enabled(s, Advance(pid, luck))
    requires p in Do(s, Advance(pid, luck)).procs && CanSpend(Do(s, Advance(pid, luck)).procs[p])
    ensures p in s.procs && CanSpend(s.procs[p]) && s.procs[p].tok == Do(s, Advance(pid, luck)).procs[p].tok
  {
    if p != pid {
      ForwardMovesOne(s, pid, luck == CommitLost);
    } else {
      AdvanceLeadsTo(s, pid, luck);
      SpendingComesFirst(s, s.procs[pid], Do(s, Advance(pid, luck)).procs[pid]);
    }
  }

  lemma AdvanceLeadsTo(s: State, pid: Pid, luck: Luck)
    requires Enabled(s, Advance(pid, luck))
    ensures Do(s, Advance(pid, luck)).procs[pid] ==
            if luck == Error then Failure(s.procs[pid]) else Next(s, s.procs[pid], luck == CommitLost)
  {
  }

  // ---- The client's own request --------------------------------------------

  /** The request's own steps, short of a commit, on tokens already shown to
      be unspent after it. */
  lemma StaysOnTrack(c: Client, s: State, tok: Token, pc: Pc, pc': Pc)
    requires OnTrack(c, tok, pc) && !pc.Replied?
    requires (pc' == Failure(pc) && !pc.Rotated?) || (pc' == Next(s, pc, false) && !pc.Inserted?)
          || (pc' == Next(s, pc, true) && pc.RevokeDeleted?)
    ensures OnTrack(c, tok, pc')
  {
  }

  lemma TrackCarries(c: Client, a: Action, c': Client, tok: Token, pc: Pc)
    requires ClientInv(c) && ServerStep(c, a, c') && OnTrack(c, tok, pc)
    requires Commits(c.srv, a) ==> !Sent(c, a.pid)
    ensures OnTrack(c', tok, pc)
  {
    if pc.Rotated? {
      UnspentStaysOurs(c, a, c', pc.heir);
    } else if pc.Replied? && pc.reply.Issued? {
      UnspentStaysOurs(c, a, c', pc.reply.token);
    } else {
      UnspentStaysOurs(c, a, c', tok);
    }
  }

  lemma ServerKeepsSent(c: Client, a: Action, c': Client)
    requires ClientInv(c) && ServerStep(c, a, c') && Faithful(c, Server(a))
    requires c.trade.Some? && c.trade.value.Out?
    ensures c.trade.value.pid in c'.srv.procs && OnTrack(c', c.trade.value.tok, c'.srv.procs[c.trade.value.pid])
  {
    var Out(_, tok, pid) := c.trade.value;
    var pc := c.srv.procs[pid];
    if !a.Advance? || a.pid != pid {
      OthersStay(c.srv, a, pid);
      TrackCarries(c, a, c', tok, pc);
    } else {
      AdvanceLeadsTo(c.srv, pid, a.luck);
      if Commits(c.srv, a) {
        HeirIsUnspent(c, a, c', tok);
      } else {
        TrackCarries(c, a, c', tok, pc);
        StaysOnTrack(c', c.srv, tok, pc, c'.srv.procs[pid]);
      }
    }
  }

  /** A server step and what else happens at once: nothing, or the answer to a
      sign-in. */
  lemma ServerKeepsClient(c: Client, a: Action, c': Client)
    requires ClientInv(c) && Possible(c, Server(a)) && Faithful(c, Server(a)) && c' == Happen(c, Server(a))
    ensures ClientInv(c')
  {
    StepKeepsInv(c.srv, a);
    ServerKeepsLogins(c, a, c');
    ServerKeepsOthers(c, a, c');
    ServerKeepsTrade(c, a, c');
    ServerKeepsStore(c, a, c');
  }

  lemma ServerKeepsTrade(c: Client, a: Action, c': Client)
    requires ClientInv(c) && ServerStep(c, a, c') && Faithful(c, Server(a))
    requires c'.trade == c.trade && c'.turn == c.turn && c'.arriving <= c.arriving + {c.srv.next}
    ensures TradeInv(c')
  {
    match c.trade
    case None =>
    case Some(Queued(_, tok)) =>
      UnspentStaysOurs(c, a, c', tok);
    case Some(Out(_, tok, pid)) =>
      OwnershipStays(c, a, c', tok);
      ServerKeepsSent(c, a, c');
      if c.turn.Saving? {
        RepliedStays(c.srv, a, pid);
      }
  }

  lemma RepliedStays(s: State, a: Action, pid: Pid)
    requires Enabled(s, a) && pid in s.procs && s.procs[pid].Replied?
    ensures Do(s, a).procs[pid] == s.procs[pid]
  {
    OthersStay(s, a, pid);
  }

  lemma ServerKeepsStore(c: Client, a: Action, c': Client)
    requires ClientInv(c) && ServerStep(c, a, c')
    requires c'.trade == c.trade && c'.store == c.store && c'.arriving == c.arriving
    ensures StoreInv(c')
  {
    forall t | t in c'.arriving ensures t in c'.logins && Unspent(c', t) {
      UnspentStaysOurs(c, a, c', t);
    }
    if Refreshable(c).Some? {
      var r := Refreshable(c).value;
      OwnershipStays(c, a, c', r);
      if !(c.trade.Some? && c.trade.value.Out? && c.trade.value.tok == r) {
        UnspentStaysOurs(c, a, c', r);
      }
    }
  }

  // ---- The client's turns --------------------------------------------------

  lemma SignInKeepsStore(c: Client, user: User)
    requires ClientInv(c) && Possible(c, SignIn(user))
    ensures StoreInv(Happen(c, SignIn(user)))
  {
    var c' := Happen(c, SignIn(user));
    var m := c'.(arriving := c.arriving);
    ServerKeepsStore(c, Login(user), m);
    SameServer(m, c');
    assert !HasChild(c'.srv, c.srv.next);
  }

  /** A new sign-in's token is unspent, and nobody's but the client's. */
  lemma SignInKeepsClient(c: Client, user: User)
    requires ClientInv(c) && Possible(c, SignIn(user))
    ensures ClientInv(Happen(c, SignIn(user)))
  {
    StepKeepsInv(c.srv, Login(user));
    SignInKeepsOthers(c, user);
    SignInKeepsStore(c, user);
  }

  lemma SignInKeepsOthers(c: Client, user: User)
    requires ClientInv(c) && Possible(c, SignIn(user))
    ensures var c' := Happen(c, SignIn(user)); LoginsInv(c') && OthersInv(c') && TradeInv(c')
  {
    var c' := Happen(c, SignIn(user));
    StepParents(c.srv, Login(user));
    ServerKeepsOthers(c, Login(user), c');
    ServerKeepsTrade(c, Login(user), c');
  }

  lemma SameServer(c: Client, c': Client)
    requires c'.srv == c.srv && c'.logins == c.logins
    ensures forall t :: Unspent(c', t) == Unspent(c, t) && Ours(c', t) == Ours(c, t)
    ensures forall tok, pc :: OnTrack(c', tok, pc) == OnTrack(c, tok, pc)
  {
  }

  /** Whatever leaves the trade alone and stores no new refresh token. */
  lemma StoreLessKeepsClient(c: Client, c': Client)
    requires ClientInv(c) && c'.srv == c.srv && c'.logins == c.logins && c'.arriving == c.arriving
    requires c'.trade == c.trade && (c'.turn == c.turn || (!c.turn.Saving? && !c'.turn.Saving?))
    requires Refreshable(c').None? || Refreshable(c') == Refreshable(c)
    ensures ClientInv(c')
  {
    SameServer(c, c');
  }

  /** The trade's turn is over, and the stored token not the one it spent. */
  lemma FinishKeepsClient(c: Client, c': Client)
    requires ClientInv(c) && c'.srv == c.srv && c'.logins == c.logins && c'.arriving == c.arriving
    requires c.trade.Some? && c'.trade.None? && !c'.turn.Saving?
    requires c.trade.value.Out? ==> !CanSpend(c.srv.procs[c.trade.value.pid])
    requires Refreshable(c').Some? ==>
               Refreshable(c').value !in c.arriving && Unspent(c, Refreshable(c').value)
    ensures ClientInv(c')
  {
    SameServer(c, c');
  }

  /** A trade starts from the stored token. */
  lemma StartKeepsClient(c: Client, c': Client)
    requires ClientInv(c) && c'.srv == c.srv && c'.logins == c.logins && c'.arriving == c.arriving
    requires c.trade.None? && !c'.turn.Saving? && c'.store == c.store && Refreshable(c).Some?
    requires c'.trade == Some(Queued(|c.traded|, Refreshable(c).value))
    ensures ClientInv(c')
  {
    SameServer(c, c');
  }

  lemma StoreKeepsClient(c: Client, tok: Token)
    requires ClientInv(c) && Possible(c, Store(tok))
    ensures ClientInv(Happen(c, Store(tok)))
  {
    SameServer(c, Happen(c, Store(tok)));
  }

  lemma PresentMintsNone(s: State, pid: Pid, tok: Token)
    requires Enabled(s, Present(pid, tok))
    ensures var s' := Do(s, Present(pid, tok));
            s'.parent == s.parent && s'.seen == s.seen && s'.procs == s.procs[pid := Reading(tok)] && pid !in s.procs
  {
  }

  lemma SameChains(c: Client, c': Client)
    requires c'.srv.parent == c.srv.parent && c'.srv.seen == c.srv.seen && c'.logins == c.logins
    ensures forall t :: Unspent(c', t) == Unspent(c, t) && Ours(c', t) == Ours(c, t)
  {
    assert forall t :: HasChild(c'.srv, t) == HasChild(c.srv, t);
  }

  lemma SendKeepsStore(c: Client, c': Client, pid: Pid)
    requires StoreInv(c) && c.trade.Some? && c.trade.value.Queued? && c'.store == c.store && c'.arriving == c.arriving
    requires c'.srv.parent == c.srv.parent && c'.srv.seen == c.srv.seen && c'.logins == c.logins
    ensures StoreInv(c')
  {
    SameChains(c, c');
  }

  lemma SendKeepsClient(c: Client, pid: Pid)
    requires ClientInv(c) && Possible(c, Send(pid))
    ensures ClientInv(Happen(c, Send(pid)))
  {
    var c' := Happen(c, Send(pid));
    StepKeepsInv(c.srv, Present(pid, c.trade.value.tok));
    PresentMintsNone(c.srv, pid, c.trade.value.tok);
    SameChains(c, c');
    SendKeepsStore(c, c', pid);
  }

  /** A request that asks leaves the trade alone, or starts one with the stored
      token. */
  ghost predicate Asks(c: Client, c': Client) {
    && c'.srv == c.srv && c'.logins == c.logins && c'.arriving == c.arriving && c'.store == c.store && c'.turn == c.turn
    && c'.sent == c.sent && c'.outcomes == c.outcomes
    && ((c'.trade == c.trade && c'.traded == c.traded)
        || (c.trade.None? && Refreshable(c).Some? && c'.trade == Some(Queued(|c.traded|, Refreshable(c).value))
            && c'.traded == c.traded + [Refreshable(c).value]))
  }

  lemma UnauthorizedAsks(c: Client, id: nat, failed: Token, read: bool)
    ensures Asks(c, Unauthorized(c, id, failed, read))
  {
  }

  lemma EarlyAsks(c: Client, id: nat, observed: Token, due: bool, read: bool)
    ensures Asks(c, Early(c, id, observed, due, read))
  {
  }

  lemma AskKeepsClient(c: Client, c': Client)
    requires ClientInv(c) && c.turn.Idle? && Asks(c, c')
    ensures ClientInv(c')
  {
    if c'.trade == c.trade {
      StoreLessKeepsClient(c, c');
    } else {
      StartKeepsClient(c, c');
    }
  }

  lemma SavingKeepsClient(c: Client, heir: Token)
    requires ClientInv(c) && c.turn.Idle? && c.trade.Some? && c.trade.value.Out?
    requires c.srv.procs[c.trade.value.pid] == Replied(c.trade.value.tok, Issued(heir))
    ensures ClientInv(c.(turn := Saving(heir)))
  {
    SameServer(c, c.(turn := Saving(heir)));
  }

  /** However the reply reads, the stored token is not the trade's spent one. */
  lemma HearLeavesUnspent(c: Client, reply: Reply, read: bool, cleared: bool)
    requires TradeInv(c) && StoreInv(c) && c.trade.Some? && c.trade.value.Out? && (read || cleared)
    requires c.srv.procs[c.trade.value.pid] == Replied(c.trade.value.tok, reply)
    ensures var c' := Hear(c, reply, read, cleared);
            c'.trade.None? && Refreshable(c').Some? ==>
              Refreshable(c').value !in c.arriving && Unspent(c, Refreshable(c').value)
  {
  }

  lemma HearChanges(c: Client, reply: Reply, read: bool, cleared: bool)
    requires c.trade.Some?
    ensures var c' := Hear(c, reply, read, cleared);
            || (reply.Issued? && c' == c.(turn := Saving(reply.token)))
            || (c'.srv == c.srv && c'.logins == c.logins && c'.arriving == c.arriving && c'.sent == c.sent
                && c'.trade.None? && c'.traded == c.traded && c'.turn == c.turn
                && c'.outcomes.Keys == c.outcomes.Keys + {c.trade.value.id} && (c'.store.None? || c'.store == c.store))
  {
  }

  lemma DeliverKeepsClient(c: Client, read: bool, cleared: bool)
    requires ClientInv(c) && Possible(c, Deliver(read, cleared)) && (read || cleared)
    ensures ClientInv(Happen(c, Deliver(read, cleared)))
  {
    var pc := c.srv.procs[c.trade.value.pid];
    assert OnTrack(c, c.trade.value.tok, pc);
    var c' := Hear(c, pc.reply, read, cleared);
    assert c' == Happen(c, Deliver(read, cleared));
    HearChanges(c, pc.reply, read, cleared);
    if c'.trade.None? {
      HearLeavesUnspent(c, pc.reply, read, cleared);
      FinishKeepsClient(c, c');
    } else {
      SavingKeepsClient(c, pc.reply.token);
    }
  }

  /** What is saved came with the reply, and is unspent; what it replaces is
      spent, and the app has no other copy. */
  lemma SaveKeepsClient(c: Client, written: bool, cleared: bool)
    requires ClientInv(c) && Possible(c, Save(written, cleared)) && (written || cleared)
    ensures ClientInv(Happen(c, Save(written, cleared)))
  {
    var heir := c.turn.heir;
    assert PcInv(c.srv, c.srv.procs[c.trade.value.pid]);
    assert heir in c.srv.parent && heir !in c.arriving;
    FinishKeepsClient(c, Happen(c, Save(written, cleared)));
  }

  lemma EventKeepsClient(c: Client, e: Event)
    requires ClientInv(c) && Possible(c, e) && Faithful(c, e)
    ensures ClientInv(Happen(c, e))
  {
    match e
    case Server(a) => ServerKeepsClient(c, a, Happen(c, e));
    case SignIn(user) => SignInKeepsClient(c, user);
    case Store(tok) => StoreKeepsClient(c, tok);
    case Send(pid) => SendKeepsClient(c, pid);
    case Unsent => FinishKeepsClient(c, Happen(c, e));
    case AfterUnauthorized(id, failed, read) =>
      UnauthorizedAsks(c, id, failed, read);
      AskKeepsClient(c, Unauthorized(c, id, failed, read));
    case BeforeExpiry(id, observed, due, read) =>
      EarlyAsks(c, id, observed, due, read);
      AskKeepsClient(c, Early(c, id, observed, due, read));
    case Deliver(read, cleared) => DeliverKeepsClient(c, read, cleared);
    case Save(written, cleared) => SaveKeepsClient(c, written, cleared);
    case SignOut => StoreLessKeepsClient(c, Happen(c, e));
    case Resume(_, _) => StoreLessKeepsClient(c, Happen(c, e));
    case Drop(_) => StoreLessKeepsClient(c, Happen(c, e));
    case Abandon =>
  }

  // ---- Runs ----------------------------------------------------------------

  ghost predicate Lives(c: Client, events: seq<Event>, c': Client)
    decreases |events|
  {
    if |events| == 0 then c' == c
    else Possible(c, events[0]) && Faithful(c, events[0]) && Lives(Happen(c, events[0]), events[1..], c')
  }

  lemma {:induction false} LivesKeepsClient(c: Client, events: seq<Event>, c': Client)
    requires ClientInv(c) && Lives(c, events, c')
    ensures ClientInv(c')
    decreases |events|
  {
    if |events| > 0 {
      EventKeepsClient(c, events[0]);
      LivesKeepsClient(Happen(c, events[0]), events[1..], c');
    }
  }

  /** While replies arrive and the store can be cleared, the app has at most one
      refresh under way, and presents only unspent tokens: its request never
      meets a row marked used, so that what the server takes for reuse can only
      be a row someone else deleted. */
  lemma NeverReplays(start: Client, events: seq<Event>, c: Client)
    requires Begins(start) && Lives(start, events, c)
    ensures c.trade.Some? && c.trade.value.Queued? ==> !HasChild(c.srv, c.trade.value.tok)
    ensures forall p | p in c.srv.procs && CanSpend(c.srv.procs[p]) && Ours(c, c.srv.procs[p].tok) :: Sent(c, p)
    ensures forall p | p in c.srv.procs && Sent(c, p) && Spotted(c.srv, p, c.trade.value.tok) ::
              c.trade.value.tok !in c.srv.rows
    ensures c.trade.None? && Refreshable(c).Some? ==> !HasChild(c.srv, Refreshable(c).value)
  {
    InitInv(start.srv);
    LivesKeepsClient(start, events, c);
    if c.trade.Some? && c.trade.value.Out? {
      var Out(_, tok, pid) := c.trade.value;
      assert PcInv(c.srv, c.srv.procs[pid]);
    }
  }
}
