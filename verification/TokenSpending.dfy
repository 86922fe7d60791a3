/** When a spent token is left in the app's store, over the runs of TokenRuns in
    which anything may go wrong, and what comes of it. */
module TokenSpending {
  import opened Prelude
  import opened RefreshTokens
  import opened TokenLineage
  import opened TokenClient
  import opened TokenRuns

  // ---- The store, event by event -------------------------------------------

  /** The event writes the store: a sign-in, a sign-out, what a trade was handed
      or else nothing, or the current session without its refresh token. */
  predicate Writes(c: Client, e: Event) {
    match e
    case Store(_) => true
    case SignOut => true
    case Deliver(read, cleared) =>
      && c.trade.Some? && c.trade.value.Out? && c.trade.value.pid in c.srv.procs && c.srv.procs[c.trade.value.pid].Replied?
      && c.srv.procs[c.trade.value.pid].reply.Issued? && !read && cleared
    case Save(written, cleared) => written || cleared
    case Drop(written) => written
    case _ => false
  }

  lemma OtherEventsLeaveTheStore(c: Client, e: Event)
    requires Possible(c, e) && !Writes(c, e)
    ensures Happen(c, e).store == c.store
  {
  }

  /** Nothing enters the store that a trade has had. */
  lemma WrittenIsNew(c: Client, e: Event)
    requires RunInv(c) && Possible(c, e) && Writes(c, e) && Refreshable(Happen(c, e)).Some?
    ensures Refreshable(Happen(c, e)).value !in c.traded
  {
  }

  /** Requests sent stay sent, and the trades' tokens traded. */
  lemma EventLogs(c: Client, e: Event)
    requires Possible(c, e)
    ensures forall p | p in c.sent && (e.Send? ==> e.pid != p) :: p in Happen(c, e).sent && Happen(c, e).sent[p] == c.sent[p]
    ensures c.traded <= Happen(c, e).traded
    ensures e.Send? ==> e.pid !in c.srv.procs && Happen(c, e).sent == c.sent[e.pid := c.trade.value.tok]
    ensures !e.Send? ==> Happen(c, e).sent == c.sent
  {
    match e
    case AfterUnauthorized(id, failed, read) => UnauthorizedAsks(c, id, failed, read);
    case BeforeExpiry(id, observed, due, read) => EarlyAsks(c, id, observed, due, read);
    case Deliver(read, cleared) => HearChanges(c, c.srv.procs[c.trade.value.pid].reply, read, cleared);
    case _ =>
  }

  lemma {:induction false} SentStays(states: seq<Client>, events: seq<Event>, m: nat, n: nat, pid: Pid)
    requires Trace(states, events) && m <= n <= |events| && pid in states[m].sent
    ensures pid in states[n].sent && states[n].sent[pid] == states[m].sent[pid]
    decreases n
  {
    if m < n {
      SentStays(states, events, m, n - 1, pid);
      RunInvAt(states, events, n - 1);
      assert StepAt(states, events, n - 1);
      EventLogs(states[n - 1], events[n - 1]);
    }
  }

  /** The app sends its request with the token it still stores. */
  ghost predicate SentStored(states: seq<Client>, events: seq<Event>, i: nat, pid: Pid)
    requires Trace(states, events) && i < |events|
  {
    events[i] == Send(pid) && states[i].trade.Some? && Refreshable(states[i]) == Some(states[i].trade.value.tok)
  }

  /** The server commits the exchange the request asks for, its commit reported
      or not. */
  ghost predicate CommittedAt(states: seq<Client>, events: seq<Event>, j: nat, pid: Pid)
    requires Trace(states, events) && j < |events|
  {
    events[j].Server? && Commits(states[j].srv, events[j].a) && events[j].a.pid == pid
  }

  /** From i to n the store is not written. */
  ghost predicate Unwritten(states: seq<Client>, events: seq<Event>, i: nat, n: nat)
    requires Trace(states, events) && n <= |events|
  {
    forall k | i <= k < n :: !Writes(states[k], events[k])
  }

  ghost predicate HoldsSpent(c: Client) {
    Refreshable(c).Some? && HasChild(c.srv, Refreshable(c).value)
  }

  lemma StoredStays(c: Client, e: Event, t: Token)
    requires RunInv(c) && Possible(c, e) && Refreshable(Happen(c, e)) == Some(t) && (t in c.traded || e.Send?)
    ensures !Writes(c, e) && Refreshable(c) == Some(t)
  {
    if Writes(c, e) {
      WrittenIsNew(c, e);
    } else {
      OtherEventsLeaveTheStore(c, e);
    }
  }

  /** The step before: what was sent, and what was stored if it is stored now. */
  lemma SentBefore(states: seq<Client>, events: seq<Event>, n: nat, pid: Pid)
    requires Trace(states, events) && n < |events| && pid in states[n + 1].sent
    ensures var c, e, t := states[n], events[n], states[n + 1].sent[pid];
            && (if e == Send(pid) then c.trade.Some? && c.trade.value.tok == t else pid in c.sent && c.sent[pid] == t)
            && (Refreshable(states[n + 1]) == Some(t) ==> !Writes(c, e) && Refreshable(c) == Some(t))
  {
    var c, e, t := states[n], events[n], states[n + 1].sent[pid];
    RunInvAt(states, events, n);
    assert StepAt(states, events, n);
    EventLogs(c, e);
    if Refreshable(states[n + 1]) == Some(t) {
      StoredStays(c, e, t);
    }
  }

  /** A request sent was sent with its token, and if that is stored now it was
      stored then, and the store has not been written since. */
  lemma {:induction false} FindSend(states: seq<Client>, events: seq<Event>, n: nat, pid: Pid) returns (i: nat)
    requires Trace(states, events) && n <= |events| && pid in states[n].sent
    ensures i < n && events[i] == Send(pid) && states[i].trade.Some? && states[i].trade.value.tok == states[n].sent[pid]
    ensures Refreshable(states[n]) == Some(states[n].sent[pid]) ==>
              SentStored(states, events, i, pid) && Unwritten(states, events, i, n)
    decreases n
  {
    assert n > 0;
    SentBefore(states, events, n - 1, pid);
    i := n - 1;
    if events[i] != Send(pid) {
      i := FindSend(states, events, n - 1, pid);
    }
  }

  /** The app's own request asks for the exchange of t. */
  ghost predicate OwnExchange(c: Client, e: Event, t: Token) {
    e.Server? && Spends(c.srv, e.a, t) && e.a.pid in c.sent && c.sent[e.a.pid] == t
  }

  lemma ServerSpends(c: Client, a: Action, c': Client, t: Token)
    requires RunInv(c) && ServerStep(c, a, c') && Ours(c', t) && HasChild(c'.srv, t)
    ensures (Ours(c, t) && HasChild(c.srv, t)) || OwnExchange(c, Server(a), t)
  {
    if !HasChild(c.srv, t) && !Spends(c.srv, a, t) {
      StepChildren(c.srv, a, t);
    } else {
      if Spends(c.srv, a, t) {
        assert PcInv(c.srv, c.srv.procs[a.pid]);
      }
      OwnershipStays(c, a, c', t);
    }
  }

  lemma OtherEventsLeaveTheServer(c: Client, e: Event)
    requires Possible(c, e) && !e.Server? && !e.SignIn?
    ensures Happen(c, e).logins == c.logins && Happen(c, e).srv.parent == c.srv.parent && Happen(c, e).srv.seen == c.srv.seen
  {
    match e
    case Send(pid) => PresentMintsNone(c.srv, pid, c.trade.value.tok);
    case AfterUnauthorized(id, failed, read) => UnauthorizedAsks(c, id, failed, read);
    case BeforeExpiry(id, observed, due, read) => EarlyAsks(c, id, observed, due, read);
    case Deliver(read, cleared) => HearChanges(c, c.srv.procs[c.trade.value.pid].reply, read, cleared);
    case _ =>
  }

  /** Whatever of the app's has been exchanged, its own request asked for. */
  lemma EventSpends(c: Client, e: Event, t: Token)
    requires RunInv(c) && Possible(c, e) && Ours(Happen(c, e), t) && HasChild(Happen(c, e).srv, t)
    ensures (Ours(c, t) && HasChild(c.srv, t)) || OwnExchange(c, e, t)
  {
    var c' := Happen(c, e);
    if e.Server? {
      ServerSpends(c, e.a, c', t);
    } else if e.SignIn? {
      ServerSpends(c, Login(e.user), c', t);
    } else {
      OtherEventsLeaveTheServer(c, e);
    }
  }

  lemma {:induction false} FindExchange(states: seq<Client>, events: seq<Event>, n: nat, t: Token) returns (j: nat, pid: Pid)
    requires Trace(states, events) && n <= |events| && Ours(states[n], t) && HasChild(states[n].srv, t)
    ensures j < n && CommittedAt(states, events, j, pid) && pid in states[j].sent && states[j].sent[pid] == t
    decreases n
  {
    assert n > 0;
    RunInvAt(states, events, n - 1);
    assert StepAt(states, events, n - 1);
    EventSpends(states[n - 1], events[n - 1], t);
    if OwnExchange(states[n - 1], events[n - 1], t) {
      j, pid := n - 1, events[n - 1].a.pid;
    } else {
      j, pid := FindExchange(states, events, n - 1, t);
    }
  }

  // ---- When a spent token is stored ----------------------------------------

  lemma {:induction false} StoreUnwritten(states: seq<Client>, events: seq<Event>, i: nat, n: nat)
    requires Trace(states, events) && i <= n <= |events| && Unwritten(states, events, i, n)
    ensures states[n].store == states[i].store
    decreases n
  {
    if i < n {
      StoreUnwritten(states, events, i, n - 1);
      assert StepAt(states, events, n - 1);
      assert !Writes(states[n - 1], events[n - 1]);
      OtherEventsLeaveTheStore(states[n - 1], events[n - 1]);
    }
  }

  lemma {:induction false} LastWrite(states: seq<Client>, events: seq<Event>, m: nat, n: nat) returns (k: nat)
    requires Trace(states, events) && m <= n <= |events| && !Unwritten(states, events, m, n)
    ensures m <= k < n && Writes(states[k], events[k]) && Unwritten(states, events, k + 1, n)
    decreases n
  {
    assert m < n;
    k := n - 1;
    if !Writes(states[k], events[k]) {
      k := LastWrite(states, events, m, n - 1);
    }
  }

  lemma EventKeepsChild(c: Client, e: Event, t: Token)
    requires Inv(c.srv) && Possible(c, e) && (HasChild(c.srv, t) || (e.Server? && Spends(c.srv, e.a, t)))
    ensures HasChild(Happen(c, e).srv, t)
  {
    if e.Server? {
      StepKeepsChild(c.srv, e.a, t);
    } else if e.SignIn? {
      StepKeepsChild(c.srv, Login(e.user), t);
    } else {
      OtherEventsLeaveTheServer(c, e);
    }
  }

  lemma StepKeepsChild(s: State, a: Action, t: Token)
    requires Inv(s) && Enabled(s, a) && (HasChild(s, t) || Spends(s, a, t))
    ensures HasChild(Do(s, a), t)
  {
    StepParents(s, a);
    if Spends(s, a, t) {
      assert Do(s, a).parent[s.procs[a.pid].heir] == t;
    } else {
      var child :| child in s.parent && s.parent[child] == t;
      assert Do(s, a).parent[child] == t;
    }
  }

  lemma {:induction false} ChildStays(states: seq<Client>, events: seq<Event>, m: nat, n: nat, t: Token)
    requires Trace(states, events) && m <= n <= |events| && HasChild(states[m].srv, t)
    ensures HasChild(states[n].srv, t)
    decreases n
  {
    if m < n {
      ChildStays(states, events, m, n - 1, t);
      RunInvAt(states, events, n - 1);
      assert StepAt(states, events, n - 1);
      EventKeepsChild(states[n - 1], events[n - 1], t);
    }
  }

  /** What was sent and then committed is spent. */
  lemma CommitSpends(states: seq<Client>, events: seq<Event>, i: nat, j: nat, pid: Pid)
    requires Trace(states, events) && i < j < |events|
    requires events[i] == Send(pid) && states[i].trade.Some? && CommittedAt(states, events, j, pid)
    ensures HasChild(states[j + 1].srv, states[i].trade.value.tok)
  {
    assert StepAt(states, events, i) && StepAt(states, events, j);
    EventLogs(states[i], events[i]);
    SentStays(states, events, i + 1, j, pid);
    RunInvAt(states, events, j);
    EventKeepsChild(states[j], events[j], states[i].trade.value.tok);
  }

  lemma NotYetSent(states: seq<Client>, events: seq<Event>, i: nat, pid: Pid)
    requires Trace(states, events) && i < |events| && events[i] == Send(pid)
    ensures pid !in states[i].sent
  {
    RunInvAt(states, events, i);
    assert StepAt(states, events, i);
  }

  lemma SentOnce(states: seq<Client>, events: seq<Event>, i: nat, j: nat, pid: Pid)
    requires Trace(states, events) && i < |events| && j < |events| && events[i] == Send(pid) && pid in states[j].sent
    ensures i < j
  {
    NotYetSent(states, events, i, pid);
    if j <= i {
      SentStays(states, events, j, i, pid);
    }
  }

  /** The app's request is sent with the stored token, the server commits its
      exchange, and up to n the store is not written. */
  ghost predicate SpentUnheard(states: seq<Client>, events: seq<Event>, i: nat, j: nat, pid: Pid)
    requires Trace(states, events) && i < j < |events|
  {
    SentStored(states, events, i, pid) && CommittedAt(states, events, j, pid) && Unwritten(states, events, i, |events|)
  }

  lemma SpentWasUnheard(states: seq<Client>, events: seq<Event>) returns (i: nat, j: nat, pid: Pid)
    requires Trace(states, events) && HoldsSpent(states[|events|])
    ensures i < j < |events| && SpentUnheard(states, events, i, j, pid)
  {
    var n := |events|;
    RunInvAt(states, events, n);
    j, pid := FindExchange(states, events, n, Refreshable(states[n]).value);
    SentStays(states, events, j, n, pid);
    i := FindSend(states, events, n, pid);
    SentOnce(states, events, i, j, pid);
  }

  lemma UnheardIsSpent(states: seq<Client>, events: seq<Event>, i: nat, j: nat, pid: Pid)
    requires Trace(states, events) && i < j < |events| && SpentUnheard(states, events, i, j, pid)
    ensures HoldsSpent(states[|events|])
  {
    StoreUnwritten(states, events, i, |events|);
    CommitSpends(states, events, i, j, pid);
    ChildStays(states, events, j + 1, |events|, states[i].trade.value.tok);
  }

  /** Over whole runs in which anything may go wrong, the app stores a token that
      is spent exactly when it sent its request with that token, the server
      committed the exchange - before the trade ended or after the app gave it
      up, acknowledged or not - and nothing was written to the store since it
      was sent: no sign-in, no sign-out, not what the trade was handed. */
  lemma SpentIsStoredExactlyWhen(states: seq<Client>, events: seq<Event>)
    requires Trace(states, events)
    ensures HoldsSpent(states[|events|])
       <==> exists i: nat, j: nat, pid | i < j < |events| :: SpentUnheard(states, events, i, j, pid)
  {
    if HoldsSpent(states[|events|]) {
      var i, j, pid := SpentWasUnheard(states, events);
    }
    if i: nat, j: nat, pid :| i < j < |events| && SpentUnheard(states, events, i, j, pid) {
      UnheardIsSpent(states, events, i, j, pid);
    }
  }

  // ---- Runs that get there -------------------------------------------------

  ghost predicate AllFaithful(states: seq<Client>, events: seq<Event>)
    requires |states| == |events| + 1
  {
    forall k | 0 <= k < |events| :: Faithful(states[k], events[k])
  }

  /** A run leads to c; a faithful one, if that is asked. */
  ghost predicate Reached(c: Client, faithful: bool) {
    exists states, events :: LeadsTo(states, events, c, faithful)
  }

  ghost predicate LeadsTo(states: seq<Client>, events: seq<Event>, c: Client, faithful: bool) {
    Trace(states, events) && states[|events|] == c && (faithful ==> AllFaithful(states, events))
  }

  lemma ReachedGoesOn(c: Client, e: Event, faithful: bool)
    requires Reached(c, faithful) && Possible(c, e) && (faithful ==> Faithful(c, e))
    ensures Reached(Happen(c, e), faithful)
  {
    var states, events :| LeadsTo(states, events, c, faithful);
    var states', events' := states + [Happen(c, e)], events + [e];
    forall k | 0 <= k < |events'| ensures StepAt(states', events', k) && (faithful ==> Faithful(states'[k], events'[k])) {
      if k < |events| {
        assert StepAt(states, events, k);
        assert states'[k] == states[k] && states'[k + 1] == states[k + 1] && events'[k] == events[k];
      }
    }
    assert LeadsTo(states', events', Happen(c, e), faithful);
  }

  /** A set of clients that runs do not leave. */
  ghost predicate Living(RC: iset<Client>, faithful: bool) {
    forall c, e | c in RC && Possible(c, e) && (faithful ==> Faithful(c, e)) :: Happen(c, e) in RC
  }

  lemma LivesIn(RC: iset<Client>, faithful: bool, c: Client, e: Event)
    requires Living(RC, faithful) && c in RC && Possible(c, e) && (faithful ==> Faithful(c, e))
    ensures Happen(c, e) in RC
  {
  }

  /** The servers this client may have beside it. */
  ghost function Beside(RC: iset<Client>, c: Client): iset<State> {
    iset s | c.(srv := s) in RC
  }

  lemma BesideAdvances(RC: iset<Client>, faithful: bool, c: Client)
    requires Living(RC, faithful)
    ensures Advancing(Beside(RC, c))
  {
    var R := Beside(RC, c);
    forall s, pid | s in R && Enabled(s, Advance(pid, Fine)) ensures Do(s, Advance(pid, Fine)) in R {
      LivesIn(RC, faithful, c.(srv := s), Server(Advance(pid, Fine)));
      assert Happen(c.(srv := s), Server(Advance(pid, Fine))) == c.(srv := Do(s, Advance(pid, Fine)));
    }
  }

  /** Nobody has signed in yet. */
  function Fresh(): Client {
    Client(Scene(map[], map[], map[], map[]), None, None, [], map[], map[], Idle, map[], {}, {})
  }

  /** The app has signed in as the user, 7, with token 0, and is to refresh it. */
  function Refreshing(srv: State, trade: Trade, sent: map<Pid, Token>): Client {
    Client(srv, Some(Stored(0, Some(0))), Some(trade), [0], sent, map[], Idle, map[0 := Waiting(0, Some(0), None)], {}, {0})
  }

  lemma SignInAndAsk(RC: iset<Client>, faithful: bool)
    requires Living(RC, faithful) && Fresh() in RC
    ensures Refreshing(Scene(map[], map[0 := Row(7, 1, false)], map[], map[0 := 7]), Queued(0, 0), map[]) in RC
  {
    var srv := Scene(map[], map[0 := Row(7, 1, false)], map[], map[0 := 7]);
    LivesIn(RC, faithful, Fresh(), SignIn(7));
    SceneSignsIn();
    var c := Fresh().(srv := srv, arriving := {0}, logins := {0});
    assert Happen(Fresh(), SignIn(7)) == c;
    LivesIn(RC, faithful, c, Store(0));
    var d := c.(store := Some(Stored(0, Some(0))), arriving := {});
    assert Happen(c, Store(0)) == d;
    LivesIn(RC, faithful, d, AfterUnauthorized(0, 0, true));
    assert Happen(d, AfterUnauthorized(0, 0, true)) == Refreshing(srv, Queued(0, 0), map[]);
  }

  lemma SceneSignsIn()
    ensures Do(Scene(map[], map[], map[], map[]), Login(7)) == Scene(map[], map[0 := Row(7, 1, false)], map[], map[0 := 7])
  {
    assert map[][0 := 7].Keys == {0};
  }

  lemma RequestIsOut(RC: iset<Client>, faithful: bool)
    requires Living(RC, faithful) && Fresh() in RC
    ensures Refreshing(Scene(map[], map[0 := Row(7, 1, false)], map[1 := Reading(0)], map[0 := 7]), Out(0, 0, 1), map[1 := 0]) in RC
  {
    var row, owner := map[0 := Row(7, 1, false)], map[0 := 7];
    SignInAndAsk(RC, faithful);
    var c := Refreshing(Scene(map[], row, map[], owner), Queued(0, 0), map[]);
    LivesIn(RC, faithful, c, Send(1));
    assert Do(c.srv, Present(1, 0)) == Scene(map[], row, map[1 := Reading(0)], owner);
    assert Happen(c, Send(1)) == Refreshing(Scene(map[], row, map[1 := Reading(0)], owner), Out(0, 0, 1), map[1 := 0]);
  }

  lemma MarksIn(R: iset<State>, row: map<Token, Row>, owner: map<Token, User>)
    requires Advancing(R) && Scene(map[], row, map[1 := Reading(0)], owner) in R
    requires row == map[0 := Row(7, 1, false)] && owner == map[0 := 7]
    ensures Scene(map[7 := 1], row, map[1 := Marked(0, 7, 1)], owner) in R
  {
    RefreshGetsToTheLock(R, row, owner);
    SceneStep(R, row, map[], owner, 1, Rotating(0, 7, 1), Locked(0, 7, 1));
    SceneLocked(R, row, map[], owner, 1, Locked(0, 7, 1), Marked(0, 7, 1));
  }

  lemma RequestIsMarking(RC: iset<Client>, faithful: bool)
    requires Living(RC, faithful) && Fresh() in RC
    ensures Refreshing(Scene(map[7 := 1], map[0 := Row(7, 1, false)], map[1 := Marked(0, 7, 1)], map[0 := 7]), Out(0, 0, 1), map[1 := 0]) in RC
  {
    var row, owner := map[0 := Row(7, 1, false)], map[0 := 7];
    RequestIsOut(RC, faithful);
    var c := Refreshing(Fresh().srv, Out(0, 0, 1), map[1 := 0]);
    var R := Beside(RC, c);
    BesideAdvances(RC, faithful, c);
    assert c.(srv := Scene(map[], row, map[1 := Reading(0)], owner)) ==
           Refreshing(Scene(map[], row, map[1 := Reading(0)], owner), Out(0, 0, 1), map[1 := 0]);
    MarksIn(R, row, owner);
    assert c.(srv := Scene(map[7 := 1], row, map[1 := Marked(0, 7, 1)], owner)) ==
           Refreshing(Scene(map[7 := 1], row, map[1 := Marked(0, 7, 1)], owner), Out(0, 0, 1), map[1 := 0]);
  }

  /** The app gives a trade up while its request is about to commit. */
  lemma GivenUpThenCommitted(RC: iset<Client>, c: Client) returns (c': Client)
    requires Living(RC, false) && c in RC && c.turn.Idle? && c.trade.Some? && c.trade.value.Out?
    requires c.trade.value.pid in c.srv.procs && c.srv.procs[c.trade.value.pid].Marked?
    requires c.srv.procs[c.trade.value.pid].tok == c.trade.value.tok && Refreshable(c) == Some(c.trade.value.tok)
    requires c.trade.value.tok in c.srv.rows && c.srv.next != c.trade.value.tok
    ensures c' in RC && c'.trade.None? && c'.turn.Idle? && c'.requests == c.requests && c'.srv.procs.Keys == c.srv.procs.Keys
    ensures Refreshable(c') == Refreshable(c) && HoldsSpent(c') && Refreshable(c').value in c'.srv.rows
  {
    var Out(_, tok, pid) := c.trade.value;
    LivesIn(RC, false, c, Server(Advance(pid, Fine)));
    var inserted := Happen(c, Server(Advance(pid, Fine)));
    LivesIn(RC, false, inserted, Abandon);
    var alone := Happen(inserted, Abandon);
    assert alone == Finish(c.(srv := inserted.srv), Unreachable);
    LivesIn(RC, false, alone, Server(Advance(pid, Fine)));
    c' := Happen(alone, Server(Advance(pid, Fine)));
    CommitShows(inserted.srv, pid);
  }

  lemma CommitShows(s: State, pid: Pid)
    requires pid in s.procs && s.procs[pid].Inserted? && s.procs[pid].tok in s.rows
    ensures Enabled(s, Advance(pid, Fine))
    ensures var s' := Do(s, Advance(pid, Fine));
            HasChild(s', s.procs[pid].tok) && s.procs[pid].tok in s'.rows && s'.procs.Keys == s.procs.Keys
  {
    assert Do(s, Advance(pid, Fine)).parent[s.procs[pid].heir] == s.procs[pid].tok;
  }

  lemma AllReached(faithful: bool) returns (RC: iset<Client>)
    ensures Living(RC, faithful) && Fresh() in RC && forall c | c in RC :: Reached(c, faithful)
  {
    RC := iset c | Reached(c, faithful);
    assert LeadsTo([Fresh()], [], Fresh(), faithful);
    forall c, e | c in RC && Possible(c, e) && (faithful ==> Faithful(c, e)) ensures Happen(c, e) in RC {
      ReachedGoesOn(c, e, faithful);
    }
  }

  /** It happens: the app gives up on a request that the server goes on to commit,
      keeps the spent token, and is taken for a thief at the next 401. */
  lemma GivenUpIsReplayed() returns (c: Client)
    ensures Reached(c, false) && c.trade.None? && c.turn.Idle? && HoldsSpent(c) && Refreshable(c).value in c.srv.rows
    ensures c.store.Some? && 2 !in c.requests && 2 !in c.srv.procs
    ensures var asked := Happen(c, AfterUnauthorized(2, c.store.value.access, true));
            Possible(asked, Send(2)) && Spotted(Happen(asked, Send(2)).srv, 2, Refreshable(c).value)
  {
    var RC := AllReached(false);
    RequestIsMarking(RC, false);
    c := Refreshing(Scene(map[7 := 1], map[0 := Row(7, 1, false)], map[1 := Marked(0, 7, 1)], map[0 := 7]), Out(0, 0, 1), map[1 := 0]);
    c := GivenUpThenCommitted(RC, c);
    StoredSpentIsReplayed(c, 2, 2);
  }

  /** Whatever run led to it, a spent token stored is presented by the next
      request that gets a 401, and the server takes it for theft. */
  lemma StoredSpentIsReplayed(c: Client, id: nat, pid: Pid)
    requires Reached(c, false) && HoldsSpent(c) && Refreshable(c).value in c.srv.rows
    requires c.trade.None? && c.turn.Idle? && id !in c.requests && pid !in c.srv.procs
    ensures var asked := Happen(c, AfterUnauthorized(id, c.store.value.access, true));
            Possible(asked, Send(pid)) && Spotted(Happen(asked, Send(pid)).srv, pid, Refreshable(c).value)
  {
    ReachedInv(c);
  }

  lemma ReachedInv(c: Client)
    requires Reached(c, false)
    ensures RunInv(c)
  {
    var states, events :| LeadsTo(states, events, c, false);
    RunInvAt(states, events, |events|);
  }
}
