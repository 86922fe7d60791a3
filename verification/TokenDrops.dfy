/** Which refresh tokens a request drops (afterUnauthorized and dropRefreshToken
    in TokenRefresher.swift), over whole runs of TokenRuns: its trade's, those of
    a session newer than the trade it joined, and those of a session signed in
    while it drops. */
module TokenDrops {
  import opened Prelude
  import opened RefreshTokens
  import opened TokenLineage
  import opened TokenClient
  import opened TokenRuns
  import opened TokenSpending

  // ---- Requests ------------------------------------------------------------

  /** The request gets a 401 for the stored access token while a trade is in
      flight that was started for another token than the one stored with it. */
  predicate JoinsOlderTrade(c: Client, e: Event, id: nat) {
    && e.AfterUnauthorized? && e.id == id && e.read
    && c.trade.Some? && c.store.Some? && c.store.value.access == e.failed
    && Refreshable(c).Some? && Refreshable(c).value != c.trade.value.tok
  }

  /** The server's refusal reaches the trade. */
  predicate RefusalArrives(c: Client, e: Event, trade: nat) {
    && e.Deliver? && c.trade.Some? && c.trade.value.Out? && c.trade.value.id == trade
    && c.trade.value.pid in c.srv.procs && c.srv.procs[c.trade.value.pid].Replied?
    && c.srv.procs[c.trade.value.pid].reply.Refused?
  }

  /** How a request comes to wait: for the trade in flight, or for one it starts
      with the stored token. */
  ghost predicate ComesToWait(c: Client, e: Event, id: nat, w: Request)
    requires Possible(c, e)
  {
    && w.Waiting?
    && (w.drops.Some? ==>
          && e.AfterUnauthorized? && e.id == id && e.read && c.store.Some? && c.store.value.access == e.failed
          && w.drops == Refreshable(c)
          && w.trade == (if c.trade.Some? then c.trade.value.id else |c.traded|)
          && (c.trade.None? ==> Happen(c, e).traded == c.traded + [w.drops.value]))
  }

  /** The request is the only one that changes, and is new. */
  ghost predicate AddsRequest(c: Client, c': Client, id: nat) {
    id in c'.requests && forall other | other in c'.requests && other != id ::
      other in c.requests && c'.requests[other] == c.requests[other]
  }

  lemma UnauthorizedWaits(c: Client, id: nat, failed: Token, read: bool)
    ensures var c' := Unauthorized(c, id, failed, read);
            && AddsRequest(c, c', id)
            && (c'.requests[id].Waiting? ==>
                  && read && c.store.Some? && c.store.value.access == failed && c'.requests[id].drops == Refreshable(c)
                  && c'.requests[id].trade == (if c.trade.Some? then c.trade.value.id else |c.traded|)
                  && (c.trade.None? ==> Refreshable(c).Some? && c'.traded == c.traded + [Refreshable(c).value]))
  {
  }

  lemma EarlyWaits(c: Client, id: nat, observed: Token, due: bool, read: bool)
    ensures var c' := Early(c, id, observed, due, read);
            AddsRequest(c, c', id) && (c'.requests[id].Waiting? ==> c'.requests[id].drops.None?)
  {
  }

  lemma AskWaits(c: Client, e: Event, id: nat)
    requires Possible(c, e) && (e.AfterUnauthorized? || e.BeforeExpiry?) && e.id == id
    ensures id !in c.requests && AddsRequest(c, Happen(c, e), id)
    ensures Happen(c, e).requests[id].Waiting? ==> ComesToWait(c, e, id, Happen(c, e).requests[id])
  {
    match e
    case AfterUnauthorized(_, failed, read) => UnauthorizedWaits(c, id, failed, read);
    case BeforeExpiry(_, observed, due, read) => EarlyWaits(c, id, observed, due, read);
  }

  /** A request that waits has waited for the same since it came to wait. */
  lemma RequestEvent(c: Client, e: Event, id: nat)
    requires Possible(c, e) && id in Happen(c, e).requests && Happen(c, e).requests[id].Waiting?
    ensures if id in c.requests then c.requests[id] == Happen(c, e).requests[id]
            else ComesToWait(c, e, id, Happen(c, e).requests[id])
  {
    if e.AfterUnauthorized? || e.BeforeExpiry? {
      AskWaits(c, e, e.id);
    }
  }

  lemma RequestsStay(c: Client, e: Event)
    requires Possible(c, e)
    ensures c.requests.Keys <= Happen(c, e).requests.Keys
  {
    match e
    case AfterUnauthorized(id, failed, read) => UnauthorizedWaits(c, id, failed, read);
    case BeforeExpiry(id, observed, due, read) => EarlyWaits(c, id, observed, due, read);
    case _ =>
  }

  lemma {:induction false} FindAsk(states: seq<Client>, events: seq<Event>, n: nat, id: nat) returns (q: nat)
    requires Trace(states, events) && n <= |events| && id in states[n].requests && states[n].requests[id].Waiting?
    ensures q < n && Possible(states[q], events[q]) && ComesToWait(states[q], events[q], id, states[n].requests[id])
    decreases n
  {
    assert n > 0;
    assert StepAt(states, events, n - 1);
    RequestEvent(states[n - 1], events[n - 1], id);
    q := n - 1;
    if id in states[q].requests {
      q := FindAsk(states, events, n - 1, id);
    }
  }

  lemma {:induction false} WaitsSince(states: seq<Client>, events: seq<Event>, m: nat, n: nat, id: nat)
    requires Trace(states, events) && m <= n <= |events|
    requires id in states[m].requests && id in states[n].requests && states[n].requests[id].Waiting?
    ensures states[m].requests[id] == states[n].requests[id]
    decreases n
  {
    if m < n {
      HadAsked(states, events, m, n - 1, id);
      assert StepAt(states, events, n - 1);
      RequestEvent(states[n - 1], events[n - 1], id);
      WaitsSince(states, events, m, n - 1, id);
    }
  }

  lemma {:induction false} HadAsked(states: seq<Client>, events: seq<Event>, m: nat, n: nat, id: nat)
    requires Trace(states, events) && m <= n <= |events| && id in states[m].requests
    ensures id in states[n].requests
    decreases n
  {
    if m < n {
      HadAsked(states, events, m, n - 1, id);
      assert StepAt(states, events, n - 1);
      RequestsStay(states[n - 1], events[n - 1]);
    }
  }

  lemma {:induction false} TradedStays(states: seq<Client>, events: seq<Event>, m: nat, n: nat)
    requires Trace(states, events) && m <= n <= |events|
    ensures states[m].traded <= states[n].traded
    decreases n
  {
    if m < n {
      TradedStays(states, events, m, n - 1);
      assert StepAt(states, events, n - 1);
      EventLogs(states[n - 1], events[n - 1]);
    }
  }

  // ---- Outcomes ------------------------------------------------------------

  /** A trade is denied by a refusal, once. */
  lemma OutcomeEvent(c: Client, e: Event, trade: nat)
    requires Possible(c, e) && (c.trade.Some? ==> c.trade.value.id !in c.outcomes)
    ensures RefusalArrives(c, e, trade) ==> trade in Happen(c, e).outcomes && Happen(c, e).outcomes[trade] == Denied
    ensures trade in c.outcomes ==> trade in Happen(c, e).outcomes && Happen(c, e).outcomes[trade] == c.outcomes[trade]
    ensures trade in Happen(c, e).outcomes && trade !in c.outcomes && Happen(c, e).outcomes[trade] == Denied ==>
              RefusalArrives(c, e, trade)
  {
  }

  lemma OutcomeAt(states: seq<Client>, events: seq<Event>, n: nat, trade: nat)
    requires Trace(states, events) && n < |events|
    ensures var c, e, c' := states[n], events[n], states[n + 1];
            && (RefusalArrives(c, e, trade) ==> trade in c'.outcomes && c'.outcomes[trade] == Denied)
            && (trade in c.outcomes ==> trade in c'.outcomes && c'.outcomes[trade] == c.outcomes[trade])
            && (trade in c'.outcomes && trade !in c.outcomes && c'.outcomes[trade] == Denied ==> RefusalArrives(c, e, trade))
  {
    RunInvAt(states, events, n);
    assert StepAt(states, events, n);
    OutcomeEvent(states[n], events[n], trade);
  }

  lemma {:induction false} FindRefusal(states: seq<Client>, events: seq<Event>, n: nat, trade: nat) returns (d: nat)
    requires Trace(states, events) && n <= |events| && trade in states[n].outcomes && states[n].outcomes[trade] == Denied
    ensures d < n && RefusalArrives(states[d], events[d], trade)
    decreases n
  {
    assert n > 0;
    OutcomeAt(states, events, n - 1, trade);
    d := n - 1;
    if trade in states[d].outcomes {
      d := FindRefusal(states, events, n - 1, trade);
    }
  }

  lemma {:induction false} RefusalStays(states: seq<Client>, events: seq<Event>, d: nat, n: nat, trade: nat)
    requires Trace(states, events) && d < n <= |events| && RefusalArrives(states[d], events[d], trade)
    ensures trade in states[n].outcomes && states[n].outcomes[trade] == Denied
    decreases n
  {
    OutcomeAt(states, events, n - 1, trade);
    if d < n - 1 {
      RefusalStays(states, events, d, n - 1, trade);
    }
  }

  // ---- What a request sets out to drop -------------------------------------

  /** The request sets out to drop the stored refresh token, though it is not the
      one its trade presented. */
  ghost predicate SetsOutForAnother(c: Client, id: nat, read: bool)
    requires Possible(c, Resume(id, read))
  {
    var c' := Happen(c, Resume(id, read));
    c'.turn.Dropping? && c'.turn.current.refresh.Some?
    && c.requests[id].trade < |c.traded| && c'.turn.current.refresh.value != c.traded[c.requests[id].trade]
  }

  /** It joined an older trade, that trade was refused, and the session it had
      read is still the stored one. */
  ghost predicate JoinedAndOutlived(states: seq<Client>, events: seq<Event>, r: nat, q: nat, d: nat, id: nat, read: bool)
    requires Trace(states, events) && q < r <= |events| && d < r
  {
    && JoinsOlderTrade(states[q], events[q], id)
    && RefusalArrives(states[d], events[d], states[q].trade.value.id)
    && read && Refreshable(states[r]) == Refreshable(states[q])
  }

  /** What waking comes to. */
  lemma WakeDrops(c: Client, id: nat, read: bool)
    requires Possible(c, Resume(id, read))
    ensures SetsOutForAnother(c, id, read) <==>
            var w := c.requests[id];
            c.outcomes[w.trade] == Denied && w.drops.Some? && read && Refreshable(c) == w.drops
            && w.trade < |c.traded| && w.drops.value != c.traded[w.trade]
  {
  }

  lemma DropperHadJoined(states: seq<Client>, events: seq<Event>, r: nat, id: nat, read: bool) returns (q: nat, d: nat)
    requires Trace(states, events) && r < |events| && events[r] == Resume(id, read) && Possible(states[r], events[r])
    requires SetsOutForAnother(states[r], id, read)
    ensures q < r && d < r && JoinedAndOutlived(states, events, r, q, d, id, read)
    ensures forall n | 0 <= n <= states[r].requests[id].trade && n < |states[r].traded| ::
              states[r].traded[n] != Refreshable(states[r]).value
  {
    var w := states[r].requests[id];
    WakeDrops(states[r], id, read);
    q := FindAsk(states, events, r, id);
    d := FindRefusal(states, events, r, w.trade);
    RunInvAt(states, events, q);
    assert StepAt(states, events, q);
    TradedStays(states, events, q, q + 1);
    TradedStays(states, events, q + 1, r);
  }

  lemma JoinWaits(c: Client, e: Event, id: nat)
    requires Possible(c, e) && JoinsOlderTrade(c, e, id)
    ensures id in Happen(c, e).requests
    ensures Happen(c, e).requests[id] == Waiting(c.trade.value.id, Refreshable(c), None)
  {
  }

  lemma JoinerDrops(states: seq<Client>, events: seq<Event>, r: nat, q: nat, d: nat, id: nat, read: bool)
    requires Trace(states, events) && q < r < |events| && d < r && events[r] == Resume(id, read) && Possible(states[r], events[r])
    requires JoinedAndOutlived(states, events, r, q, d, id, read)
    ensures SetsOutForAnother(states[r], id, read)
  {
    assert StepAt(states, events, q);
    JoinWaits(states[q], events[q], id);
    WaitsSince(states, events, q + 1, r, id);
    RefusalStays(states, events, d, r, states[q].trade.value.id);
    RunInvAt(states, events, q);
    TradedStays(states, events, q, r);
    WakeDrops(states[r], id, read);
  }

  /** Over whole runs, whatever goes wrong: a request that resumes sets out to
      drop a refresh token that is not its trade's exactly when it joined a trade
      started for an older session than the one it read, the server refused that
      trade, and the newer session is still stored when the request resumes; and
      then no trade up to its own ever had the token. */
  lemma SetsOutExactlyWhen(states: seq<Client>, events: seq<Event>, r: nat, id: nat, read: bool)
    requires Trace(states, events) && r < |events| && events[r] == Resume(id, read) && Possible(states[r], events[r])
    ensures SetsOutForAnother(states[r], id, read)
       <==> exists q: nat, d: nat | q < r && d < r :: JoinedAndOutlived(states, events, r, q, d, id, read)
    ensures SetsOutForAnother(states[r], id, read) ==>
              forall n | 0 <= n <= states[r].requests[id].trade && n < |states[r].traded| ::
                states[r].traded[n] != Refreshable(states[r]).value
  {
    if SetsOutForAnother(states[r], id, read) {
      var q, d := DropperHadJoined(states, events, r, id, read);
    }
    if q: nat, d: nat :| q < r && d < r && JoinedAndOutlived(states, events, r, q, d, id, read) {
      JoinerDrops(states, events, r, q, d, id, read);
    }
  }

  // ---- What the drop costs -------------------------------------------------

  /** From r to n the turn is the request's, which resumed to drop. */
  ghost predicate Resumed(states: seq<Client>, events: seq<Event>, r: nat, n: nat, id: nat)
    requires Trace(states, events) && r < n <= |events|
  {
    events[r] == Resume(id, true) && forall k | r < k <= n :: states[k].turn.Dropping?
  }

  /** The token the request's trade presented. */
  function Presented(c: Client, id: nat): Option<Token> {
    if id in c.requests && c.requests[id].Waiting? && c.requests[id].trade < |c.traded|
    then Some(c.traded[c.requests[id].trade]) else None
  }

  /** In such a turn the store is written by sign-ins and sign-outs only. */
  lemma DroppingEvent(c: Client, e: Event)
    requires Possible(c, e) && Happen(c, e).turn.Dropping?
    ensures if c.turn.Dropping? then Happen(c, e).turn == c.turn && Happen(c, e).traded == c.traded
                                     && (Writes(c, e) ==> e.Store? || e.SignOut?)
            else e.Resume? && e.read && c.store.Some?
                 && Happen(c, e).turn == Dropping(c.store.value) && Happen(c, e).traded == c.traded
  {
    match e
    case AfterUnauthorized(id, failed, read) => UnauthorizedAsks(c, id, failed, read);
    case BeforeExpiry(id, observed, due, read) => EarlyAsks(c, id, observed, due, read);
    case Deliver(read, cleared) => HearChanges(c, c.srv.procs[c.trade.value.pid].reply, read, cleared);
    case _ =>
  }

  lemma {:induction false} FindResume(states: seq<Client>, events: seq<Event>, n: nat) returns (r: nat, id: nat)
    requires Trace(states, events) && n <= |events| && states[n].turn.Dropping?
    ensures r < n && Resumed(states, events, r, n, id)
    decreases n
  {
    assert n > 0;
    assert StepAt(states, events, n - 1);
    DroppingEvent(states[n - 1], events[n - 1]);
    if states[n - 1].turn.Dropping? {
      r, id := FindResume(states, events, n - 1);
    } else {
      r, id := n - 1, events[n - 1].id;
    }
  }

  lemma OneResume(states: seq<Client>, events: seq<Event>, r: nat, id: nat, r': nat, id': nat, n: nat)
    requires Trace(states, events) && r < n <= |events| && r' < n
    requires Resumed(states, events, r, n, id) && Resumed(states, events, r', n, id')
    ensures r == r' && id == id'
  {
    assert StepAt(states, events, r) && StepAt(states, events, r');
  }

  lemma {:induction false} TurnGoesOn(states: seq<Client>, events: seq<Event>, r: nat, n: nat, id: nat)
    requires Trace(states, events) && r < n <= |events| && Resumed(states, events, r, n, id)
    ensures states[r].store.Some? && states[n].turn == Dropping(states[r].store.value)
    ensures states[n].traded == states[r].traded
    decreases n
  {
    assert StepAt(states, events, n - 1);
    DroppingEvent(states[n - 1], events[n - 1]);
    if r < n - 1 {
      TurnGoesOn(states, events, r, n - 1, id);
    }
  }

  /** A sign-in is stored at k and is the stored session at n. */
  ghost predicate SignedIn(states: seq<Client>, events: seq<Event>, k: nat, n: nat)
    requires Trace(states, events) && k < n <= |events|
  {
    events[k].Store? && Unwritten(states, events, k + 1, n)
  }

  /** A session signed in while the request was between its read and its write
      has a token that no trade has had. */
  lemma SignedInIsNew(states: seq<Client>, events: seq<Event>, r: nat, n: nat, id: nat, k: nat)
    requires Trace(states, events) && r < k < n <= |events| && Resumed(states, events, r, n, id) && SignedIn(states, events, k, n)
    ensures Refreshable(states[n]).Some? && Refreshable(states[n]).value !in states[n].traded
  {
    RunInvAt(states, events, k);
    assert StepAt(states, events, k);
    WrittenIsNew(states[k], events[k]);
    StoreUnwritten(states, events, k + 1, n);
    assert Resumed(states, events, r, k, id);
    TurnGoesOn(states, events, r, k, id);
    TurnGoesOn(states, events, r, n, id);
  }

  lemma WrittenMeanwhile(states: seq<Client>, events: seq<Event>, r: nat, n: nat, id: nat) returns (k: nat)
    requires Trace(states, events) && r < n <= |events| && Resumed(states, events, r, n, id) && !Unwritten(states, events, r, n)
    ensures r < k < n
    ensures SignedIn(states, events, k, n) || (states[n].store.None? && forall k' | r < k' < n :: !SignedIn(states, events, k', n))
  {
    k := LastWrite(states, events, r, n);
    assert k != r;
    assert StepAt(states, events, k);
    DroppingEvent(states[k], events[k]);
    if events[k].SignOut? {
      StoreUnwritten(states, events, k + 1, n);
      forall k' | r < k' < n ensures !SignedIn(states, events, k', n) {
        if SignedIn(states, events, k', n) {
          SignedInIsNew(states, events, r, n, id, k');
        }
      }
    }
  }

  /** The drop takes a refresh token that is not the one the request's trade
      presented. */
  ghost predicate TakesAnother(states: seq<Client>, events: seq<Event>, r: nat, n: nat, id: nat)
    requires Trace(states, events) && r < n <= |events|
  {
    Refreshable(states[n]).Some? && Refreshable(states[n]) != Presented(states[r], id)
  }

  lemma UnwrittenTakes(states: seq<Client>, events: seq<Event>, r: nat, n: nat, id: nat)
    requires Trace(states, events) && r < n <= |events| && Resumed(states, events, r, n, id) && Unwritten(states, events, r, n)
    requires Possible(states[r], events[r])
    ensures Presented(states[r], id).Some? && Refreshable(states[n]) == Refreshable(states[r])
    ensures TakesAnother(states, events, r, n, id) <==> SetsOutForAnother(states[r], id, true)
  {
    RunInvAt(states, events, r);
    StoreUnwritten(states, events, r, n);
    assert StepAt(states, events, r) && Resumed(states, events, r, r + 1, id);
    TurnGoesOn(states, events, r, r + 1, id);
  }

  /** The request joined a trade older than the session it read, and that is the
      session its drop finds. */
  ghost predicate JoinedAndLeft(states: seq<Client>, events: seq<Event>, r: nat, n: nat, id: nat)
    requires Trace(states, events) && r < n <= |events|
  {
    && Unwritten(states, events, r, n)
    && exists q: nat, d: nat | q < r && d < r :: JoinedAndOutlived(states, events, r, q, d, id, true)
  }

  ghost predicate SignedInMeanwhile(states: seq<Client>, events: seq<Event>, r: nat, n: nat)
    requires Trace(states, events) && r < n <= |events|
  {
    exists k | r < k < n :: SignedIn(states, events, k, n)
  }

  lemma DropFinds(states: seq<Client>, events: seq<Event>, r: nat, n: nat, id: nat)
    requires Trace(states, events) && r < n <= |events| && Resumed(states, events, r, n, id)
    ensures Presented(states[r], id).Some?
    ensures TakesAnother(states, events, r, n, id) <==>
            JoinedAndLeft(states, events, r, n, id) || SignedInMeanwhile(states, events, r, n)
    ensures JoinedAndLeft(states, events, r, n, id) ==>
              forall m | 0 <= m <= states[r].requests[id].trade && m < |states[r].traded| ::
                states[r].traded[m] != Refreshable(states[n]).value
    ensures SignedInMeanwhile(states, events, r, n) ==> Refreshable(states[n]).value !in states[n].traded
  {
    assert StepAt(states, events, r);
    RunInvAt(states, events, r);
    TurnGoesOn(states, events, r, n, id);
    if Unwritten(states, events, r, n) {
      UnwrittenTakes(states, events, r, n, id);
      SetsOutExactlyWhen(states, events, r, id, true);
    } else {
      var k := WrittenMeanwhile(states, events, r, n, id);
      if SignedIn(states, events, k, n) {
        SignedInIsNew(states, events, r, n, id, k);
      }
    }
  }

  /** Over whole runs, whatever goes wrong: every drop was begun by one request's
      resuming, and puts back the session read then, without its refresh token.
      The refresh token it takes out of the store is not the one the request's
      trade presented exactly when either nothing was stored since, and the
      request had joined a trade, refused, for an older session than the one it
      read; or a sign-in was stored since and is the session overwritten. No
      trade up to the request's own had the token in the first case, and none
      at all in the second. */
  lemma DropsAnotherExactlyWhen(states: seq<Client>, events: seq<Event>, n: nat) returns (r: nat, id: nat)
    requires Trace(states, events) && n < |events| && events[n] == Drop(true)
    ensures r < n && Resumed(states, events, r, n, id)
    ensures forall r': nat, id': nat | r' < n && Resumed(states, events, r', n, id') :: r' == r && id' == id
    ensures states[r].store.Some? && states[n + 1].store == Some(states[r].store.value.(refresh := None))
    ensures Presented(states[r], id).Some?
    ensures TakesAnother(states, events, r, n, id) <==>
            JoinedAndLeft(states, events, r, n, id) || SignedInMeanwhile(states, events, r, n)
    ensures JoinedAndLeft(states, events, r, n, id) ==>
              forall m | 0 <= m <= states[r].requests[id].trade && m < |states[r].traded| ::
                states[r].traded[m] != Refreshable(states[n]).value
    ensures SignedInMeanwhile(states, events, r, n) ==> Refreshable(states[n]).value !in states[n].traded
  {
    assert StepAt(states, events, n);
    r, id := FindResume(states, events, n);
    TurnGoesOn(states, events, r, n, id);
    DropFinds(states, events, r, n, id);
    forall r': nat, id': nat | r' < n && Resumed(states, events, r', n, id') ensures r' == r && id' == id {
      OneResume(states, events, r, id, r', id', n);
    }
  }

  // ---- Runs that get there -------------------------------------------------

  /** While the request for token 0 is out, 0 expires and the driver signs in
      again, with token 1. */
  lemma ServerSignsIn(RC: iset<Client>) returns (c: Client)
    requires Living(RC, true) && Fresh() in RC
    ensures c in RC && c == Fresh().(srv := c.srv, store := Some(Stored(0, Some(0))), trade := Some(Out(0, 0, 1)), traded := [0],
                                     sent := map[1 := 0], requests := map[0 := Waiting(0, Some(0), None)],
                                     arriving := {1}, logins := {0, 1})
    ensures c.srv.procs == map[1 := Reading(0)] && c.srv.now == 1 && c.srv.parent == map[] && c.srv.seen == {0, 1}
    ensures c.srv.rows == map[0 := Row(7, 1, false)][1 := Row(7, 2, false)]
  {
    RequestIsOut(RC, true);
    var out := Scene(map[], map[0 := Row(7, 1, false)], map[1 := Reading(0)], map[0 := 7]);
    c := Refreshing(out, Out(0, 0, 1), map[1 := 0]);
    LivesIn(RC, true, c, Server(Tick(1)));
    c := Happen(c, Server(Tick(1)));
    assert c == Refreshing(out.(now := 1), Out(0, 0, 1), map[1 := 0]);
    LivesIn(RC, true, c, SignIn(7));
    SignsInLater(out);
    c := Happen(c, SignIn(7));
  }

  lemma SignsInLater(out: State)
    requires out == Scene(map[], map[0 := Row(7, 1, false)], map[1 := Reading(0)], map[0 := 7])
    ensures var s := Do(out.(now := 1), Login(7));
            && s.procs == out.procs && s.now == 1 && s.parent == map[] && s.seen == {0, 1} && out.next == 1
            && s.rows == map[0 := Row(7, 1, false)][1 := Row(7, 2, false)]
  {
    assert map[0 := 7].Keys == {0};
  }

  /** A request sent with the new session gets a 401. */
  lemma SignsInMeanwhile(RC: iset<Client>) returns (c: Client)
    requires Living(RC, true) && Fresh() in RC
    ensures c in RC && c.turn.Idle? && c.trade == Some(Out(0, 0, 1)) && c.store == Some(Stored(1, Some(1)))
    ensures c.srv.procs == map[1 := Reading(0)] && c.srv.now == 1 && c.srv.parent == map[] && c.srv.seen == {0, 1}
    ensures c.srv.rows == map[0 := Row(7, 1, false)][1 := Row(7, 2, false)] && c.logins == {0, 1}
    ensures c.traded == [0] && c.sent == map[1 := 0] && c.outcomes == map[]
    ensures 1 in c.requests && c.requests[1] == Waiting(0, Some(1), None)
  {
    c := ServerSignsIn(RC);
    LivesIn(RC, true, c, Store(1));
    c := Happen(c, Store(1));
    LivesIn(RC, true, c, AfterUnauthorized(1, 1, true));
    c := Happen(c, AfterUnauthorized(1, 1, true));
  }

  /** The server reads token 0 and refuses it. */
  lemma ServerRefuses(RC: iset<Client>, c: Client) returns (c': Client)
    requires Living(RC, true) && c in RC && c.trade == Some(Out(0, 0, 1))
    requires c.srv.procs == map[1 := Reading(0)] && 0 in c.srv.rows && !c.srv.rows[0].used && c.srv.now >= c.srv.rows[0].expiresAt
    ensures c' in RC && c' == c.(srv := c'.srv) && c'.srv == c.srv.(procs := map[1 := Replied(0, Refused(Expired))])
  {
    var row := c.srv.rows[0];
    RefusalSteps(c.srv);
    LivesIn(RC, true, c, Server(Advance(1, Fine)));
    var m := c.(srv := c.srv.(procs := map[1 := Checking(0, row.user, row.expiresAt)]));
    assert Happen(c, Server(Advance(1, Fine))) == m;
    LivesIn(RC, true, m, Server(Advance(1, Fine)));
    c' := m.(srv := c.srv.(procs := map[1 := Replied(0, Refused(Expired))]));
  }

  lemma RefusalSteps(s: State)
    requires s.procs == map[1 := Reading(0)] && 0 in s.rows && !s.rows[0].used && s.now >= s.rows[0].expiresAt
    ensures Enabled(s, Advance(1, Fine))
    ensures Do(s, Advance(1, Fine)) == s.(procs := map[1 := Checking(0, s.rows[0].user, s.rows[0].expiresAt)])
    ensures var m := s.(procs := map[1 := Checking(0, s.rows[0].user, s.rows[0].expiresAt)]);
            Enabled(m, Advance(1, Fine)) && Do(m, Advance(1, Fine)) == s.(procs := map[1 := Replied(0, Refused(Expired))])
  {
  }

  /** The refusal of token 0 arrives, and the request that joined wakes. */
  lemma RefusalWakes(RC: iset<Client>, c: Client) returns (c': Client)
    requires Living(RC, true) && c in RC && c.turn.Idle? && c.trade == Some(Out(0, 0, 1)) && c.traded == [0]
    requires c.srv.procs == map[1 := Reading(0)] && 0 in c.srv.rows && !c.srv.rows[0].used && c.srv.now >= c.srv.rows[0].expiresAt
    requires 1 in c.requests && c.requests[1] == Waiting(0, Some(1), None) && Refreshable(c) == Some(1)
    ensures c' in RC && c'.store == c.store && c'.traded == c.traded && c'.sent == c.sent && c'.logins == c.logins
    ensures c'.srv.rows == c.srv.rows && c'.srv.parent == c.srv.parent && c'.srv.seen == c.srv.seen && c'.srv.now == c.srv.now
    ensures Possible(c', Resume(1, true)) && SetsOutForAnother(c', 1, true)
  {
    c' := ServerRefuses(RC, c);
    LivesIn(RC, true, c', Deliver(true, true));
    c' := Happen(c', Deliver(true, true));
  }

  /** It happens even in a faithful run: the new session loses a refresh token
      that is alive on the server, and that no request ever presented. */
  lemma NewSessionIsDropped() returns (c: Client, c': Client)
    ensures Reached(c, true) && Possible(c, Resume(1, true)) && SetsOutForAnother(c, 1, true)
    ensures Refreshable(c) == Some(1) && Unspent(c, 1) && 1 !in c.sent.Values
    ensures 1 in c.srv.rows && !c.srv.rows[1].used && c.srv.now < c.srv.rows[1].expiresAt
    ensures Reached(c', true) && c'.srv == c.srv && c'.store == Some(Stored(1, None))
  {
    var RC := AllReached(true);
    c := SignsInMeanwhile(RC);
    c := RefusalWakes(RC, c);
    assert Root(c.srv.parent, 1) == 1;
    LivesIn(RC, true, c, Resume(1, true));
    c' := Happen(c, Resume(1, true));
    LivesIn(RC, true, c', Drop(true));
    c' := Happen(c', Drop(true));
  }

  /** Token 0 is refused, and the request that presented it resumes to drop it. */
  lemma RefusedResumes(RC: iset<Client>) returns (c: Client)
    requires Living(RC, true) && Fresh() in RC
    ensures c in RC && c.store == Some(Stored(0, Some(0))) && c.turn == Dropping(Stored(0, Some(0))) && c.trade.None?
    ensures c.traded == [0] && c.sent == map[1 := 0] && c.arriving == {} && c.logins == {0}
    ensures c.requests.Keys == {0}
    ensures c.srv == Scene(map[], map[0 := Row(7, 1, false)], map[1 := Replied(0, Refused(Expired))], map[0 := 7]).(now := 1)
  {
    RequestIsOut(RC, true);
    c := Refreshing(Scene(map[], map[0 := Row(7, 1, false)], map[1 := Reading(0)], map[0 := 7]), Out(0, 0, 1), map[1 := 0]);
    LivesIn(RC, true, c, Server(Tick(1)));
    c := Happen(c, Server(Tick(1)));
    c := ServerRefuses(RC, c);
    LivesIn(RC, true, c, Deliver(true, true));
    c := Happen(c, Deliver(true, true));
    LivesIn(RC, true, c, Resume(0, true));
    c := Happen(c, Resume(0, true));
  }

  lemma SignsInAgain(s: State)
    requires s == Scene(map[], map[0 := Row(7, 1, false)], map[1 := Replied(0, Refused(Expired))], map[0 := 7]).(now := 1)
    ensures var s' := Do(s, Login(7));
            && s.next == 1 && s'.now == 1 && s'.parent == map[] && s'.seen == {0, 1}
            && s'.rows == map[0 := Row(7, 1, false)][1 := Row(7, 2, false)]
  {
    assert map[0 := 7].Keys == {0};
  }

  lemma StoresAgain(RC: iset<Client>, c: Client) returns (c': Client)
    requires Living(RC, true) && c in RC && c.logins == {0} && c.arriving == {}
    requires c.srv == Scene(map[], map[0 := Row(7, 1, false)], map[1 := Replied(0, Refused(Expired))], map[0 := 7]).(now := 1)
    ensures c' in RC && c' == c.(srv := Do(c.srv, Login(7)), store := Some(Stored(1, Some(1))), logins := {0, 1})
    ensures c'.srv.parent == map[] && c'.srv.seen == {0, 1} && c'.srv.now == 1
    ensures c'.srv.rows == map[0 := Row(7, 1, false)][1 := Row(7, 2, false)]
  {
    SignsInAgain(c.srv);
    LivesIn(RC, true, c, SignIn(7));
    c' := StoresArriving(RC, Happen(c, SignIn(7)));
  }

  lemma StoresArriving(RC: iset<Client>, c: Client) returns (c': Client)
    requires Living(RC, true) && c in RC && c.arriving == {1}
    ensures c' in RC && c' == c.(store := Some(Stored(1, Some(1))), arriving := {})
  {
    LivesIn(RC, true, c, Store(1));
    c' := Happen(c, Store(1));
  }

  /** And with no trade joined: a driver signs in again between the read and the
      write of the one request there ever was. Its drop leaves the old session's
      access token in place of the new session, whose token is alive and was
      never presented. */
  lemma NewSessionIsOverwritten() returns (c: Client, c': Client)
    ensures Reached(c, true) && Possible(c, Drop(true)) && c.requests.Keys == {0} && c.traded == [0]
    ensures c.store == Some(Stored(1, Some(1))) && Unspent(c, 1) && 1 !in c.sent.Values
    ensures 1 in c.srv.rows && !c.srv.rows[1].used && c.srv.now < c.srv.rows[1].expiresAt
    ensures Reached(c', true) && c' == Happen(c, Drop(true)) && c'.store == Some(Stored(0, None))
  {
    var RC := AllReached(true);
    c := RefusedResumes(RC);
    c := StoresAgain(RC, c);
    assert Root(c.srv.parent, 1) == 1;
    LivesIn(RC, true, c, Drop(true));
    c' := Happen(c, Drop(true));
  }
}
