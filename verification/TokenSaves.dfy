/** What a trade's answer replaces in the token store (save in
    TokenRefresher.swift), over whole runs of TokenRuns. The answer is kept from a
    newer sign-in or sign-out by a read before the write, and between the two the
    store can be written. */
module TokenSaves {
  import opened Prelude
  import opened RefreshTokens
  import opened TokenLineage
  import opened TokenClient
  import opened TokenRuns
  import opened TokenSpending

  /** From r to n the turn is the one in which the answer arrived and the store
      was read. */
  ghost predicate Delivered(states: seq<Client>, events: seq<Event>, r: nat, n: nat)
    requires Trace(states, events) && r < n <= |events|
  {
    events[r].Deliver? && forall k | r < k <= n :: states[k].turn.Saving?
  }

  /** In such a turn the store is written by sign-ins and sign-outs only. */
  lemma SavingEvent(c: Client, e: Event)
    requires Possible(c, e) && Happen(c, e).turn.Saving?
    ensures Happen(c, e).trade == c.trade && Happen(c, e).traded == c.traded
    ensures if c.turn.Saving? then Happen(c, e).turn == c.turn && (Writes(c, e) ==> e.Store? || e.SignOut?)
            else e.Deliver? && c.trade.Some? && !Writes(c, e) && Refreshable(c) == Some(c.trade.value.tok)
  {
    match e
    case AfterUnauthorized(id, failed, read) => UnauthorizedAsks(c, id, failed, read);
    case BeforeExpiry(id, observed, due, read) => EarlyAsks(c, id, observed, due, read);
    case _ =>
  }

  lemma {:induction false} FindDelivery(states: seq<Client>, events: seq<Event>, n: nat) returns (r: nat)
    requires Trace(states, events) && n <= |events| && states[n].turn.Saving?
    ensures r < n && Delivered(states, events, r, n)
    decreases n
  {
    assert n > 0;
    assert StepAt(states, events, n - 1);
    SavingEvent(states[n - 1], events[n - 1]);
    r := n - 1;
    if states[r].turn.Saving? {
      r := FindDelivery(states, events, n - 1);
    }
  }

  lemma {:induction false} AnswerIsHeld(states: seq<Client>, events: seq<Event>, r: nat, n: nat)
    requires Trace(states, events) && r < n <= |events| && Delivered(states, events, r, n)
    ensures states[n].trade == states[r].trade && states[n].traded == states[r].traded
    ensures states[r].trade.Some? && Refreshable(states[r]) == Some(states[r].trade.value.tok) && !Writes(states[r], events[r])
    decreases n
  {
    assert StepAt(states, events, n - 1);
    SavingEvent(states[n - 1], events[n - 1]);
    if r < n - 1 {
      AnswerIsHeld(states, events, r, n - 1);
    }
  }

  /** Whatever was written since has replaced the trade's session: with none, or
      with one whose token no trade has had. */
  lemma WrittenIsNewer(states: seq<Client>, events: seq<Event>, r: nat, n: nat)
    requires Trace(states, events) && r < n <= |events| && Delivered(states, events, r, n) && !Unwritten(states, events, r, n)
    ensures states[n].store.None? || (Refreshable(states[n]).Some? && Refreshable(states[n]).value !in states[n].traded)
  {
    AnswerIsHeld(states, events, r, n);
    var k := LastWrite(states, events, r, n);
    assert k != r;
    RunInvAt(states, events, k);
    assert StepAt(states, events, k);
    SavingEvent(states[k], events[k]);
    StoreUnwritten(states, events, k + 1, n);
    assert Delivered(states, events, r, k);
    AnswerIsHeld(states, events, r, k);
    if events[k].Store? {
      WrittenIsNew(states[k], events[k]);
    }
  }

  /** The event changes a store that no longer holds the trade's session. */
  ghost predicate ReplacesNewer(c: Client, e: Event)
    requires Possible(c, e) && c.trade.Some?
  {
    Refreshable(c) != Some(c.trade.value.tok) && Happen(c, e).store != c.store
  }

  lemma SaveWrites(c: Client, written: bool, cleared: bool)
    requires RunInv(c) && Possible(c, Save(written, cleared))
    ensures Happen(c, Save(written, cleared)).store != c.store <==> written || (cleared && c.store.Some?)
  {
  }

  /** Over whole runs, whatever goes wrong: a save comes after one delivery that
      found the trade's session stored. A sign-in or a sign-out after that is
      kept from the answer exactly when it is not made before the save: the save
      replaces something newer if and only if the store was written in between,
      and the save writes it, or clears what is there. */
  lemma SaveReplacesNewerExactlyWhen(states: seq<Client>, events: seq<Event>, n: nat, written: bool, cleared: bool)
    returns (r: nat)
    requires Trace(states, events) && n < |events| && events[n] == Save(written, cleared) && Possible(states[n], events[n])
    ensures r < n && Delivered(states, events, r, n)
    ensures forall r': nat | r' < n && Delivered(states, events, r', n) :: r' == r
    ensures ReplacesNewer(states[n], events[n]) <==>
            !Unwritten(states, events, r, n) && (written || (cleared && states[n].store.Some?))
    ensures !Unwritten(states, events, r, n) ==>
              states[n].store.None? || (Refreshable(states[n]).Some? && Refreshable(states[n]).value !in states[n].traded)
  {
    RunInvAt(states, events, n);
    r := FindDelivery(states, events, n);
    AnswerIsHeld(states, events, r, n);
    SaveWrites(states[n], written, cleared);
    if Unwritten(states, events, r, n) {
      StoreUnwritten(states, events, r, n);
    } else {
      WrittenIsNewer(states, events, r, n);
    }
    forall r': nat | r' < n && Delivered(states, events, r', n) ensures r' == r {
      OneDelivery(states, events, r, r', n);
    }
  }

  /** A delivery that cannot read the store clears it, whatever it holds. */
  lemma DeliveryReplacesNewerExactlyWhen(c: Client, read: bool, cleared: bool)
    requires Possible(c, Deliver(read, cleared))
    ensures ReplacesNewer(c, Deliver(read, cleared)) <==>
            c.srv.procs[c.trade.value.pid].reply.Issued? && !read && cleared && c.store.Some?
            && Refreshable(c) != Some(c.trade.value.tok)
  {
  }

  lemma OneDelivery(states: seq<Client>, events: seq<Event>, r: nat, r': nat, n: nat)
    requires Trace(states, events) && r < n <= |events| && r' < n
    requires Delivered(states, events, r, n) && Delivered(states, events, r', n)
    ensures r == r'
  {
    assert StepAt(states, events, r) && StepAt(states, events, r');
  }

  // ---- Runs that get there -------------------------------------------------

  /** Token 0 has been exchanged for token 1, and the request is about to answer. */
  function Exchanged(pc: Pc): State {
    Scene(map[], map[0 := Row(7, 1, true)][1 := Row(7, 1, false)], map[1 := pc], map[0 := 7][1 := 7])
      .(parent := map[1 := 0])
  }

  function Inserting(): State {
    State(0, 1, map[7 := true], map[7 := 1], map[0 := Row(7, 1, false)], map[1 := Inserted(0, 7, 1, 1)],
      2, map[0 := 7][1 := 7], {0}, map[])
  }

  lemma InsertStep(s: State)
    requires s == Scene(map[7 := 1], map[0 := Row(7, 1, false)], map[1 := Marked(0, 7, 1)], map[0 := 7])
    ensures Enabled(s, Advance(1, Fine)) && Do(s, Advance(1, Fine)) == Inserting()
  {
    assert map[0 := 7].Keys == {0};
  }

  lemma CommitStep()
    ensures Enabled(Inserting(), Advance(1, Fine)) && Do(Inserting(), Advance(1, Fine)) == Exchanged(Rotated(0, 1))
  {
    Committed();
    CommitMoves(Inserting(), 1);
    assert map[7 := 1] - {7} == map[];
    assert map[1 := Inserted(0, 7, 1, 1)][1 := Rotated(0, 1)] == map[1 := Rotated(0, 1)];
  }

  lemma CommitMoves(s: State, pid: Pid)
    requires pid in s.procs && s.procs[pid].Inserted?
    ensures Enabled(s, Advance(pid, Fine))
    ensures var Inserted(tok, user, until, heir) := s.procs[pid];
            Do(s, Advance(pid, Fine)) ==
            CommitRotation(s, tok, heir, user, until).(procs := s.procs[pid := Rotated(tok, heir)], held := s.held - {user})
  {
  }

  lemma Committed()
    ensures CommitRotation(Inserting(), 0, 1, 7, 1) == Exchanged(Inserted(0, 7, 1, 1)).(held := map[7 := 1])
  {
    assert map[0 := 7][1 := 7].Keys == {0, 1};
    assert |map[0 := 7][1 := 7].Keys| == |map[0 := 7][1 := 7]|;
  }

  lemma AnswerStep()
    ensures Enabled(Exchanged(Rotated(0, 1)), Advance(1, Fine))
    ensures Do(Exchanged(Rotated(0, 1)), Advance(1, Fine)) == Exchanged(Replied(0, Issued(1)))
  {
  }

  /** The answer has arrived and the store has been read, nothing having gone
      wrong. */
  lemma AnswerIsRead(RC: iset<Client>) returns (c: Client)
    requires Living(RC, true) && Fresh() in RC
    ensures c in RC && c == Refreshing(Exchanged(Replied(0, Issued(1))), Out(0, 0, 1), map[1 := 0]).(turn := Saving(1))
  {
    RequestIsMarking(RC, true);
    var s := Scene(map[7 := 1], map[0 := Row(7, 1, false)], map[1 := Marked(0, 7, 1)], map[0 := 7]);
    InsertStep(s);
    CommitStep();
    AnswerStep();
    c := Refreshing(s, Out(0, 0, 1), map[1 := 0]);
    LivesIn(RC, true, c, Server(Advance(1, Fine)));
    c := Happen(c, Server(Advance(1, Fine)));
    assert c == Refreshing(Inserting(), Out(0, 0, 1), map[1 := 0]);
    LivesIn(RC, true, c, Server(Advance(1, Fine)));
    c := Happen(c, Server(Advance(1, Fine)));
    assert c == Refreshing(Exchanged(Rotated(0, 1)), Out(0, 0, 1), map[1 := 0]);
    LivesIn(RC, true, c, Server(Advance(1, Fine)));
    c := Happen(c, Server(Advance(1, Fine)));
    LivesIn(RC, true, c, Deliver(true, true));
    c := Happen(c, Deliver(true, true));
  }

  /** It happens in a faithful run: the driver signs out between the read and the
      write, and the save signs the app in again. */
  lemma SignOutIsUndone() returns (c: Client, c': Client)
    ensures Reached(c, true) && Possible(c, Save(true, true)) && c.store.None? && c.turn.Saving?
    ensures Reached(c', true) && c' == Happen(c, Save(true, true)) && c'.store == Some(Stored(1, Some(1)))
  {
    var RC := AllReached(true);
    c := AnswerIsRead(RC);
    LivesIn(RC, true, c, SignOut);
    c := Happen(c, SignOut);
    LivesIn(RC, true, c, Save(true, true));
    c' := Happen(c, Save(true, true));
  }

  /** And the driver signs in again in between: the older session is saved over
      the new one, whose token, 2, is never presented. */
  lemma NewerSessionIsReplaced() returns (c: Client, c': Client)
    ensures Reached(c, true) && Possible(c, Save(true, true)) && c.store == Some(Stored(2, Some(2))) && c.turn.Saving?
    ensures Unspent(c, 2) && 2 in c.srv.rows && 2 !in c.sent.Values
    ensures Reached(c', true) && c' == Happen(c, Save(true, true)) && c'.store == Some(Stored(1, Some(1)))
  {
    var RC := AllReached(true);
    c := AnswerIsRead(RC);
    c := SignsInMeanwhile(RC, c);
    NoParent(c.srv.parent, 2);
    LivesIn(RC, true, c, Save(true, true));
    c' := Happen(c, Save(true, true));
  }

  lemma NoParent(parent: map<Token, Token>, t: Token)
    requires t !in parent
    ensures Root(parent, t) == t
  {
  }

  lemma ThirdLogin(s: State)
    requires s == Exchanged(Replied(0, Issued(1)))
    ensures Enabled(s, Login(7)) && s.next == 2
    ensures var s' := Do(s, Login(7));
            s'.procs == s.procs && s'.parent == map[1 := 0] && s'.seen == {0, 1, 2} && 2 in s'.rows
  {
    assert map[0 := 7][1 := 7].Keys == {0, 1};
  }

  lemma SignsInMeanwhile(RC: iset<Client>, c: Client) returns (c': Client)
    requires Living(RC, true) && c in RC
    requires c == Refreshing(Exchanged(Replied(0, Issued(1))), Out(0, 0, 1), map[1 := 0]).(turn := Saving(1))
    ensures c' in RC && c'.store == Some(Stored(2, Some(2)))
    ensures c'.turn == c.turn && c'.trade == c.trade && c'.sent == c.sent && c'.logins == {0, 2}
    ensures c'.srv.parent == map[1 := 0] && c'.srv.seen == {0, 1, 2} && 2 in c'.srv.rows
  {
    ThirdLogin(c.srv);
    LivesIn(RC, true, c, SignIn(7));
    c' := Happen(c, SignIn(7));
    LivesIn(RC, true, c', Store(2));
    c' := Happen(c', Store(2));
  }
}
