/** What the refresh tokens promise over every interleaving of RefreshTokens, and
    where the code does less, or more, than its comments say (auth_refresh.go,
    store_refresh_tokens.go). */
module TokenLineage {
  import opened Prelude
  import opened RefreshTokens

  // ---- Reuse kills the lineage ---------------------------------------------

  /** The server takes the token the request presents for spent: it read the
      row as used, or found nothing to mark once it had the user's lock. */
  ghost predicate Spotted(s: State, pid: Pid, tok: Token) {
    && pid in s.procs
    && match s.procs[pid]
       case Reading(t) => t == tok && tok in s.rows && s.rows[tok].used
       case Rotating(t, user, _) => t == tok && user !in s.users
       case Locked(t, _, _) => t == tok && (tok in s.rows ==> s.rows[tok].used)
       case _ => false
  }

  /** From then on the request can only end with the revocation, or a 500. */
  ghost predicate Condemned(pc: Pc, tok: Token) {
    match pc
    case Revoking(_, cause) => cause == AfterReuse(tok)
    case RevokeLocked(_, cause) => cause == AfterReuse(tok)
    case RevokeDeleted(_, cause, _) => cause == AfterReuse(tok)
    case Replied(t, reply) => t == tok && (reply == Failed || reply == Refused(Reused))
    case _ => false
  }

  lemma ForwardMovesOne(s: State, pid: Pid, lost: bool)
    requires pid in s.procs
    ensures Forward(s, pid, lost).procs.Keys == s.procs.Keys
    ensures forall p | p in s.procs && p != pid :: Forward(s, pid, lost).procs[p] == s.procs[p]
  {
  }

  lemma OthersStay(s: State, a: Action, pid: Pid)
    requires Enabled(s, a) && pid in s.procs
    requires a.Advance? ==> a.pid != pid
    ensures pid in Do(s, a).procs && Do(s, a).procs[pid] == s.procs[pid]
  {
    if a.Advance? {
      ForwardMovesOne(s, a.pid, a.luck == CommitLost);
    }
  }

  lemma {:induction false} StaysCondemned(s: State, actions: seq<Action>, s': State, pid: Pid, tok: Token)
    requires Reaches(s, actions, s') && pid in s.procs && Condemned(s.procs[pid], tok)
    ensures pid in s'.procs && Condemned(s'.procs[pid], tok)
    decreases |actions|
  {
    if |actions| > 0 {
      if actions[0] != Advance(pid, Fine) && actions[0] != Advance(pid, Error) && actions[0] != Advance(pid, CommitLost) {
        OthersStay(s, actions[0], pid);
      }
      StaysCondemned(Do(s, actions[0]), actions[1..], s', pid, tok);
    }
  }

  /** Reuse detection. Whatever interleaves, a request whose token was found
      spent and that answers 401 leaves nothing of the token's lineage, at that
      moment or ever after; otherwise it is still at work or answered 500. */
  lemma ReuseKillsLineage(s: State, pid: Pid, tok: Token, luck: Luck,
                          after: seq<Action>, s': State)
    requires Reachable(s) && Spotted(s, pid, tok)
    requires Enabled(s, Advance(pid, luck)) && Reaches(Do(s, Advance(pid, luck)), after, s')
    ensures pid in s'.procs && Condemned(s'.procs[pid], tok)
    ensures s'.procs[pid].Replied? && s'.procs[pid].reply.Refused? ==> Dead(s', tok)
  {
    ReachableInv(s);
    StepKeepsInv(s, Advance(pid, luck));
    RunKeepsInv(Do(s, Advance(pid, luck)), after, s');
    StaysCondemned(Do(s, Advance(pid, luck)), after, s', pid, tok);
    assert PcInv(s', s'.procs[pid]);
  }

  /** What is taken for spent: at the read, exactly the tokens that have a
      successor; under the lock, those and the ones whose row is gone; and when
      there is no user to lock, whose rows have gone with them. */
  lemma SpottedExactlyWhen(s: State, pid: Pid, tok: Token)
    requires Reachable(s) && pid in s.procs
    ensures s.procs[pid] == Reading(tok) ==> (Spotted(s, pid, tok) <==> tok in s.rows && HasChild(s, tok))
    ensures s.procs[pid].Locked? && s.procs[pid].tok == tok ==>
              (Spotted(s, pid, tok) <==> HasChild(s, tok) || tok !in s.rows)
    ensures s.procs[pid].Rotating? && s.procs[pid].tok == tok ==>
              (Spotted(s, pid, tok) <==> s.procs[pid].user !in s.users)
              && (Spotted(s, pid, tok) ==> tok !in s.rows)
  {
    ReachableInv(s);
    assert PcInv(s, s.procs[pid]);
  }

  // ---- One successor, one live token per login -----------------------------

  lemma {:induction false} ChildOnTheWay(s: State, d: Token, t: Token, child: Token)
    requires ParentInv(s) && Descends(s.parent, d, t) && child in s.parent && s.parent[child] == t
    ensures d == child || Descends(s.parent, d, child)
    decreases d
  {
    if s.parent[d] != t {
      ChildOnTheWay(s, s.parent[d], t, child);
    }
  }

  /** Tokens of one login form a single line. */
  lemma {:induction false} SameRootInLine(s: State, a: Token, b: Token)
    requires ParentInv(s) && Root(s.parent, a) == Root(s.parent, b)
    ensures a == b || Descends(s.parent, a, b) || Descends(s.parent, b, a)
    decreases a + b
  {
    if a !in s.parent {
      RootIsAncestor(s, b);
    } else if b !in s.parent {
      RootIsAncestor(s, a);
    } else {
      SameRootInLine(s, s.parent[a], s.parent[b]);
      if Descends(s.parent, s.parent[a], s.parent[b]) {
        ChildOnTheWay(s, s.parent[a], s.parent[b], b);
      } else if Descends(s.parent, s.parent[b], s.parent[a]) {
        ChildOnTheWay(s, s.parent[b], s.parent[a], a);
      }
    }
  }

  lemma {:induction false} RootIsAncestor(s: State, t: Token)
    requires ParentInv(s)
    ensures Root(s.parent, t) == t || Descends(s.parent, t, Root(s.parent, t))
    decreases t
  {
    if t in s.parent {
      RootIsAncestor(s, s.parent[t]);
    }
  }

  /** No token is ever exchanged twice, a token is spent exactly when it has been
      exchanged, and each login has at most one unspent token. */
  lemma OneLiveTokenPerLogin(s: State)
    requires Reachable(s)
    ensures forall c, d | c in s.parent && d in s.parent && s.parent[c] == s.parent[d] :: c == d
    ensures forall t | t in s.rows :: s.rows[t].used <==> HasChild(s, t)
    ensures forall a, b | a in s.rows && b in s.rows && !s.rows[a].used && !s.rows[b].used
                          && Root(s.parent, a) == Root(s.parent, b) :: a == b
  {
    ReachableInv(s);
    forall a, b | a in s.rows && b in s.rows && !s.rows[a].used && !s.rows[b].used
                  && Root(s.parent, a) == Root(s.parent, b)
      ensures a == b
    {
      SameRootInLine(s, a, b);
      if Descends(s.parent, a, b) {
        DescendsShares(s, a, b);
      } else if Descends(s.parent, b, a) {
        DescendsShares(s, b, a);
      }
    }
  }

  // ---- Revocation is complete ----------------------------------------------

  lemma CommitLeavesNothing(s: State, pid: Pid)
    requires Inv(s) && pid in s.procs && s.procs[pid].RevokeDeleted?
    ensures forall lost, t: Token | t in Forward(s, pid, lost).rows :: Forward(s, pid, lost).rows[t].user != s.procs[pid].user
  {
    var RevokeDeleted(user, cause, gone) := s.procs[pid];
    RevocationKeepsPcs(s, CommitRevocation(s, user, cause, gone), pid, user, cause, gone);
  }

  lemma LoginKeepsOnlyFrom(s: State, s': State, user: User, row: Row, who: User, before: Token)
    requires RowsInv(s) && ParentInv(s) && LoggedIn(s, s', user, row) && OnlyFrom(s, who, before) && before <= s.next
    ensures OnlyFrom(s', who, before)
  {
    assert s.next !in s.parent;
  }

  /** What a user holds goes on coming from logins since. */
  lemma StepKeepsOnlyFrom(s: State, a: Action, who: User, before: Token)
    requires Inv(s) && Enabled(s, a) && OnlyFrom(s, who, before) && before <= s.next
    ensures OnlyFrom(Do(s, a), who, before) && before <= Do(s, a).next
  {
    match a
    case Login(user) => LoginKeepsOnlyFrom(s, Do(s, a), user, Row(user, s.now + s.ttl, false), who, before);
    case Advance(pid, luck) =>
      if luck != Error && s.procs[pid].Inserted? {
        var Inserted(tok, user, heirUntil, heir) := s.procs[pid];
        assert PcInv(s, s.procs[pid]);
        RotationKeepsOnlyFrom(s, tok, heir, user, heirUntil, who, before);
      }
    case _ =>
  }

  lemma {:induction false} RunKeepsOnlyFrom(s: State, actions: seq<Action>, s': State, who: User, before: Token)
    requires Inv(s) && Reaches(s, actions, s') && OnlyFrom(s, who, before) && before <= s.next
    ensures OnlyFrom(s', who, before)
    decreases |actions|
  {
    if |actions| > 0 {
      StepKeepsInv(s, actions[0]);
      StepKeepsOnlyFrom(s, actions[0], who, before);
      RunKeepsOnlyFrom(Do(s, actions[0]), actions[1..], s', who, before);
    }
  }

  /** A logout, password change or deactivation that commits, acknowledged or
      not, leaves the user no token, and whatever the user holds afterwards goes
      back to a login committed later, even where a rotation was open when it
      began. */
  lemma RevocationIsComplete(s: State, pid: Pid, luck: Luck, after: seq<Action>, s': State)
    requires Reachable(s) && pid in s.procs && s.procs[pid].RevokeDeleted? && luck != Error
    requires Reaches(Do(s, Advance(pid, luck)), after, s')
    ensures forall t | t in Do(s, Advance(pid, luck)).rows :: Do(s, Advance(pid, luck)).rows[t].user != s.procs[pid].user
    ensures OnlyFrom(s', s.procs[pid].user, s.next)
  {
    ReachableInv(s);
    CommitLeavesNothing(s, pid);
    StepKeepsInv(s, Advance(pid, luck));
    RunKeepsOnlyFrom(Do(s, Advance(pid, luck)), after, s', s.procs[pid].user, s.next);
  }

  // ---- Where the code does less, or more, than its comments say ------------

  /** A rotation that ends in a 500 has spent the client's token all the same
      exactly when its commit took effect unacknowledged, or when what failed
      came after the commit. */
  lemma FailureSpendsExactlyWhen(s: State, pid: Pid, luck: Luck)
    requires Reachable(s) && Enabled(s, Advance(pid, luck)) && luck != Fine
    requires s.procs[pid].Marked? || s.procs[pid].Inserted? || s.procs[pid].Rotated?
    ensures Do(s, Advance(pid, luck)).procs[pid] == Replied(s.procs[pid].tok, Failed)
    ensures HasChild(Do(s, Advance(pid, luck)), s.procs[pid].tok) <==> luck == CommitLost || s.procs[pid].Rotated?
  {
    ReachableInv(s);
    var pc := s.procs[pid];
    assert PcInv(s, pc);
    var s' := Do(s, Advance(pid, luck));
    if luck == CommitLost {
      assert s'.parent[pc.heir] == pc.tok;
    } else {
      assert s'.parent == s.parent;
      if pc.Rotated? {
        assert s'.parent[pc.heir] == pc.tok;
      }
    }
  }

  /** A set that a run does not leave. */
  ghost predicate Closed(R: iset<State>) {
    forall s, a | s in R && Enabled(s, a) :: Do(s, a) in R
  }

  /** The one user, 7, after the logins that owner lists and no rotation. */
  function Scene(held: map<User, Pid>, rows: map<Token, Row>, procs: map<Pid, Pc>, owner: map<Token, User>): State {
    State(0, 1, map[7 := true], held, rows, procs, |owner|, owner, owner.Keys, map[])
  }

  /** A set that requests getting on as meant do not leave. */
  ghost predicate Advancing(R: iset<State>) {
    forall s, pid | s in R && Enabled(s, Advance(pid, Fine)) :: Do(s, Advance(pid, Fine)) in R
  }

  lemma AdvanceStays(R: iset<State>, s: State, pid: Pid)
    requires Advancing(R) && s in R && Enabled(s, Advance(pid, Fine))
    ensures Do(s, Advance(pid, Fine)) in R
  {
  }

  lemma ClosedIsAdvancing(R: iset<State>)
    requires Closed(R)
    ensures Advancing(R)
  {
    forall s, pid | s in R && Enabled(s, Advance(pid, Fine)) ensures Do(s, Advance(pid, Fine)) in R {
      StepStays(R, s, Advance(pid, Fine));
    }
  }

  lemma StepStays(R: iset<State>, s: State, a: Action)
    requires Closed(R) && s in R && Enabled(s, a)
    ensures Do(s, a) in R
  {
  }

  lemma SceneLogin(R: iset<State>, procs: map<Pid, Pc>, owner: map<Token, User>)
    requires Closed(R) && Scene(map[], map[], procs, owner) in R && |owner| !in owner
    ensures Scene(map[], map[|owner| := Row(7, 1, false)], procs, owner[|owner| := 7]) in R
  {
    var s := Scene(map[], map[], procs, owner);
    StepStays(R, s, Login(7));
    assert owner.Keys + {|owner|} == owner[|owner| := 7].Keys;
    assert |owner[|owner| := 7].Keys| == |owner[|owner| := 7]|;
    assert Do(s, Login(7)) == Scene(map[], map[|owner| := Row(7, 1, false)], procs, owner[|owner| := 7]);
  }

  lemma SceneStep(R: iset<State>, rows: map<Token, Row>, others: map<Pid, Pc>, owner: map<Token, User>, pid: Pid, pc: Pc, pc': Pc)
    requires Advancing(R) && Scene(map[], rows, others[pid := pc], owner) in R
    requires Ordinary(Scene(map[], rows, others[pid := pc], owner), pid)
    requires Next(Scene(map[], rows, others[pid := pc], owner), pc, false) == pc' && Holds(pc).None?
    ensures Scene(if Holds(pc').Some? then map[Holds(pc').value := pid] else map[], rows, others[pid := pc'], owner) in R
  {
    AdvanceStays(R, Scene(map[], rows, others[pid := pc], owner), pid);
    assert others[pid := pc][pid := pc'] == others[pid := pc'];
  }

  /** A step taken with the user locked that writes nothing. */
  lemma SceneLocked(R: iset<State>, rows: map<Token, Row>, others: map<Pid, Pc>, owner: map<Token, User>, pid: Pid, pc: Pc, pc': Pc)
    requires Advancing(R) && Scene(map[7 := pid], rows, others[pid := pc], owner) in R
    requires Ordinary(Scene(map[7 := pid], rows, others[pid := pc], owner), pid)
    requires Next(Scene(map[7 := pid], rows, others[pid := pc], owner), pc, false) == pc' && Holds(pc) == Some(7)
    requires Holds(pc').Some? ==> Holds(pc') == Some(7)
    ensures Scene(if Holds(pc').Some? then map[7 := pid] else map[], rows, others[pid := pc'], owner) in R
  {
    AdvanceStays(R, Scene(map[7 := pid], rows, others[pid := pc], owner), pid);
    assert others[pid := pc][pid := pc'] == others[pid := pc'];
    assert map[7 := pid] - {7} == map[];
  }

  lemma SceneMoved(rows: map<Token, Row>, others: map<Pid, Pc>, owner: map<Token, User>, pid: Pid, pc: Pc, pc': Pc)
    requires Holds(pc) == Some(7) && Holds(pc').None?
    ensures Move(Scene(map[7 := pid], rows, others[pid := pc], owner), pid, pc') == Scene(map[], rows, others[pid := pc'], owner)
  {
    assert others[pid := pc][pid := pc'] == others[pid := pc'];
    assert map[7 := pid] - {7} == map[];
  }

  lemma SceneCommit(R: iset<State>, tok: Token, others: map<Pid, Pc>, owner: map<Token, User>, pid: Pid, cause: Cause)
    requires Advancing(R) && Scene(map[7 := pid], map[tok := Row(7, 1, false)], others[pid := RevokeDeleted(7, cause, {tok})], owner) in R
    requires cause != Deactivation
    ensures Scene(map[], map[], others[pid := Conclude(Scene(map[], map[], others, owner), 7, cause)], owner) in R
  {
    var pc := RevokeDeleted(7, cause, {tok});
    var s := Scene(map[7 := pid], map[tok := Row(7, 1, false)], others[pid := pc], owner);
    AdvanceStays(R, s, pid);
    assert CommitRevocation(s, 7, cause, {tok}) == Scene(map[7 := pid], map[], others[pid := pc], owner) by {
      assert s.rows - {tok} == map[];
    }
    SceneMoved(map[], others, owner, pid, pc, Conclude(s, 7, cause));
  }

  lemma SceneDelete(R: iset<State>, tok: Token, others: map<Pid, Pc>, owner: map<Token, User>, pid: Pid, cause: Cause)
    requires Advancing(R) && Scene(map[7 := pid], map[tok := Row(7, 1, false)], others[pid := RevokeLocked(7, cause)], owner) in R
    ensures Scene(map[7 := pid], map[tok := Row(7, 1, false)], others[pid := RevokeDeleted(7, cause, {tok})], owner) in R
  {
    var row := map[tok := Row(7, 1, false)];
    assert (set t | t in row && row[t].user == 7) == {tok};
    SceneLocked(R, row, others, owner, pid, RevokeLocked(7, cause), RevokeDeleted(7, cause, {tok}));
  }

  /** The user's one token is deleted, and the request concludes. */
  lemma SceneRevocation(R: iset<State>, tok: Token, others: map<Pid, Pc>, owner: map<Token, User>, pid: Pid, cause: Cause)
    requires Advancing(R) && Scene(map[], map[tok := Row(7, 1, false)], others[pid := Revoking(7, cause)], owner) in R
    requires cause != Deactivation
    ensures Scene(map[], map[], others[pid := Conclude(Scene(map[], map[], others, owner), 7, cause)], owner) in R
  {
    SceneStep(R, map[tok := Row(7, 1, false)], others, owner, pid, Revoking(7, cause), RevokeLocked(7, cause));
    SceneDelete(R, tok, others, owner, pid, cause);
    SceneCommit(R, tok, others, owner, pid, cause);
  }

  lemma RefreshPresented(R: iset<State>)
    requires Closed(R) && Scene(map[], map[], map[], map[]) in R
    ensures Scene(map[], map[0 := Row(7, 1, false)], map[1 := Reading(0)], map[0 := 7]) in R
  {
    SceneLogin(R, map[], map[]);
    assert map[][0 := 7] == map[0 := 7];
    StepStays(R, Scene(map[], map[0 := Row(7, 1, false)], map[], map[0 := 7]), Present(1, 0));
  }

  lemma RefreshGetsToTheLock(R: iset<State>, row: map<Token, Row>, owner: map<Token, User>)
    requires Advancing(R) && Scene(map[], row, map[1 := Reading(0)], owner) in R && row == map[0 := Row(7, 1, false)]
    ensures Scene(map[], row, map[1 := Rotating(0, 7, 1)], owner) in R
  {
    SceneStep(R, row, map[], owner, 1, Reading(0), Checking(0, 7, 1));
    SceneStep(R, row, map[], owner, 1, Checking(0, 7, 1), FindingUser(0, 7));
    RefreshFindsUser(R, row, owner);
  }

  lemma RefreshFindsUser(R: iset<State>, row: map<Token, Row>, owner: map<Token, User>)
    requires Advancing(R) && Scene(map[], row, map[1 := FindingUser(0, 7)], owner) in R && row == map[0 := Row(7, 1, false)]
    ensures Scene(map[], row, map[1 := Rotating(0, 7, 1)], owner) in R
  {
    SceneStep(R, row, map[], owner, 1, FindingUser(0, 7), Rotating(0, 7, 1));
  }

  /** A refresh is about to lock the user when a logout runs. */
  lemma LogoutOvertakesRefresh(R: iset<State>)
    requires Closed(R) && Scene(map[], map[], map[], map[]) in R
    ensures Scene(map[], map[], map[1 := Rotating(0, 7, 1)][2 := Revoked(7, Logout, 1)], map[0 := 7]) in R
  {
    var row, owner := map[0 := Row(7, 1, false)], map[0 := 7];
    ClosedIsAdvancing(R);
    RefreshPresented(R);
    RefreshGetsToTheLock(R, row, owner);
    var waiting := map[1 := Rotating(0, 7, 1)];
    StepStays(R, Scene(map[], row, waiting, owner), Revoke(2, 7, Logout));
    SceneRevocation(R, 0, waiting, owner, 2, Logout);
  }

  lemma RefreshLosesToNobody(R: iset<State>)
    requires Closed(R) && Scene(map[], map[], map[], map[]) in R
    ensures Scene(map[7 := 1], map[1 := Row(7, 1, false)],
                  map[2 := Revoked(7, Logout, 1)][1 := Locked(0, 7, 1)], map[0 := 7][1 := 7]) in R
    ensures Scene(map[], map[], map[2 := Revoked(7, Logout, 1)][1 := Replied(0, Refused(Reused))], map[0 := 7][1 := 7]) in R
  {
    LogoutOvertakesRefresh(R);
    ClosedIsAdvancing(R);
    var row, owner := map[1 := Row(7, 1, false)], map[0 := 7][1 := 7];
    var out := map[2 := Revoked(7, Logout, 1)];
    assert map[1 := Rotating(0, 7, 1)][2 := Revoked(7, Logout, 1)] == out[1 := Rotating(0, 7, 1)];
    SceneLogin(R, out[1 := Rotating(0, 7, 1)], map[0 := 7]);
    SceneStep(R, row, out, owner, 1, Rotating(0, 7, 1), Locked(0, 7, 1));
    SceneLocked(R, row, out, owner, 1, Locked(0, 7, 1), Revoking(7, AfterReuse(0)));
    SceneRevocation(R, 1, out, owner, 1, AfterReuse(0));
  }

  /** The reachable states, with the run hidden. */
  lemma AllReachable() returns (R: iset<State>)
    ensures Closed(R) && Scene(map[], map[], map[], map[]) in R
    ensures forall s | s in R :: Reachable(s)
  {
    var start := Scene(map[], map[], map[], map[]);
    assert Init(start) && Reaches(start, [], start);
    R := iset t | Reachable(t);
    forall s, a | s in R && Enabled(s, a) ensures Do(s, a) in R {
      StepReachable(s, a);
    }
  }

  /** Losing the race to mark a row does not mean that anyone else consumed the
      token: here a logout deleted it, nothing was ever exchanged, and the
      revocation that follows deletes the token of a login made meanwhile. */
  lemma LostRaceWithoutReuse() returns (s: State, s': State)
    ensures Reachable(s) && s.parent == map[] && 1 in s.rows && !s.rows[1].used
    ensures s.procs == map[1 := Locked(0, 7, 1), 2 := Revoked(7, Logout, 1)]
    ensures Reachable(s') && s'.parent == map[] && s'.rows == map[]
    ensures s'.procs == map[1 := Replied(0, Refused(Reused)), 2 := Revoked(7, Logout, 1)]
  {
    var R := AllReachable();
    RefreshLosesToNobody(R);
    var row, owner := map[1 := Row(7, 1, false)], map[0 := 7][1 := 7];
    var out := map[2 := Revoked(7, Logout, 1)];
    s := Scene(map[7 := 1], row, out[1 := Locked(0, 7, 1)], owner);
    s' := Scene(map[], map[], out[1 := Replied(0, Refused(Reused))], owner);
  }
}
