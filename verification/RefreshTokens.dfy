/** The server half of refresh tokens (store_refresh_tokens.go, auth_refresh.go
    and the queries in db/query.sql.go) as a state machine. Requests interleave
    freely; a transaction is several steps - lock, mark, uncommitted insert,
    commit - and what it writes is seen by others only once it commits. */
module RefreshTokens {
  import opened Prelude

  /** A token, its hash and its row are one number: secrets never collide. */
  type Token = nat
  type User = nat
  type Pid = nat

  datatype Row = Row(user: User, expiresAt: Time, used: bool)

  datatype Refusal = Unknown | Expired | NoUser | Inactive | Reused

  /** 200 with the replacement, 401, 500. */
  datatype Reply = Issued(token: Token) | Refused(why: Refusal) | Failed

  /** What a user's tokens are deleted for. */
  datatype Cause = AfterReuse(tok: Token) | Logout | PasswordChange | Deactivation

  /** Where a request stands. Reading to Rotated is handleRefreshToken up to its
      reply, with RotateRefreshToken's transaction from Locked to the commit;
      Revoking to RevokeDeleted is the transaction deleting a user's tokens. */
  datatype Pc =
    | Reading(tok: Token)
    | Checking(tok: Token, user: User, expiresAt: Time)
    | FindingUser(tok: Token, user: User)
    | Rotating(tok: Token, user: User, heirUntil: Time)
    | Locked(tok: Token, user: User, heirUntil: Time)
    | Marked(tok: Token, user: User, heirUntil: Time)
    | Inserted(tok: Token, user: User, heirUntil: Time, heir: Token)
    | Rotated(tok: Token, heir: Token)
    | Replied(tok: Token, reply: Reply)
    | Revoking(user: User, cause: Cause)
    | RevokeLocked(user: User, cause: Cause)
    | RevokeDeleted(user: User, cause: Cause, gone: set<Token>)
    | Revoked(user: User, cause: Cause, before: Token)
    | RevokeFailed(user: User, cause: Cause)

  /** users says who exists and is active; held is the users rows locked by
      LockUser; rows and parent hold what is committed, parent leading from each
      replacement to the token it replaced. owner covers every token ever
      generated, the next of which is next; seen those whose rows have ever been
      committed. */
  datatype State = State(
    now: Time, ttl: int,
    users: map<User, bool>, held: map<User, Pid>,
    rows: map<Token, Row>, procs: map<Pid, Pc>,
    next: Token, owner: map<Token, User>, seen: set<Token>, parent: map<Token, Token>)

  /** How a step of a request goes: as meant, with an error and its rollback, or
      with a commit that took effect but was reported as an error. */
  datatype Luck = Fine | Error | CommitLost

  datatype Action =
    | Tick(to: Time)
    | Login(user: User)
    | Reactivate(user: User)
    | Present(pid: Pid, tok: Token)
    | Revoke(pid: Pid, user: User, cause: Cause)
    | Advance(pid: Pid, luck: Luck)
    | Prune(cutoff: Time)
    | DeleteUser(user: User)

  // ---- Steps ---------------------------------------------------------------

  /** The user whose row the transaction of this request has locked. */
  function Holds(pc: Pc): Option<User> {
    match pc
    case Locked(_, u, _) => Some(u)
    case Marked(_, u, _) => Some(u)
    case Inserted(_, u, _, _) => Some(u)
    case RevokeLocked(u, _) => Some(u)
    case RevokeDeleted(u, _, _) => Some(u)
    case _ => None
  }

  /** The refresh_tokens rows a transaction has written and not committed. */
  function RowLocks(pc: Pc): set<Token> {
    match pc
    case Marked(t, _, _) => {t}
    case Inserted(t, _, _, _) => {t}
    case RevokeDeleted(_, _, gone) => gone
    case _ => {}
  }

  /** The request goes to pc, locking and unlocking its user as pc says. */
  function Move(s: State, pid: Pid, pc: Pc): State {
    var before := if pid in s.procs then Holds(s.procs[pid]) else None;
    s.(procs := s.procs[pid := pc],
       held := if Holds(pc) == before then s.held
               else if Holds(pc).Some? then s.held[Holds(pc).value := pid]
               else s.held - {before.value})
  }

  /** The error path: a rollback, and a 500. */
  function Failure(pc: Pc): Pc {
    match pc
    case Revoking(u, c) => GiveUp(u, c)
    case RevokeLocked(u, c) => GiveUp(u, c)
    case RevokeDeleted(u, c, _) => GiveUp(u, c)
    case Revoked(_, _, _) => pc
    case RevokeFailed(_, _) => pc
    case _ => Replied(pc.tok, Failed)
  }

  function GiveUp(user: User, cause: Cause): Pc {
    match cause
    case AfterReuse(tok) => Replied(tok, Failed)
    case _ => RevokeFailed(user, cause)
  }

  /** The deletion is in force: a 401 after reuse. */
  function Conclude(s: State, user: User, cause: Cause): Pc {
    match cause
    case AfterReuse(tok) => Replied(tok, Refused(Reused))
    case _ => Revoked(user, cause, s.next)
  }

  /** A fresh secret, in a row not yet committed. */
  function Generate(s: State, user: User): State {
    s.(owner := s.owner[s.next := user], next := s.next + 1)
  }

  function CommitRotation(s: State, tok: Token, heir: Token, user: User, heirUntil: Time): State {
    var spent := if tok in s.rows then s.rows[tok := s.rows[tok].(used := true)] else s.rows;
    s.(rows := spent[heir := Row(user, heirUntil, false)],
       seen := s.seen + {heir},
       parent := s.parent[heir := tok])
  }

  function CommitRevocation(s: State, user: User, cause: Cause, gone: set<Token>): State {
    s.(rows := s.rows - gone,
       users := if cause == Deactivation && user in s.users then s.users[user := false] else s.users)
  }

  predicate Blocked(s: State, pc: Pc) {
    (pc.Rotating? || pc.Revoking?) && pc.user in s.users && pc.user in s.held
  }

  predicate Enabled(s: State, a: Action) {
    match a
    case Tick(to) => to >= s.now
    // The foreign key check waits for a LockUser on the row.
    case Login(user) => user in s.users && user !in s.held
    case Reactivate(user) => user in s.users && user !in s.held
    case Present(pid, _) => pid !in s.procs
    case Revoke(pid, _, cause) => pid !in s.procs && !cause.AfterReuse?
    case Advance(pid, luck) =>
      && pid in s.procs
      && !s.procs[pid].Replied? && !s.procs[pid].Revoked? && !s.procs[pid].RevokeFailed?
      && (luck == Error || !Blocked(s, s.procs[pid]))
      && (luck == CommitLost ==> s.procs[pid].Inserted? || s.procs[pid].RevokeDeleted?)
    case Prune(_) => true
    case DeleteUser(user) => user in s.users && user !in s.held
  }

  function Do(s: State, a: Action): State
    requires Enabled(s, a)
  {
    match a
    case Tick(to) => s.(now := to)
    case Login(user) =>
      s.(rows := s.rows[s.next := Row(user, s.now + s.ttl, false)], seen := s.seen + {s.next},
         owner := s.owner[s.next := user], next := s.next + 1)
    case Reactivate(user) => s.(users := s.users[user := true])
    case Present(pid, tok) => Move(s, pid, Reading(tok))
    case Revoke(pid, user, cause) => Move(s, pid, Revoking(user, cause))
    case Advance(pid, luck) =>
      if luck == Error then Move(s, pid, Failure(s.procs[pid])) else Forward(s, pid, luck == CommitLost)
    // Rows a transaction has written are waited for, and pruned another time.
    case Prune(cutoff) =>
      s.(rows := map t | t in s.rows && !(s.rows[t].expiresAt < cutoff && !(exists p | p in s.procs :: t in RowLocks(s.procs[p])))
                   :: s.rows[t])
    case DeleteUser(user) =>
      s.(users := s.users - {user}, rows := map t | t in s.rows && s.rows[t].user != user :: s.rows[t])
  }

  function Forward(s: State, pid: Pid, lost: bool): State
    requires pid in s.procs
  {
    Move(Effect(s, s.procs[pid]), pid, Next(s, s.procs[pid], lost))
  }

  /** What the step writes, or commits. */
  function Effect(s: State, pc: Pc): State {
    match pc
    case Marked(_, user, _) => Generate(s, user)
    case Inserted(tok, user, until, heir) => CommitRotation(s, tok, heir, user, until)
    case RevokeDeleted(user, cause, gone) => CommitRevocation(s, user, cause, gone)
    case _ => s
  }

  /** Where the step leads, given whether its commit is reported as an error. */
  function Next(s: State, pc: Pc, lost: bool): Pc {
    match pc
    case Reading(tok) =>
      if tok !in s.rows then Replied(tok, Refused(Unknown))
      else if s.rows[tok].used then Revoking(s.rows[tok].user, AfterReuse(tok))
      else Checking(tok, s.rows[tok].user, s.rows[tok].expiresAt)
    case Checking(tok, user, expiresAt) =>
      if s.now >= expiresAt then Replied(tok, Refused(Expired)) else FindingUser(tok, user)
    case FindingUser(tok, user) =>
      if user !in s.users then Replied(tok, Refused(NoUser))
      else if !s.users[user] then Replied(tok, Refused(Inactive))
      else Rotating(tok, user, s.now + s.ttl)
    case Rotating(tok, user, until) =>
      if user in s.users then Locked(tok, user, until) else Revoking(user, AfterReuse(tok))
    case Locked(tok, user, until) =>
      if tok in s.rows && !s.rows[tok].used then Marked(tok, user, until) else Revoking(user, AfterReuse(tok))
    case Marked(tok, user, until) => Inserted(tok, user, until, s.next)
    case Inserted(tok, _, _, heir) => if lost then Replied(tok, Failed) else Rotated(tok, heir)
    case Rotated(tok, heir) => Replied(tok, Issued(heir))
    case Revoking(user, cause) =>
      if user in s.users then RevokeLocked(user, cause)
      else if cause.Logout? || cause.AfterReuse? then Conclude(s, user, cause)
      else GiveUp(user, cause)
    case RevokeLocked(user, cause) => RevokeDeleted(user, cause, set t | t in s.rows && s.rows[t].user == user)
    case RevokeDeleted(user, cause, _) => if lost then GiveUp(user, cause) else Conclude(s, user, cause)
    case _ => pc
  }

  ghost predicate Init(s: State) {
    s.held == map[] && s.rows == map[] && s.procs == map[] && s.next == 0 && s.owner == map[] && s.seen == {} && s.parent == map[]
  }

  /** s' is reached from s by the actions, each enabled in its turn. */
  ghost predicate Reaches(s: State, actions: seq<Action>, s': State)
    decreases |actions|
  {
    if |actions| == 0 then s' == s
    else Enabled(s, actions[0]) && Reaches(Do(s, actions[0]), actions[1..], s')
  }

  ghost predicate Reachable(s: State) {
    exists init, actions :: Init(init) && Reaches(init, actions, s)
  }

  lemma {:induction false} ReachesOneMore(s: State, actions: seq<Action>, s': State, a: Action)
    requires Reaches(s, actions, s') && Enabled(s', a)
    ensures Reaches(s, actions + [a], Do(s', a))
    decreases |actions|
  {
    if |actions| == 0 {
      assert [a][1..] == [];
      assert Reaches(Do(s, a), [a][1..], Do(s, a));
      assert actions + [a] == [a];
    } else {
      ReachesOneMore(Do(s, actions[0]), actions[1..], s', a);
      assert (actions + [a])[1..] == actions[1..] + [a];
    }
  }

  lemma StepReachable(s: State, a: Action)
    requires Reachable(s) && Enabled(s, a)
    ensures Reachable(Do(s, a))
  {
    var init, actions :| Init(init) && Reaches(init, actions, s);
    ReachesOneMore(init, actions, s, a);
  }

  // ---- Lineage -------------------------------------------------------------

  /** d was issued for t, or for a token descended from it. */
  ghost predicate Descends(parent: map<Token, Token>, d: Token, t: Token)
    decreases d
  {
    d in parent && parent[d] < d && (parent[d] == t || Descends(parent, parent[d], t))
  }

  /** The login's token the lineage of t starts from. */
  ghost function Root(parent: map<Token, Token>, t: Token): Token
    decreases t
  {
    if t in parent && parent[t] < t then Root(parent, parent[t]) else t
  }

  /** Neither t nor anything descended from it exists. */
  ghost predicate Dead(s: State, t: Token) {
    forall d | d in s.rows :: d != t && !Descends(s.parent, d, t)
  }

  /** Everything the user holds comes from a login at or after `before`. */
  ghost predicate OnlyFrom(s: State, user: User, before: Token) {
    forall t | t in s.rows && s.rows[t].user == user :: Root(s.parent, t) >= before
  }

  // ---- What always holds ---------------------------------------------------

  ghost predicate LocksInv(s: State) {
    && (forall p | p in s.procs && Holds(s.procs[p]).Some? ::
          Holds(s.procs[p]).value in s.held && s.held[Holds(s.procs[p]).value] == p)
    && (forall u | u in s.held :: u in s.users && s.held[u] in s.procs && Holds(s.procs[s.held[u]]) == Some(u))
  }

  ghost predicate RowsInv(s: State) {
    && (forall t: Token :: t in s.owner <==> t < s.next)
    && s.seen <= s.owner.Keys
    && (forall t | t in s.rows :: t in s.seen && s.owner[t] == s.rows[t].user && s.rows[t].user in s.users)
    && (forall t | t in s.rows :: s.rows[t].used <==> HasChild(s, t))
  }

  ghost predicate HasChild(s: State, t: Token) {
    exists c | c in s.parent :: s.parent[c] == t
  }

  ghost predicate ParentInv(s: State) {
    && (forall c | c in s.parent :: s.parent[c] < c < s.next)
    && (forall c | c in s.parent :: c in s.seen && s.parent[c] in s.seen)
    && (forall c | c in s.parent :: c in s.owner && s.parent[c] in s.owner && s.owner[c] == s.owner[s.parent[c]])
    && (forall c, d | c in s.parent && d in s.parent && s.parent[c] == s.parent[d] :: c == d)
  }

  ghost predicate Owned(s: State, t: Token, user: User) {
    t in s.seen && t in s.owner && s.owner[t] == user
  }

  /** Generated for the user's rotation, and not committed. */
  ghost predicate Unborn(s: State, heir: Token, user: User) {
    && heir !in s.seen && heir in s.owner && s.owner[heir] == user
    && heir !in s.parent && !HasChild(s, heir)
  }

  /** What a request may rely on at each step. */
  ghost predicate PcInv(s: State, pc: Pc) {
    match pc
    case Reading(_) => true
    case Checking(t, u, _) => Owned(s, t, u)
    case FindingUser(t, u) => Owned(s, t, u)
    case Rotating(t, u, _) => Owned(s, t, u)
    case Locked(t, u, _) => Owned(s, t, u)
    case Marked(t, u, _) => Owned(s, t, u) && t in s.rows && !s.rows[t].used
    case Inserted(t, u, _, heir) =>
      Owned(s, t, u) && t in s.rows && !s.rows[t].used && Unborn(s, heir, u) && t < heir
    case Rotated(t, heir) => heir in s.parent && s.parent[heir] == t
    case Replied(t, Issued(heir)) => heir in s.parent && s.parent[heir] == t
    case Replied(t, Refused(why)) => why == Reused ==> t in s.seen && Dead(s, t)
    case Replied(_, Failed) => true
    case Revoking(u, c) => CauseInv(s, u, c)
    case RevokeLocked(u, c) => CauseInv(s, u, c)
    case RevokeDeleted(u, c, gone) => CauseInv(s, u, c) && gone == set t | t in s.rows && s.rows[t].user == u
    case Revoked(u, _, before) => before <= s.next && OnlyFrom(s, u, before)
    case RevokeFailed(_, _) => true
  }

  ghost predicate CauseInv(s: State, user: User, cause: Cause) {
    cause.AfterReuse? ==> Owned(s, cause.tok, user)
  }

  ghost predicate PcsInv(s: State) {
    forall p | p in s.procs :: PcInv(s, s.procs[p])
  }

  ghost predicate Inv(s: State) {
    LocksInv(s) && RowsInv(s) && ParentInv(s) && PcsInv(s)
  }

  // ---- Lineage under change ------------------------------------------------

  lemma {:induction false} DescendsShares(s: State, d: Token, t: Token)
    requires ParentInv(s) && Descends(s.parent, d, t)
    ensures t < d && HasChild(s, t)
    ensures d in s.owner && t in s.owner && s.owner[d] == s.owner[t]
    decreases d
  {
    if s.parent[d] != t {
      DescendsShares(s, s.parent[d], t);
    }
  }

  /** Giving tok the childless heir changes nobody else's ancestors. */
  lemma {:induction false} LeafChangesNoAncestor(parent: map<Token, Token>, heir: Token, tok: Token, d: Token, t: Token)
    requires heir !in parent && forall c | c in parent :: parent[c] != heir
    requires d != heir
    ensures Descends(parent[heir := tok], d, t) == Descends(parent, d, t)
    ensures Root(parent[heir := tok], d) == Root(parent, d)
    decreases d
  {
    if d in parent && parent[d] < d {
      LeafChangesNoAncestor(parent, heir, tok, parent[d], t);
    }
  }

  /** A replacement has its predecessor's ancestors, and its predecessor. */
  lemma LeafInherits(parent: map<Token, Token>, heir: Token, tok: Token, t: Token)
    requires heir !in parent && (forall c | c in parent :: parent[c] != heir) && tok < heir
    ensures Descends(parent[heir := tok], heir, t) == (t == tok || Descends(parent, tok, t))
    ensures Root(parent[heir := tok], heir) == Root(parent, tok)
  {
    LeafChangesNoAncestor(parent, heir, tok, tok, t);
  }

  // ---- Locks ---------------------------------------------------------------

  lemma MoveKeepsLocks(s: State, pid: Pid, pc: Pc)
    requires LocksInv(s)
    requires pid !in s.procs ==> Holds(pc).None?
    requires pid in s.procs && Holds(pc).Some? && Holds(pc) != Holds(s.procs[pid]) ==>
               Holds(s.procs[pid]).None? && Holds(pc).value in s.users && Holds(pc).value !in s.held
    ensures LocksInv(Move(s, pid, pc))
  {
  }

  /** Two transactions never hold the same user. */
  lemma HoldersDiffer(s: State, p: Pid, q: Pid)
    requires LocksInv(s) && p in s.procs && q in s.procs && p != q
    requires Holds(s.procs[p]).Some?
    ensures Holds(s.procs[p]) != Holds(s.procs[q])
  {
  }

  // ---- Requests ------------------------------------------------------------

  ghost predicate SameTokens(s: State, s': State) {
    s'.rows == s.rows && s'.parent == s.parent && s'.owner == s.owner && s'.seen == s.seen && s'.next == s.next
  }

  lemma SameTokensSamePc(s: State, s': State, pc: Pc)
    requires SameTokens(s, s') && PcInv(s, pc)
    ensures PcInv(s', pc)
  {
    assert forall t :: HasChild(s', t) == HasChild(s, t);
  }

  /** What every lock, read and reply comes to: one request moved on. */
  lemma MoveKeepsInv(s: State, pid: Pid, pc: Pc)
    requires RowsInv(s) && ParentInv(s) && LocksInv(Move(s, pid, pc)) && PcInv(s, pc)
    requires forall p | p in s.procs && p != pid :: PcInv(s, s.procs[p])
    ensures Inv(Move(s, pid, pc))
  {
    var s' := Move(s, pid, pc);
    assert forall t :: HasChild(s', t) == HasChild(s, t);
    forall p | p in s'.procs ensures PcInv(s', s'.procs[p]) {
      SameTokensSamePc(s, s', s'.procs[p]);
    }
  }

  lemma {:induction false} RowLocksAreHeld(s: State, pc: Pc, t: Token)
    requires RowsInv(s) && PcInv(s, pc) && t in RowLocks(pc)
    ensures Holds(pc).Some? && t in s.rows && s.rows[t].user == Holds(pc).value
  {
  }

  ghost predicate RowsDropped(s: State, s': State) {
    && s'.parent == s.parent && s'.owner == s.owner && s'.seen == s.seen && s'.next == s.next
    && (forall t | t in s'.rows :: t in s.rows && s'.rows[t] == s.rows[t])
  }

  /** Deleting rows disturbs nobody who has not written them. */
  lemma DroppedKeepsPc(s: State, s': State, pc: Pc)
    requires RowsInv(s) && RowsDropped(s, s') && PcInv(s, pc)
    requires forall t | t in RowLocks(pc) && t in s.rows :: t in s'.rows
    ensures PcInv(s', pc)
  {
    assert forall t :: HasChild(s', t) == HasChild(s, t);
    if pc.RevokeDeleted? {
      assert (set t | t in s'.rows && s'.rows[t].user == pc.user) == pc.gone;
    }
  }

  lemma DroppedKeepsRows(s: State, s': State)
    requires RowsInv(s) && ParentInv(s) && RowsDropped(s, s')
    requires forall t | t in s'.rows :: s'.rows[t].user in s'.users
    ensures RowsInv(s') && ParentInv(s')
  {
    assert forall t :: HasChild(s', t) == HasChild(s, t);
  }

  ghost predicate Allocated(s: State, s': State, user: User) {
    s'.rows == s.rows && s'.parent == s.parent
    && s'.owner == s.owner[s.next := user] && s'.seen == s.seen && s'.next == s.next + 1
  }

  lemma AllocatedKeepsPc(s: State, s': State, user: User, pc: Pc)
    requires RowsInv(s) && ParentInv(s) && Allocated(s, s', user) && PcInv(s, pc)
    ensures PcInv(s', pc)
  {
    assert forall t :: HasChild(s', t) == HasChild(s, t);
  }

  ghost predicate LoggedIn(s: State, s': State, user: User, row: Row) {
    && s'.parent == s.parent && s'.owner == s.owner[s.next := user] && s'.next == s.next + 1
    && s'.seen == s.seen + {s.next}
    && row.user == user && !row.used && s'.rows == s.rows[s.next := row]
  }

  lemma LoginKeepsPc(s: State, s': State, user: User, row: Row, pc: Pc)
    requires RowsInv(s) && ParentInv(s) && LoggedIn(s, s', user, row) && PcInv(s, pc)
    requires Holds(pc) != Some(user)
    ensures PcInv(s', pc)
  {
    assert forall t :: HasChild(s', t) == HasChild(s, t);
    assert s.next !in s.parent;
    if pc.RevokeDeleted? {
      assert (set t | t in s'.rows && s'.rows[t].user == pc.user) == pc.gone;
    }
  }

  // ---- A rotation's commit -------------------------------------------------

  /** heir, allocated by this transaction, takes tok's place. */
  ghost predicate MayCommit(s: State, tok: Token, heir: Token, user: User) {
    Owned(s, tok, user) && tok in s.rows && !s.rows[tok].used && Unborn(s, heir, user) && tok < heir
  }

  lemma ChildrenAfterRotation(s: State, tok: Token, heir: Token, user: User, heirUntil: Time)
    requires MayCommit(s, tok, heir, user)
    ensures forall t :: HasChild(CommitRotation(s, tok, heir, user, heirUntil), t) <==> (t == tok || HasChild(s, t))
  {
    var s' := CommitRotation(s, tok, heir, user, heirUntil);
    forall t ensures HasChild(s', t) <==> (t == tok || HasChild(s, t)) {
      assert s'.parent[heir] == tok;
      if t != tok && HasChild(s, t) {
        var c :| c in s.parent && s.parent[c] == t;
        assert c in s'.parent && s'.parent[c] == t;
      }
    }
  }

  lemma RotationKeepsParents(s: State, tok: Token, heir: Token, user: User, heirUntil: Time)
    requires RowsInv(s) && ParentInv(s) && MayCommit(s, tok, heir, user)
    ensures ParentInv(CommitRotation(s, tok, heir, user, heirUntil))
  {
    assert !HasChild(s, tok);
  }

  lemma RotationKeepsRows(s: State, tok: Token, heir: Token, user: User, heirUntil: Time)
    requires RowsInv(s) && ParentInv(s) && MayCommit(s, tok, heir, user)
    ensures RowsInv(CommitRotation(s, tok, heir, user, heirUntil))
  {
    ChildrenAfterRotation(s, tok, heir, user, heirUntil);
    assert s.rows[tok].user == user;
  }

  /** A lineage that is dead stays dead: nobody in it is left to rotate. */
  lemma RotationKeepsDead(s: State, tok: Token, heir: Token, user: User, heirUntil: Time, t: Token)
    requires MayCommit(s, tok, heir, user) && Dead(s, t) && t in s.seen
    requires RowsInv(s) && ParentInv(s)
    ensures Dead(CommitRotation(s, tok, heir, user, heirUntil), t)
  {
    var s' := CommitRotation(s, tok, heir, user, heirUntil);
    forall d | d in s'.rows ensures d != t && !Descends(s'.parent, d, t) {
      if d == heir {
        LeafInherits(s.parent, heir, tok, t);
      } else {
        LeafChangesNoAncestor(s.parent, heir, tok, d, t);
      }
    }
  }

  lemma RotationKeepsOnlyFrom(s: State, tok: Token, heir: Token, user: User, heirUntil: Time, who: User, before: Token)
    requires RowsInv(s) && MayCommit(s, tok, heir, user) && OnlyFrom(s, who, before)
    ensures OnlyFrom(CommitRotation(s, tok, heir, user, heirUntil), who, before)
  {
    var s' := CommitRotation(s, tok, heir, user, heirUntil);
    assert s.rows[tok].user == user;
    forall t | t in s'.rows && s'.rows[t].user == who ensures Root(s'.parent, t) >= before {
      if t == heir {
        LeafInherits(s.parent, heir, tok, 0);
      } else {
        LeafChangesNoAncestor(s.parent, heir, tok, t, 0);
      }
    }
  }

  lemma RotationKeepsDeletion(s: State, tok: Token, heir: Token, user: User, heirUntil: Time, pc: Pc)
    requires RowsInv(s) && MayCommit(s, tok, heir, user) && pc.RevokeDeleted? && PcInv(s, pc) && pc.user != user
    ensures PcInv(CommitRotation(s, tok, heir, user, heirUntil), pc)
  {
    var s' := CommitRotation(s, tok, heir, user, heirUntil);
    assert (set t | t in s'.rows && s'.rows[t].user == pc.user) == pc.gone;
  }

  lemma RotationKeepsPc(s: State, tok: Token, heir: Token, user: User, heirUntil: Time, pc: Pc)
    requires RowsInv(s) && ParentInv(s) && MayCommit(s, tok, heir, user)
    requires PcInv(s, pc) && Holds(pc) != Some(user)
    ensures PcInv(CommitRotation(s, tok, heir, user, heirUntil), pc)
  {
    var s' := CommitRotation(s, tok, heir, user, heirUntil);
    ChildrenAfterRotation(s, tok, heir, user, heirUntil);
    match pc
    case Replied(t, Refused(Reused)) => RotationKeepsDead(s, tok, heir, user, heirUntil, t);
    case Revoked(u, _, before) => RotationKeepsOnlyFrom(s, tok, heir, user, heirUntil, u, before);
    case RevokeDeleted(_, _, _) => RotationKeepsDeletion(s, tok, heir, user, heirUntil, pc);
    case _ =>
  }

  // ---- A revocation's commit -----------------------------------------------

  /** Descendants belong to the user of their ancestors, so with the user's
      rows the whole lineage is gone. */
  lemma NoRowsNoLineage(s: State, tok: Token, user: User)
    requires RowsInv(s) && ParentInv(s) && Owned(s, tok, user)
    requires forall t | t in s.rows :: s.rows[t].user != user
    ensures Dead(s, tok)
  {
    forall d | d in s.rows ensures d != tok && !Descends(s.parent, d, tok) {
      if Descends(s.parent, d, tok) {
        DescendsShares(s, d, tok);
      }
    }
  }

  lemma RevocationKeepsPcs(s: State, s': State, pid: Pid, user: User, cause: Cause, gone: set<Token>)
    requires Inv(s) && pid in s.procs && s.procs[pid] == RevokeDeleted(user, cause, gone)
    requires s' == CommitRevocation(s, user, cause, gone)
    ensures RowsInv(s') && ParentInv(s')
    ensures forall p | p in s.procs && p != pid :: PcInv(s', s.procs[p])
    ensures forall t | t in s'.rows :: s'.rows[t].user != user
  {
    assert PcInv(s, s.procs[pid]);
    DroppedKeepsRows(s, s');
    forall p | p in s.procs && p != pid ensures PcInv(s', s.procs[p]) {
      HoldersDiffer(s, pid, p);
      forall t | t in RowLocks(s.procs[p]) && t in s.rows ensures t in s'.rows {
        RowLocksAreHeld(s, s.procs[p], t);
      }
      DroppedKeepsPc(s, s', s.procs[p]);
    }
  }

  // ---- Every step keeps it -------------------------------------------------

  lemma OthersKeepLocks(s: State, s': State)
    requires LocksInv(s) && s'.procs == s.procs && s'.held == s.held
    requires forall u | u in s.held :: u in s'.users
    ensures LocksInv(s')
  {
  }

  lemma PruneKeepsInv(s: State, cutoff: Time)
    requires Inv(s)
    ensures Inv(Do(s, Prune(cutoff)))
  {
    var s' := Do(s, Prune(cutoff));
    OthersKeepLocks(s, s');
    DroppedKeepsRows(s, s');
    forall p | p in s'.procs ensures PcInv(s', s'.procs[p]) {
      DroppedKeepsPc(s, s', s.procs[p]);
    }
  }

  lemma DeleteUserKeepsInv(s: State, user: User)
    requires Inv(s) && Enabled(s, DeleteUser(user))
    ensures Inv(Do(s, DeleteUser(user)))
  {
    var s' := Do(s, DeleteUser(user));
    OthersKeepLocks(s, s');
    DroppedKeepsRows(s, s');
    forall p | p in s'.procs ensures PcInv(s', s'.procs[p]) {
      forall t | t in RowLocks(s.procs[p]) && t in s.rows ensures t in s'.rows {
        RowLocksAreHeld(s, s.procs[p], t);
      }
      DroppedKeepsPc(s, s', s.procs[p]);
    }
  }

  lemma LoginKeepsRows(s: State, s': State, user: User, row: Row)
    requires RowsInv(s) && ParentInv(s) && LoggedIn(s, s', user, row) && s'.users == s.users && user in s.users
    ensures RowsInv(s') && ParentInv(s')
  {
    assert forall t :: HasChild(s', t) == HasChild(s, t);
    assert !HasChild(s, s.next);
  }

  lemma LoginKeepsInv(s: State, user: User)
    requires Inv(s) && Enabled(s, Login(user))
    ensures Inv(Do(s, Login(user)))
  {
    var s' := Do(s, Login(user));
    var row := Row(user, s.now + s.ttl, false);
    OthersKeepLocks(s, s');
    LoginKeepsRows(s, s', user, row);
    forall p | p in s'.procs ensures PcInv(s', s'.procs[p]) {
      LoginKeepsPc(s, s', user, row, s.procs[p]);
    }
  }

  lemma AllocatedKeepsInv(s: State, m: State, user: User)
    requires Inv(s) && Allocated(s, m, user) && m.procs == s.procs && m.held == s.held && m.users == s.users
    ensures Inv(m)
  {
    OthersKeepLocks(s, m);
    assert forall t :: HasChild(m, t) == HasChild(s, t);
    forall p | p in s.procs ensures PcInv(m, s.procs[p]) {
      AllocatedKeepsPc(s, m, user, s.procs[p]);
    }
  }

  lemma AllocatedIsUnborn(s: State, m: State, tok: Token, user: User, heirUntil: Time)
    requires RowsInv(s) && ParentInv(s) && Allocated(s, m, user) && PcInv(s, Marked(tok, user, heirUntil))
    ensures PcInv(m, Inserted(tok, user, heirUntil, s.next))
  {
    assert s.next !in s.parent;
    assert forall t :: HasChild(m, t) == HasChild(s, t);
  }

  lemma GenerateKeepsInv(s: State, pid: Pid, tok: Token, user: User, heirUntil: Time)
    requires Inv(s) && pid in s.procs && s.procs[pid] == Marked(tok, user, heirUntil)
    ensures Inv(Generate(s, user)) && PcInv(Generate(s, user), Inserted(tok, user, heirUntil, s.next))
  {
    assert PcInv(s, s.procs[pid]);
    AllocatedKeepsInv(s, Generate(s, user), user);
    AllocatedIsUnborn(s, Generate(s, user), tok, user, heirUntil);
  }

  lemma AllocationKeepsInv(s: State, pid: Pid)
    requires Inv(s) && pid in s.procs && s.procs[pid].Marked?
    ensures Inv(Forward(s, pid, false))
  {
    var Marked(tok, user, heirUntil) := s.procs[pid];
    var pc := Inserted(tok, user, heirUntil, s.next);
    GenerateKeepsInv(s, pid, tok, user, heirUntil);
    MoveKeepsLocks(Generate(s, user), pid, pc);
    MoveKeepsInv(Generate(s, user), pid, pc);
  }

  lemma RotationKeepsPcs(s: State, pid: Pid)
    requires Inv(s) && pid in s.procs && s.procs[pid].Inserted?
    ensures forall p | p in s.procs && p != pid ::
      var Inserted(tok, user, heirUntil, heir) := s.procs[pid];
      PcInv(CommitRotation(s, tok, heir, user, heirUntil), s.procs[p])
  {
    var Inserted(tok, user, heirUntil, heir) := s.procs[pid];
    assert PcInv(s, s.procs[pid]);
    forall p | p in s.procs && p != pid ensures PcInv(CommitRotation(s, tok, heir, user, heirUntil), s.procs[p]) {
      HoldersDiffer(s, pid, p);
      RotationKeepsPc(s, tok, heir, user, heirUntil, s.procs[p]);
    }
  }

  lemma RotationKeepsInv(s: State, pid: Pid, lost: bool)
    requires Inv(s) && pid in s.procs && s.procs[pid].Inserted?
    ensures Inv(Forward(s, pid, lost))
  {
    var Inserted(tok, user, heirUntil, heir) := s.procs[pid];
    var m := CommitRotation(s, tok, heir, user, heirUntil);
    assert PcInv(s, s.procs[pid]);
    RotationKeepsRows(s, tok, heir, user, heirUntil);
    RotationKeepsParents(s, tok, heir, user, heirUntil);
    OthersKeepLocks(s, m);
    RotationKeepsPcs(s, pid);
    var pc' := if lost then Replied(tok, Failed) else Rotated(tok, heir);
    MoveKeepsLocks(m, pid, pc');
    MoveKeepsInv(m, pid, pc');
  }

  lemma RevocationKeepsInv(s: State, pid: Pid, lost: bool)
    requires Inv(s) && pid in s.procs && s.procs[pid].RevokeDeleted?
    ensures Inv(Forward(s, pid, lost))
  {
    var RevokeDeleted(user, cause, gone) := s.procs[pid];
    var m := CommitRevocation(s, user, cause, gone);
    RevocationKeepsPcs(s, m, pid, user, cause, gone);
    OthersKeepLocks(s, m);
    assert PcInv(s, s.procs[pid]);
    if cause.AfterReuse? {
      NoRowsNoLineage(m, cause.tok, user);
    }
    var pc' := if lost then GiveUp(user, cause) else Conclude(m, user, cause);
    MoveKeepsLocks(m, pid, pc');
    MoveKeepsInv(m, pid, pc');
  }

  ghost predicate Ordinary(s: State, pid: Pid) {
    && Enabled(s, Advance(pid, Fine))
    && !s.procs[pid].Marked? && !s.procs[pid].Inserted? && !s.procs[pid].RevokeDeleted?
  }

  /** The steps between: reads, decisions, locks and replies. */
  lemma OrdinaryKeepsInv(s: State, pid: Pid)
    requires Inv(s) && Ordinary(s, pid)
    ensures Inv(Forward(s, pid, false))
  {
    var pc := s.procs[pid];
    assert PcInv(s, pc);
    OrdinaryIsFit(s, pid, pc);
    MoveKeepsLocks(s, pid, Next(s, pc, false));
    MoveKeepsInv(s, pid, Next(s, pc, false));
  }

  lemma OrdinaryIsFit(s: State, pid: Pid, pc: Pc)
    requires Inv(s) && Ordinary(s, pid) && pc == s.procs[pid] && PcInv(s, pc)
    ensures PcInv(s, Next(s, pc, false))
  {
    if pc.Revoking? && pc.user !in s.users && pc.cause.AfterReuse? {
      NoRowsNoLineage(s, pc.cause.tok, pc.user);
    }
  }

  lemma AbortKeepsInv(s: State, pid: Pid)
    requires Inv(s) && Enabled(s, Advance(pid, Error))
    ensures Inv(Do(s, Advance(pid, Error)))
  {
    MoveKeepsLocks(s, pid, Failure(s.procs[pid]));
    MoveKeepsInv(s, pid, Failure(s.procs[pid]));
  }

  lemma QuietKeepsInv(s: State, s': State)
    requires Inv(s) && SameTokens(s, s') && s'.procs == s.procs && s'.held == s.held && s'.users.Keys == s.users.Keys
    ensures Inv(s')
  {
    OthersKeepLocks(s, s');
    assert forall t :: HasChild(s', t) == HasChild(s, t);
    forall p | p in s'.procs ensures PcInv(s', s'.procs[p]) {
      SameTokensSamePc(s, s', s.procs[p]);
    }
  }

  lemma StepKeepsInv(s: State, a: Action)
    requires Inv(s) && Enabled(s, a)
    ensures Inv(Do(s, a))
  {
    match a
    case Tick(_) => QuietKeepsInv(s, Do(s, a));
    case Reactivate(user) => QuietKeepsInv(s, Do(s, a));
    case Login(user) => LoginKeepsInv(s, user);
    case Prune(cutoff) => PruneKeepsInv(s, cutoff);
    case DeleteUser(user) => DeleteUserKeepsInv(s, user);
    case Present(pid, tok) =>
      MoveKeepsLocks(s, pid, Reading(tok));
      MoveKeepsInv(s, pid, Reading(tok));
    case Revoke(pid, user, cause) =>
      MoveKeepsLocks(s, pid, Revoking(user, cause));
      MoveKeepsInv(s, pid, Revoking(user, cause));
    case Advance(pid, luck) =>
      if luck == Error {
        AbortKeepsInv(s, pid);
      } else if s.procs[pid].Marked? {
        AllocationKeepsInv(s, pid);
      } else if s.procs[pid].Inserted? {
        RotationKeepsInv(s, pid, luck == CommitLost);
      } else if s.procs[pid].RevokeDeleted? {
        RevocationKeepsInv(s, pid, luck == CommitLost);
      } else {
        OrdinaryKeepsInv(s, pid);
      }
  }

  lemma {:induction false} RunKeepsInv(s: State, actions: seq<Action>, s': State)
    requires Inv(s) && Reaches(s, actions, s')
    ensures Inv(s')
    decreases |actions|
  {
    if |actions| > 0 {
      StepKeepsInv(s, actions[0]);
      RunKeepsInv(Do(s, actions[0]), actions[1..], s');
    }
  }

  lemma InitInv(s: State)
    requires Init(s)
    ensures Inv(s)
  {
  }

  lemma ReachableInv(s: State)
    requires Reachable(s)
    ensures Inv(s)
  {
    var init, actions :| Init(init) && Reaches(init, actions, s);
    InitInv(init);
    RunKeepsInv(init, actions, s);
  }
}
