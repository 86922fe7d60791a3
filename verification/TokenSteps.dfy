/** What each step of RefreshTokens does and where it leads, told from the rows
    and users themselves (handleRefreshToken in auth_refresh.go, the transactions
    of store_refresh_tokens.go). */
module TokenSteps {
  import opened Prelude
  import opened RefreshTokens

  /** The request goes from one place to another; nothing else is written. */
  ghost predicate OnlyGoes(s: State, s': State, pid: Pid, pc: Pc) {
    && s'.procs == s.procs[pid := pc]
    && s'.rows == s.rows && s'.users == s.users && s'.seen == s.seen && s'.parent == s.parent
    && s'.owner == s.owner && s'.next == s.next && s'.now == s.now && s'.ttl == s.ttl
  }

  /** The checks before the rotation, in order, each refused as the source refuses
      it. */
  lemma CheckingSteps(s: State, pid: Pid)
    requires pid in s.procs && (s.procs[pid].Reading? || s.procs[pid].Checking? || s.procs[pid].FindingUser?)
    ensures Enabled(s, Advance(pid, Fine))
    ensures var s', pc, tok := Do(s, Advance(pid, Fine)), s.procs[pid], s.procs[pid].tok;
            && pid in s'.procs && OnlyGoes(s, s', pid, s'.procs[pid])
            && (pc.Reading? ==>
                  s'.procs[pid] == (if tok !in s.rows then Replied(tok, Refused(Unknown))
                                    else if s.rows[tok].used then Revoking(s.rows[tok].user, AfterReuse(tok))
                                    else Checking(tok, s.rows[tok].user, s.rows[tok].expiresAt)))
            && (pc.Checking? ==>
                  s'.procs[pid] == if pc.expiresAt <= s.now then Replied(tok, Refused(Expired)) else FindingUser(tok, pc.user))
            && (pc.FindingUser? ==>
                  s'.procs[pid] == (if pc.user !in s.users then Replied(tok, Refused(NoUser))
                                    else if s.users[pc.user] then Rotating(tok, pc.user, s.now + s.ttl)
                                    else Replied(tok, Refused(Inactive))))
  {
  }

  /** The rotation: under the user's lock the row is marked if it is there and
      unused, and the token is taken for spent otherwise; then a new token is
      inserted, and the two are committed together. */
  lemma RotationSteps(s: State, pid: Pid, luck: Luck)
    requires Enabled(s, Advance(pid, luck)) && luck != Error
    requires s.procs[pid].Rotating? || s.procs[pid].Locked? || s.procs[pid].Marked? || s.procs[pid].Inserted? || s.procs[pid].Rotated?
    ensures var s', pc, tok := Do(s, Advance(pid, luck)), s.procs[pid], s.procs[pid].tok;
            && pid in s'.procs
            && (pc.Rotating? ==> OnlyGoes(s, s', pid, if pc.user in s.users then Locked(tok, pc.user, pc.heirUntil)
                                                      else Revoking(pc.user, AfterReuse(tok))))
            && (pc.Locked? ==> OnlyGoes(s, s', pid, if tok in s.rows && !s.rows[tok].used then Marked(tok, pc.user, pc.heirUntil)
                                                    else Revoking(pc.user, AfterReuse(tok))))
            && (pc.Marked? ==> s'.procs == s.procs[pid := Inserted(tok, pc.user, pc.heirUntil, s.next)] && s'.rows == s.rows
                               && s'.next == s.next + 1 && s'.owner == s.owner[s.next := pc.user] && s'.parent == s.parent)
            && (pc.Rotated? ==> OnlyGoes(s, s', pid, Replied(tok, Issued(pc.heir))))
  {
  }

  lemma RotationCommits(s: State, pid: Pid, luck: Luck)
    requires Enabled(s, Advance(pid, luck)) && luck != Error && s.procs[pid].Inserted?
    ensures var s', Inserted(tok, user, until, heir) := Do(s, Advance(pid, luck)), s.procs[pid];
            && s'.procs == s.procs[pid := if luck == Fine then Rotated(tok, heir) else Replied(tok, Failed)]
            && heir in s'.rows && s'.rows[heir] == Row(user, until, false)
            && (forall t | t != heir :: t in s'.rows <==> t in s.rows)
            && (forall t | t in s.rows && t != heir :: s'.rows[t] == if t == tok then s.rows[t].(used := true) else s.rows[t])
            && s'.parent == s.parent[heir := tok] && s'.seen == s.seen + {heir} && s'.users == s.users
  {
  }

  /** The revocation: under the user's lock every token of the user's is deleted,
      and the user too stops being active on deactivation. A user that is gone has
      none; only a password change or a deactivation then fails. */
  lemma RevocationSteps(s: State, pid: Pid, luck: Luck)
    requires Enabled(s, Advance(pid, luck)) && luck != Error
    requires s.procs[pid].Revoking? || s.procs[pid].RevokeLocked? || s.procs[pid].RevokeDeleted?
    ensures var s', pc, u, cause := Do(s, Advance(pid, luck)), s.procs[pid], s.procs[pid].user, s.procs[pid].cause;
            && pid in s'.procs
            && (pc.Revoking? && u in s.users ==> OnlyGoes(s, s', pid, RevokeLocked(u, cause)))
            && (pc.Revoking? && u !in s.users ==>
                  OnlyGoes(s, s', pid, s'.procs[pid])
                  && (if cause.Logout? || cause.AfterReuse? then Revokes(s'.procs[pid], u, cause)
                      else s'.procs[pid] == RevokeFailed(u, cause)))
            && (pc.RevokeLocked? ==>
                  OnlyGoes(s, s', pid, s'.procs[pid]) && s'.procs[pid].RevokeDeleted?
                  && s'.procs[pid].user == u && s'.procs[pid].cause == cause
                  && forall t :: t in s'.procs[pid].gone <==> t in s.rows && s.rows[t].user == u)
            && (pc.RevokeDeleted? ==>
                  && s'.rows.Keys == s.rows.Keys - pc.gone && (forall t | t in s'.rows :: s'.rows[t] == s.rows[t])
                  && s'.users == (if cause == Deactivation && u in s.users then s.users[u := false] else s.users)
                  && (luck == Fine ==> Revokes(s'.procs[pid], u, cause))
                  && (luck == CommitLost ==> FailsToRevoke(s'.procs[pid], u, cause)))
  {
  }

  /** The user holds nothing: a 401 if a token was reused. */
  ghost predicate Revokes(pc: Pc, user: User, cause: Cause) {
    match cause
    case AfterReuse(tok) => pc == Replied(tok, Refused(Reused))
    case _ => pc.Revoked? && pc.user == user && pc.cause == cause
  }

  ghost predicate FailsToRevoke(pc: Pc, user: User, cause: Cause) {
    match cause
    case AfterReuse(tok) => pc == Replied(tok, Failed)
    case _ => pc == RevokeFailed(user, cause)
  }

  /** An error undoes the transaction, and is answered with a 500. */
  lemma ErrorStep(s: State, pid: Pid)
    requires Enabled(s, Advance(pid, Error))
    ensures var s', pc := Do(s, Advance(pid, Error)), s.procs[pid];
            && pid in s'.procs && OnlyGoes(s, s', pid, s'.procs[pid])
            && (if pc.Revoking? || pc.RevokeLocked? || pc.RevokeDeleted? then FailsToRevoke(s'.procs[pid], pc.user, pc.cause)
                else s'.procs[pid] == Replied(pc.tok, Failed))
  {
  }

  /** Everyone else: a login adds one token, good for ttl; a prune drops tokens
      long expired, but those a transaction has written; a user goes with their
      tokens. */
  lemma OtherSteps(s: State, user: User, cutoff: Time)
    ensures Enabled(s, Login(user)) ==>
              var s' := Do(s, Login(user));
              && s'.rows == s.rows[s.next := Row(user, s.now + s.ttl, false)] && s'.next == s.next + 1
              && s'.owner == s.owner[s.next := user] && s'.seen == s.seen + {s.next} && s'.parent == s.parent
              && s'.procs == s.procs && s'.users == s.users && user in s.users
    ensures Enabled(s, Reactivate(user)) ==>
              user in s.users && Do(s, Reactivate(user)) == s.(users := s.users[user := true])
    ensures Enabled(s, Prune(cutoff))
    ensures var s' := Do(s, Prune(cutoff));
            && s'.procs == s.procs && s'.users == s.users
            && (forall t | t in s'.rows :: t in s.rows && s'.rows[t] == s.rows[t])
            && forall t | t in s.rows :: t !in s'.rows <==>
                 s.rows[t].expiresAt < cutoff && forall p | p in s.procs :: !WroteTo(s.procs[p], t)
    ensures Enabled(s, DeleteUser(user)) ==>
              var s' := Do(s, DeleteUser(user));
              && user !in s'.users && (forall u | u in s.users && u != user :: u in s'.users && s'.users[u] == s.users[u])
              && s'.users.Keys <= s.users.Keys && s'.procs == s.procs
              && (forall t | t in s'.rows :: t in s.rows && s'.rows[t] == s.rows[t])
              && forall t | t in s.rows :: t in s'.rows <==> s.rows[t].user != user
  {
  }

  /** The transaction has written the row, and not committed. */
  ghost predicate WroteTo(pc: Pc, t: Token) {
    (pc.Marked? && pc.tok == t) || (pc.Inserted? && pc.tok == t) || (pc.RevokeDeleted? && t in pc.gone)
  }

  /** Someone's step waits for the user's row while another transaction has it. */
  lemma WaitsExactlyWhen(s: State, pid: Pid)
    requires pid in s.procs && (s.procs[pid].Rotating? || s.procs[pid].Revoking?)
    ensures Enabled(s, Advance(pid, Fine)) <==> s.procs[pid].user !in s.users || s.procs[pid].user !in s.held
  {
  }
}
