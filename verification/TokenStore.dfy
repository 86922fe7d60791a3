/** The refresh token tables as store_refresh_tokens.go updates them, and
    handleRefreshToken run without interruption; RefreshTokens takes the same
    statements one at a time, with everyone else's between them. */
module TokenStore {
  import opened Prelude
  import opened RefreshTokens

  class TokenTables {
    const ttl: int
    var users: map<User, bool>
    var rows: map<Token, Row>

    constructor (ttl: int)
      ensures users == map[] && rows == map[] && this.ttl == ttl
    {
      this.ttl := ttl;
      users, rows := map[], map[];
    }

    /** MarkRefreshTokenUsed: how many rows it updated. */
    method MarkUsed(tok: Token) returns (n: nat)
      modifies this`rows
      ensures n <= 1 && (n == 1 <==> old(tok in rows && !rows[tok].used))
      ensures n != 1 ==> rows == old(rows)
      ensures n == 1 ==> rows == old(rows)[tok := old(rows)[tok].(used := true)]
    {
      if tok !in rows || rows[tok].used {
        return 0;
      }
      rows := rows[tok := rows[tok].(used := true)];
      return 1;
    }

    /** RotateRefreshToken: the old token spent and the new one stored, or
        neither. */
    method Rotate(tok: Token, heir: Token, user: User, heirUntil: Time) returns (rotated: bool)
      modifies this`rows
      ensures rotated <==> user in users && old(tok in rows && !rows[tok].used)
      ensures !rotated ==> rows == old(rows)
      ensures rotated ==> rows == old(rows)[tok := old(rows)[tok].(used := true)][heir := Row(user, heirUntil, false)]
      ensures rotated ==> forall s: State | s.rows == old(rows) :: CommitRotation(s, tok, heir, user, heirUntil).rows == rows
    {
      if user !in users {
        return false;
      }
      var n := MarkUsed(tok);
      if n == 0 {
        return false;
      }
      rows := rows[heir := Row(user, heirUntil, false)];
      return true;
    }

    /** DeleteRefreshTokensForUser. */
    method DeleteForUser(user: User)
      modifies this`rows
      ensures rows == map t | t in old(rows) && old(rows)[t].user != user :: old(rows)[t]
    {
      rows := map t | t in rows && rows[t].user != user :: rows[t];
    }

    /** SetUserActiveAndRevokeSessions: only deactivation revokes. */
    method SetUserActive(user: User, active: bool) returns (found: bool)
      modifies this
      ensures found <==> user in old(users)
      ensures users == if found then old(users)[user := active] else old(users)
      ensures rows == if found && !active then map t | t in old(rows) && old(rows)[t].user != user :: old(rows)[t] else old(rows)
    {
      if user !in users {
        return false;
      }
      users := users[user := active];
      if !active {
        DeleteForUser(user);
      }
      return true;
    }

    /** PruneExpiredRefreshTokens: used or not, and how many. */
    method Prune(cutoff: Time) returns (removed: nat)
      modifies this`rows
      ensures rows == map t | t in old(rows) && old(rows)[t].expiresAt >= cutoff :: old(rows)[t]
      ensures removed == |set t | t in old(rows) && old(rows)[t].expiresAt < cutoff|
    {
      removed := |set t | t in rows && rows[t].expiresAt < cutoff|;
      rows := map t | t in rows && rows[t].expiresAt >= cutoff :: rows[t];
    }

    /** handleRefreshToken with nobody else about: each refusal exactly when its
        check fails first, a spent token costing the user every token they hold,
        and a rotation otherwise. */
    method Refresh(tok: Token, heir: Token, now: Time) returns (reply: Reply)
      modifies this`rows
      ensures reply == Refused(Unknown) <==> tok !in old(rows)
      ensures reply == Refused(Reused) <==> old(tok in rows && rows[tok].used)
      ensures reply == Refused(Expired) <==> old(tok in rows && !rows[tok].used && now >= rows[tok].expiresAt)
      ensures reply == Refused(NoUser) <==>
                old(tok in rows && !rows[tok].used && now < rows[tok].expiresAt && rows[tok].user !in users)
      ensures reply == Refused(Inactive) <==>
                old(tok in rows && !rows[tok].used && now < rows[tok].expiresAt && rows[tok].user in users && !users[rows[tok].user])
      ensures reply.Refused? || reply == Issued(heir)
      ensures reply.Refused? && reply.why != Reused ==> rows == old(rows)
      ensures reply == Refused(Reused) ==>
                rows == map t | t in old(rows) && old(rows)[t].user != old(rows)[tok].user :: old(rows)[t]
      ensures reply.Issued? ==>
                rows == old(rows)[tok := old(rows)[tok].(used := true)][heir := Row(old(rows)[tok].user, now + ttl, false)]
    {
      if tok !in rows {
        return Refused(Unknown);
      }
      var stored := rows[tok];
      if stored.used {
        DeleteForUser(stored.user);
        return Refused(Reused);
      }
      if now >= stored.expiresAt {
        return Refused(Expired);
      }
      if stored.user !in users {
        return Refused(NoUser);
      }
      if !users[stored.user] {
        return Refused(Inactive);
      }
      var rotated := Rotate(tok, heir, stored.user, now + ttl);
      // Uninterrupted, the race for the row cannot be lost.
      assert rotated;
      return Issued(heir);
    }
  }
}
