/** What each turn of TokenClient tells the requests that wait and does to the
    token store, case by case (TokenRefresher.swift). */
module TokenAnswers {
  import opened Prelude
  import opened RefreshTokens
  import opened TokenClient

  // ---- What each request is told -------------------------------------------

  /** The stored session is the one the request went out with. */
  ghost predicate StillStored(c: Client, access: Token) {
    c.store.Some? && c.store.value.access == access
  }

  /** No other request is touched, and this one answered or left waiting. */
  ghost predicate OnlyAsks(c: Client, id: nat, c': Client) {
    && id in c'.requests && c'.requests == c.requests[id := c'.requests[id]]
    && c'.store == c.store && c'.turn == c.turn && c'.outcomes == c.outcomes
  }

  /** After a 401: the request is to be sent again when a newer session is stored,
      refused when there is none to refresh, and left alone when the store cannot
      be read; otherwise it waits for the trade in flight, or for the one it
      starts. */
  lemma UnauthorizedExactlyWhen(c: Client, id: nat, failed: Token, read: bool)
    ensures OnlyAsks(c, id, Unauthorized(c, id, failed, read))
    ensures var r := Unauthorized(c, id, failed, read).requests[id];
            && (r == Done(Unreachable) <==> !read)
            && (forall access :: r == Done(Retry(access)) <==> read && access != failed && StillStored(c, access))
            && (r == Done(Denied) <==>
                  read && (c.store.None? || (StillStored(c, failed) && Refreshable(c).None? && c.trade.None?)))
            && (r.Waiting? <==> read && StillStored(c, failed) && (c.trade.Some? || Refreshable(c).Some?))
            && (r.Waiting? ==> r.drops == Refreshable(c) && r.observed.None?
                               && r.trade == (if c.trade.Some? then c.trade.value.id else |c.traded|))
    ensures Unauthorized(c, id, failed, read).traded ==
            if read && StillStored(c, failed) && c.trade.None? && Refreshable(c).Some? then c.traded + [Refreshable(c).value]
            else c.traded
  {
  }

  /** Before expiry the request goes out with the token observed, or the newer one
      stored, unless a trade is in flight or due; and it drops nothing. */
  lemma EarlyExactlyWhen(c: Client, id: nat, observed: Token, due: bool, read: bool)
    ensures OnlyAsks(c, id, Early(c, id, observed, due, read))
    ensures var r := Early(c, id, observed, due, read).requests[id];
            && (forall access | access != observed :: r == Done(Retry(access)) <==> read && StillStored(c, access))
            && (r == Done(Retry(observed)) <==>
                  !read || c.store.None?
                  || (StillStored(c, observed) && c.trade.None? && (!due || Refreshable(c).None?)))
            && (r.Waiting? <==> read && StillStored(c, observed) && (c.trade.Some? || (due && Refreshable(c).Some?)))
            && (r.Waiting? ==> r.drops.None? && r.observed == Some(observed)
                               && r.trade == (if c.trade.Some? then c.trade.value.id else |c.traded|))
    ensures Early(c, id, observed, due, read).traded ==
            if read && due && StillStored(c, observed) && c.trade.None? && Refreshable(c).Some?
            then c.traded + [Refreshable(c).value] else c.traded
  {
  }

  /** A request that waited is told how its trade went; one that refreshed early
      goes out all the same. It sets out to drop the stored refresh token exactly
      when refused with the token it read still stored. */
  lemma WakeExactlyWhen(c: Client, id: nat, read: bool)
    requires Possible(c, Resume(id, read))
    ensures var w, c' := c.requests[id], Wake(c, id, read);
            && c'.requests == c.requests[id := c'.requests[id]] && c'.requests[id].Done?
            && c'.store == c.store && c'.trade == c.trade && c'.traded == c.traded && c'.outcomes == c.outcomes
            && (w.observed.None? || c.outcomes[w.trade].Retry? ==> c'.requests[id].outcome == c.outcomes[w.trade])
            && (w.observed.Some? && !c.outcomes[w.trade].Retry? ==> c'.requests[id].outcome == Retry(w.observed.value))
            && (if c.outcomes[w.trade] == Denied && w.drops.Some? && read && Refreshable(c) == w.drops
                then c'.turn == Dropping(c.store.value) else c'.turn == c.turn)
  {
  }

  /** What an answer comes to: the new access token once it is saved, or at once
      when there is nothing to save it for, the old session cleared if the store
      could not be read; a refusal; or no answer. */
  lemma HearExactlyWhen(c: Client, reply: Reply, read: bool, cleared: bool)
    requires c.trade.Some?
    ensures var c', n := Hear(c, reply, read, cleared), c.trade.value.id;
            && (reply.Issued? && read && Refreshable(c) == Some(c.trade.value.tok) ==>
                  c'.turn == Saving(reply.token) && c'.trade == c.trade && c'.outcomes == c.outcomes)
            && (reply.Issued? && !(read && Refreshable(c) == Some(c.trade.value.tok)) ==>
                  c'.trade.None? && c'.outcomes == c.outcomes[n := Retry(reply.token)])
            && (reply.Refused? ==> c'.trade.None? && c'.outcomes == c.outcomes[n := Denied])
            && (reply.Failed? ==> c'.trade.None? && c'.outcomes == c.outcomes[n := Unreachable])
            && c'.store == (if reply.Issued? && !read && cleared then None else c.store)
  {
  }

  /** What was handed out is stored, or else nothing is if it could be cleared;
      the requests waiting get it either way. */
  lemma SaveExactlyWhen(c: Client, written: bool, cleared: bool)
    requires Possible(c, Save(written, cleared))
    ensures var c', heir := Happen(c, Save(written, cleared)), c.turn.heir;
            && c'.turn.Idle? && c'.trade.None? && c'.requests == c.requests
            && c'.outcomes == c.outcomes[c.trade.value.id := Retry(heir)]
            && c'.store == (if written then Some(Stored(heir, Some(heir))) else if cleared then None else c.store)
  {
  }
}
