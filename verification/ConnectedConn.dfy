/** A connected round-tripper as an object over the front pool, one call at a time. */
module ConnectedConn {
  import opened FrontPool

  /** What RoundTrip answers. A Responded answer carries the connection. */
  datatype Answer = AlreadyUsed | NoMapping | NoBody | Failed | Responded

  class ConnectedRoundTripper {
    const pool: Pool
    const front: Front
    var used: bool
    var open: bool      // the connection

    ghost predicate Valid()
      reads this, pool, pool.known
    {
      pool.Valid() && front in pool.known && (!used ==> open)
    }

    constructor (pool: Pool, front: Front)
      requires pool.Valid() && front in pool.known
      ensures Valid() && !used && open && this.pool == pool && this.front == front
    {
      this.pool, this.front, used, open := pool, front, false, true;
    }

    /**
     RoundTrip, given whether the provider still maps the host, whether the body could be read, whether the
     request succeeded, and the clock. Only the first use touches the pool or the connection.
     */
    method RoundTrip(mapped: bool, bodyOk: bool, replyOk: bool, now: nat) returns (r: Answer)
      requires Valid()
      modifies this, pool`ready, front`queued, front`lastSucceeded
      ensures Valid() && used
      ensures r.AlreadyUsed? <==> old(used)
      ensures !old(used) ==>
                && (r.NoMapping? <==> !mapped) && (r.NoBody? <==> mapped && !bodyOk)
                && (r.Failed? <==> mapped && bodyOk && !replyOk)
      ensures old(used) ==> open == old(open) && pool.ready == old(pool.ready)
                            && front.lastSucceeded == old(front.lastSucceeded)
      ensures !old(used) ==>
                && (r.Responded? <==> mapped && bodyOk && replyOk) && (open <==> r.Responded?)
                && front.lastSucceeded == (if r.Responded? then now else if r.Failed? then 0
                                           else old(front.lastSucceeded))
                && pool.ready == (if r.Failed? || front in old(pool.ready) || |old(pool.ready)| == pool.cap
                                  then old(pool.ready) else old(pool.ready) + [front])
    {
      if used {
        return AlreadyUsed;
      }
      used := true;
      if !mapped || !bodyOk {
        pool.Return(front, true);
        open := false;
        return if !mapped then NoMapping else NoBody;
      }
      if !replyOk {
        pool.Return(front, false);
        open := false;
        return Failed;
      }
      pool.ReturnSuccess(front, now);
      r := Responded;
    }

    /** Close gives the front back untouched, once; after any use it does nothing. */
    method Close()
      requires Valid()
      modifies this, pool`ready, front`queued, front`lastSucceeded
      ensures Valid() && used
      ensures front.lastSucceeded == old(front.lastSucceeded)
      ensures old(used) ==> open == old(open) && pool.ready == old(pool.ready)
      ensures !old(used) ==>
                && !open
                && pool.ready == (if front in old(pool.ready) || |old(pool.ready)| == pool.cap
                                  then old(pool.ready) else old(pool.ready) + [front])
    {
      if used {
        return;
      }
      used := true;
      pool.Return(front, true);
      open := false;
    }
  }
}
