/**
 * The Redis subset the leadership protocol uses: two keys, each holding an
 * owner and an expiry, on a server with its own clock. The functions say what
 * a command does to the stored contents; `RedisStore` executes them over a
 * network that may lose a request or its answer.
 */
module LeaseStore {
  import opened Prelude

  datatype Key = Lock | Handover

  datatype Entry = Entry(owner: nat, expires: nat)

  type Contents = map<Key, Entry>

  /** What the network did with one command. */
  datatype Delivery =
    | Delivered   // executed, and the caller got the answer
    | Refused     // never executed, the caller sees an exception
    | AnswerLost  // executed, but the caller sees an exception

  datatype Reply<T> = Answer(value: T) | Threw

  /** GET: the owner of an unexpired key. */
  function Get(c: Contents, k: Key, now: nat): Option<nat> {
    if k in c && now < c[k].expires then Some(c[k].owner) else None
  }

  /** SET key owner PX ttl NX. */
  function SetNx(c: Contents, k: Key, owner: nat, ttl: nat, now: nat): Contents {
    if Get(c, k, now).None? then c[k := Entry(owner, now + ttl)] else c
  }

  /** PEXPIRE key ttl, whoever owns the key. */
  function PExpire(c: Contents, k: Key, ttl: nat, now: nat): Contents {
    if Get(c, k, now).Some? then c[k := Entry(c[k].owner, now + ttl)] else c
  }

  /** The compare-and-delete script. */
  function DelIfOwned(c: Contents, k: Key, owner: nat, now: nat): Contents {
    if Get(c, k, now) == Some(owner) then c - {k} else c
  }

  /** The contents after a command that the network treated as `d`. */
  function Through(d: Delivery, before: Contents, executed: Contents): Contents {
    if d.Refused? then before else executed
  }

  class RedisStore {
    var contents: Contents

    constructor ()
      ensures contents == map[]
    {
      contents := map[];
    }

    method ReadKey(k: Key, now: nat, d: Delivery) returns (r: Reply<Option<nat>>)
      ensures r == if d.Delivered? then Answer(Get(contents, k, now)) else Threw
    {
      r := if d.Delivered? then Answer(Get(contents, k, now)) else Threw;
    }

    method ClaimKey(k: Key, owner: nat, ttl: nat, now: nat, d: Delivery) returns (r: Reply<bool>)
      modifies this
      ensures contents == Through(d, old(contents), SetNx(old(contents), k, owner, ttl, now))
      ensures r == if d.Delivered? then Answer(Get(old(contents), k, now).None?) else Threw
    {
      var free := !(k in contents && now < contents[k].expires);
      if !d.Refused? && free {
        contents := contents[k := Entry(owner, now + ttl)];
      }
      r := if d.Delivered? then Answer(free) else Threw;
    }

    method ExtendKey(k: Key, ttl: nat, now: nat, d: Delivery) returns (r: Reply<()>)
      modifies this
      ensures contents == Through(d, old(contents), PExpire(old(contents), k, ttl, now))
      ensures r == if d.Delivered? then Answer(()) else Threw
    {
      if !d.Refused? && k in contents && now < contents[k].expires {
        contents := contents[k := contents[k].(expires := now + ttl)];
      }
      r := if d.Delivered? then Answer(()) else Threw;
    }

    method DeleteIfOwned(k: Key, owner: nat, now: nat, d: Delivery) returns (r: Reply<()>)
      modifies this
      ensures contents == Through(d, old(contents), DelIfOwned(old(contents), k, owner, now))
      ensures r == if d.Delivered? then Answer(()) else Threw
    {
      if !d.Refused? && k in contents && now < contents[k].expires && contents[k].owner == owner {
        contents := contents - {k};
      }
      r := if d.Delivered? then Answer(()) else Threw;
    }
  }
}
