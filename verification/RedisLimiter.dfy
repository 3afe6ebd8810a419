// The limiter as an object: a store whose sorted sets the script's commands change in
// place, and the call that turns the script's answer, or its failure, into a result.
module RedisLimiter {
  import opened Common
  import opened RateLimiter

  class Store {
    var db: Keyspace

    constructor ()
      ensures db == map[]
    {
      db := map[];
    }

    // A key past its deadline is dropped before it is used.
    method DropExpired(key: string, clock: int)
      modifies this
      ensures db == Purge(old(db), key, clock)
    {
      if key in db && Expired(db[key], clock) {
        db := db - {key};
      }
    }

    method RemoveByScore(key: string, lo: int, hi: int)
      modifies this
      ensures db == ZRemRangeByScore(old(db), key, lo, hi)
    {
      if key in db {
        var rest := Outside(db[key].members, lo, hi);
        if rest == {} {
          db := db - {key};
        } else {
          db := db[key := db[key].(members := rest)];
        }
      }
    }

    method Card(key: string) returns (n: nat)
      ensures n == ZCard(db, key)
    {
      n := if key in db then |db[key].members| else 0;
    }

    method Add(key: string, score: nat, suffix: nat)
      modifies this
      ensures db == ZAdd(old(db), key, (score, suffix))
    {
      if key in db {
        db := db[key := db[key].(members := db[key].members + {(score, suffix)})];
      } else {
        db := db[key := Entry({(score, suffix)}, None)];
      }
    }

    method SetDeadline(key: string, ms: int, clock: int)
      modifies this
      ensures db == PExpire(old(db), key, ms, clock)
    {
      if key in db {
        if ms <= 0 {
          db := db - {key};
        } else {
          db := db[key := db[key].(expiresAt := Some(clock + ms))];
        }
      }
    }

    // The script, command by command.
    method Eval(l: Limits, c: Call) returns (answer: Answer)
      modifies this
      ensures (db, answer) == Script(old(db), l, c)
    {
      DropExpired(c.key, c.clock);
      RemoveByScore(c.key, 0, c.now - l.window);
      var count := Card(c.key);
      if count < l.maxRequests {
        Add(c.key, c.now, c.suffix);
        SetDeadline(c.key, l.window, c.clock);
        answer := Answer(true, l.maxRequests - count - 1);
      } else {
        answer := Answer(false, 0);
      }
    }
  }

  // How a script call can go: it runs, it runs but its answer is lost, or it never runs.
  datatype Link = Up | AnswerLost | Down

  const NANOS_PER_MILLI := 1_000_000
  const DEFAULT_WINDOW_NANOS := 60_000 * NANOS_PER_MILLI
  const DEFAULT_REQUESTS := 60

  // Division that truncates toward zero.
  function Truncated(a: int, b: int): (q: int)
    requires b > 0
    ensures a >= 0 ==> q * b <= a < q * b + b
    ensures a <= 0 ==> q * b - b < a <= q * b
  {
    if a >= 0 then a / b else -(-a / b)
  }

  class Limiter {
    const store: Store
    const windowNanos: int
    const requestsPerMinute: int

    ghost function Config(): Limits {
      Limits(Truncated(windowNanos, NANOS_PER_MILLI), requestsPerMinute)
    }

    // A zero window means a minute and a zero limit means sixty.
    constructor (store: Store, windowNanos: int, requestsPerMinute: int)
      ensures this.store == store
      ensures this.windowNanos == if windowNanos == 0 then 60_000_000_000 else windowNanos
      ensures this.requestsPerMinute == if requestsPerMinute == 0 then 60 else requestsPerMinute
    {
      this.store := store;
      this.windowNanos := if windowNanos == 0 then DEFAULT_WINDOW_NANOS else windowNanos;
      this.requestsPerMinute := if requestsPerMinute == 0 then DEFAULT_REQUESTS else requestsPerMinute;
    }

    // Without an answer the request is allowed with the full limit remaining, and an error is
    // reported; the store has changed only if the script ran.  answeredAt is the clock when
    // the answer is in, in nanoseconds.
    method Allow(c: Call, link: Link, answeredAt: int) returns (result: Answer, resetAt: Option<int>, failed: bool)
      modifies store
      ensures failed <==> !link.Up?
      ensures link.Up? ==> (store.db, result) == Script(old(store.db), Config(), c)
      ensures link.AnswerLost? ==> store.db == Script(old(store.db), Config(), c).0
      ensures link.Down? ==> store.db == old(store.db)
      ensures failed ==> result == Answer(true, requestsPerMinute)
      ensures resetAt == if failed then None else Some(answeredAt + windowNanos)
    {
      var limits := Limits(Truncated(windowNanos, NANOS_PER_MILLI), requestsPerMinute);
      if link.Down? {
        return Answer(true, requestsPerMinute), None, true;
      }
      var answer := store.Eval(limits, c);
      if link.AnswerLost? {
        return Answer(true, requestsPerMinute), None, true;
      }
      return answer, Some(answeredAt + windowNanos), false;
    }
  }
}
