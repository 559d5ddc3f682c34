/** The throttle object of throttle.go. Its methods run under one mutex, so each
    is a single step. */
module LoginThrottles {
  import opened Throttle

  const MAX_THROTTLED_CLIENTS := 10000

  class LoginThrottle {
    const limits: Limits
    var clients: Clients

    ghost predicate Valid()
      reads this
    {
      limits.Valid() && Bounded(limits, clients)
    }

    constructor (burst: nat, refill: int)
      requires burst >= 1 && refill >= 1
      ensures Valid() && limits == Limits(burst, refill, MAX_THROTTLED_CLIENTS) && clients == map[]
    {
      limits := Limits(burst, refill, MAX_THROTTLED_CLIENTS);
      clients := map[];
      new;
      assert clients.Keys - {OVERFLOW_CLIENT} == {};
    }

    method Allow(client: string, now: int) returns (answer: Answer)
      requires Valid()
      modifies this`clients
      ensures Valid()
      ensures clients == Opened(limits, old(clients), client, now, false)
      ensures answer == AnswerOf(limits, old(clients), client, now)
    {
      OpenedBounded(limits, clients, client, now, false);
      var key := FindBucket(client, now, false);
      if key !in clients || clients[key].credit >= limits.refill {
        answer := Allowed;
      } else {
        answer := Rejected(limits.refill - clients[key].credit);
      }
    }

    method Fail(client: string, now: int)
      requires Valid()
      modifies this`clients
      ensures Valid()
      ensures clients == Failed(limits, old(clients), client, now)
    {
      ghost var before := clients;
      CreatedIsThere(limits, before, client, now);
      var key := FindBucket(client, now, true);
      var bucket := clients[key];
      clients := clients[key := Bucket(Max(0, bucket.credit - limits.refill), bucket.updated)];
      assert clients == Failed(limits, before, client, now);
      FailedBounded(limits, before, client, now);
    }

    /** The key whose bucket stands for the client, refilled to now when it is
        tracked. */
    method FindBucket(client: string, now: int, create: bool) returns (key: string)
      modifies this`clients
      ensures key == KeyFor(limits, old(clients), client, now)
      ensures clients == Opened(limits, old(clients), client, now, create)
    {
      key := client;
      if client !in clients && |clients| >= limits.most {
        Prune(now);
        if |clients| >= limits.most {
          key := OVERFLOW_CLIENT;
        }
      }
      if key !in clients {
        if !create {
          return;
        }
        clients := clients[key := Bucket(limits.Capacity(), now)];
      }
      var bucket := clients[key];
      var elapsed := now - bucket.updated;
      if elapsed > 0 {
        clients := clients[key := Bucket(Min(limits.Capacity(), bucket.credit + elapsed), now)];
      } else {
        assert clients == clients[key := bucket];
      }
    }

    method Prune(now: int)
      modifies this`clients
      ensures clients == Pruned(limits, old(clients), now)
    {
      var left := clients.Keys;
      ghost var before := clients;
      while left != {}
        invariant left <= before.Keys
        invariant clients == map k | k in before && (k in left || !Full(limits, before[k], now)) :: before[k]
        decreases left
      {
        var client :| client in left;
        left := left - {client};
        if Full(limits, clients[client], now) {
          clients := clients - {client};
        }
      }
    }
  }
}
