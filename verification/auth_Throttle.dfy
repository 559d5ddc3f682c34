/** The login throttle: one token bucket per client that only failed sign-ins
    drain. A token is worth `refill` nanoseconds, so a bucket holds an integer
    number of nanoseconds of credit and all arithmetic is exact. */
module Throttle {
  /** `most` bounds the tracked clients (maxThrottledClients). */
  datatype Limits = Limits(burst: nat, refill: int, most: nat)
  {
    ghost predicate Valid() { burst >= 1 && refill >= 1 }

    function Capacity(): int { Worth(burst, refill) }
  }

  /** The credit that so many tokens are worth. */
  function Worth(tokens: nat, refill: int): int {
    if tokens == 0 then 0 else Worth(tokens - 1, refill) + refill
  }

  lemma {:induction false} WorthIsProduct(tokens: nat, refill: int)
    ensures Worth(tokens, refill) == tokens * refill
  {
    if tokens > 0 {
      WorthIsProduct(tokens - 1, refill);
      assert tokens * refill == (tokens - 1) * refill + refill;
    }
  }

  datatype Bucket = Bucket(credit: int, updated: int)

  type Clients = map<string, Bucket>

  datatype Answer = Allowed | Rejected(wait: int)

  const OVERFLOW_CLIENT: string := "*"

  function Min(a: int, b: int): int { if a < b then a else b }

  function Max(a: int, b: int): int { if a < b then b else a }

  lemma {:induction false} WorthGrows(fewer: nat, more: nat, refill: int)
    requires refill >= 1 && fewer <= more
    ensures Worth(more, refill) >= Worth(fewer, refill) + (more - fewer)
  {
    if fewer < more {
      WorthGrows(fewer, more - 1, refill);
    }
  }

  lemma CapacityHoldsOne(l: Limits)
    requires l.Valid()
    ensures l.Capacity() >= l.refill >= 1
  {
    WorthGrows(0, l.burst - 1, l.refill);
  }

  // ---- one operation ----

  function Refilled(l: Limits, b: Bucket, now: int): Bucket {
    if now > b.updated then Bucket(Min(l.Capacity(), b.credit + (now - b.updated)), now) else b
  }

  predicate Full(l: Limits, b: Bucket, now: int) {
    b.credit + (now - b.updated) >= l.Capacity()
  }

  function Pruned(l: Limits, clients: Clients, now: int): Clients {
    map k | k in clients && !Full(l, clients[k], now) :: clients[k]
  }

  /** The buckets once an unknown client at the limit has forced a pruning. */
  function Room(l: Limits, clients: Clients, client: string, now: int): Clients {
    if client !in clients && |clients| >= l.most then Pruned(l, clients, now) else clients
  }

  /** The bucket that stands for a client: the shared one when there is no room
      for another. */
  function KeyFor(l: Limits, clients: Clients, client: string, now: int): string {
    if client !in clients && |Room(l, clients, client, now)| >= l.most then OVERFLOW_CLIENT else client
  }

  /** The state after looking a bucket up. */
  function Opened(l: Limits, clients: Clients, client: string, now: int, create: bool): Clients {
    var room, key := Room(l, clients, client, now), KeyFor(l, clients, client, now);
    if key in room then room[key := Refilled(l, room[key], now)]
    else if create then room[key := Bucket(l.Capacity(), now)]
    else room
  }

  function AnswerOf(l: Limits, clients: Clients, client: string, now: int): Answer {
    var found, key := Opened(l, clients, client, now, false), KeyFor(l, clients, client, now);
    if key !in found || found[key].credit >= l.refill then Allowed
    else Rejected(l.refill - found[key].credit)
  }

  lemma CreatedIsThere(l: Limits, clients: Clients, client: string, now: int)
    ensures KeyFor(l, clients, client, now) in Opened(l, clients, client, now, true)
  {
  }

  function Failed(l: Limits, clients: Clients, client: string, now: int): Clients {
    CreatedIsThere(l, clients, client, now);
    var found, key := Opened(l, clients, client, now, true), KeyFor(l, clients, client, now);
    found[key := Bucket(Max(0, found[key].credit - l.refill), found[key].updated)]
  }

  // ---- what buckets are worth ----

  /** The credit a key has at a time, whether or not it is tracked. */
  function Credit(l: Limits, clients: Clients, key: string, now: int): int {
    if key in clients then Min(l.Capacity(), clients[key].credit + Max(0, now - clients[key].updated))
    else l.Capacity()
  }

  ghost predicate Bounded(l: Limits, clients: Clients) {
    && (forall k :: k in clients ==> 0 <= clients[k].credit <= l.Capacity())
    && |clients.Keys - {OVERFLOW_CLIENT}| <= l.most
  }

  /** No bucket was updated after `now`. */
  ghost predicate Until(clients: Clients, now: int) {
    forall k :: k in clients ==> clients[k].updated <= now
  }

  lemma PrunedKeepsCredit(l: Limits, clients: Clients, key: string, now: int, later: int)
    requires Bounded(l, clients) && now <= later
    ensures Credit(l, Pruned(l, clients, now), key, later) == Credit(l, clients, key, later)
  {
  }

  /** Looking a bucket up, pruning included, changes no key's credit. */
  lemma OpenedKeepsCredit(l: Limits, clients: Clients, client: string, now: int, create: bool, key: string, later: int)
    requires Bounded(l, clients) && now <= later
    ensures Credit(l, Opened(l, clients, client, now, create), key, later) == Credit(l, clients, key, later)
  {
    PrunedKeepsCredit(l, clients, key, now, later);
  }

  /** The bucket that was looked up holds exactly its key's credit. */
  lemma FoundCredit(l: Limits, clients: Clients, client: string, now: int, create: bool)
    requires l.Valid() && Bounded(l, clients)
    ensures
      var found, key := Opened(l, clients, client, now, create), KeyFor(l, clients, client, now);
      && (key in found ==> found[key].credit == Credit(l, clients, key, now))
      && (key !in found ==> Credit(l, clients, key, now) == l.Capacity())
      && (key in found && Until(clients, now) ==> found[key].updated == now)
  {
    OpenedKeepsCredit(l, clients, client, now, create, KeyFor(l, clients, client, now), now);
    CapacityHoldsOne(l);
  }

  /** Taking one refill out of a bucket that is up to date. */
  lemma TakenCredit(l: Limits, found: Clients, k: string, now: int, key: string, later: int)
    requires k in found && found[k].updated == now <= later
    ensures
      var after := found[k := Bucket(Max(0, found[k].credit - l.refill), now)];
      Credit(l, after, key, later) ==
        if key == k then Min(l.Capacity(), Max(0, found[k].credit - l.refill) + (later - now))
        else Credit(l, found, key, later)
  {
  }

  /** A failure takes one refill from the key it is charged to, down to zero, and
      nothing from any other. */
  lemma FailedTakesOne(l: Limits, clients: Clients, client: string, now: int, key: string, later: int)
    requires l.Valid() && Bounded(l, clients) && Until(clients, now) && now <= later
    ensures Credit(l, Failed(l, clients, client, now), key, later) ==
            if key == KeyFor(l, clients, client, now)
            then Min(l.Capacity(), Max(0, Credit(l, clients, key, now) - l.refill) + (later - now))
            else Credit(l, clients, key, later)
  {
    CreatedIsThere(l, clients, client, now);
    FoundCredit(l, clients, client, now, true);
    OpenedKeepsCredit(l, clients, client, now, true, key, later);
    TakenCredit(l, Opened(l, clients, client, now, true), KeyFor(l, clients, client, now), now, key, later);
  }

  lemma AnswerFromCredit(l: Limits, clients: Clients, client: string, now: int)
    requires l.Valid() && Bounded(l, clients)
    ensures
      var credit := Credit(l, clients, KeyFor(l, clients, client, now), now);
      AnswerOf(l, clients, client, now) == if credit >= l.refill then Allowed else Rejected(l.refill - credit)
  {
    CapacityHoldsOne(l);
    FoundCredit(l, clients, client, now, false);
  }

  // ---- memory ----

  lemma PrunedBounded(l: Limits, clients: Clients, now: int)
    requires Bounded(l, clients)
    ensures Bounded(l, Pruned(l, clients, now)) && |Pruned(l, clients, now)| <= |clients|
  {
    var pruned := Pruned(l, clients, now);
    SubsetSize(pruned.Keys, clients.Keys);
    SubsetSize(pruned.Keys - {OVERFLOW_CLIENT}, clients.Keys - {OVERFLOW_CLIENT});
  }

  lemma {:induction false} SubsetSize<T>(a: set<T>, b: set<T>)
    requires a <= b
    ensures |a| <= |b|
  {
    assert b == a + (b - a);
  }

  lemma AddedBounded(l: Limits, clients: Clients, key: string, b: Bucket)
    requires Bounded(l, clients) && 0 <= b.credit <= l.Capacity()
    requires key in clients || key == OVERFLOW_CLIENT || |clients| < l.most
    ensures Bounded(l, clients[key := b])
  {
    var after := clients[key := b];
    KeysAfterUpdate(clients, key, b);
    forall k | k in after ensures 0 <= after[k].credit <= l.Capacity() {
      assert k == key || k in clients;
    }
    OwnKeys(l.most, clients.Keys, key);
  }

  lemma KeysAfterUpdate<K, V>(m: map<K, V>, key: K, value: V)
    ensures m[key := value].Keys == m.Keys + {key}
  {
  }

  lemma OwnKeys(most: nat, keys: set<string>, key: string)
    requires |keys - {OVERFLOW_CLIENT}| <= most
    requires key in keys || key == OVERFLOW_CLIENT || |keys| < most
    ensures |keys + {key} - {OVERFLOW_CLIENT}| <= most
  {
    var own := keys - {OVERFLOW_CLIENT};
    if key in keys || key == OVERFLOW_CLIENT {
      assert keys + {key} - {OVERFLOW_CLIENT} == own;
    } else {
      assert keys + {key} - {OVERFLOW_CLIENT} == own + {key};
      SubsetSize(own, keys);
    }
  }

  lemma OpenedBounded(l: Limits, clients: Clients, client: string, now: int, create: bool)
    requires l.Valid() && Bounded(l, clients)
    ensures Bounded(l, Opened(l, clients, client, now, create))
  {
    CapacityHoldsOne(l);
    PrunedBounded(l, clients, now);
    var room, key := Room(l, clients, client, now), KeyFor(l, clients, client, now);
    if key in room {
      AddedBounded(l, room, key, Refilled(l, room[key], now));
    } else if create {
      AddedBounded(l, room, key, Bucket(l.Capacity(), now));
    }
  }

  lemma TakenBounded(l: Limits, found: Clients, key: string)
    requires Bounded(l, found) && key in found && l.refill >= 0
    ensures Bounded(l, found[key := Bucket(Max(0, found[key].credit - l.refill), found[key].updated)])
  {
    AddedBounded(l, found, key, Bucket(Max(0, found[key].credit - l.refill), found[key].updated));
  }

  lemma FailedBounded(l: Limits, clients: Clients, client: string, now: int)
    requires l.Valid() && Bounded(l, clients)
    ensures Bounded(l, Failed(l, clients, client, now))
  {
    OpenedBounded(l, clients, client, now, true);
    CreatedIsThere(l, clients, client, now);
    TakenBounded(l, Opened(l, clients, client, now, true), KeyFor(l, clients, client, now));
  }

  /** One bucket more than the limit at most, and then the shared one is among
      them. */
  lemma MemoryBound(l: Limits, clients: Clients)
    requires Bounded(l, clients)
    ensures |clients| <= l.most + 1
    ensures |clients| == l.most + 1 ==> OVERFLOW_CLIENT in clients
  {
    if OVERFLOW_CLIENT in clients {
      assert clients.Keys == (clients.Keys - {OVERFLOW_CLIENT}) + {OVERFLOW_CLIENT};
    } else {
      assert clients.Keys == clients.Keys - {OVERFLOW_CLIENT};
    }
    assert |clients| == |clients.Keys|;
  }

  // ---- a look-up followed by a failure ----

  /** A second look-up at the same time finds the same bucket. */
  lemma SameKeyAgain(l: Limits, clients: Clients, client: string, now: int)
    ensures KeyFor(l, Opened(l, clients, client, now, false), client, now) == KeyFor(l, clients, client, now)
  {
    var room, key := Room(l, clients, client, now), KeyFor(l, clients, client, now);
    var found := Opened(l, clients, client, now, false);
    assert found.Keys == room.Keys;
    assert |found| == |found.Keys| == |room.Keys| == |room|;
    if client !in clients && |room| >= l.most {
      assert room == Pruned(l, clients, now);
      assert Pruned(l, found, now) == found;
    }
  }
}
