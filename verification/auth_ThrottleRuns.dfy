/** Whole runs of the throttle against a reference that knows no buckets: the
    list of charged failures alone. */
module ThrottleRuns {
  import opened Throttle

  /** A failure and the bucket it was charged to. */
  datatype Charge = Charge(key: string, at: int)

  datatype State = State(clients: Clients, charges: seq<Charge>)

  const EMPTY := State(map[], [])

  /** What a key has left, from the failures charged to it. */
  function Reference(l: Limits, charges: seq<Charge>, key: string, now: int): int {
    if charges == [] then l.Capacity()
    else
      var earlier, last := charges[..|charges| - 1], charges[|charges| - 1];
      if last.key == key
      then Min(l.Capacity(), Max(0, Reference(l, earlier, key, last.at) - l.refill) + (now - last.at))
      else Reference(l, earlier, key, now)
  }

  /** The times do not decrease, and end by `now`. */
  ghost predicate InOrder(charges: seq<Charge>, now: int) {
    charges != [] ==> charges[|charges| - 1].at <= now && InOrder(charges[..|charges| - 1], charges[|charges| - 1].at)
  }

  lemma InOrderLater(charges: seq<Charge>, now: int, later: int)
    requires InOrder(charges, now) && now <= later
    ensures InOrder(charges, later)
  {
  }

  lemma {:induction false} ReferenceRange(l: Limits, charges: seq<Charge>, key: string, now: int)
    requires l.Valid() && InOrder(charges, now)
    ensures 0 <= Reference(l, charges, key, now) <= l.Capacity()
  {
    CapacityHoldsOne(l);
    if charges != [] {
      var earlier, last := charges[..|charges| - 1], charges[|charges| - 1];
      if last.key != key {
        InOrderLater(earlier, last.at, now);
        ReferenceRange(l, earlier, key, now);
      }
    }
  }

  /** Time alone only refills. */
  lemma {:induction false} ReferenceRefills(l: Limits, charges: seq<Charge>, key: string, now: int, later: int)
    requires l.Valid() && InOrder(charges, now) && now <= later
    ensures Reference(l, charges, key, later) == Min(l.Capacity(), Reference(l, charges, key, now) + (later - now))
  {
    CapacityHoldsOne(l);
    if charges != [] {
      var earlier, last := charges[..|charges| - 1], charges[|charges| - 1];
      if last.key != key {
        InOrderLater(earlier, last.at, now);
        ReferenceRefills(l, earlier, key, now, later);
      }
    }
  }

  /** The buckets say exactly what the charges say, at any time from now on. */
  ghost predicate Faithful(l: Limits, s: State, now: int) {
    && Bounded(l, s.clients) && Until(s.clients, now)
    && InOrder(s.charges, now)
    && forall key, later :: now <= later ==> Credit(l, s.clients, key, later) == Reference(l, s.charges, key, later)
  }

  // ---- steps ----

  function Looked(l: Limits, s: State, client: string, at: int): State {
    s.(clients := Opened(l, s.clients, client, at, false))
  }

  function Charged(l: Limits, s: State, client: string, at: int): State {
    State(Failed(l, s.clients, client, at), s.charges + [Charge(KeyFor(l, s.clients, client, at), at)])
  }

  lemma EmptyFaithful(l: Limits, now: int)
    requires l.Valid()
    ensures Faithful(l, EMPTY, now)
  {
    CapacityHoldsOne(l);
    assert EMPTY.clients.Keys - {OVERFLOW_CLIENT} == {};
  }

  lemma LookedFaithful(l: Limits, s: State, client: string, before: int, at: int)
    requires l.Valid() && Faithful(l, s, before) && before <= at
    ensures Faithful(l, Looked(l, s, client, at), at)
  {
    OpenedBounded(l, s.clients, client, at, false);
    forall key, later | at <= later
      ensures Credit(l, Looked(l, s, client, at).clients, key, later) == Reference(l, s.charges, key, later)
    {
      OpenedKeepsCredit(l, s.clients, client, at, false, key, later);
    }
  }

  lemma ReferenceCharged(l: Limits, charges: seq<Charge>, c: Charge, key: string, later: int)
    ensures Reference(l, charges + [c], key, later) ==
            if c.key == key then Min(l.Capacity(), Max(0, Reference(l, charges, key, c.at) - l.refill) + (later - c.at))
            else Reference(l, charges, key, later)
  {
    assert (charges + [c])[..|charges|] == charges;
  }

  lemma ChargedCredit(l: Limits, s: State, client: string, before: int, at: int, key: string, later: int)
    requires l.Valid() && Faithful(l, s, before) && before <= at <= later
    ensures Credit(l, Charged(l, s, client, at).clients, key, later) == Reference(l, Charged(l, s, client, at).charges, key, later)
  {
    FailedTakesOne(l, s.clients, client, at, key, later);
    ReferenceCharged(l, s.charges, Charge(KeyFor(l, s.clients, client, at), at), key, later);
    assert Credit(l, s.clients, key, at) == Reference(l, s.charges, key, at);
    assert Credit(l, s.clients, key, later) == Reference(l, s.charges, key, later);
  }

  lemma FailedUntil(l: Limits, clients: Clients, client: string, now: int)
    requires Until(clients, now)
    ensures Until(Failed(l, clients, client, now), now)
  {
  }

  lemma ChargedFaithful(l: Limits, s: State, client: string, before: int, at: int)
    requires l.Valid() && Faithful(l, s, before) && before <= at
    ensures Faithful(l, Charged(l, s, client, at), at)
  {
    FailedBounded(l, s.clients, client, at);
    FailedUntil(l, s.clients, client, at);
    var charge := Charge(KeyFor(l, s.clients, client, at), at);
    assert (s.charges + [charge])[..|s.charges|] == s.charges;
    forall key, later | at <= later
      ensures Credit(l, Charged(l, s, client, at).clients, key, later) == Reference(l, Charged(l, s, client, at).charges, key, later)
    {
      ChargedCredit(l, s, client, before, at, key, later);
    }
  }

  // ---- arbitrary runs ----

  datatype Op = Allow(client: string, at: int) | Fail(client: string, at: int)

  function Step(l: Limits, s: State, op: Op): State {
    match op
    case Allow(client, at) => Looked(l, s, client, at)
    case Fail(client, at) => Charged(l, s, client, at)
  }

  function After(l: Limits, ops: seq<Op>): State {
    if ops == [] then EMPTY else Step(l, After(l, ops[..|ops| - 1]), ops[|ops| - 1])
  }

  /** The clock never goes back. */
  ghost predicate Monotone(ops: seq<Op>, now: int) {
    ops != [] ==> ops[|ops| - 1].at <= now && Monotone(ops[..|ops| - 1], ops[|ops| - 1].at)
  }

  lemma {:induction false} RunFaithful(l: Limits, ops: seq<Op>, now: int)
    requires l.Valid() && Monotone(ops, now)
    ensures Faithful(l, After(l, ops), now)
  {
    if ops == [] {
      EmptyFaithful(l, now);
    } else {
      var earlier, last := ops[..|ops| - 1], ops[|ops| - 1];
      RunFaithful(l, earlier, last.at);
      if last.Allow? {
        LookedFaithful(l, After(l, earlier), last.client, last.at, last.at);
      } else {
        ChargedFaithful(l, After(l, earlier), last.client, last.at, last.at);
      }
    }
  }

  function AnswerFrom(l: Limits, charges: seq<Charge>, key: string, now: int): Answer {
    var credit := Reference(l, charges, key, now);
    if credit >= l.refill then Allowed else Rejected(l.refill - credit)
  }

  /** In every run, an answer is what the failures charged to the client's
      bucket dictate: no look-up, pruning or re-creation shows. */
  lemma AnswersFollowCharges(l: Limits, ops: seq<Op>, client: string, now: int)
    requires l.Valid() && Monotone(ops, now)
    ensures
      var s := After(l, ops);
      AnswerOf(l, s.clients, client, now) == AnswerFrom(l, s.charges, KeyFor(l, s.clients, client, now), now)
  {
    RunFaithful(l, ops, now);
    AnswerFromCredit(l, After(l, ops).clients, client, now);
  }

  /** Every reachable state is within the memory bound and every bucket within
      its size. */
  lemma RunMemory(l: Limits, ops: seq<Op>, now: int)
    requires l.Valid() && Monotone(ops, now)
    ensures
      var clients := After(l, ops).clients;
      && |clients| <= l.most + 1
      && (|clients| == l.most + 1 ==> OVERFLOW_CLIENT in clients)
      && forall k :: k in clients ==> 0 <= clients[k].credit <= l.Capacity()
  {
    RunFaithful(l, ops, now);
    MemoryBound(l, After(l, ops).clients);
  }

  // ---- runs below the limit on tracked clients ----

  /** Every operation found its client's own bucket. */
  ghost predicate OwnBuckets(l: Limits, ops: seq<Op>) {
    forall i :: 0 <= i < |ops| ==> KeyFor(l, After(l, ops[..i]).clients, ops[i].client, ops[i].at) == ops[i].client
  }

  function Failures(ops: seq<Op>): seq<Charge> {
    if ops == [] then []
    else
      var earlier, last := Failures(ops[..|ops| - 1]), ops[|ops| - 1];
      if last.Fail? then earlier + [Charge(last.client, last.at)] else earlier
  }

  lemma {:induction false} OwnCharges(l: Limits, ops: seq<Op>)
    requires OwnBuckets(l, ops)
    ensures After(l, ops).charges == Failures(ops)
  {
    if ops != [] {
      var n := |ops| - 1;
      forall i | 0 <= i < n
        ensures KeyFor(l, After(l, ops[..n][..i]).clients, ops[..n][i].client, ops[..n][i].at) == ops[..n][i].client
      {
        assert ops[..n][..i] == ops[..i];
      }
      OwnCharges(l, ops[..n]);
      assert KeyFor(l, After(l, ops[..n]).clients, ops[n].client, ops[n].at) == ops[n].client;
    }
  }

  /** Two throttles with the same budget, whatever their limits on tracked
      clients, give the same answer after runs with the same failures, whatever
      else was looked up, as long as neither resorts to the shared bucket. */
  lemma OnlyFailuresMatter(a: Limits, b: Limits, xs: seq<Op>, ys: seq<Op>, client: string, now: int)
    requires a.Valid() && a.burst == b.burst && a.refill == b.refill
    requires Monotone(xs, now) && Monotone(ys, now) && Failures(xs) == Failures(ys)
    requires OwnBuckets(a, xs + [Allow(client, now)]) && OwnBuckets(b, ys + [Allow(client, now)])
    ensures AnswerOf(a, After(a, xs).clients, client, now) == AnswerOf(b, After(b, ys).clients, client, now)
  {
    OwnFront(a, xs, Allow(client, now));
    OwnFront(b, ys, Allow(client, now));
    OwnCharges(a, xs);
    OwnCharges(b, ys);
    AnswersFollowCharges(a, xs, client, now);
    AnswersFollowCharges(b, ys, client, now);
    ReferenceSameBudget(a, b, Failures(xs), client, now);
  }

  lemma OwnFront(l: Limits, ops: seq<Op>, op: Op)
    requires OwnBuckets(l, ops + [op])
    ensures OwnBuckets(l, ops) && KeyFor(l, After(l, ops).clients, op.client, op.at) == op.client
  {
    var all := ops + [op];
    forall i | 0 <= i < |ops|
      ensures KeyFor(l, After(l, ops[..i]).clients, ops[i].client, ops[i].at) == ops[i].client
    {
      assert all[..i] == ops[..i] && all[i] == ops[i];
    }
    assert all[..|ops|] == ops && all[|ops|] == op;
  }

  lemma {:induction false} ReferenceSameBudget(a: Limits, b: Limits, charges: seq<Charge>, key: string, now: int)
    requires a.burst == b.burst && a.refill == b.refill
    ensures Reference(a, charges, key, now) == Reference(b, charges, key, now)
  {
    assert a.Capacity() == b.Capacity();
    if charges != [] {
      var earlier, last := charges[..|charges| - 1], charges[|charges| - 1];
      ReferenceSameBudget(a, b, earlier, key, last.at);
      ReferenceSameBudget(a, b, earlier, key, now);
    }
  }

  lemma {:induction false} FewClients(l: Limits, ops: seq<Op>)
    requires |ops| <= l.most
    ensures |After(l, ops).clients| <= |ops|
    ensures forall op: Op :: |ops| < l.most ==> Room(l, After(l, ops).clients, op.client, op.at) == After(l, ops).clients
  {
    if ops != [] {
      var n := |ops| - 1;
      FewClients(l, ops[..n]);
      var clients := After(l, ops[..n]).clients;
      var op := ops[n];
      assert Room(l, clients, op.client, op.at) == clients;
      var key := KeyFor(l, clients, op.client, op.at);
      assert After(l, ops).clients.Keys <= clients.Keys + {key};
      SubsetSize(After(l, ops).clients.Keys, clients.Keys + {key});
    }
  }

  /** A throttle with more room than operations never prunes, so the others are
      compared with one that never does. */
  lemma NeverPrunes(l: Limits, ops: seq<Op>)
    requires |ops| <= l.most
    ensures OwnBuckets(l, ops)
    ensures forall i :: 0 <= i < |ops| ==>
              Room(l, After(l, ops[..i]).clients, ops[i].client, ops[i].at) == After(l, ops[..i]).clients
  {
    forall i | 0 <= i < |ops|
      ensures KeyFor(l, After(l, ops[..i]).clients, ops[i].client, ops[i].at) == ops[i].client
      ensures Room(l, After(l, ops[..i]).clients, ops[i].client, ops[i].at) == After(l, ops[..i]).clients
    {
      FewClients(l, ops[..i]);
      assert Room(l, After(l, ops[..i]).clients, ops[i].client, ops[i].at) == After(l, ops[..i]).clients;
    }
  }

  /** Pruning is invisible. */
  lemma PruningInvisible(l: Limits, ops: seq<Op>, client: string, now: int)
    requires l.Valid() && Monotone(ops, now) && OwnBuckets(l, ops + [Allow(client, now)])
    ensures
      var unpruned := l.(most := |ops| + 1);
      AnswerOf(l, After(l, ops).clients, client, now) == AnswerOf(unpruned, After(unpruned, ops).clients, client, now)
  {
    var unpruned := l.(most := |ops| + 1);
    NeverPrunes(unpruned, ops + [Allow(client, now)]);
    OnlyFailuresMatter(l, unpruned, ops, ops, client, now);
  }

  // ---- waiting ----

  /** A rejected client is still rejected before its wait is over, with what is
      left of it, and accepted from then on, unless its bucket is charged. */
  lemma WaitIsExact(l: Limits, ops: seq<Op>, more: seq<Op>, client: string, now: int, later: int)
    requires l.Valid() && Monotone(ops, now) && Monotone(ops + more, later) && now <= later
    requires KeyFor(l, After(l, ops + more).clients, client, later) == KeyFor(l, After(l, ops).clients, client, now)
    requires NotChargedSince(l, ops, more, KeyFor(l, After(l, ops).clients, client, now))
    requires AnswerOf(l, After(l, ops).clients, client, now).Rejected?
    ensures
      var ready := now + AnswerOf(l, After(l, ops).clients, client, now).wait;
      AnswerOf(l, After(l, ops + more).clients, client, later) ==
        if later >= ready then Allowed else Rejected(ready - later)
  {
    var key := KeyFor(l, After(l, ops).clients, client, now);
    AnswersFollowCharges(l, ops, client, now);
    AnswersFollowCharges(l, ops + more, client, later);
    RunFaithful(l, ops, now);
    RejectedUntil(l, After(l, ops).charges, Since(l, ops, more), key, now, later);
  }

  function Since(l: Limits, ops: seq<Op>, more: seq<Op>): seq<Charge>
    ensures After(l, ops + more).charges == After(l, ops).charges + Since(l, ops, more)
  {
    ChargesGrow(l, ops, more);
    After(l, ops + more).charges[|After(l, ops).charges|..]
  }

  ghost predicate NotChargedSince(l: Limits, ops: seq<Op>, more: seq<Op>, key: string) {
    forall c :: c in Since(l, ops, more) ==> c.key != key
  }

  lemma RejectedUntil(l: Limits, charges: seq<Charge>, others: seq<Charge>, key: string, now: int, later: int)
    requires l.Valid() && InOrder(charges, now) && now <= later && AnswerFrom(l, charges, key, now).Rejected?
    requires forall c :: c in others ==> c.key != key
    ensures
      var ready := now + AnswerFrom(l, charges, key, now).wait;
      AnswerFrom(l, charges + others, key, later) == if later >= ready then Allowed else Rejected(ready - later)
  {
    OthersDoNotCount(l, charges, others, key, later);
    ReferenceRefills(l, charges, key, now, later);
    CapacityHoldsOne(l);
  }

  lemma {:induction false} ChargesGrow(l: Limits, ops: seq<Op>, more: seq<Op>)
    ensures After(l, ops).charges <= After(l, ops + more).charges
  {
    if more == [] {
      assert ops + more == ops;
    } else {
      ChargesGrow(l, ops, more[..|more| - 1]);
      assert (ops + more)[..|ops + more| - 1] == ops + more[..|more| - 1];
    }
  }

  lemma {:induction false} OthersDoNotCount(l: Limits, charges: seq<Charge>, others: seq<Charge>, key: string, now: int)
    requires forall c :: c in others ==> c.key != key
    ensures Reference(l, charges + others, key, now) == Reference(l, charges, key, now)
  {
    if others == [] {
      assert charges + others == charges;
    } else {
      var n := |others| - 1;
      OthersDoNotCount(l, charges, others[..n], key, now);
      assert charges + others == charges + others[..n] + [others[n]];
      ReferenceCharged(l, charges + others[..n], others[n], key, now);
    }
  }

  // ---- how many failures a window can hold ----

  /** Every failure was charged to a key that still had a token. */
  ghost predicate Accepted(l: Limits, charges: seq<Charge>) {
    charges != [] ==>
      var earlier, last := charges[..|charges| - 1], charges[|charges| - 1];
      Accepted(l, earlier) && Reference(l, earlier, last.key, last.at) >= l.refill
  }

  function Count(charges: seq<Charge>, key: string, from: int, to: int): nat {
    if charges == [] then 0
    else
      var last := charges[|charges| - 1];
      Count(charges[..|charges| - 1], key, from, to) + if last.key == key && from <= last.at <= to then 1 else 0
  }

  /** Each failure since `from` has been paid for out of the capacity and the
      time since. */
  lemma {:induction false} PaidFor(l: Limits, charges: seq<Charge>, key: string, from: int, now: int)
    requires l.Valid() && InOrder(charges, now) && Accepted(l, charges) && from <= now
    ensures Worth(Count(charges, key, from, now), l.refill) + Reference(l, charges, key, now) <= l.Capacity() + (now - from)
  {
    if charges != [] {
      var earlier, last := charges[..|charges| - 1], charges[|charges| - 1];
      if last.key != key {
        InOrderLater(earlier, last.at, now);
        PaidFor(l, earlier, key, from, now);
      } else if from <= last.at {
        PaidFor(l, earlier, key, from, last.at);
        CountUntil(earlier, key, from, last.at, now);
      } else {
        NoneSince(earlier, last.at, key, from, now);
      }
    }
  }

  lemma {:induction false} CountUntil(charges: seq<Charge>, key: string, from: int, to: int, later: int)
    requires InOrder(charges, to) && to <= later
    ensures Count(charges, key, from, later) == Count(charges, key, from, to)
  {
    if charges != [] {
      var earlier, last := charges[..|charges| - 1], charges[|charges| - 1];
      InOrderLater(earlier, last.at, to);
      CountUntil(earlier, key, from, to, later);
    }
  }

  lemma {:induction false} NoneSince(charges: seq<Charge>, until: int, key: string, from: int, to: int)
    requires InOrder(charges, until) && until < from
    ensures Count(charges, key, from, to) == 0
  {
    if charges != [] {
      NoneSince(charges[..|charges| - 1], charges[|charges| - 1].at, key, from, to);
    }
  }

  /** In any window, a key is charged at most the burst and one more failure for
      every refill period. */
  lemma {:induction false} WindowBound(l: Limits, charges: seq<Charge>, now: int, key: string, from: int, to: int)
    requires l.Valid() && InOrder(charges, now) && Accepted(l, charges) && from <= to
    ensures Count(charges, key, from, to) <= l.burst + (to - from) / l.refill
  {
    if charges != [] && charges[|charges| - 1].at > to {
      WindowBound(l, charges[..|charges| - 1], charges[|charges| - 1].at, key, from, to);
    } else {
      PaidFor(l, charges, key, from, to);
      ReferenceRange(l, charges, key, to);
      AtMost(Count(charges, key, from, to), l.burst, to - from, l.refill);
    }
  }

  lemma AtMost(count: nat, burst: nat, time: nat, refill: int)
    requires refill >= 1 && Worth(count, refill) <= Worth(burst, refill) + time
    ensures count <= burst + time / refill
  {
    var periods := time / refill;
    PeriodsCover(time, refill, periods);
    if count > burst + periods {
      WorthAdds(burst, periods + 1, refill);
      WorthGrows(burst + periods + 1, count, refill);
    }
  }

  /** One period more than fit into a time is longer than that. */
  lemma PeriodsCover(time: nat, refill: int, periods: nat)
    requires refill >= 1 && periods == time / refill
    ensures time < Worth(periods + 1, refill)
  {
    WorthIsProduct(periods, refill);
    assert time == refill * periods + time % refill;
  }

  lemma {:induction false} WorthAdds(a: nat, b: nat, refill: int)
    ensures Worth(a + b, refill) == Worth(a, refill) + Worth(b, refill)
  {
    if b > 0 {
      WorthAdds(a, b - 1, refill);
    }
  }

  /** Charges to a key, whenever they fell. */
  function Total(charges: seq<Charge>, key: string): nat {
    if charges == [] then 0
    else Total(charges[..|charges| - 1], key) + if charges[|charges| - 1].key == key then 1 else 0
  }

  /** No failure costs more than one token. */
  lemma {:induction false} AtLeastLeft(l: Limits, charges: seq<Charge>, key: string, now: int)
    requires l.Valid() && InOrder(charges, now)
    ensures Reference(l, charges, key, now) + Worth(Total(charges, key), l.refill) >= l.Capacity()
  {
    if charges != [] {
      var earlier, last := charges[..|charges| - 1], charges[|charges| - 1];
      if last.key == key {
        AtLeastLeft(l, earlier, key, last.at);
        WorthGrows(0, Total(charges, key), l.refill);
      } else {
        InOrderLater(earlier, last.at, now);
        AtLeastLeft(l, earlier, key, now);
      }
    }
  }

  /** In every run, a bucket that was charged fewer failures than its burst still
      lets its client in: the budget is no smaller than promised. */
  lemma FewFailuresAllowed(l: Limits, ops: seq<Op>, client: string, now: int)
    requires l.Valid() && Monotone(ops, now)
    requires Total(After(l, ops).charges, KeyFor(l, After(l, ops).clients, client, now)) < l.burst
    ensures AnswerOf(l, After(l, ops).clients, client, now) == Allowed
  {
    var s := After(l, ops);
    var key := KeyFor(l, s.clients, client, now);
    RunFaithful(l, ops, now);
    AnswersFollowCharges(l, ops, client, now);
    AtLeastLeft(l, s.charges, key, now);
    WorthGrows(Total(s.charges, key) + 1, l.burst, l.refill);
  }

  /** The clock must not go back: a look-up that prunes late and a failure with
      an earlier time charge one key twice within no time. */
  lemma ClockBackBreaksWindow() returns (l: Limits, ops: seq<Op>)
    ensures l.Valid() && !Monotone(ops, 10) && |ops| == 3 && ops[0].Fail? && ops[2].Fail? && ops[0].client == ops[2].client
    ensures forall i :: 0 <= i < 3 ==> AnswerOf(l, After(l, ops[..i]).clients, ops[i].client, ops[i].at) == Allowed
    ensures Count(After(l, ops).charges, ops[0].client, 0, 0) > l.burst + (0 - 0) / l.refill
  {
    l := Limits(1, 10, 1);
    assert Worth(0, 10) == 0 && l.Capacity() == 10;
    var a, b, again := Fail("a", 0), Allow("b", 10), Fail("a", 0);
    ops := [a, b, again];
    assert ops[..0] == [] && ops[..1] == [a] && ops[..2] == [a, b] && ops[..3] == ops;
    assert [a][..0] == [] && [a, b][..1] == [a] && ops[..2] == [a, b];
    assert "a"[0] != "b"[0];
    var first := map["a" := Bucket(0, 0)];
    assert After(l, [a]) == State(first, [Charge("a", 0)]) by {
      assert |EMPTY.clients| == 0;
    }
    assert |first| == |first.Keys| && first.Keys == {"a"};
    assert Pruned(l, first, 10) == map[];
    assert After(l, [a, b]) == State(map[], [Charge("a", 0)]);
    var once := After(l, [a, b]).clients;
    assert |once| == 0;
    assert After(l, ops).charges == [Charge("a", 0), Charge("a", 0)];
    CountTwice(Charge("a", 0));
    assert !Monotone([a, b], 0);
  }

  lemma CountTwice(c: Charge)
    ensures Count([c, c], c.key, c.at, c.at) == 2
  {
    assert [c, c][..1] == [c] && [c][..0] == [];
    assert Count([c], c.key, c.at, c.at) == 1;
  }
}
