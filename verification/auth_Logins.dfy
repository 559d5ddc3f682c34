/** Sign-in attempts against the two throttles: one bucket per client and, for
    forwarded clients, one per trusted proxy. */
module Logins {
  import opened Throttle
  import opened ThrottleRuns
  import opened LoginThrottles

  const LOGIN_BURST := 5
  const LOGIN_REFILL := 30 * SECOND
  const PROXY_LOGIN_BURST := 50
  const PROXY_LOGIN_REFILL := 2 * SECOND
  const SECOND := 1_000_000_000

  /** `proxy` is empty for a direct connection. */
  datatype Submission = Submission(client: string, proxy: string, at: int, correct: bool)

  datatype Outcome = Throttled(retryAfter: int) | WrongCredentials | SignedIn

  /** allowLogin, from the two throttles' answers. */
  function Combined(own: Answer, proxy: Answer): Answer {
    var wait := Max(if own.Rejected? then own.wait else 0, if proxy.Rejected? then proxy.wait else 0);
    if own.Allowed? && proxy.Allowed? then Allowed else Rejected(wait)
  }

  /** A duration in whole seconds, rounded up. */
  function RetryAfter(wait: int): int {
    (wait + SECOND - 1) / SECOND
  }

  function ProxyAnswer(p: Limits, clients: Clients, proxy: string, now: int): Answer {
    if proxy == "" then Allowed else AnswerOf(p, clients, proxy, now)
  }

  function AnswerTo(l: Limits, p: Limits, own: Clients, proxies: Clients, s: Submission): Answer {
    Combined(AnswerOf(l, own, s.client, s.at), ProxyAnswer(p, proxies, s.proxy, s.at))
  }

  predicate IsCharged(l: Limits, p: Limits, own: Clients, proxies: Clients, s: Submission) {
    AnswerTo(l, p, own, proxies, s).Allowed? && !s.correct
  }

  /** What one submission leaves of a throttle. */
  function Attempted(l: Limits, clients: Clients, client: string, now: int, charged: bool): Clients {
    var looked := Opened(l, clients, client, now, false);
    if charged then Failed(l, looked, client, now) else looked
  }

  class Authenticator {
    const throttle: LoginThrottle
    const proxyThrottle: LoginThrottle

    ghost predicate Valid()
      reads this, throttle, proxyThrottle
    {
      throttle != proxyThrottle && throttle.Valid() && proxyThrottle.Valid()
    }

    constructor ()
      ensures Valid() && fresh(throttle) && fresh(proxyThrottle)
      ensures throttle.limits == Limits(LOGIN_BURST, LOGIN_REFILL, MAX_THROTTLED_CLIENTS)
      ensures proxyThrottle.limits == Limits(PROXY_LOGIN_BURST, PROXY_LOGIN_REFILL, MAX_THROTTLED_CLIENTS)
      ensures throttle.clients == map[] && proxyThrottle.clients == map[]
    {
      throttle := new LoginThrottle(LOGIN_BURST, LOGIN_REFILL);
      proxyThrottle := new LoginThrottle(PROXY_LOGIN_BURST, PROXY_LOGIN_REFILL);
    }

    method AllowLogin(client: string, proxy: string, now: int) returns (answer: Answer)
      requires Valid()
      modifies throttle, proxyThrottle
      ensures Valid()
      ensures throttle.clients == Opened(throttle.limits, old(throttle.clients), client, now, false)
      ensures proxyThrottle.clients ==
              if proxy == "" then old(proxyThrottle.clients)
              else Opened(proxyThrottle.limits, old(proxyThrottle.clients), proxy, now, false)
      ensures answer == Combined(AnswerOf(throttle.limits, old(throttle.clients), client, now),
                                 ProxyAnswer(proxyThrottle.limits, old(proxyThrottle.clients), proxy, now))
    {
      answer := throttle.Allow(client, now);
      AnswersPositive(throttle.limits, old(throttle.clients), client, now);
      if proxy == "" {
        return;
      }
      var proxyAnswer := proxyThrottle.Allow(proxy, now);
      AnswersPositive(proxyThrottle.limits, old(proxyThrottle.clients), proxy, now);
      var wait := if answer.Rejected? then answer.wait else 0;
      if proxyAnswer.Rejected? && proxyAnswer.wait > wait {
        wait := proxyAnswer.wait;
      }
      answer := if answer.Allowed? && proxyAnswer.Allowed? then Allowed else Rejected(wait);
    }

    /** handleLoginSubmit, from the throttling decision on. */
    method Submit(s: Submission) returns (outcome: Outcome)
      requires Valid()
      modifies throttle, proxyThrottle
      ensures Valid()
      ensures
        var l, p, own, proxies := throttle.limits, proxyThrottle.limits, old(throttle.clients), old(proxyThrottle.clients);
        var answer, charged := AnswerTo(l, p, own, proxies, s), IsCharged(l, p, own, proxies, s);
        && outcome == (if answer.Rejected? then Throttled(RetryAfter(answer.wait)) else if s.correct then SignedIn else WrongCredentials)
        && throttle.clients == Attempted(l, own, s.client, s.at, charged)
        && proxyThrottle.clients == (if s.proxy == "" then proxies else Attempted(p, proxies, s.proxy, s.at, charged))
    {
      var answer := AllowLogin(s.client, s.proxy, s.at);
      if answer.Rejected? {
        return Throttled(RetryAfter(answer.wait));
      }
      if !s.correct {
        throttle.Fail(s.client, s.at);
        if s.proxy != "" {
          proxyThrottle.Fail(s.proxy, s.at);
        }
        return WrongCredentials;
      }
      return SignedIn;
    }
  }

  /** A rejection always asks for a positive wait of at most one refill. */
  lemma AnswersPositive(l: Limits, clients: Clients, client: string, now: int)
    requires l.Valid() && Bounded(l, clients)
    ensures AnswerOf(l, clients, client, now).Rejected? ==> 0 < AnswerOf(l, clients, client, now).wait <= l.refill
  {
    OpenedBounded(l, clients, client, now, false);
  }

  // ---- whole runs of submissions ----

  /** Both throttles, each with the failures charged to it. */
  datatype Both = Both(own: State, proxies: State)

  function AttemptedState(l: Limits, s: State, client: string, now: int, charged: bool): State {
    State(Attempted(l, s.clients, client, now, charged),
          if charged then s.charges + [Charge(KeyFor(l, s.clients, client, now), now)] else s.charges)
  }

  function Next(l: Limits, p: Limits, b: Both, s: Submission): Both {
    var charged := IsCharged(l, p, b.own.clients, b.proxies.clients, s);
    Both(AttemptedState(l, b.own, s.client, s.at, charged),
         if s.proxy == "" then b.proxies else AttemptedState(p, b.proxies, s.proxy, s.at, charged))
  }

  function AfterAll(l: Limits, p: Limits, subs: seq<Submission>): Both {
    if subs == [] then Both(EMPTY, EMPTY) else Next(l, p, AfterAll(l, p, subs[..|subs| - 1]), subs[|subs| - 1])
  }

  ghost predicate Timely(subs: seq<Submission>, now: int) {
    subs != [] ==> subs[|subs| - 1].at <= now && Timely(subs[..|subs| - 1], subs[|subs| - 1].at)
  }

  /** The buckets follow the charges, and each charge found a token. */
  ghost predicate Sound(l: Limits, s: State, now: int) {
    Faithful(l, s, now) && Accepted(l, s.charges)
  }

  lemma AttemptedIsLookThenCharge(l: Limits, s: State, client: string, at: int, charged: bool)
    ensures AttemptedState(l, s, client, at, charged) ==
            if charged then Charged(l, Looked(l, s, client, at), client, at) else Looked(l, s, client, at)
  {
    SameKeyAgain(l, s.clients, client, at);
  }

  lemma AttemptSound(l: Limits, s: State, client: string, before: int, at: int, charged: bool)
    requires l.Valid() && Sound(l, s, before) && before <= at
    requires charged ==> AnswerOf(l, s.clients, client, at).Allowed?
    ensures Sound(l, AttemptedState(l, s, client, at, charged), at)
  {
    AttemptedIsLookThenCharge(l, s, client, at, charged);
    var looked := Looked(l, s, client, at);
    LookedFaithful(l, s, client, before, at);
    if charged {
      SameKeyAgain(l, s.clients, client, at);
      ChargedFaithful(l, looked, client, at, at);
      AnswerFromCredit(l, s.clients, client, at);
      var key := KeyFor(l, s.clients, client, at);
      assert Credit(l, s.clients, key, at) == Reference(l, s.charges, key, at);
      assert (s.charges + [Charge(key, at)])[..|s.charges|] == s.charges;
    }
  }

  lemma SoundLater(l: Limits, s: State, now: int, later: int)
    requires Sound(l, s, now) && now <= later
    ensures Sound(l, s, later)
  {
  }

  lemma {:induction false} RunSound(l: Limits, p: Limits, subs: seq<Submission>, now: int)
    requires l.Valid() && p.Valid() && Timely(subs, now)
    ensures Sound(l, AfterAll(l, p, subs).own, now) && Sound(p, AfterAll(l, p, subs).proxies, now)
  {
    if subs == [] {
      EmptyFaithful(l, now);
      EmptyFaithful(p, now);
    } else {
      var last, b := subs[|subs| - 1], AfterAll(l, p, subs[..|subs| - 1]);
      RunSound(l, p, subs[..|subs| - 1], last.at);
      var charged := IsCharged(l, p, b.own.clients, b.proxies.clients, last);
      AttemptSound(l, b.own, last.client, last.at, last.at, charged);
      SoundLater(l, AttemptedState(l, b.own, last.client, last.at, charged), last.at, now);
      if last.proxy == "" {
        SoundLater(p, b.proxies, last.at, now);
      } else {
        AttemptSound(p, b.proxies, last.proxy, last.at, last.at, charged);
        SoundLater(p, AttemptedState(p, b.proxies, last.proxy, last.at, charged), last.at, now);
      }
    }
  }

  /** However clients and proxies are mixed, no client bucket and no proxy bucket
      is charged more failures in a window than its burst and one per refill. */
  lemma FailuresBounded(l: Limits, p: Limits, subs: seq<Submission>, now: int, key: string, from: int, to: int)
    requires l.Valid() && p.Valid() && Timely(subs, now) && from <= to
    ensures Count(AfterAll(l, p, subs).own.charges, key, from, to) <= l.burst + (to - from) / l.refill
    ensures Count(AfterAll(l, p, subs).proxies.charges, key, from, to) <= p.burst + (to - from) / p.refill
  {
    RunSound(l, p, subs, now);
    WindowBound(l, AfterAll(l, p, subs).own.charges, now, key, from, to);
    WindowBound(p, AfterAll(l, p, subs).proxies.charges, now, key, from, to);
  }

  /** Wrong passwords that were checked for submissions matching `who`. */
  function Guesses(l: Limits, p: Limits, subs: seq<Submission>, who: Submission -> bool, from: int, to: int): nat {
    if subs == [] then 0
    else
      var earlier, last := subs[..|subs| - 1], subs[|subs| - 1];
      var b := AfterAll(l, p, earlier);
      Guesses(l, p, earlier, who, from, to)
      + if IsCharged(l, p, b.own.clients, b.proxies.clients, last) && who(last) && from <= last.at <= to then 1 else 0
  }

  function From(client: string): Submission -> bool {
    (s: Submission) => s.client == client
  }

  function Via(proxy: string): Submission -> bool {
    (s: Submission) => s.proxy == proxy
  }

  /** The bucket of every proxy was its own. */
  ghost predicate OwnProxyBuckets(l: Limits, p: Limits, subs: seq<Submission>) {
    subs != [] ==>
      var earlier, last := subs[..|subs| - 1], subs[|subs| - 1];
      && OwnProxyBuckets(l, p, earlier)
      && (last.proxy != "" ==> KeyFor(p, AfterAll(l, p, earlier).proxies.clients, last.proxy, last.at) == last.proxy)
  }

  /** The bucket of every client was its own. */
  ghost predicate OwnClientBuckets(l: Limits, p: Limits, subs: seq<Submission>) {
    subs != [] ==>
      var earlier, last := subs[..|subs| - 1], subs[|subs| - 1];
      && OwnClientBuckets(l, p, earlier)
      && KeyFor(l, AfterAll(l, p, earlier).own.clients, last.client, last.at) == last.client
  }

  lemma CountAppend(charges: seq<Charge>, c: Charge, key: string, from: int, to: int)
    ensures Count(charges + [c], key, from, to) == Count(charges, key, from, to) + if c.key == key && from <= c.at <= to then 1 else 0
  {
    assert (charges + [c])[..|charges|] == charges;
  }

  lemma {:induction false} GuessesViaAreCharges(l: Limits, p: Limits, subs: seq<Submission>, proxy: string, from: int, to: int)
    requires proxy != "" && OwnProxyBuckets(l, p, subs)
    ensures Guesses(l, p, subs, Via(proxy), from, to) == Count(AfterAll(l, p, subs).proxies.charges, proxy, from, to)
  {
    if subs != [] {
      var earlier, last := subs[..|subs| - 1], subs[|subs| - 1];
      var b := AfterAll(l, p, earlier);
      GuessesViaAreCharges(l, p, earlier, proxy, from, to);
      CountAppend(b.proxies.charges, Charge(last.proxy, last.at), proxy, from, to);
    }
  }

  lemma {:induction false} GuessesFromAreCharges(l: Limits, p: Limits, subs: seq<Submission>, client: string, from: int, to: int)
    requires OwnClientBuckets(l, p, subs)
    ensures Guesses(l, p, subs, From(client), from, to) == Count(AfterAll(l, p, subs).own.charges, client, from, to)
  {
    if subs != [] {
      var earlier, last := subs[..|subs| - 1], subs[|subs| - 1];
      var b := AfterAll(l, p, earlier);
      GuessesFromAreCharges(l, p, earlier, client, from, to);
      CountAppend(b.own.charges, Charge(last.client, last.at), client, from, to);
    }
  }

  /** One client guesses at most `burst + T / refill` passwords in any time T. */
  lemma ClientGuessesBounded(l: Limits, p: Limits, subs: seq<Submission>, now: int, client: string, from: int, to: int)
    requires l.Valid() && p.Valid() && Timely(subs, now) && from <= to && OwnClientBuckets(l, p, subs)
    ensures Guesses(l, p, subs, From(client), from, to) <= l.burst + (to - from) / l.refill
  {
    FailuresBounded(l, p, subs, now, client, from, to);
    GuessesFromAreCharges(l, p, subs, client, from, to);
  }

  /** All clients forwarded by one proxy together stay within the proxy's
      budget, whatever client addresses they claim. */
  lemma ProxyGuessesBounded(l: Limits, p: Limits, subs: seq<Submission>, now: int, proxy: string, from: int, to: int)
    requires l.Valid() && p.Valid() && Timely(subs, now) && from <= to && proxy != "" && OwnProxyBuckets(l, p, subs)
    ensures Guesses(l, p, subs, Via(proxy), from, to) <= p.burst + (to - from) / p.refill
  {
    FailuresBounded(l, p, subs, now, proxy, from, to);
    GuessesViaAreCharges(l, p, subs, proxy, from, to);
  }

  // ---- Retry-After ----

  /** What an answer becomes by `later` when only time passes. */
  function Waited(answer: Answer, now: int, later: int): Answer {
    if answer.Rejected? && later < now + answer.wait then Rejected(now + answer.wait - later) else Allowed
  }

  lemma ChargesWait(l: Limits, charges: seq<Charge>, others: seq<Charge>, key: string, now: int, later: int)
    requires l.Valid() && InOrder(charges, now) && now <= later
    requires forall c :: c in others ==> c.key != key
    ensures AnswerFrom(l, charges + others, key, later) == Waited(AnswerFrom(l, charges, key, now), now, later)
  {
    CapacityHoldsOne(l);
    if AnswerFrom(l, charges, key, now).Rejected? {
      RejectedUntil(l, charges, others, key, now, later);
    } else {
      OthersDoNotCount(l, charges, others, key, later);
      ReferenceRefills(l, charges, key, now, later);
    }
  }

  /** The client still has the bucket it had, and that was not charged since. */
  ghost predicate Untouched(l: Limits, before: State, after: State, client: string, now: int, later: int) {
    var key := KeyFor(l, before.clients, client, now);
    && KeyFor(l, after.clients, client, later) == key
    && forall k :: |before.charges| <= k < |after.charges| ==> after.charges[k].key != key
  }

  lemma SoundAnswer(l: Limits, s: State, client: string, now: int)
    requires l.Valid() && Sound(l, s, now)
    ensures AnswerOf(l, s.clients, client, now) == AnswerFrom(l, s.charges, KeyFor(l, s.clients, client, now), now)
    ensures InOrder(s.charges, now)
  {
    AnswerFromCredit(l, s.clients, client, now);
    var key := KeyFor(l, s.clients, client, now);
    assert Credit(l, s.clients, key, now) == Reference(l, s.charges, key, now);
  }

  lemma LaterChargesWait(l: Limits, before: seq<Charge>, after: seq<Charge>, key: string, now: int, later: int)
    requires l.Valid() && InOrder(before, now) && now <= later && before <= after
    requires forall k :: |before| <= k < |after| ==> after[k].key != key
    ensures AnswerFrom(l, after, key, later) == Waited(AnswerFrom(l, before, key, now), now, later)
  {
    var others := after[|before|..];
    assert after == before + others;
    assert forall c :: c in others ==> c.key != key;
    ChargesWait(l, before, others, key, now, later);
  }

  lemma BucketWaits(l: Limits, before: State, after: State, client: string, now: int, later: int)
    requires l.Valid() && Sound(l, before, now) && Sound(l, after, later) && now <= later
    requires before.charges <= after.charges && Untouched(l, before, after, client, now, later)
    ensures AnswerOf(l, after.clients, client, later) == Waited(AnswerOf(l, before.clients, client, now), now, later)
  {
    SoundAnswer(l, before, client, now);
    SoundAnswer(l, after, client, later);
    LaterChargesWait(l, before.charges, after.charges, KeyFor(l, before.clients, client, now), now, later);
  }

  lemma {:induction false} ChargesOnlyGrow(l: Limits, p: Limits, subs: seq<Submission>, more: seq<Submission>)
    ensures AfterAll(l, p, subs).own.charges <= AfterAll(l, p, subs + more).own.charges
    ensures AfterAll(l, p, subs).proxies.charges <= AfterAll(l, p, subs + more).proxies.charges
  {
    if more == [] {
      assert subs + more == subs;
    } else {
      ChargesOnlyGrow(l, p, subs, more[..|more| - 1]);
      assert (subs + more)[..|subs + more| - 1] == subs + more[..|more| - 1];
    }
  }

  /** Neither of the two buckets of a submission is charged by the later ones. */
  ghost predicate NoneCharged(l: Limits, p: Limits, before: Both, after: Both, s: Submission, later: int) {
    && Untouched(l, before.own, after.own, s.client, s.at, later)
    && (s.proxy != "" ==> Untouched(p, before.proxies, after.proxies, s.proxy, s.at, later))
  }

  function AnswerAfter(l: Limits, p: Limits, b: Both, s: Submission): Answer {
    AnswerTo(l, p, b.own.clients, b.proxies.clients, s)
  }

  predicate Positive(a: Answer) { a.Rejected? ==> a.wait > 0 }

  lemma CombinedWaits(own: Answer, proxy: Answer, now: int, later: int)
    requires Positive(own) && Positive(proxy) && now <= later
    ensures Combined(Waited(own, now, later), Waited(proxy, now, later)) == Waited(Combined(own, proxy), now, later)
  {
  }

  lemma BothWait(l: Limits, p: Limits, before: Both, after: Both, s: Submission, later: int)
    requires l.Valid() && p.Valid() && s.at <= later && NoneCharged(l, p, before, after, s, later)
    requires Sound(l, before.own, s.at) && Sound(p, before.proxies, s.at)
    requires Sound(l, after.own, later) && Sound(p, after.proxies, later)
    requires before.own.charges <= after.own.charges && before.proxies.charges <= after.proxies.charges
    ensures AnswerAfter(l, p, after, s.(at := later)) == Waited(AnswerAfter(l, p, before, s), s.at, later)
  {
    var own := AnswerOf(l, before.own.clients, s.client, s.at);
    AnswersPositive(l, before.own.clients, s.client, s.at);
    BucketWaits(l, before.own, after.own, s.client, s.at, later);
    if s.proxy == "" {
      CombinedWaits(own, Allowed, s.at, later);
    } else {
      var proxy := AnswerOf(p, before.proxies.clients, s.proxy, s.at);
      AnswersPositive(p, before.proxies.clients, s.proxy, s.at);
      BucketWaits(p, before.proxies, after.proxies, s.proxy, s.at, later);
      CombinedWaits(own, proxy, s.at, later);
    }
  }

  /** The two throttles after some submissions, and later after more. */
  ghost predicate Runs(l: Limits, p: Limits, subs: seq<Submission>, more: seq<Submission>, before: Both, after: Both,
                       now: int, later: int) {
    && l.Valid() && p.Valid() && now <= later && Timely(subs, now) && Timely(subs + more, later)
    && before == AfterAll(l, p, subs) && after == AfterAll(l, p, subs + more)
  }

  /** In every run of submissions, one that is throttled would still be before
      the wait it was given is over, with what is left of it, and is let through
      from then on, unless one of its buckets is charged. */
  lemma CombinedWaitIsExact(l: Limits, p: Limits, subs: seq<Submission>, more: seq<Submission>, before: Both, after: Both,
                            s: Submission, later: int)
    requires Runs(l, p, subs, more, before, after, s.at, later)
    requires NoneCharged(l, p, before, after, s, later) && AnswerAfter(l, p, before, s).Rejected?
    ensures
      var ready := s.at + AnswerAfter(l, p, before, s).wait;
      AnswerAfter(l, p, after, s.(at := later)) == if later >= ready then Allowed else Rejected(ready - later)
  {
    RunSound(l, p, subs, s.at);
    RunSound(l, p, subs + more, later);
    ChargesOnlyGrow(l, p, subs, more);
    BothWait(l, p, before, after, s, later);
    WaitedMeans(AnswerAfter(l, p, before, s), s.at, later);
  }

  lemma WaitedMeans(answer: Answer, now: int, later: int)
    requires answer.Rejected?
    ensures Waited(answer, now, later) == if later >= now + answer.wait then Allowed else Rejected(now + answer.wait - later)
  {
  }

  /** Fewer wrong passwords than the burst never throttle: a submission is let through
      when neither its client's nor its proxy's bucket was charged that often. */
  lemma FewGuessesPass(l: Limits, p: Limits, subs: seq<Submission>, b: Both, s: Submission)
    requires l.Valid() && p.Valid() && Timely(subs, s.at) && b == AfterAll(l, p, subs)
    requires Total(b.own.charges, KeyFor(l, b.own.clients, s.client, s.at)) < l.burst
    requires s.proxy != "" ==> Total(b.proxies.charges, KeyFor(p, b.proxies.clients, s.proxy, s.at)) < p.burst
    ensures AnswerAfter(l, p, b, s).Allowed?
  {
    RunSound(l, p, subs, s.at);
    FewChargesPass(l, b.own, s.client, s.at);
    if s.proxy != "" {
      FewChargesPass(p, b.proxies, s.proxy, s.at);
    }
  }

  lemma FewChargesPass(l: Limits, s: State, client: string, now: int)
    requires l.Valid() && Sound(l, s, now) && Total(s.charges, KeyFor(l, s.clients, client, now)) < l.burst
    ensures AnswerOf(l, s.clients, client, now).Allowed?
  {
    var key := KeyFor(l, s.clients, client, now);
    SoundAnswer(l, s, client, now);
    AtLeastLeft(l, s.charges, key, now);
    WorthGrows(Total(s.charges, key) + 1, l.burst, l.refill);
  }

  /** The header is the least whole number of seconds that covers the wait. */
  lemma RetryAfterIsLeast(wait: int, seconds: int)
    ensures seconds >= RetryAfter(wait) <==> seconds * SECOND >= wait
  {
  }

  lemma HeaderOf(answer: Answer, retried: Answer, at: int, seconds: nat)
    requires answer.Rejected?
    requires retried.Allowed? <==> at + seconds * SECOND >= at + answer.wait
    ensures retried.Allowed? <==> seconds >= RetryAfter(answer.wait)
  {
    RetryAfterIsLeast(answer.wait, seconds);
  }

  /** The Retry-After header is the least number of seconds after which the
      submission is let through, unless one of its buckets is charged. */
  lemma HeaderIsExact(l: Limits, p: Limits, subs: seq<Submission>, more: seq<Submission>, before: Both, after: Both,
                      s: Submission, seconds: nat)
    requires Runs(l, p, subs, more, before, after, s.at, s.at + seconds * SECOND)
    requires NoneCharged(l, p, before, after, s, s.at + seconds * SECOND) && AnswerAfter(l, p, before, s).Rejected?
    ensures AnswerAfter(l, p, after, s.(at := s.at + seconds * SECOND)).Allowed? <==>
              seconds >= RetryAfter(AnswerAfter(l, p, before, s).wait)
  {
    var later := s.at + seconds * SECOND;
    CombinedWaitIsExact(l, p, subs, more, before, after, s, later);
    HeaderOf(AnswerAfter(l, p, before, s), AnswerAfter(l, p, after, s.(at := later)), s.at, seconds);
  }
}
