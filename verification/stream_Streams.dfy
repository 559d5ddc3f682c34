/** Publishing snapshots to bounded subscriber channels. The publisher holds the
    watcher's lock through all its channel operations, but consumers receive
    without it, so every channel operation is a step of its own. */
module Streams {
  import opened Collections

  datatype Snapshot<C> = Snapshot(version: nat, content: C)

  /** `delivered` is what the consumer has received so far. */
  datatype Channel<C> = Channel(capacity: nat, queue: seq<Snapshot<C>>, delivered: seq<Snapshot<C>>, open: bool)
  {
    function Stream(): seq<Snapshot<C>> { delivered + queue }

    predicate HasRoom() { |queue| < capacity }
  }

  /** Where the publisher is: `left` are the channels it has not served. */
  datatype Phase =
    | Free
    | Sending(left: set<nat>)
    | Dropping(left: set<nat>, ch: nat)
    | Resending(left: set<nat>, ch: nat)

  datatype Hub<C> = Hub(
    version: nat, latest: Option<Snapshot<C>>, subscribers: set<nat>, channels: map<nat, Channel<C>>, phase: Phase)

  function NewHub<C>(): Hub<C> { Hub(0, None, {}, map[], Free) }

  datatype Step<C> =
    | Publish(content: C)
    | Send(ch: nat)
    | Drop(ch: nat)
    | Resend(ch: nat)
    | Release
    | Subscribe(ch: nat, buffer: int)
    | Unsubscribe(ch: nat)
    | Receive(ch: nat)

  /** A step that can happen now; a blocking send waits for room. */
  predicate Enabled<C>(h: Hub<C>, s: Step<C>) {
    match s
    case Publish(_) => h.phase.Free?
    case Send(ch) => h.phase.Sending? && ch in h.phase.left && ch in h.channels && h.latest.Some?
    case Drop(ch) => h.phase.Dropping? && ch == h.phase.ch && ch in h.channels
    case Resend(ch) =>
      h.phase.Resending? && ch == h.phase.ch && ch in h.channels && h.channels[ch].HasRoom() && h.latest.Some?
    case Release => h.phase == Sending({})
    case Subscribe(ch, _) => h.phase.Free? && ch !in h.channels
    case Unsubscribe(ch) => h.phase.Free? && ch in h.subscribers && ch in h.channels
    case Receive(ch) => ch in h.channels && h.channels[ch].queue != []
  }

  function WithChannel<C>(h: Hub<C>, ch: nat, c: Channel<C>): Hub<C> {
    h.(channels := h.channels[ch := c])
  }

  function Enqueued<C>(c: Channel<C>, s: Snapshot<C>): Channel<C> {
    c.(queue := c.queue + [s])
  }

  function Next<C>(h: Hub<C>, s: Step<C>): Hub<C>
    requires Enabled(h, s)
  {
    match s
    case Publish(content) =>
      h.(version := h.version + 1, latest := Some(Snapshot(h.version + 1, content)), phase := Sending(h.subscribers))
    case Send(ch) =>
      if h.channels[ch].HasRoom()
      then WithChannel(h, ch, Enqueued(h.channels[ch], h.latest.value)).(phase := Sending(h.phase.left - {ch}))
      else h.(phase := Dropping(h.phase.left, ch))
    case Drop(ch) =>
      var c := h.channels[ch];
      WithChannel(h, ch, if c.queue == [] then c else c.(queue := c.queue[1..])).(phase := Resending(h.phase.left, ch))
    case Resend(ch) =>
      WithChannel(h, ch, Enqueued(h.channels[ch], h.latest.value)).(phase := Sending(h.phase.left - {ch}))
    case Release => h.(phase := Free)
    case Subscribe(ch, buffer) =>
      var queue := if h.latest.Some? then [h.latest.value] else [];
      WithChannel(h, ch, Channel(if buffer < 1 then 1 else buffer, queue, [], true)).(subscribers := h.subscribers + {ch})
    case Unsubscribe(ch) =>
      WithChannel(h, ch, h.channels[ch].(open := false)).(subscribers := h.subscribers - {ch})
    case Receive(ch) =>
      var c := h.channels[ch];
      WithChannel(h, ch, c.(queue := c.queue[1..], delivered := c.delivered + [c.queue[0]]))
  }

  // ---- what every step keeps ----

  ghost predicate Increasing<C>(s: seq<Snapshot<C>>) {
    forall i, j :: 0 <= i < j < |s| ==> s[i].version < s[j].version
  }

  ghost predicate AllBelow<C>(s: seq<Snapshot<C>>, version: nat) {
    forall i :: 0 <= i < |s| ==> s[i].version < version
  }

  /** The stream ends with the latest snapshot, or is empty before the first. */
  ghost predicate EndsWith<C>(s: seq<Snapshot<C>>, latest: Option<Snapshot<C>>) {
    if latest.None? then s == [] else s != [] && s[|s| - 1] == latest.value
  }

  predicate Waiting<C>(h: Hub<C>, ch: nat) {
    !h.phase.Free? && ch in h.phase.left
  }

  /** No version is missing between two that wait. */
  ghost predicate Contiguous<C>(s: seq<Snapshot<C>>) {
    forall i :: 0 < i < |s| ==> s[i].version == s[i - 1].version + 1
  }

  ghost predicate ChannelFine<C>(h: Hub<C>, ch: nat, c: Channel<C>) {
    && c.capacity >= 1 && |c.queue| <= c.capacity
    && Increasing(c.Stream()) && AllBelow(c.Stream(), h.version + 1)
    && (c.open <==> ch in h.subscribers)
    && Contiguous(c.queue)
    && (ch in h.subscribers && Waiting(h, ch) && c.queue != [] ==> c.queue[|c.queue| - 1].version + 1 == h.version)
    && (ch in h.subscribers ==> if Waiting(h, ch) then AllBelow(c.Stream(), h.version) else EndsWith(c.Stream(), h.latest))
  }

  ghost predicate PhaseFine<C>(h: Hub<C>) {
    && (h.latest.None? <==> h.version == 0)
    && (h.latest.Some? ==> h.latest.value.version == h.version)
    && (!h.phase.Free? ==> h.latest.Some? && h.phase.left <= h.subscribers)
    && (h.phase.Dropping? || h.phase.Resending? ==> h.phase.ch in h.phase.left)
    && (h.phase.Resending? ==> h.phase.ch in h.channels && h.channels[h.phase.ch].HasRoom())
  }

  ghost predicate Inv<C>(h: Hub<C>) {
    && h.subscribers <= h.channels.Keys
    && PhaseFine(h)
    && forall ch :: ch in h.channels ==> ChannelFine(h, ch, h.channels[ch])
  }

  lemma AppendIncreasing<C>(s: seq<Snapshot<C>>, x: Snapshot<C>)
    requires Increasing(s) && AllBelow(s, x.version)
    ensures Increasing(s + [x])
  {
  }

  lemma EnqueuedStream<C>(c: Channel<C>, x: Snapshot<C>)
    ensures Enqueued(c, x).Stream() == c.Stream() + [x]
  {
  }

  lemma DropStream<C>(c: Channel<C>)
    requires c.queue != [] && Increasing(c.Stream())
    ensures Increasing(c.(queue := c.queue[1..]).Stream())
    ensures forall v: nat :: AllBelow(c.Stream(), v) ==> AllBelow(c.(queue := c.queue[1..]).Stream(), v)
  {
    var n := |c.delivered|;
    var after := c.(queue := c.queue[1..]).Stream();
    forall i | 0 <= i < |after| ensures after[i] == c.Stream()[if i < n then i else i + 1] {
    }
  }

  lemma ReceiveStream<C>(c: Channel<C>)
    requires c.queue != []
    ensures c.(queue := c.queue[1..], delivered := c.delivered + [c.queue[0]]).Stream() == c.Stream()
  {
    assert c.queue == [c.queue[0]] + c.queue[1..];
  }

  lemma LongerFine<C>(h: Hub<C>, after: Hub<C>, c: Channel<C>, ch: nat)
    requires ChannelFine(h, ch, c) && Waiting(h, ch) && c.HasRoom() && ch in h.subscribers
    requires h.latest.Some? && h.latest.value.version == h.version
    requires after.version == h.version && after.latest == h.latest && after.subscribers == h.subscribers && !Waiting(after, ch)
    ensures ChannelFine(after, ch, Enqueued(c, h.latest.value))
  {
    EnqueuedStream(c, h.latest.value);
    AppendIncreasing(c.Stream(), h.latest.value);
  }

  /** A channel the publisher has just served. */
  lemma ServedFine<C>(h: Hub<C>, ch: nat)
    requires Inv(h) && ch in h.channels && Waiting(h, ch) && h.channels[ch].HasRoom()
    ensures
      var after := WithChannel(h, ch, Enqueued(h.channels[ch], h.latest.value)).(phase := Sending(h.phase.left - {ch}));
      Inv(after)
  {
    var c := h.channels[ch];
    var after := WithChannel(h, ch, Enqueued(c, h.latest.value)).(phase := Sending(h.phase.left - {ch}));
    assert ChannelFine(h, ch, c);
    LongerFine(h, after, c, ch);
    forall k | k in after.channels && k != ch ensures ChannelFine(after, k, after.channels[k]) {
      assert k in h.channels && ChannelFine(h, k, h.channels[k]);
    }
  }

  lemma ShorterFine<C>(h: Hub<C>, after: Hub<C>, c: Channel<C>, ch: nat)
    requires ChannelFine(h, ch, c) && c.queue != [] && Waiting(h, ch)
    requires after.version == h.version && after.latest == h.latest && after.subscribers == h.subscribers
    requires after.phase.Resending? && after.phase.left == h.phase.left
    ensures ChannelFine(after, ch, c.(queue := c.queue[1..]))
  {
    DropStream(c);
  }

  lemma DroppedFine<C>(h: Hub<C>, ch: nat)
    requires Inv(h) && Enabled(h, Drop(ch))
    ensures Inv(Next(h, Drop(ch)))
  {
    var c, after := h.channels[ch], Next(h, Drop(ch));
    if c.queue != [] {
      ShorterFine(h, after, c, ch);
    }
    forall k | k in after.channels && k != ch ensures ChannelFine(after, k, after.channels[k]) {
      assert k in h.channels && ChannelFine(h, k, h.channels[k]);
    }
    assert ChannelFine(h, ch, c);
  }

  lemma SameStreamFine<C>(h: Hub<C>, after: Hub<C>, ch: nat, c: Channel<C>, d: Channel<C>)
    requires ChannelFine(h, ch, c) && d.Stream() == c.Stream() && Contiguous(d.queue)
    requires d.queue != [] ==> c.queue != [] && d.queue[|d.queue| - 1] == c.queue[|c.queue| - 1]
    requires d.capacity == c.capacity && |d.queue| <= |c.queue| && d.open == c.open
    requires after.version == h.version && after.latest == h.latest && after.subscribers == h.subscribers && after.phase == h.phase
    ensures ChannelFine(after, ch, d)
  {
  }

  lemma ReceivedFine<C>(h: Hub<C>, ch: nat)
    requires Inv(h) && Enabled(h, Receive(ch))
    ensures Inv(Next(h, Receive(ch)))
  {
    var c, after := h.channels[ch], Next(h, Receive(ch));
    ReceiveStream(c);
    SameStreamFine(h, after, ch, c, after.channels[ch]);
    forall k | k in after.channels && k != ch ensures ChannelFine(after, k, after.channels[k]) {
      assert k in h.channels && ChannelFine(h, k, h.channels[k]);
    }
  }

  lemma PublishedFine<C>(h: Hub<C>, content: C)
    requires Inv(h) && h.phase.Free?
    ensures Inv(Next(h, Publish(content)))
  {
    var after := Next(h, Publish(content));
    forall k | k in after.channels ensures ChannelFine(after, k, after.channels[k]) {
      assert k in h.channels && ChannelFine(h, k, h.channels[k]);
    }
  }

  lemma SubscriptionFine<C>(h: Hub<C>, s: Step<C>)
    requires Inv(h) && Enabled(h, s) && (s.Subscribe? || s.Unsubscribe?)
    ensures Inv(Next(h, s))
  {
    var after := Next(h, s);
    forall k | k in after.channels ensures ChannelFine(after, k, after.channels[k]) {
      if k in h.channels {
        assert ChannelFine(h, k, h.channels[k]);
      }
    }
  }

  lemma StepKeepsInv<C>(h: Hub<C>, s: Step<C>)
    requires Inv(h) && Enabled(h, s)
    ensures Inv(Next(h, s))
  {
    match s
    case Publish(content) => PublishedFine(h, content);
    case Send(ch) =>
      if h.channels[ch].HasRoom() {
        ServedFine(h, ch);
      } else {
        var after := Next(h, s);
        forall k | k in after.channels ensures ChannelFine(after, k, after.channels[k]) {
          assert ChannelFine(h, k, h.channels[k]);
        }
      }
    case Drop(ch) => DroppedFine(h, ch);
    case Resend(ch) => ServedFine(h, ch);
    case Release =>
      var after := Next(h, s);
      forall k | k in after.channels ensures ChannelFine(after, k, after.channels[k]) {
        assert ChannelFine(h, k, h.channels[k]);
      }
    case Subscribe(_, _) => SubscriptionFine(h, s);
    case Unsubscribe(_) => SubscriptionFine(h, s);
    case Receive(ch) => ReceivedFine(h, ch);
  }

  // ---- whole runs ----

  /** The state after a schedule of steps; steps that are not possible when
      their turn comes do nothing. */
  ghost function After<C>(steps: seq<Step<C>>): Hub<C> {
    if steps == [] then NewHub()
    else
      var h, s := After(steps[..|steps| - 1]), steps[|steps| - 1];
      if Enabled(h, s) then Next(h, s) else h
  }

  lemma {:induction false} RunsKeepInv<C>(steps: seq<Step<C>>)
    ensures Inv(After(steps))
  {
    if steps != [] {
      var h, s := After(steps[..|steps| - 1]), steps[|steps| - 1];
      RunsKeepInv(steps[..|steps| - 1]);
      if Enabled(h, s) {
        StepKeepsInv(h, s);
      }
    }
  }

  /** In every run, what a consumer got and what waits for it is strictly
      increasing; once the publisher is done, an open channel ends with the
      latest snapshot. */
  lemma StreamsIncrease<C>(steps: seq<Step<C>>, ch: nat)
    requires ch in After(steps).channels
    ensures
      var h := After(steps);
      && Increasing(h.channels[ch].Stream())
      && (h.channels[ch].open && h.phase.Free? ==> EndsWith(h.channels[ch].Stream(), h.latest))
  {
    RunsKeepInv(steps);
    assert ChannelFine(After(steps), ch, After(steps).channels[ch]);
  }

  /** What waits for a consumer is the newest there is, without a gap: dropping to
      make room only ever takes the oldest. */
  lemma QueueIsNewest<C>(steps: seq<Step<C>>, ch: nat, i: nat)
    requires ch in After(steps).channels && After(steps).channels[ch].open && After(steps).phase.Free?
    requires i < |After(steps).channels[ch].queue|
    ensures
      var queue := After(steps).channels[ch].queue;
      queue[i].version + (|queue| - 1 - i) == After(steps).version
  {
    RunsKeepInv(steps);
    var h := After(steps);
    assert ChannelFine(h, ch, h.channels[ch]);
    var c := h.channels[ch];
    assert c.Stream()[|c.Stream()| - 1] == c.queue[|c.queue| - 1];
    ContiguousFrom(c.queue, i);
  }

  lemma {:induction false} ContiguousFrom<C>(s: seq<Snapshot<C>>, i: nat)
    requires Contiguous(s) && i < |s|
    ensures s[|s| - 1].version == s[i].version + (|s| - 1 - i)
    decreases |s| - i
  {
    if i < |s| - 1 {
      ContiguousFrom(s, i + 1);
    }
  }

  /** The send that follows a drop never blocks, and the publisher can always go
      on until it releases the lock. */
  lemma PublisherNeverBlocks<C>(steps: seq<Step<C>>)
    requires !After(steps).phase.Free?
    ensures
      var h := After(steps);
      match h.phase
      case Free => false
      case Sending(left) => if left == {} then Enabled(h, Release) else exists ch :: ch in left && Enabled(h, Send(ch))
      case Dropping(_, ch) => Enabled(h, Drop(ch))
      case Resending(_, ch) => Enabled(h, Resend(ch))
  {
    RunsKeepInv(steps);
    var h := After(steps);
    if h.phase.Sending? && h.phase.left != {} {
      var ch :| ch in h.phase.left;
      assert Enabled(h, Send(ch));
    }
  }

  function StepsLeft<C>(h: Hub<C>): nat {
    match h.phase
    case Free => 0
    case Sending(left) => 3 * |left| + 1
    case Dropping(left, _) => 3 * |left|
    case Resending(left, _) => 3 * |left| - if |left| > 0 then 1 else 0
  }

  /** Each of the publisher's steps brings it closer to releasing the lock, and
      no consumer step sets it back. */
  lemma PublisherFinishes<C>(h: Hub<C>, s: Step<C>)
    requires Inv(h) && Enabled(h, s) && !h.phase.Free?
    ensures StepsLeft(Next(h, s)) < StepsLeft(h) || (s.Receive? && StepsLeft(Next(h, s)) == StepsLeft(h))
  {
    if s.Send? || s.Resend? {
      assert h.phase.left - {s.ch} < h.phase.left;
      assert |h.phase.left - {s.ch}| == |h.phase.left| - 1;
    }
    if s.Drop? {
      assert h.phase.ch in h.phase.left;
      assert |h.phase.left| > 0;
    }
  }

  /** Nothing is sent on a closed channel. */
  lemma NothingSentAfterClose<C>(steps: seq<Step<C>>, s: Step<C>, ch: nat)
    requires ch in After(steps).channels && !After(steps).channels[ch].open && Enabled(After(steps), s)
    ensures !(s.Send? && s.ch == ch) && !(s.Resend? && s.ch == ch)
  {
    RunsKeepInv(steps);
    assert ChannelFine(After(steps), ch, After(steps).channels[ch]);
  }
}
