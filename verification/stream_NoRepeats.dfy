/** A build that gives what is published already is not published again: successive
    versions differ. */
module NoRepeats {
  import opened Collections
  import opened Streams
  import opened RebuildLoop

  /** Successive versions have different contents. */
  ghost predicate Varies<C>(s: seq<Snapshot<C>>) {
    forall i :: 0 < i < |s| && s[i].version == s[i - 1].version + 1 ==> s[i].content != s[i - 1].content
  }

  /** What comes next differs from the version just before it. */
  ghost predicate DiffersFromLast<C>(s: seq<Snapshot<C>>, next: Snapshot<C>) {
    s != [] && s[|s| - 1].version + 1 == next.version ==> s[|s| - 1].content != next.content
  }

  ghost predicate ChannelVaries<C>(h: Hub<C>, ch: nat, c: Channel<C>) {
    && Varies(c.Stream())
    && (ch in h.subscribers && Waiting(h, ch) && h.latest.Some? ==> DiffersFromLast(c.Stream(), h.latest.value))
  }

  ghost predicate Varied<C>(h: Hub<C>) {
    forall ch :: ch in h.channels ==> ChannelVaries(h, ch, h.channels[ch])
  }

  lemma AppendVaries<C>(s: seq<Snapshot<C>>, x: Snapshot<C>)
    requires Varies(s) && DiffersFromLast(s, x)
    ensures Varies(s + [x])
  {
  }

  lemma ServedVaries<C>(h: Hub<C>, ch: nat)
    requires Inv(h) && Varied(h) && ch in h.channels && Waiting(h, ch)
    ensures Varied(WithChannel(h, ch, Enqueued(h.channels[ch], h.latest.value)).(phase := Sending(h.phase.left - {ch})))
  {
    var c := h.channels[ch];
    assert ChannelVaries(h, ch, c) && ChannelFine(h, ch, c);
    AppendVaries(c.Stream(), h.latest.value);
    EnqueuedStream(c, h.latest.value);
    var after := WithChannel(h, ch, Enqueued(c, h.latest.value)).(phase := Sending(h.phase.left - {ch}));
    forall k | k in after.channels && k != ch ensures ChannelVaries(after, k, after.channels[k]) {
      assert ChannelVaries(h, k, h.channels[k]);
    }
  }

  lemma ShorterVaries<C>(h: Hub<C>, c: Channel<C>, next: Snapshot<C>)
    requires Varies(c.Stream()) && Increasing(c.Stream()) && c.queue != [] && AllBelow(c.Stream(), next.version)
    requires DiffersFromLast(c.Stream(), next)
    ensures Varies(c.(queue := c.queue[1..]).Stream()) && DiffersFromLast(c.(queue := c.queue[1..]).Stream(), next)
  {
    var s, t, n := c.Stream(), c.(queue := c.queue[1..]).Stream(), |c.delivered|;
    assert |t| == |s| - 1 && forall i :: 0 <= i < |t| ==> t[i] == s[if i < n then i else i + 1];
    assert s[n] == c.queue[0];
    if 0 < n < |t| {
      assert s[n - 1].version < s[n].version < s[n + 1].version;
      assert t[n - 1].version + 1 < t[n].version;
    }
    forall i | 0 < i < |t| && t[i].version == t[i - 1].version + 1 ensures t[i].content != t[i - 1].content {
    }
    if |t| > 0 && |t| == n {
      assert s[n - 1].version < s[n].version < next.version;
    }
  }

  lemma DroppedVaries<C>(h: Hub<C>, ch: nat)
    requires Inv(h) && Varied(h) && Enabled(h, Drop(ch))
    ensures Varied(Next(h, Drop(ch)))
  {
    var c, after := h.channels[ch], Next(h, Drop(ch));
    assert ChannelFine(h, ch, c) && ChannelVaries(h, ch, c);
    if c.queue != [] {
      ShorterVaries(h, c, h.latest.value);
    }
    forall k | k in after.channels && k != ch ensures ChannelVaries(after, k, after.channels[k]) {
      assert ChannelVaries(h, k, h.channels[k]);
    }
  }

  lemma PublishedVaries<C>(h: Hub<C>, content: C)
    requires Inv(h) && Varied(h) && h.phase.Free? && (h.latest.Some? ==> h.latest.value.content != content)
    ensures Varied(Next(h, Publish(content)))
  {
    var after := Next(h, Publish(content));
    forall k | k in after.channels ensures ChannelVaries(after, k, after.channels[k]) {
      assert ChannelVaries(h, k, h.channels[k]) && ChannelFine(h, k, h.channels[k]);
    }
  }

  lemma OtherVaries<C>(h: Hub<C>, s: Step<C>)
    requires Inv(h) && Varied(h) && Enabled(h, s) && (s.Release? || s.Subscribe? || s.Unsubscribe? || s.Receive?)
    ensures Varied(Next(h, s))
  {
    var after := Next(h, s);
    if s.Receive? {
      ReceiveStream(h.channels[s.ch]);
    }
    forall k | k in after.channels ensures ChannelVaries(after, k, after.channels[k]) {
      if k in h.channels {
        assert ChannelVaries(h, k, h.channels[k]);
      }
    }
  }

  lemma StepVaries<C>(h: Hub<C>, s: Step<C>)
    requires Inv(h) && Varied(h) && Enabled(h, s) && !s.Publish?
    ensures Varied(Next(h, s))
  {
    match s
    case Send(ch) =>
      if h.channels[ch].HasRoom() {
        ServedVaries(h, ch);
      } else {
        var after := Next(h, s);
        forall k | k in after.channels ensures ChannelVaries(after, k, after.channels[k]) {
          assert ChannelVaries(h, k, h.channels[k]);
        }
      }
    case Drop(ch) => DroppedVaries(h, ch);
    case Resend(ch) => ServedVaries(h, ch);
    case _ => OtherVaries(h, s);
  }

  lemma ActVaries<V, C>(c: Config<V, C>, w: Watcher<V, C>, a: Action<V, C>)
    requires WatcherInv(c, w) && Varied(w.hub) && CanAct(w, a)
    ensures Varied(Act(c, w, a).hub)
  {
    match a
    case Finish =>
      var content := c.view(w.loop.read);
      if !(w.hub.latest.Some? && w.hub.latest.value.content == content) {
        PublishedVaries(w.hub, content);
      }
    case PublisherStep(step) => StepVaries(w.hub, step);
    case ConsumerStep(step) => StepVaries(w.hub, step);
    case _ =>
  }

  lemma {:induction false} RunVaries<V, C>(c: Config<V, C>, store: seq<V>, actions: seq<Action<V, C>>)
    ensures Varied(Run(c, store, actions).hub)
  {
    if actions != [] {
      var w, a := Run(c, store, actions[..|actions| - 1]), actions[|actions| - 1];
      RunVaries(c, store, actions[..|actions| - 1]);
      RunKeepsInv(c, store, actions[..|actions| - 1]);
      if CanAct(w, a) {
        ActVaries(c, w, a);
      }
    }
  }

  /** In every run, two successive versions that a consumer gets differ. */
  lemma VersionsDiffer<V, C>(c: Config<V, C>, store: seq<V>, actions: seq<Action<V, C>>, ch: nat, i: nat)
    requires
      var channels := Run(c, store, actions).hub.channels;
      && ch in channels && 0 < i < |channels[ch].Stream()|
      && channels[ch].Stream()[i].version == channels[ch].Stream()[i - 1].version + 1
    ensures
      var stream := Run(c, store, actions).hub.channels[ch].Stream();
      stream[i].content != stream[i - 1].content
  {
    RunVaries(c, store, actions);
    var h := Run(c, store, actions).hub;
    assert ChannelVaries(h, ch, h.channels[ch]);
  }
}
