/** The watcher's snapshot, version and subscribers as one object, run without
    consumers in between: the same steps taken back to back. */
module Publisher {
  import opened Collections
  import opened Streams

  /** A channel after one snapshot was sent: the oldest one waiting makes room. */
  function AfterSend<C>(c: Channel<C>, s: Snapshot<C>): Channel<C> {
    c.(queue := (if c.HasRoom() || c.queue == [] then c.queue else c.queue[1..]) + [s])
  }

  /** The publisher's steps on one channel, taken back to back. */
  function Served<C>(h: Hub<C>, ch: nat): Hub<C>
    requires Inv(h) && h.phase.Sending? && ch in h.phase.left
  {
    var sent := Next(h, Send(ch));
    if h.channels[ch].HasRoom() then sent
    else
      StepKeepsInv(h, Send(ch));
      var dropped := Next(sent, Drop(ch));
      StepKeepsInv(sent, Drop(ch));
      Next(dropped, Resend(ch))
  }

  /** Without a consumer in between, they come to one send that drops only from a
      full queue, and only its oldest. */
  lemma ServedIsSend<C>(h: Hub<C>, ch: nat)
    requires Inv(h) && h.phase.Sending? && ch in h.phase.left
    ensures Served(h, ch).channels == h.channels[ch := AfterSend(h.channels[ch], h.latest.value)]
    ensures Served(h, ch).phase == Sending(h.phase.left - {ch})
    ensures |h.channels[ch].queue| < h.channels[ch].capacity ==>
              AfterSend(h.channels[ch], h.latest.value).queue == h.channels[ch].queue + [h.latest.value]
  {
    assert ChannelFine(h, ch, h.channels[ch]);
  }

  /** The channels of `those` have been sent the snapshot, and no other channel
      has changed. */
  ghost predicate SentTo<C>(before: map<nat, Channel<C>>, after: map<nat, Channel<C>>, those: set<nat>, s: Snapshot<C>) {
    && after.Keys == before.Keys
    && forall ch :: ch in after ==> after[ch] == if ch in those then AfterSend(before[ch], s) else before[ch]
  }

  lemma SentToOneMore<C>(before: map<nat, Channel<C>>, after: map<nat, Channel<C>>, those: set<nat>, ch: nat, s: Snapshot<C>)
    requires SentTo(before, after, those, s) && ch in before && ch !in those
    ensures SentTo(before, after[ch := AfterSend(after[ch], s)], those + {ch}, s)
  {
  }

  class SnapshotPublisher<C(==)> {
    var version: nat
    var latest: Option<Snapshot<C>>
    var subscribers: set<nat>
    var channels: map<nat, Channel<C>>
    var unchangedBuilds: nat
    var publishes: nat

    function State(): Hub<C>
      reads this
    {
      Hub(version, latest, subscribers, channels, Free)
    }

    ghost predicate Valid()
      reads this
    {
      Inv(State()) && publishes == version
    }

    constructor ()
      ensures Valid() && State() == NewHub() && unchangedBuilds == 0
    {
      version, latest, subscribers, channels := 0, None, {}, map[];
      unchangedBuilds, publishes := 0, 0;
    }

    /** The end of rebuildAndPublishContext: an unchanged snapshot is dropped, a
        new one gets the next version and goes to every subscriber. */
    method PublishIfChanged(content: C)
      requires Valid()
      modifies this
      ensures Valid()
      ensures old(latest).Some? && old(latest).value.content == content ==>
                State() == old(State()) && unchangedBuilds == old(unchangedBuilds) + 1
      ensures !(old(latest).Some? && old(latest).value.content == content) ==>
                var s := Snapshot(old(version) + 1, content);
                && latest == Some(s) && version == old(version) + 1 && unchangedBuilds == old(unchangedBuilds)
                && subscribers == old(subscribers) && SentTo(old(channels), channels, subscribers, s)
    {
      if latest.Some? && latest.value.content == content {
        unchangedBuilds := unchangedBuilds + 1;
        return;
      }
      PublishedFine(State(), content);
      version := version + 1;
      var snapshot := Snapshot(version, content);
      latest := Some(snapshot);
      publishes := publishes + 1;
      SendToAll(snapshot);
      StepKeepsInv(Publishing({}), Release);
    }

    /** The hub in the middle of publishing, with these subscribers still to serve. */
    ghost function Publishing(left: set<nat>): Hub<C>
      reads this
    {
      State().(phase := Sending(left))
    }

    method SendToAll(snapshot: Snapshot<C>)
      requires latest == Some(snapshot) && Inv(Publishing(subscribers))
      modifies this`channels
      ensures SentTo(old(channels), channels, subscribers, snapshot)
      ensures Inv(Publishing({}))
    {
      var left := subscribers;
      ghost var hub := Publishing(left);
      while left != {}
        invariant left <= subscribers <= channels.Keys
        invariant hub == Publishing(left) && Inv(hub)
        invariant SentTo(old(channels), channels, subscribers - left, snapshot)
        decreases left
      {
        var ch :| ch in left;
        SentToOneMore(old(channels), channels, subscribers - left, ch, snapshot);
        hub := SendTo(ch, snapshot, hub);
        assert subscribers - (left - {ch}) == subscribers - left + {ch};
        left := left - {ch};
      }
    }

    /** One turn of the publishing loop: send, or drop the oldest and send. */
    method SendTo(ch: nat, snapshot: Snapshot<C>, ghost hub: Hub<C>) returns (ghost sent: Hub<C>)
      requires latest == Some(snapshot) && ch in channels && Inv(hub)
      requires hub.phase.Sending? && ch in hub.phase.left && hub == Publishing(hub.phase.left)
      modifies this`channels
      ensures channels == old(channels)[ch := AfterSend(old(channels)[ch], snapshot)]
      ensures sent == Publishing(hub.phase.left - {ch}) && Inv(sent)
    {
      assert ChannelFine(hub, ch, channels[ch]);
      sent := Next(hub, Send(ch));
      StepKeepsInv(hub, Send(ch));
      if !channels[ch].HasRoom() {
        ghost var dropped := Next(sent, Drop(ch));
        StepKeepsInv(sent, Drop(ch));
        StepKeepsInv(dropped, Resend(ch));
        sent := Next(dropped, Resend(ch));
        channels := channels[ch := channels[ch].(queue := channels[ch].queue[1..])];
      }
      channels := channels[ch := Enqueued(channels[ch], snapshot)];
      assert channels == sent.channels;
    }

    method Subscribe(ch: nat, buffer: int)
      requires Valid() && ch !in channels
      modifies this
      ensures Valid()
      ensures subscribers == old(subscribers) + {ch} && latest == old(latest) && version == old(version)
      ensures ch in channels && channels == old(channels)[ch := channels[ch]]
      ensures channels[ch].capacity == (if buffer < 1 then 1 else buffer)
      ensures channels[ch].queue == (if latest.Some? then [latest.value] else []) && channels[ch].delivered == []
    {
      ghost var next := Next(State(), Step.Subscribe(ch, buffer));
      StepKeepsInv(State(), Step.Subscribe(ch, buffer));
      var channel := Channel(if buffer < 1 then 1 else buffer, [], [], true);
      subscribers := subscribers + {ch};
      if latest.Some? {
        channel := Enqueued(channel, latest.value);
      }
      channels := channels[ch := channel];
      assert channel.queue == if latest.Some? then [latest.value] else [];
      assert State().channels == next.channels;
    }

    method Unsubscribe(ch: nat)
      requires Valid() && ch in subscribers
      modifies this
      ensures Valid()
      ensures subscribers == old(subscribers) - {ch} && latest == old(latest) && version == old(version)
      ensures channels == old(channels)[ch := old(channels)[ch].(open := false)]
    {
      StepKeepsInv(State(), Step.Unsubscribe(ch));
      subscribers := subscribers - {ch};
      channels := channels[ch := channels[ch].(open := false)];
    }

    /** A consumer takes the oldest snapshot that waits for it. */
    method Receive(ch: nat) returns (s: Snapshot<C>)
      requires Valid() && ch in channels && channels[ch].queue != []
      modifies this`channels
      ensures Valid()
      ensures channels.Keys == old(channels).Keys
      ensures [s] + channels[ch].queue == old(channels[ch].queue)
      ensures channels[ch].Stream() == old(channels[ch].Stream())
      ensures channels == old(channels)[ch := channels[ch]]
    {
      StepKeepsInv(State(), Step.Receive(ch));
      ReceiveStream(channels[ch]);
      var c := channels[ch];
      s := c.queue[0];
      channels := channels[ch := c.(queue := c.queue[1..], delivered := c.delivered + [s])];
    }
  }
}
