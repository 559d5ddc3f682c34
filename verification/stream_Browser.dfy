/** The browser's side of the stream: useTopologyStream. */
module Browser {
  import opened Collections
  import opened Streams

  /** A snapshot with the process that built it. */
  datatype Message<C> = Message(instance: string, snapshot: Snapshot<C>)

  /** acceptSnapshot */
  function AcceptSnapshot<C>(current: Option<Message<C>>, incoming: Message<C>, firstOnConnection: bool): Message<C> {
    if current.None? || firstOnConnection || incoming.instance != current.value.instance then incoming
    else if incoming.snapshot.version <= current.value.snapshot.version then current.value
    else incoming
  }

  /** The hook's state: what is shown, and whether the next message is the first
      of its connection. */
  datatype View<C> = View(current: Option<Message<C>>, firstOnConnection: bool)

  function OnConnect<C>(v: View<C>): View<C> { v.(firstOnConnection := true) }

  function OnMessage<C>(v: View<C>, m: Message<C>): View<C> {
    View(Some(AcceptSnapshot(v.current, m, v.firstOnConnection)), false)
  }

  function OnMessages<C>(v: View<C>, ms: seq<Message<C>>): View<C> {
    if ms == [] then v else OnMessage(OnMessages(v, ms[..|ms| - 1]), ms[|ms| - 1])
  }

  function Sent<C>(instance: string, stream: seq<Snapshot<C>>): seq<Message<C>> {
    seq(|stream|, i requires 0 <= i < |stream| => Message(instance, stream[i]))
  }

  /** On one connection to one process, whatever was shown before, every message
      is accepted, so the view always shows the last one. */
  lemma {:induction false} NothingRejected<C>(v: View<C>, instance: string, stream: seq<Snapshot<C>>)
    requires Increasing(stream) && stream != []
    ensures OnMessages(OnConnect(v), Sent(instance, stream)) == View(Some(Message(instance, stream[|stream| - 1])), false)
  {
    var n, ms := |stream| - 1, Sent(instance, stream);
    assert ms[..n] == Sent(instance, stream[..n]);
    if n == 0 {
      assert OnMessages(OnConnect(v), ms[..n]) == OnConnect(v);
    } else {
      NothingRejected(v, instance, stream[..n]);
    }
  }

  /** The first of the newest snapshots stands there. */
  ghost predicate FirstNewest<C>(stream: seq<Snapshot<C>>, k: nat) {
    && k < |stream|
    && (forall j :: 0 <= j < k ==> stream[j].version < stream[k].version)
    && (forall j :: k < j < |stream| ==> stream[j].version <= stream[k].version)
  }

  lemma OneMoreMessage<C>(stream: seq<Snapshot<C>>, s: Snapshot<C>, k: nat)
    requires FirstNewest(stream, k)
    ensures s.version <= stream[k].version ==> FirstNewest(stream + [s], k)
    ensures s.version > stream[k].version ==> FirstNewest(stream + [s], |stream|)
  {
  }

  lemma ShownNext<C>(v: View<C>, m: Message<C>)
    requires v.current.Some? && !v.firstOnConnection && v.current.value.instance == m.instance
    ensures OnMessage(v, m).current.Some? && OnMessage(v, m).current.value.instance == m.instance
    ensures OnMessage(v, m).current.value.snapshot ==
              if m.snapshot.version > v.current.value.snapshot.version then m.snapshot else v.current.value.snapshot
  {
  }

  /** Messages of one process in any order: the view shows the newest, and of several
      with one version the first to come. */
  lemma {:induction false} NewestShown<C>(v: View<C>, instance: string, stream: seq<Snapshot<C>>)
    requires stream != []
    ensures
      var after := OnMessages(OnConnect(v), Sent(instance, stream));
      && after.current.Some? && after.current.value.instance == instance && !after.firstOnConnection
      && exists k: nat :: FirstNewest(stream, k) && after.current.value.snapshot == stream[k]
  {
    var n, ms := |stream| - 1, Sent(instance, stream);
    assert ms[..n] == Sent(instance, stream[..n]);
    assert stream == stream[..n] + [stream[n]];
    if n == 0 {
      assert OnMessages(OnConnect(v), ms[..n]) == OnConnect(v);
      assert FirstNewest(stream, 0);
    } else {
      NewestShown(v, instance, stream[..n]);
      var before := OnMessages(OnConnect(v), ms[..n]);
      var k: nat :| FirstNewest(stream[..n], k) && before.current.value.snapshot == stream[..n][k];
      OneMoreMessage(stream[..n], stream[n], k);
      ShownNext(before, Message(instance, stream[n]));
      assert OnMessages(OnConnect(v), ms) == OnMessage(before, ms[n]);
    }
  }

  /** A browser on a channel whose queue is empty shows the latest snapshot,
      whichever process or version it showed before it connected. */
  lemma DrainedShowsLatest<C>(steps: seq<Step<C>>, ch: nat, instance: string, v: View<C>)
    requires ch in After(steps).channels && After(steps).channels[ch].open && After(steps).channels[ch].queue == []
    requires After(steps).phase.Free? && After(steps).latest.Some?
    ensures
      OnMessages(OnConnect(v), Sent(instance, After(steps).channels[ch].delivered)).current
      == Some(Message(instance, After(steps).latest.value))
  {
    StreamsIncrease(steps, ch);
    var c := After(steps).channels[ch];
    assert c.Stream() == c.delivered;
    NothingRejected(v, instance, c.delivered);
  }
}
