/** The watcher as a whole: informer stores that change first and notify later,
    the one-slot request channel, the debounce timer, the resync ticker, builds
    that read the stores one by one, and publication.

    `V` is what one store holds (the health report is one more store) and `view`
    is what a build makes of all of them: exactly what decides whether a new
    snapshot is published. */
module RebuildLoop {
  import opened Collections
  import opened Streams
  import opened Browser

  /** Where the rebuild goroutine is. `read` are the stores a build has read. */
  datatype Loop<V> = Starting | Idle | Building(read: seq<V>) | Publishing

  /** `owed` counts changes whose handler has not looked at the ready flag yet,
      `requesting` handlers that saw it set and have not sent their request.
      `seen` is what the last successful build read. */
  datatype Watcher<V, C> = Watcher(
    store: seq<V>, owed: nat, requesting: nat, ready: bool, slot: bool, armed: bool,
    loop: Loop<V>, lastBuildOK: bool, seen: seq<V>, hub: Hub<C>)

  datatype Action<V, C> =
    | Change(part: nat, value: V)
    | HandlerChecksReady
    | HandlerRequests
    | Start
    | Read
    | ReadFails
    | Finish
    | TakeRequest
    | DebounceFires
    | Tick
    | PublisherStep(step: Step<C>)
    | ConsumerStep(step: Step<C>)
    | Published

  /** `debounced` is whether a debounce delay is configured. */
  datatype Config<!V, C> = Config(view: seq<V> -> C, debounced: bool)

  function NewWatcher<V, C>(store: seq<V>): Watcher<V, C> {
    Watcher(store, 0, 0, false, false, false, Starting, false, [], NewHub())
  }

  predicate IsPublisherStep<C>(s: Step<C>) { s.Send? || s.Drop? || s.Resend? || s.Release? }

  predicate IsConsumerStep<C>(s: Step<C>) { s.Subscribe? || s.Unsubscribe? || s.Receive? }

  predicate CanAct<V, C>(w: Watcher<V, C>, a: Action<V, C>) {
    match a
    case Change(part, _) => part < |w.store|
    case HandlerChecksReady => w.owed > 0
    case HandlerRequests => w.requesting > 0
    case Start => w.loop.Starting?
    case Read => w.loop.Building? && |w.loop.read| < |w.store|
    case ReadFails => w.loop.Building?
    case Finish => w.loop.Building? && |w.loop.read| == |w.store| && w.hub.phase.Free?
    case TakeRequest => w.loop.Idle? && w.slot
    case DebounceFires => w.loop.Idle? && w.armed
    case Tick => w.loop.Idle?
    case PublisherStep(step) => w.loop.Publishing? && IsPublisherStep(step) && Enabled(w.hub, step)
    case ConsumerStep(step) => IsConsumerStep(step) && Enabled(w.hub, step)
    case Published => w.loop.Publishing? && w.hub.phase.Free?
  }

  function Act<V, C(==)>(c: Config<V, C>, w: Watcher<V, C>, a: Action<V, C>): Watcher<V, C>
    requires CanAct(w, a)
  {
    match a
    case Change(part, value) => w.(store := w.store[part := value], owed := w.owed + 1)
    case HandlerChecksReady => w.(owed := w.owed - 1, requesting := w.requesting + if w.ready then 1 else 0)
    case HandlerRequests => w.(requesting := w.requesting - 1, slot := true)
    case Start => w.(ready := true, loop := Building([]))
    case Read => w.(loop := Building(w.loop.read + [w.store[|w.loop.read|]]))
    case ReadFails => w.(loop := Idle, lastBuildOK := false)
    case Finish =>
      var content := c.view(w.loop.read);
      var built := w.(lastBuildOK := true, seen := w.loop.read);
      if w.hub.latest.Some? && w.hub.latest.value.content == content then built.(loop := Idle)
      else built.(loop := Publishing, hub := Next(w.hub, Publish(content)))
    case TakeRequest =>
      if c.debounced then w.(slot := false, armed := true) else w.(slot := false, loop := Building([]))
    case DebounceFires => w.(armed := false, loop := Building([]))
    case Tick => w.(armed := false, loop := Building([]))
    case PublisherStep(step) => w.(hub := Next(w.hub, step))
    case ConsumerStep(step) => w.(hub := Next(w.hub, step))
    case Published => w.(loop := Idle)
  }

  /** A request is on its way to the next build. */
  predicate RequestComing<V, C>(w: Watcher<V, C>) {
    w.owed > 0 || w.requesting > 0 || w.slot
  }

  ghost predicate LoopInv<V, C>(c: Config<V, C>, w: Watcher<V, C>) {
    && (w.loop.Starting? <==> !w.ready)
    && (w.loop.Starting? ==> !w.lastBuildOK)
    && (w.armed ==> w.loop.Idle? && c.debounced)
    && (w.loop.Building? ==> |w.loop.read| <= |w.store|)
    && (w.loop.Building? ==> w.loop.read == w.store[..|w.loop.read|] || RequestComing(w))
    && (w.lastBuildOK && !w.loop.Building? ==> w.seen == w.store || RequestComing(w) || w.armed)
    && (w.hub.latest.Some? ==> w.hub.latest.value.content == c.view(w.seen))
    && (w.lastBuildOK ==> w.hub.latest.Some?)
    && (w.hub.phase.Free? || w.loop.Publishing?)
    && (w.loop.Publishing? ==> w.lastBuildOK)
  }

  ghost predicate WatcherInv<V, C>(c: Config<V, C>, w: Watcher<V, C>) {
    LoopInv(c, w) && Inv(w.hub)
  }

  /** Consumers and the publisher's channel steps leave the latest snapshot
      alone, and only the publisher's last step frees the lock. */
  lemma StepsKeepLatest<C>(h: Hub<C>, s: Step<C>)
    requires Inv(h) && Enabled(h, s) && !s.Publish?
    ensures Next(h, s).latest == h.latest
    ensures IsConsumerStep(s) ==> Next(h, s).phase == h.phase
  {
  }

  lemma ActKeepsInv<V, C>(c: Config<V, C>, w: Watcher<V, C>, a: Action<V, C>)
    requires WatcherInv(c, w) && CanAct(w, a)
    ensures WatcherInv(c, Act(c, w, a))
  {
    match a
    case Change(part, value) =>
    case Read =>
      var n := |w.loop.read|;
      assert w.store[..n + 1] == w.store[..n] + [w.store[n]];
    case Finish =>
      assert w.store[..|w.store|] == w.store;
      PublishedFine(w.hub, c.view(w.loop.read));
    case PublisherStep(step) =>
      StepKeepsInv(w.hub, step);
      StepsKeepLatest(w.hub, step);
    case ConsumerStep(step) =>
      StepKeepsInv(w.hub, step);
      StepsKeepLatest(w.hub, step);
    case _ =>
  }

  function Run<V, C(==)>(c: Config<V, C>, store: seq<V>, actions: seq<Action<V, C>>): Watcher<V, C> {
    if actions == [] then NewWatcher(store)
    else
      var w, a := Run(c, store, actions[..|actions| - 1]), actions[|actions| - 1];
      if CanAct(w, a) then Act(c, w, a) else w
  }

  lemma {:induction false} RunKeepsInv<V, C>(c: Config<V, C>, store: seq<V>, actions: seq<Action<V, C>>)
    ensures WatcherInv(c, Run(c, store, actions))
  {
    if actions != [] {
      var w, a := Run(c, store, actions[..|actions| - 1]), actions[|actions| - 1];
      RunKeepsInv(c, store, actions[..|actions| - 1]);
      if CanAct(w, a) {
        ActKeepsInv(c, w, a);
      }
    }
  }

  /** Every handler has run, nothing is requested or armed, and the loop waits
      after a build that succeeded. */
  predicate Quiescent<V, C>(w: Watcher<V, C>) {
    !RequestComing(w) && !w.armed && w.loop.Idle? && w.lastBuildOK
  }

  /** No update is lost: at quiescence, whatever the interleaving and whenever
      the changes fell, also before the ready flag was set or in the middle of
      a build, the latest snapshot is a build of the stores as they are. */
  lemma NoLostUpdate<V, C>(c: Config<V, C>, store: seq<V>, actions: seq<Action<V, C>>)
    requires Quiescent(Run(c, store, actions))
    ensures
      var w := Run(c, store, actions);
      w.hub.latest.Some? && w.hub.latest.value.content == c.view(w.store)
  {
    RunKeepsInv(c, store, actions);
  }

  /** End to end: at quiescence, a browser that has received all its channel
      held shows the stores as they are, whatever it showed before. */
  lemma BrowserConverges<V, C>(c: Config<V, C>, store: seq<V>, actions: seq<Action<V, C>>, ch: nat, instance: string, v: View<C>)
    requires Quiescent(Run(c, store, actions))
    requires
      var hub := Run(c, store, actions).hub;
      ch in hub.channels && hub.channels[ch].open && hub.channels[ch].queue == []
    ensures
      var w := Run(c, store, actions);
      var shown := OnMessages(OnConnect(v), Sent(instance, w.hub.channels[ch].delivered)).current;
      shown.Some? && shown.value.instance == instance && shown.value.snapshot.content == c.view(w.store)
  {
    RunKeepsInv(c, store, actions);
    NoLostUpdate(c, store, actions);
    var hub := Run(c, store, actions).hub;
    var channel := hub.channels[ch];
    assert ChannelFine(hub, ch, channel);
    assert channel.Stream() == channel.delivered;
    NothingRejected(v, instance, channel.delivered);
  }

  /** The loop never gets stuck: unless it is quiescent, or its last build failed
      and nothing asks for another, some step other than a store change, the
      ticker or a consumer is possible. */
  lemma NeverStuck<V, C>(c: Config<V, C>, store: seq<V>, actions: seq<Action<V, C>>)
    requires
      var w := Run(c, store, actions);
      !Quiescent(w) && (w.lastBuildOK || RequestComing(w) || w.armed || !w.loop.Idle?)
    ensures exists a :: CanAct(Run(c, store, actions), a) && IsProgress(a)
  {
    RunKeepsInv(c, store, actions);
    var w := Run(c, store, actions);
    var a: Action<V, C> :=
      if w.owed > 0 then HandlerChecksReady
      else if w.requesting > 0 then HandlerRequests
      else match w.loop
        case Starting => Start
        case Idle => if w.slot then TakeRequest else DebounceFires
        case Building(read) => if |read| < |w.store| then Read else Finish
        case Publishing => if w.hub.phase.Free? then Published else PublisherStep(PublisherTurn(w.hub));
    if w.loop.Publishing? && !w.hub.phase.Free? {
      PublisherTurnEnabled(w.hub);
    }
    assert CanAct(w, a) && IsProgress(a);
  }

  predicate IsProgress<V, C>(a: Action<V, C>) {
    !a.Change? && !a.Tick? && !a.ConsumerStep? && !a.ReadFails?
  }

  ghost function PublisherTurn<C>(h: Hub<C>): Step<C> {
    match h.phase
    case Sending(left) => if left == {} then Release else var ch :| ch in left; Send(ch)
    case Dropping(_, ch) => Drop(ch)
    case Resending(_, ch) => Resend(ch)
    case Free => Release
  }

  lemma PublisherTurnEnabled<C>(h: Hub<C>)
    requires Inv(h) && !h.phase.Free?
    ensures Enabled(h, PublisherTurn(h)) && IsPublisherStep(PublisherTurn(h))
  {
  }

  // ---- a failed build ----

  /** A failed build is not retried by itself: with nothing requested, only a
      later change or the ticker leads to another build. */
  lemma FailedBuildWaits<V, C>(c: Config<V, C>, w: Watcher<V, C>, a: Action<V, C>)
    requires WatcherInv(c, w) && w.loop.Idle? && !w.lastBuildOK && !RequestComing(w) && !w.armed
    requires CanAct(w, a) && !a.Change? && !a.Tick?
    ensures
      var after := Act(c, w, a);
      after.loop.Idle? && !after.lastBuildOK && !RequestComing(after) && !after.armed && after.hub.latest == w.hub.latest
  {
    if a.ConsumerStep? {
      StepsKeepLatest(w.hub, a.step);
    }
  }
}
