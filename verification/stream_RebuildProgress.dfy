/** Left to itself the watcher settles: the steps that need no new change, tick
    or consumer run out, and then the latest snapshot is current, unless a build
    failed and nothing asks for another. */
module RebuildProgress {
  import opened Collections
  import opened Streams
  import opened RebuildLoop

  /** More than a build and its publication take. */
  function BuildWork<V, C>(w: Watcher<V, C>): nat {
    |w.store| + 3 * |w.hub.subscribers| + 4
  }

  function LoopWork<V, C>(w: Watcher<V, C>): int {
    match w.loop
    case Starting => BuildWork(w)
    case Building(read) => BuildWork(w) - 1 - |read|
    case Publishing => StepsLeft(w.hub) + 1
    case Idle => 0
  }

  /** What is still to do: each change owes a request, each request a build. */
  function Work<V, C>(w: Watcher<V, C>): int {
    Asked(w.owed, w.requesting, BuildWork(w)) + Waiting(w.slot, w.armed, BuildWork(w)) + LoopWork(w)
  }

  function Asked(owed: nat, requesting: nat, build: nat): int {
    owed * (build + 3) + requesting * (build + 2)
  }

  function Waiting(slot: bool, armed: bool, build: nat): int {
    (if slot then build + 1 else 0) + (if armed then build else 0)
  }

  lemma OneLess(n: nat, cost: int)
    requires n > 0
    ensures n * cost == (n - 1) * cost + cost
  {
  }

  /** A check of the ready flag, and a request that is made, cost what they save. */
  lemma AskedLess(owed: nat, requesting: nat, build: nat)
    ensures owed > 0 ==> Asked(owed - 1, requesting + 1, build) == Asked(owed, requesting, build) - 1
    ensures owed > 0 ==> Asked(owed - 1, requesting, build) <= Asked(owed, requesting, build) - 3
    ensures requesting > 0 ==> Asked(owed, requesting - 1, build) == Asked(owed, requesting, build) - (build + 2)
  {
    if owed > 0 {
      OneLess(owed, build + 3);
      OneLess(requesting + 1, build + 2);
    }
    if requesting > 0 {
      OneLess(requesting, build + 2);
    }
  }

  lemma WorkLeft<V, C>(c: Config<V, C>, w: Watcher<V, C>)
    requires WatcherInv(c, w)
    ensures Work(w) >= 0 && LoopWork(w) >= 0
  {
    assert w.owed * (BuildWork(w) + 3) >= 0 && w.requesting * (BuildWork(w) + 2) >= 0;
    assert Asked(w.owed, w.requesting, BuildWork(w)) >= 0;
  }

  /** The publisher's steps leave the subscribers alone. */
  lemma SameSubscribers<C>(h: Hub<C>, s: Step<C>)
    requires Enabled(h, s) && (IsPublisherStep(s) || s.Publish?)
    ensures Next(h, s).subscribers == h.subscribers
  {
  }

  lemma SameBuildWork<V, C>(c: Config<V, C>, w: Watcher<V, C>, a: Action<V, C>)
    requires WatcherInv(c, w) && CanAct(w, a) && IsProgress(a)
    ensures BuildWork(Act(c, w, a)) == BuildWork(w)
  {
    if a.PublisherStep? {
      SameSubscribers(w.hub, a.step);
    }
  }

  /** Every step that asks for nothing new leaves less to do. */
  lemma ProgressCosts<V, C>(c: Config<V, C>, w: Watcher<V, C>, a: Action<V, C>)
    requires WatcherInv(c, w) && CanAct(w, a) && IsProgress(a)
    ensures Work(Act(c, w, a)) < Work(w)
  {
    SameBuildWork(c, w, a);
    if a.HandlerChecksReady? || a.HandlerRequests? {
      AskedLess(w.owed, w.requesting, BuildWork(w));
    } else {
      LoopCosts(c, w, a);
    }
  }

  lemma LoopCosts<V, C>(c: Config<V, C>, w: Watcher<V, C>, a: Action<V, C>)
    requires WatcherInv(c, w) && CanAct(w, a) && IsProgress(a) && !a.HandlerChecksReady? && !a.HandlerRequests?
    ensures var next, build := Act(c, w, a), BuildWork(w);
      BuildWork(next) == build ==>
        Waiting(next.slot, next.armed, build) + LoopWork(next) < Waiting(w.slot, w.armed, build) + LoopWork(w)
  {
    if a.PublisherStep? {
      PublisherFinishes(w.hub, a.step);
    }
  }

  // ---- runs of such steps ----

  /** `more` are steps that ask for nothing new, each possible in its turn. */
  ghost predicate Unprompted<V, C>(c: Config<V, C>, store: seq<V>, actions: seq<Action<V, C>>, more: seq<Action<V, C>>) {
    more != [] ==>
      var front, last := more[..|more| - 1], more[|more| - 1];
      Unprompted(c, store, actions, front) && IsProgress(last) && CanAct(Run(c, store, actions + front), last)
  }

  lemma RunFront<V, C>(c: Config<V, C>, store: seq<V>, actions: seq<Action<V, C>>, more: seq<Action<V, C>>)
    requires more != []
    ensures
      var w, a := Run(c, store, actions + more[..|more| - 1]), more[|more| - 1];
      Run(c, store, actions + more) == if CanAct(w, a) then Act(c, w, a) else w
  {
    assert (actions + more)[..|actions + more| - 1] == actions + more[..|more| - 1];
  }

  /** Such steps run out. */
  lemma {:induction false} UnpromptedRunsOut<V, C>(
    c: Config<V, C>, store: seq<V>, actions: seq<Action<V, C>>, more: seq<Action<V, C>>)
    requires Unprompted(c, store, actions, more)
    ensures |more| + Work(Run(c, store, actions + more)) <= Work(Run(c, store, actions))
  {
    if more == [] {
      assert actions + more == actions;
    } else {
      var front, last := more[..|more| - 1], more[|more| - 1];
      UnpromptedRunsOut(c, store, actions, front);
      RunFront(c, store, actions, more);
      RunKeepsInv(c, store, actions + front);
      ProgressCosts(c, Run(c, store, actions + front), last);
    }
  }

  /** The last build failed and nothing asks for another. */
  predicate Stalled<V, C>(w: Watcher<V, C>) {
    w.loop.Idle? && !w.lastBuildOK && !RequestComing(w) && !w.armed
  }

  lemma StaysUnstalled<V, C>(c: Config<V, C>, w: Watcher<V, C>, a: Action<V, C>)
    requires WatcherInv(c, w) && CanAct(w, a) && IsProgress(a) && !Stalled(w)
    ensures !Stalled(Act(c, w, a))
  {
  }

  lemma {:induction false} UnpromptedUnstalled<V, C>(
    c: Config<V, C>, store: seq<V>, actions: seq<Action<V, C>>, more: seq<Action<V, C>>)
    requires Unprompted(c, store, actions, more) && !Stalled(Run(c, store, actions))
    ensures !Stalled(Run(c, store, actions + more))
  {
    if more == [] {
      assert actions + more == actions;
    } else {
      var front, last := more[..|more| - 1], more[|more| - 1];
      UnpromptedUnstalled(c, store, actions, front);
      RunFront(c, store, actions, more);
      RunKeepsInv(c, store, actions + front);
      StaysUnstalled(c, Run(c, store, actions + front), last);
    }
  }

  ghost predicate CanProgress<V(!new), C(!new)>(w: Watcher<V, C>) {
    exists a :: CanAct(w, a) && IsProgress(a)
  }

  /** From any reachable state that is not stalled, and however the steps are
      scheduled, when no new change, tick or failure comes the watcher settles
      after boundedly many steps; the latest snapshot then is a build of the
      stores as they are. */
  lemma Settles<V(!new), C(!new)>(c: Config<V, C>, store: seq<V>, actions: seq<Action<V, C>>, more: seq<Action<V, C>>)
    requires Unprompted(c, store, actions, more) && !Stalled(Run(c, store, actions))
    ensures |more| <= Work(Run(c, store, actions))
    ensures
      var w := Run(c, store, actions + more);
      !CanProgress(w) ==> Quiescent(w) && w.hub.latest.Some? && w.hub.latest.value.content == c.view(w.store)
  {
    var w := Run(c, store, actions + more);
    UnpromptedRunsOut(c, store, actions, more);
    RunKeepsInv(c, store, actions + more);
    WorkLeft(c, w);
    UnpromptedUnstalled(c, store, actions, more);
    if !CanProgress(w) {
      if !Quiescent(w) {
        NeverStuck(c, store, actions + more);
      }
      NoLostUpdate(c, store, actions + more);
    }
  }

  // ---- when builds start ----

  /** A build starts at the start, on the ticker, and otherwise once the debounce
      delay has passed, or at once on a request when there is no delay. */
  lemma BuildStarts<V, C>(c: Config<V, C>, w: Watcher<V, C>, a: Action<V, C>)
    requires WatcherInv(c, w) && CanAct(w, a) && !w.loop.Building? && Act(c, w, a).loop.Building?
    ensures a.Start? || a.Tick? || (if c.debounced then a.DebounceFires? else a.TakeRequest?)
    ensures Act(c, w, a).loop.read == [] && !Act(c, w, a).armed
  {
  }

  /** A stalled watcher recovers on the next tick: a build starts, and unless it
      fails too everything settles. */
  lemma TickRecovers<V, C>(c: Config<V, C>, store: seq<V>, actions: seq<Action<V, C>>)
    requires Stalled(Run(c, store, actions))
    ensures CanAct(Run(c, store, actions), Tick) && !Stalled(Run(c, store, actions + [Tick]))
  {
    assert (actions + [Tick])[..|actions|] == actions;
  }

  // ---- a failed build ----

  predicate Prompts<V, C>(a: Action<V, C>) { a.Change? || a.Tick? }

  lemma StalledStep<V, C>(c: Config<V, C>, w: Watcher<V, C>, a: Action<V, C>)
    requires WatcherInv(c, w) && Stalled(w) && CanAct(w, a) && !Prompts(a)
    ensures
      var after := Act(c, w, a);
      Stalled(after) && after.hub.latest == w.hub.latest && after.store == w.store
  {
    FailedBuildWaits(c, w, a);
  }

  lemma {:induction false} StalledStays<V, C>(
    c: Config<V, C>, store: seq<V>, actions: seq<Action<V, C>>, more: seq<Action<V, C>>)
    requires Stalled(Run(c, store, actions)) && forall a :: a in more ==> !Prompts(a)
    ensures Stalled(Run(c, store, actions + more))
    ensures Run(c, store, actions + more).hub.latest == Run(c, store, actions).hub.latest
    ensures Run(c, store, actions + more).store == Run(c, store, actions).store
  {
    if more == [] {
      assert actions + more == actions;
    } else {
      var front, last := more[..|more| - 1], more[|more| - 1];
      assert more == front + [last];
      StalledStays(c, store, actions, front);
      RunFront(c, store, actions, more);
      RunKeepsInv(c, store, actions + front);
      var w := Run(c, store, actions + front);
      if CanAct(w, last) {
        StalledStep(c, w, last);
      }
    }
  }

  lemma OneMore<V, C>(c: Config<V, C>, store: seq<V>, actions: seq<Action<V, C>>, a: Action<V, C>, w: Watcher<V, C>)
    returns (after: Watcher<V, C>)
    requires Run(c, store, actions) == w && CanAct(w, a)
    ensures after == Act(c, w, a) == Run(c, store, actions + [a])
  {
    after := Act(c, w, a);
    assert (actions + [a])[..|actions|] == actions;
  }


  const FIRST_BUILD: seq<Action<int, seq<int>>> := [Start, Read, Finish, PublisherStep(Release), Published]
  const FAILED_BUILD: seq<Action<int, seq<int>>> :=
    [Change(0, 1), HandlerChecksReady, HandlerRequests, TakeRequest, ReadFails]

  lemma Started(c: Config<int, seq<int>>) returns (w: Watcher<int, seq<int>>)
    ensures w == Run(c, [0], [] + [Start]) == NewWatcher([0]).(ready := true, loop := Building([]))
  {
    w := OneMore(c, [0], [], Start, NewWatcher([0]));
  }

  lemma StoresRead(c: Config<int, seq<int>>) returns (w: Watcher<int, seq<int>>)
    ensures w == Run(c, [0], [] + [Start] + [Read])
    ensures w == NewWatcher([0]).(ready := true, loop := Building([0]))
  {
    var started := Started(c);
    w := OneMore(c, [0], [] + [Start], Read, started);
    assert [] + [started.store[0]] == [0];
  }

  lemma FirstBuild(c: Config<int, seq<int>>) returns (w: Watcher<int, seq<int>>)
    requires c.view([0]) == [0]
    ensures w == Run(c, [0], FIRST_BUILD) && w.store == [0] && w.loop.Idle? && w.ready
    ensures w.owed == 0 && w.requesting == 0 && !w.slot && !w.armed
    ensures w.hub.latest == Some(Snapshot(1, [0])) && w.hub.phase.Free?
  {
    w := StoresRead(c);
    w := OneMore(c, [0], [] + [Start] + [Read], Finish, w);
    w := Announced(c, [] + [Start] + [Read] + [Finish], w);
    assert FIRST_BUILD == [] + [Start] + [Read] + [Finish] + [PublisherStep(Release)] + [Published];
  }

  lemma Announced(c: Config<int, seq<int>>, actions: seq<Action<int, seq<int>>>, w: Watcher<int, seq<int>>)
    returns (after: Watcher<int, seq<int>>)
    requires w == Run(c, [0], actions) && w.loop.Publishing? && w.hub.phase == Sending({})
    ensures after == Run(c, [0], actions + [PublisherStep(Release)] + [Published])
    ensures after == w.(loop := Idle, hub := w.hub.(phase := Free))
  {
    after := OneMore(c, [0], actions, PublisherStep(Release), w);
    after := OneMore(c, [0], actions + [PublisherStep(Release)], Published, after);
  }

  lemma FailedBuild(c: Config<int, seq<int>>, actions: seq<Action<int, seq<int>>>, w: Watcher<int, seq<int>>)
    returns (after: Watcher<int, seq<int>>)
    requires !c.debounced && w == Run(c, [0], actions) && |w.store| == 1 && w.loop.Idle? && w.ready
    requires w.owed == 0 && w.requesting == 0 && !w.slot && !w.armed
    ensures after == Run(c, [0], actions + FAILED_BUILD) && Stalled(after)
    ensures after.store == [1] && after.hub == w.hub
  {
    after := OneMore(c, [0], actions, Change(0, 1), w);
    var more := actions + [Change(0, 1)];
    after := OneMore(c, [0], more, HandlerChecksReady, after);
    after := OneMore(c, [0], more + [HandlerChecksReady], HandlerRequests, after);
    after := OneMore(c, [0], more + [HandlerChecksReady] + [HandlerRequests], TakeRequest, after);
    after := OneMore(c, [0], more + [HandlerChecksReady] + [HandlerRequests] + [TakeRequest], ReadFails, after);
    assert actions + FAILED_BUILD == more + [HandlerChecksReady] + [HandlerRequests] + [TakeRequest] + [ReadFails];
  }

  /** A run in which a store changes and the build for it fails: the latest
      snapshot stays the old one through every later step that is no change and
      no tick. */
  lemma FailedBuildHidesChange() returns (c: Config<int, seq<int>>, actions: seq<Action<int, seq<int>>>)
    ensures
      forall more :: (forall a :: a in more ==> !Prompts(a)) ==>
        var w := Run(c, [0], actions + more);
        w.hub.latest.Some? && w.hub.latest.value.content != c.view(w.store)
  {
    c, actions := Config(s => s, false), FIRST_BUILD + FAILED_BUILD;
    var first := FirstBuild(c);
    var w := FailedBuild(c, FIRST_BUILD, first);
    forall more | forall a :: a in more ==> !Prompts(a)
      ensures
        var later := Run(c, [0], actions + more);
        later.hub.latest.Some? && later.hub.latest.value.content != c.view(later.store)
    {
      StalledStays(c, [0], actions, more);
    }
  }
}
