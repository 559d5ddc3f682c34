/** Controller inference as loops over Go maps, whose iteration order is
    arbitrary: `:|` below picks any entry next, and every method still returns
    the one value its specification names. */
module ControllerInference {
  import opened Collections
  import opened Kube
  import opened ControllerModel
  import Sorting

  /** matchingIngressClassName */
  method MatchingIngressClassName(service: Service, pods: seq<Pod>, classes: Classes) returns (name: Option<string>)
    ensures name == MatchingClass(service, pods, classes)
  {
    if !service.Exposed() {
      return None;
    }
    var best, bestName, tied := 0, "", false;
    var remaining := classes.Keys;
    ghost var scores := Scores(service, pods, classes);
    while remaining != {}
      invariant remaining <= scores.Keys == classes.Keys
      invariant forall n :: n in scores && n !in remaining ==> scores[n] <= best
      invariant best > 0 ==> bestName in scores && bestName !in remaining && scores[bestName] == best
      invariant tied <==> best > 0 && exists n :: n in scores && n !in remaining && n != bestName && scores[n] == best
      decreases remaining
    {
      var n :| n in remaining;
      remaining := remaining - {n};
      var score := ClassScore(service, pods, classes, n);
      assert score == scores[n];
      if score > best {
        best, bestName, tied := score, n, false;
      } else if score > 0 && score == best {
        tied := true;
      }
    }
    name := if best < 6 || tied then None else Some(bestName);
    BestIsOnly(scores, best, bestName, tied);
    TopClasses(service, pods, classes);
  }

  ghost function Scores(service: Service, pods: seq<Pod>, classes: Classes): map<string, nat> {
    map n | n in classes :: ClassScore(service, pods, classes, n)
  }

  /** The names with the best score, when that reaches 6. */
  ghost function Top(scores: map<string, nat>): set<string> {
    set n | n in scores && scores[n] >= 6 && forall m :: m in scores ==> scores[m] <= scores[n]
  }

  lemma TopClasses(service: Service, pods: seq<Pod>, classes: Classes)
    ensures Top(Scores(service, pods, classes)) == set n | n in classes && BestClass(service, pods, classes, n)
  {
    var scores := Scores(service, pods, classes);
    forall n ensures n in Top(scores) <==> n in classes && BestClass(service, pods, classes, n) {
      if n in Top(scores) {
        forall m | m in classes ensures ClassScore(service, pods, classes, m) <= ClassScore(service, pods, classes, n) {
          assert scores[m] <= scores[n];
        }
      }
    }
  }

  lemma BestIsOnly(scores: map<string, nat>, best: nat, bestName: string, tied: bool)
    requires forall n :: n in scores ==> scores[n] <= best
    requires best > 0 ==> bestName in scores && scores[bestName] == best
    requires tied <==> best > 0 && exists n :: n in scores && n != bestName && scores[n] == best
    ensures TheOnly(Top(scores)) == if best < 6 || tied then None else Some(bestName)
  {
    var top := Top(scores);
    if best < 6 {
      assert top == {};
    } else if tied {
      var n :| n in scores && n != bestName && scores[n] == best;
      assert {n, bestName} <= top;
    } else {
      assert top == {bestName};
    }
  }

  /** defaultIngressClassName */
  method DefaultIngressClassName(classes: Classes) returns (name: Option<string>)
    ensures name == DefaultClass(classes)
  {
    name := None;
    var remaining := classes.Keys;
    ghost var defaults := set n | n in classes && IsDefaultClass(classes[n]);
    while remaining != {}
      invariant remaining <= classes.Keys
      invariant defaults - remaining == if name.Some? then {name.value} else {}
      decreases remaining
    {
      var n :| n in remaining;
      ghost var before := defaults - remaining;
      remaining := remaining - {n};
      if IsDefaultClass(classes[n]) {
        assert defaults - remaining == before + {n};
        if name.Some? {
          assert name.value in defaults && n in defaults && name.value != n;
          return None;
        }
        name := Some(n);
      } else {
        assert defaults - remaining == before;
      }
    }
    assert defaults - remaining == defaults;
  }

  /** ingressControllerClassName */
  method IngressControllerClassName(ingress: Ingress, classes: Classes) returns (name: Option<string>)
    ensures name == ControllerClass(ingress, classes)
  {
    var named := NamedClass(ingress);
    if named != "" {
      if named in classes {
        return Some(named);
      }
      if UsesAnnotation(ingress) {
        return Some(named);
      }
      return None;
    }
    name := DefaultIngressClassName(classes);
    if name.Some? {
      return;
    }
    if |classes.Keys| == 1 {
      var only :| only in classes.Keys;
      SingletonSet(classes.Keys, only);
      return Some(only);
    }
    OnlyMeansOne(classes.Keys);
    name := None;
  }

  lemma OnlyMeansOne<T(!new)>(s: set<T>)
    ensures TheOnly(s).Some? ==> |s| == 1
  {
  }

  lemma SingletonSet<T>(s: set<T>, x: T)
    requires |s| == 1 && x in s
    ensures s == {x}
  {
    assert |s - {x}| == 0;
  }

  /** sortedSetValues */
  method SortedSetValues(values: set<string>) returns (sorted: seq<string>)
    ensures sorted == Sorting.Ordered(values, Sorting.Before)
  {
    Sorting.BeforeIsStrictOrder();
    sorted := Sorting.SortedMembers(values, Sorting.Before);
  }

  /** annotationOnlyIngressClasses */
  method AnnotationOnlyIngressClasses(ingresses: seq<Ingress>, classes: Classes) returns (names: seq<string>)
    ensures names == Sorting.Ordered(AnnotationClasses(ingresses, classes), Sorting.Before)
  {
    var seen := {};
    for i := 0 to |ingresses|
      invariant seen == Collect(ingresses[..i], AnnotationOnly(classes))
    {
      CollectStep(ingresses, AnnotationOnly(classes), i);
      if UsesAnnotation(ingresses[i]) && ingresses[i].classAnnotation !in classes {
        seen := seen + {ingresses[i].classAnnotation};
      }
    }
    WholePrefix(ingresses);
    names := SortedSetValues(seen);
  }

  // ---- status addresses ----

  function ServicesAt(index: map<string, seq<Service>>, address: string): seq<Service> {
    if address in index then index[address] else []
  }

  ghost predicate IndexesAddresses(index: map<string, seq<Service>>, services: seq<Service>) {
    forall a, s :: s in ServicesAt(index, a) <==> s in services && s.Exposed() && a in ServiceAddresses(s)
  }

  /** servicesByLoadBalancerAddress */
  method ServicesByLoadBalancerAddress(services: seq<Service>) returns (index: map<string, seq<Service>>)
    ensures IndexesAddresses(index, services)
  {
    index := map[];
    for i := 0 to |services|
      invariant IndexesAddresses(index, services[..i])
    {
      var s := services[i];
      Extend(services, i);
      if s.Exposed() {
        index := IndexService(index, s);
      }
    }
    WholePrefix(services);
  }

  /** The Service is added at each of its addresses. */
  method IndexService(before: map<string, seq<Service>>, s: Service) returns (index: map<string, seq<Service>>)
    ensures forall a, t :: t in ServicesAt(index, a) <==> t in ServicesAt(before, a) || (t == s && a in ServiceAddresses(s))
  {
    index := before;
    var addresses := ServiceAddresses(s);
    for j := 0 to |addresses|
      invariant forall a, t :: t in ServicesAt(index, a) <==> t in ServicesAt(before, a) || (t == s && a in addresses[..j])
    {
      Extend(addresses, j);
      index := index[addresses[j] := ServicesAt(index, addresses[j]) + [s]];
    }
    WholePrefix(addresses);
  }

  method AddCandidates(before: map<Key, Service>, here: seq<Service>, ghost services: seq<Service>)
    returns (candidates: map<Key, Service>)
    requires UniqueServices(services) && forall s :: s in here ==> s in services
    requires forall k :: k in before ==> before[k].key == k && before[k] in services
    ensures forall k :: k in candidates ==> candidates[k].key == k && candidates[k] in services
    ensures forall s :: s in services ==>
              (Lookup(candidates, s.key) == Some(s) <==> Lookup(before, s.key) == Some(s) || s in here)
  {
    candidates := before;
    for j := 0 to |here|
      invariant forall k :: k in candidates ==> candidates[k].key == k && candidates[k] in services
      invariant forall s :: s in services ==>
                  (Lookup(candidates, s.key) == Some(s) <==> Lookup(before, s.key) == Some(s) || s in here[..j])
    {
      Extend(here, j);
      assert here[j] in services;
      candidates := candidates[here[j].key := here[j]];
    }
    WholePrefix(here);
  }

  /** The candidates keyed by Service, as the source collects them. */
  method CandidateServices(ingress: Ingress, index: map<string, seq<Service>>, ghost services: seq<Service>)
    returns (candidates: map<Key, Service>)
    requires UniqueServices(services) && IndexesAddresses(index, services)
    ensures forall k :: k in candidates ==> candidates[k].key == k
    ensures candidates.Values == StatusCandidates(ingress, services)
  {
    candidates := map[];
    var addresses := IngressAddresses(ingress);
    for i := 0 to |addresses|
      invariant forall k :: k in candidates ==> candidates[k].key == k && candidates[k] in services
      invariant forall s :: s in services ==>
                  (Lookup(candidates, s.key) == Some(s) <==> s.Exposed() && exists a :: a in addresses[..i] && a in ServiceAddresses(s))
    {
      Extend(addresses, i);
      candidates := AddCandidates(candidates, ServicesAt(index, addresses[i]), services);
    }
    WholePrefix(addresses);
    forall s ensures s in candidates.Values <==> s in StatusCandidates(ingress, services) {
      if s in candidates.Values {
        assert Lookup(candidates, s.key) == Some(s);
      }
      if s in StatusCandidates(ingress, services) {
        assert Lookup(candidates, s.key) == Some(s);
      }
    }
  }

  /** The only candidate that looks like an ingress controller. */
  method OnlyControllerLike(candidates: map<Key, Service>) returns (service: Option<Service>)
    requires forall k :: k in candidates ==> candidates[k].key == k
    ensures service == TheOnly(set s | s in candidates.Values && LooksLikeController(s))
  {
    service := None;
    var remaining := candidates.Keys;
    ghost var likely := set s | s in candidates.Values && LooksLikeController(s);
    while remaining != {}
      invariant remaining <= candidates.Keys
      invariant service.Some? ==> service.value in likely && service.value.key !in remaining
      invariant forall s :: s in likely && s.key !in remaining ==> service == Some(s)
      decreases remaining
    {
      var k :| k in remaining;
      remaining := remaining - {k};
      if LooksLikeController(candidates[k]) {
        assert candidates[k] in likely;
        if service.Some? {
          assert service.value != candidates[k];
          return None;
        }
        service := Some(candidates[k]);
      }
    }
    if service.Some? {
      assert likely == {service.value};
    } else {
      assert likely == {};
    }
  }

  lemma CandidateCount(candidates: map<Key, Service>)
    requires forall k :: k in candidates ==> candidates[k].key == k
    ensures |candidates| == 1 <==> TheOnly(candidates.Values).Some?
    ensures forall k :: k in candidates && |candidates| == 1 ==> TheOnly(candidates.Values) == Some(candidates[k])
  {
    if |candidates| == 1 {
      var k :| k in candidates;
      SingletonSet(candidates.Keys, k);
      assert candidates.Values == {candidates[k]};
    }
    if TheOnly(candidates.Values).Some? {
      var s := TheOnly(candidates.Values).value;
      assert s in candidates.Values;
      forall k | k in candidates ensures k == s.key {
        assert candidates[k] in candidates.Values;
      }
      assert candidates.Keys == {s.key};
      assert |candidates.Keys| == 1;
    }
  }

  /** ingressStatusControllerService */
  method IngressStatusControllerService(ingress: Ingress, index: map<string, seq<Service>>, ghost services: seq<Service>)
    returns (service: Option<Service>)
    requires UniqueServices(services) && IndexesAddresses(index, services)
    ensures service == StatusService(ingress, services)
  {
    var candidates := CandidateServices(ingress, index, services);
    CandidateCount(candidates);
    if |candidates| == 1 {
      var k :| k in candidates;
      return Some(candidates[k]);
    }
    service := OnlyControllerLike(candidates);
  }
}
