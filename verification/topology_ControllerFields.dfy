/** Controllers told by the fields of classes, Ingresses and Services: which class an
    Ingress has, which Service stands behind its status address, and which class a
    Service matches. */
module ControllerFields {
  import opened Collections
  import opened Kube
  import opened NodeIDs
  import opened ControllerModel
  import opened ControllerScores
  import opened Builder
  import Sorting
  import Text

  // ---- the class of an Ingress ----

  /** The class field names the class, or without it the legacy annotation does. */
  predicate NamesClass(i: Ingress, name: string) {
    name != "" && (i.className == Some(name) || (i.className.None? && i.classAnnotation == name))
  }

  predicate NamesNone(i: Ingress) {
    i.className == Some("") || (i.className.None? && i.classAnnotation == "")
  }

  ghost predicate ClassListed(c: Cluster, name: string) {
    exists cls :: cls in c.classes && cls.name == name
  }

  predicate Marked(cls: IngressClass, name: string) {
    cls.name == name && Text.EqualFold(cls.defaultAnnotation, "true")
  }

  /** The class is the only one marked as default. */
  ghost predicate OnlyDefault(c: Cluster, name: string) {
    && (exists cls :: cls in c.classes && Marked(cls, name))
    && forall cls :: cls in c.classes && Marked(cls, cls.name) ==> cls.name == name
  }

  /** The class is the only one there is. */
  ghost predicate OnlyClass(c: Cluster, name: string) {
    ClassListed(c, name) && forall cls :: cls in c.classes ==> cls.name == name
  }

  /** Ingress class names are unique. */
  ghost predicate UniqueClasses(c: Cluster) {
    forall a, b :: a in c.classes && b in c.classes && a.name == b.name ==> a == b
  }

  ghost predicate HasClass(c: Cluster, i: Ingress, name: string) {
    || (NamesClass(i, name) && (ClassListed(c, name) || i.className.None?))
    || (NamesNone(i) && (OnlyDefault(c, name) || ((forall n :: !OnlyDefault(c, n)) && OnlyClass(c, name))))
  }

  lemma ListedClasses(c: Cluster, name: string)
    ensures name in ClassesByName(c) <==> ClassListed(c, name)
  {
    IndexMember(c.classes, ClassName);
    if name in ClassesByName(c) {
      assert ClassesByName(c)[name].name == name;
    }
  }

  lemma TheOnlyExactly<T(!new)>(s: set<T>, x: T)
    ensures TheOnly(s) == Some(x) <==> x in s && forall y :: y in s ==> y == x
  {
    if x in s && forall y :: y in s ==> y == x {
      assert s == {x};
    }
  }

  lemma DefaultExactly(c: Cluster, name: string)
    requires UniqueClasses(c)
    ensures DefaultClass(ClassesByName(c)) == Some(name) <==> OnlyDefault(c, name)
  {
    var classes := ClassesByName(c);
    IndexMember(c.classes, ClassName);
    var marked := set n | n in classes && IsDefaultClass(classes[n]);
    TheOnlyExactly(marked, name);
    forall n ensures n in marked <==> exists cls :: cls in c.classes && Marked(cls, n) {
      if cls :| cls in c.classes && Marked(cls, n) {
        assert classes[n] == cls;
      }
    }
    forall cls | cls in c.classes && Marked(cls, cls.name) ensures cls.name in marked {
    }
    forall n | n in marked ensures Marked(classes[n], classes[n].name) && classes[n].name == n {
    }
  }

  lemma NoDefault(c: Cluster)
    requires UniqueClasses(c)
    ensures DefaultClass(ClassesByName(c)).None? <==> forall n :: !OnlyDefault(c, n)
  {
    forall n ensures DefaultClass(ClassesByName(c)) == Some(n) <==> OnlyDefault(c, n) {
      DefaultExactly(c, n);
    }
  }

  lemma OnlyExactly(c: Cluster, name: string)
    ensures TheOnly(ClassesByName(c).Keys) == Some(name) <==> OnlyClass(c, name)
  {
    TheOnlyExactly(ClassesByName(c).Keys, name);
    forall n ensures n in ClassesByName(c).Keys <==> ClassListed(c, n) {
      ListedClasses(c, n);
    }
    forall cls | cls in c.classes ensures ClassListed(c, cls.name) {
    }
  }

  /** The class of an Ingress: the one it names, which must exist unless only the
      annotation names it; without a name the only default, else the only class. */
  lemma ClassExactly(c: Cluster, i: Ingress, name: string)
    requires UniqueClasses(c)
    ensures ControllerClass(i, ClassesByName(c)) == Some(name) <==> HasClass(c, i, name)
  {
    ListedClasses(c, name);
    DefaultExactly(c, name);
    NoDefault(c);
    OnlyExactly(c, name);
    if NamesNone(i) {
      assert NamedClass(i) == "";
    } else {
      ListedClasses(c, NamedClass(i));
    }
  }

  // ---- the Service behind a status address ----

  predicate ReadsAddress(a: Address, x: string) { x != "" && (x == a.ip || x == a.hostname) }

  ghost predicate IngressAt(i: Ingress, x: string) {
    exists a: Address :: a in i.status && ReadsAddress(a, x)
  }

  ghost predicate ServiceAt(s: Service, x: string) {
    x in s.externalIPs || exists a: Address :: a in s.status && ReadsAddress(a, x)
  }

  /** A NodePort or LoadBalancer Service with an address of the Ingress. */
  ghost predicate FrontsIngress(i: Ingress, s: Service) {
    (s.kind == NodePort || s.kind == LoadBalancer) && exists x :: IngressAt(i, x) && ServiceAt(s, x)
  }

  lemma TextsRead(a: Address, x: string)
    ensures x in AddressTexts(a) <==> ReadsAddress(a, x)
  {
  }

  lemma StatusReads(status: seq<Address>, x: string)
    ensures x in FlatMap(status, AddressTexts) <==> exists a: Address :: a in status && ReadsAddress(a, x)
  {
    FlatMapMember(status, AddressTexts);
    forall a: Address ensures x in AddressTexts(a) <==> ReadsAddress(a, x) {
      TextsRead(a, x);
    }
  }

  lemma IngressAtExactly(i: Ingress, x: string)
    ensures x in IngressAddresses(i) <==> IngressAt(i, x)
  {
    StatusReads(i.status, x);
    var texts := FlatMap(i.status, AddressTexts);
    Sorting.SameMembers(Sorting.SortStrings(texts), texts);
  }

  lemma ServiceAtExactly(s: Service, x: string)
    ensures x in ServiceAddresses(s) <==> ServiceAt(s, x)
  {
    StatusReads(s.status, x);
  }

  lemma FrontsExactly(i: Ingress, s: Service)
    ensures s.Exposed() && SharesAddress(i, s) <==> FrontsIngress(i, s)
  {
    forall x ensures x in IngressAddresses(i) <==> IngressAt(i, x) {
      IngressAtExactly(i, x);
    }
    forall x ensures x in ServiceAddresses(s) <==> ServiceAt(s, x) {
      ServiceAtExactly(s, x);
    }
  }

  /** The Service is the only one with an address of the Ingress, or the only one of
      them that looks like a controller. */
  ghost predicate StandsBehind(i: Ingress, services: seq<Service>, s: Service) {
    && s in services && FrontsIngress(i, s)
    && ((forall t :: t in services && FrontsIngress(i, t) ==> t == s)
        || (LooksLikeController(s) && forall t :: t in services && FrontsIngress(i, t) && LooksLikeController(t) ==> t == s))
  }

  lemma CandidatesExactly(i: Ingress, services: seq<Service>, s: Service)
    ensures s in StatusCandidates(i, services) <==> s in services && FrontsIngress(i, s)
  {
    FrontsExactly(i, s);
  }

  lemma OneOrLooking(candidates: set<Service>, looking: set<Service>, s: Service)
    requires looking == set t | t in candidates && LooksLikeController(t)
    ensures (if TheOnly(candidates).Some? then TheOnly(candidates) else TheOnly(looking)) == Some(s) <==>
              && s in candidates
              && ((forall t :: t in candidates ==> t == s)
                  || (LooksLikeController(s) && forall t :: t in candidates && LooksLikeController(t) ==> t == s))
  {
    var only := TheOnly(candidates);
    TheOnlyExactly(candidates, s);
    TheOnlyExactly(looking, s);
    if only.Some? {
      assert candidates == {only.value};
    } else {
      assert (s in looking && forall y :: y in looking ==> y == s) <==>
        s in candidates && LooksLikeController(s) && forall t :: t in candidates && LooksLikeController(t) ==> t == s by {
        assert forall t :: t in looking <==> t in candidates && LooksLikeController(t);
      }
    }
  }

  lemma StatusExactly(i: Ingress, services: seq<Service>, s: Service)
    ensures StatusService(i, services) == Some(s) <==> StandsBehind(i, services, s)
  {
    var candidates := StatusCandidates(i, services);
    forall t ensures t in candidates <==> t in services && FrontsIngress(i, t) {
      CandidatesExactly(i, services, t);
    }
    var looking := set t | t in candidates && LooksLikeController(t);
    OneOrLooking(candidates, looking, s);
  }

  /** A word of the name or of a label that controllers use. */
  ghost predicate ControllerWord(s: Service, term: string) {
    && (term == s.key.name || term in s.labels.Keys || term in s.labels.Values)
    && exists token :: token in ["ingress", "controller", "traefik", "nginx", "haproxy", "contour", "envoy", "kong", "istio", "gateway"]
                       && Text.Contains(Text.Lower(term), token)
  }

  lemma LooksExactly(s: Service)
    ensures LooksLikeController(s) <==> exists term :: ControllerWord(s, term)
  {
    var tokens := ["ingress", "controller", "traefik", "nginx", "haproxy", "contour", "envoy", "kong", "istio", "gateway"];
    assert forall token :: token in ControllerTokens() <==> token in tokens;
    assert forall term :: term in {s.key.name} + LabelTerms(s.labels) <==>
        term == s.key.name || term in s.labels.Keys || term in s.labels.Values;
    if token :| token in ControllerTokens() && Mentions({s.key.name} + LabelTerms(s.labels), token) {
      var term :| term in {s.key.name} + LabelTerms(s.labels) && Text.Contains(Text.Lower(term), token);
      assert ControllerWord(s, term);
    }
    if term :| ControllerWord(s, term) {
      var token :| token in tokens && Text.Contains(Text.Lower(term), token);
      assert Mentions({s.key.name} + LabelTerms(s.labels), token);
    }
  }

  // ---- the controller of an Ingress ----

  /** The Service that stands behind the Ingress's address decides, when no class
      does: by the class it matches, else by itself. */
  ghost predicate StatusGives(c: Cluster, i: Ingress, id: NodeID) {
    && (forall n :: !HasClass(c, i, n))
    && exists s :: StandsBehind(i, c.services, s) && id == ServiceGives(c, s)
  }

  ghost function ServiceGives(c: Cluster, s: Service): NodeID {
    match ServiceClass(c, s)
    case Some(name) => ClassControllerID(name)
    case None => StatusControllerID(s.key)
  }

  lemma StatusGivesExactly(c: Cluster, i: Ingress, id: NodeID)
    requires ControllerClass(i, ClassesByName(c)).None? && forall n :: !HasClass(c, i, n)
    ensures StatusController(c, i) == Some(id) <==> StatusGives(c, i, id)
  {
    var behind := StatusService(i, c.services);
    StatusIs(c, i, behind);
    forall s ensures behind == Some(s) <==> StandsBehind(i, c.services, s) {
      StatusExactly(i, c.services, s);
    }
  }

  lemma StatusIs(c: Cluster, i: Ingress, behind: Option<Service>)
    requires ControllerClass(i, ClassesByName(c)).None? && behind == StatusService(i, c.services)
    ensures StatusController(c, i) == if behind.Some? then Some(ServiceGives(c, behind.value)) else None
  {
  }

  /** The controller of an Ingress: its class, or what its status address gives. */
  lemma ControllerExactly(c: Cluster, i: Ingress, id: NodeID)
    requires UniqueClasses(c)
    ensures ControllerOf(c, i) == Some(id) <==>
              (exists n :: HasClass(c, i, n) && id == ClassControllerID(n)) || StatusGives(c, i, id)
  {
    var named := ControllerClass(i, ClassesByName(c));
    forall n ensures named == Some(n) <==> HasClass(c, i, n) {
      ClassExactly(c, i, n);
    }
    if named.None? {
      StatusGivesExactly(c, i, id);
    }
  }

  // ---- the words of a controller's name ----

  predicate AllLetters(s: string) { forall c :: c in s ==> 'a' <= c <= 'z' }

  predicate LetterAt(s: string, k: int) { 0 <= k < |s| && 'a' <= s[k] <= 'z' }

  /** The word is a run of lower-case letters that no letter extends. */
  predicate RunAt(s: string, w: string, k: nat) {
    && w != "" && AllLetters(w) && k + |w| <= |s| && s[k..k + |w|] == w
    && !LetterAt(s, k - 1) && !LetterAt(s, k + |w|)
  }

  ghost predicate IsWord(s: string, w: string) { exists k: nat :: RunAt(s, w, k) }

  lemma LettersInRun(s: string, w: string, k: nat, j: nat)
    requires RunAt(s, w, k) && k <= j < k + |w|
    ensures LetterAt(s, j)
  {
    assert s[j] == s[k..k + |w|][j - k] && s[j] in w;
  }

  /** Runs behind a break are the runs of the rest. */
  lemma RunBehind(u: string, v: string, w: string, k: nat)
    requires u != "" && !LetterAt(u, |u| - 1)
    ensures RunAt(v, w, k) <==> RunAt(u + v, w, |u| + k)
  {
    var t := u + v;
    assert k + |w| <= |v| ==> t[|u| + k..|u| + k + |w|] == v[k..k + |w|];
    assert LetterAt(v, k + |w|) <==> LetterAt(t, |u| + k + |w|);
    assert LetterAt(v, k - 1) <==> LetterAt(t, |u| + k - 1);
  }

  lemma RunBeforeBreak(prefix: string, rest: string, w: string, k: nat)
    requires AllLetters(prefix) && !LetterAt(prefix + rest, |prefix|) && k <= |prefix| && RunAt(prefix + rest, w, k)
    ensures w == prefix
  {
    var t, n := prefix + rest, |prefix|;
    if k + |w| > n {
      LettersInRun(t, w, k, n);
    } else if k > 0 {
      LettersOf(prefix, rest, k - 1);
    } else if |w| < n {
      LettersOf(prefix, rest, |w|);
    } else {
      assert t[..n] == prefix;
    }
  }

  lemma LettersOf(prefix: string, rest: string, j: nat)
    requires AllLetters(prefix) && j < |prefix|
    ensures LetterAt(prefix + rest, j)
  {
    assert (prefix + rest)[j] == prefix[j] && prefix[j] in prefix;
  }

  lemma PrefixRun(prefix: string, rest: string)
    requires AllLetters(prefix) && !LetterAt(prefix + rest, |prefix|) && prefix != ""
    ensures RunAt(prefix + rest, prefix, 0)
  {
    assert (prefix + rest)[0..|prefix|] == prefix;
  }

  /** A prefix of letters, then something else. */
  lemma WordAfterBreak(prefix: string, s: string, w: string)
    requires AllLetters(prefix) && s != "" && !Letter(s[0]) && w != ""
    ensures IsWord(prefix + s, w) <==> w == prefix || IsWord(s[1..], w)
  {
    var t, u := prefix + s, prefix + [s[0]];
    assert t == u + s[1..] && t[|prefix|] == s[0] && u[|u| - 1] == s[0];
    if k: nat :| RunAt(t, w, k) {
      if k <= |prefix| {
        RunBeforeBreak(prefix, s, w, k);
      } else {
        RunBehind(u, s[1..], w, k - |u|);
      }
    }
    if w == prefix {
      PrefixRun(prefix, s);
    }
    if k: nat :| RunAt(s[1..], w, k) {
      RunBehind(u, s[1..], w, k);
    }
  }

  lemma {:induction false} WordsExactly(s: string, prefix: string, w: string)
    requires AllLetters(prefix) && w != ""
    ensures w in Words(s, prefix) <==> IsWord(prefix + s, w)
  {
    if s == "" {
      assert prefix + s == prefix;
      if k: nat :| RunAt(prefix, w, k) {
        WholeRun(prefix, w, k);
      }
      if w == prefix {
        assert prefix[0..|prefix|] == prefix;
        assert RunAt(prefix, w, 0);
      }
    } else if Letter(s[0]) {
      WordsExactly(s[1..], prefix + [s[0]], w);
      assert prefix + [s[0]] + s[1..] == prefix + s;
    } else {
      WordsExactly(s[1..], "", w);
      assert "" + s[1..] == s[1..];
      WordAfterBreak(prefix, s, w);
    }
  }

  lemma WholeRun(prefix: string, w: string, k: nat)
    requires AllLetters(prefix) && RunAt(prefix, w, k)
    ensures w == prefix
  {
    assert prefix + "" == prefix;
    RunBeforeBreak(prefix, "", w, k);
  }

  /** A word that tells controllers apart: at least four letters, and none of the
      three that all of them use. */
  ghost predicate TellingWord(controller: string, w: string) {
    |w| >= 4 && w != "kubernetes" && w != "ingress" && w != "controller" && IsWord(Text.Lower(controller), w)
  }

  lemma TellingExactly(controller: string, w: string)
    ensures w in IdentityTokens(controller) <==> TellingWord(controller, w)
  {
    if w != "" {
      WordsExactly(Text.Lower(controller), "", w);
      assert "" + Text.Lower(controller) == Text.Lower(controller);
    }
  }

  // ---- what a Service says ----

  predicate LabelSays(labels: Labels, term: string) { term in labels.Keys || term in labels.Values }

  /** A term of the Service: its names, type, labels and annotations, and the names
      and labels of its Pods. */
  ghost predicate Says(s: Service, pods: seq<Pod>, term: string) {
    || term in [s.key.namespace, s.key.name, KindText(s.kind)]
    || LabelSays(s.labels, term) || LabelSays(s.annotations, term)
    || exists p: Pod :: p in pods && (term == p.key.namespace || term == p.key.name || LabelSays(p.labels, term))
  }

  /** Some term contains the text, whatever its case. */
  ghost predicate SaysPart(s: Service, pods: seq<Pod>, part: string) {
    exists term :: Says(s, pods, term) && Text.Contains(Text.Lower(term), part)
  }

  lemma PodSays(p: Pod, term: string)
    ensures term in PodTerms(p) <==> term == p.key.namespace || term == p.key.name || LabelSays(p.labels, term)
  {
  }

  lemma TermsExactly(s: Service, pods: seq<Pod>, term: string)
    ensures term in IdentityTerms(s, pods) <==> Says(s, pods, term)
  {
    CollectMember(pods, PodTerms);
    forall p: Pod ensures term in PodTerms(p) <==> term == p.key.namespace || term == p.key.name || LabelSays(p.labels, term) {
      PodSays(p, term);
    }
  }

  lemma SaysExactly(s: Service, pods: seq<Pod>, part: string)
    ensures Mentions(IdentityTerms(s, pods), part) <==> SaysPart(s, pods, part)
  {
    forall term ensures term in IdentityTerms(s, pods) <==> Says(s, pods, term) {
      TermsExactly(s, pods, term);
    }
  }

  // ---- the class a Service matches ----

  /** The Service mentions a telling word of the controller that is not part of the
      class name anyway. */
  ghost predicate Tells(s: Service, pods: seq<Pod>, name: string, controller: string, w: string) {
    TellingWord(controller, w) && !Text.Contains(Text.Lower(name), w) && SaysPart(s, pods, w)
  }

  lemma TellsExactly(s: Service, pods: seq<Pod>, name: string, controller: string, w: string)
    ensures w in MentionedTokens(s, pods, name, controller) <==> Tells(s, pods, name, controller, w)
  {
    TellingExactly(controller, w);
    SaysExactly(s, pods, w);
  }

  /** The set of those words. */
  ghost predicate TellingWords(s: Service, pods: seq<Pod>, name: string, controller: string, words: set<string>) {
    forall w :: w in words <==> Tells(s, pods, name, controller, w)
  }

  predicate OwnName(s: Service, name: string) { name != "" && Text.EqualFold(s.key.name, name) }

  ghost predicate Mentioned(s: Service, pods: seq<Pod>, name: string) { name != "" && SaysPart(s, pods, Text.Lower(name)) }

  /** How strongly a Service speaks of a class: its own name is worth three telling
      words, a mention two. */
  ghost function Strength(s: Service, pods: seq<Pod>, name: string, words: set<string>): nat {
    (if OwnName(s, name) then 3 else if Mentioned(s, pods, name) then 2 else 0) + |words|
  }

  ghost function WordsFor(s: Service, pods: seq<Pod>, name: string, controller: string): (words: set<string>)
    ensures TellingWords(s, pods, name, controller, words)
  {
    var words := MentionedTokens(s, pods, name, controller);
    assert TellingWords(s, pods, name, controller, words) by {
      forall w ensures w in words <==> Tells(s, pods, name, controller, w) {
        TellsExactly(s, pods, name, controller, w);
      }
    }
    words
  }

  ghost function StrengthOf(s: Service, pods: seq<Pod>, classes: Classes, name: string): nat
    requires name in classes
  {
    Strength(s, pods, name, WordsFor(s, pods, name, classes[name].controller))
  }

  predicate SaysComponent(s: Service) {
    "app.kubernetes.io/component" in s.labels && Text.EqualFold(s.labels["app.kubernetes.io/component"], "controller")
  }

  /** Enough by itself, or together with signs of a controller: one for two, the
      component label or both words for one. */
  ghost predicate Enough(s: Service, pods: seq<Pod>, strength: nat) {
    var ingress, controller := SaysPart(s, pods, "ingress"), SaysPart(s, pods, "controller");
    || strength >= 3
    || (strength == 2 && (ingress || controller || SaysComponent(s)))
    || (strength == 1 && (SaysComponent(s) || (ingress && controller)))
  }

  ghost function Signs(s: Service, pods: seq<Pod>): nat {
    (if SaysPart(s, pods, "ingress") then 2 else 0) + (if SaysPart(s, pods, "controller") then 2 else 0)
    + (if SaysComponent(s) then 4 else 0)
  }

  lemma LowerEmpty(name: string)
    ensures Text.Lower(name) == "" <==> name == ""
  {
    assert |Text.Lower(name)| == |name|;
  }

  lemma NamesExactly(s: Service, pods: seq<Pod>, name: string)
    ensures SameName(s, name) <==> OwnName(s, name)
    ensures NameMentioned(s, pods, name) <==> Mentioned(s, pods, name)
  {
    LowerEmpty(name);
    SaysExactly(s, pods, Text.Lower(name));
  }

  lemma ScoreFrom(s: Service, pods: seq<Pod>, name: string, controller: string, words: set<string>)
    requires words == MentionedTokens(s, pods, name, controller)
    ensures Score(s, pods, name, controller) ==
              var strength := (if SameName(s, name) then 3 else if NameMentioned(s, pods, name) then 2 else 0) + |words|;
              if strength == 0 then 0
              else 2 * strength + (if Mentions(IdentityTerms(s, pods), "ingress") then 2 else 0)
                   + (if Mentions(IdentityTerms(s, pods), "controller") then 2 else 0) + (if HasComponentLabel(s) then 4 else 0)
  {
    assert |words| == 0 <==> words == {};
  }

  lemma SignsExactly(s: Service, pods: seq<Pod>)
    ensures Signs(s, pods) == (if Mentions(IdentityTerms(s, pods), "ingress") then 2 else 0)
              + (if Mentions(IdentityTerms(s, pods), "controller") then 2 else 0) + (if HasComponentLabel(s) then 4 else 0)
  {
    SaysExactly(s, pods, "ingress");
    SaysExactly(s, pods, "controller");
  }

  lemma ScoreExactly(s: Service, pods: seq<Pod>, classes: Classes, name: string)
    requires name in classes
    ensures ClassScore(s, pods, classes, name) ==
              if StrengthOf(s, pods, classes, name) == 0 then 0 else 2 * StrengthOf(s, pods, classes, name) + Signs(s, pods)
  {
    var controller := classes[name].controller;
    var words := MentionedTokens(s, pods, name, controller);
    forall w ensures w in words <==> w in WordsFor(s, pods, name, controller) {
      TellsExactly(s, pods, name, controller, w);
    }
    assert words == WordsFor(s, pods, name, controller);
    NamesExactly(s, pods, name);
    SignsExactly(s, pods);
    ScoreFrom(s, pods, name, controller, words);
  }

  lemma EnoughExactly(s: Service, pods: seq<Pod>, strength: nat)
    ensures Enough(s, pods, strength) <==> strength > 0 && 2 * strength + Signs(s, pods) >= 6
  {
  }

  /** A Service matches a class exactly when it speaks of it strongly enough and of
      every other class less strongly. */
  lemma MatchExactly(s: Service, pods: seq<Pod>, classes: Classes, name: string)
    ensures MatchingClass(s, pods, classes) == Some(name) <==>
              && (s.kind == NodePort || s.kind == LoadBalancer) && name in classes
              && Enough(s, pods, StrengthOf(s, pods, classes, name))
              && forall other :: other in classes && other != name ==>
                   StrengthOf(s, pods, classes, other) < StrengthOf(s, pods, classes, name)
  {
    forall n | n in classes
      ensures ClassScore(s, pods, classes, n) ==
                if StrengthOf(s, pods, classes, n) == 0 then 0 else 2 * StrengthOf(s, pods, classes, n) + Signs(s, pods)
    {
      ScoreExactly(s, pods, classes, n);
    }
    if name in classes {
      EnoughExactly(s, pods, StrengthOf(s, pods, classes, name));
    }
    BestExactly(s, pods, classes, name);
  }

  lemma BestExactly(s: Service, pods: seq<Pod>, classes: Classes, name: string)
    ensures MatchingClass(s, pods, classes) == Some(name) <==>
              && s.Exposed() && name in classes && ClassScore(s, pods, classes, name) >= 6
              && forall other :: other in classes && other != name ==>
                   ClassScore(s, pods, classes, other) < ClassScore(s, pods, classes, name)
  {
    var best := set n | n in classes && BestClass(s, pods, classes, n);
    TheOnlyExactly(best, name);
    if MatchingClass(s, pods, classes) == Some(name) {
      MatchHasEvidence(s, pods, classes, name);
    }
  }

  // ---- the classes to choose from, and where a Service's ports lead ----

  /** Classes that exist, and those that only an annotation names. */
  lemma InferenceExactly(c: Cluster, name: string)
    ensures name in InferenceClasses(c.ingresses, ClassesByName(c)) <==>
              ClassListed(c, name) || (name != "" && exists i :: i in c.ingresses && i.className.None? && i.classAnnotation == name)
  {
    ListedClasses(c, name);
    var f := AnnotationOnly(ClassesByName(c));
    CollectMember(c.ingresses, f);
    forall i ensures name in f(i) <==> name != "" && i.className.None? && i.classAnnotation == name && !ClassListed(c, name) {
      if i.classAnnotation != name {
      } else {
        ListedClasses(c, i.classAnnotation);
      }
    }
  }

  lemma OwnedExactly(c: Cluster, key: Key)
    requires UniqueClasses(c)
    ensures OwnedByStatus(c, key) <==> exists i :: i in c.ingresses && StatusGives(c, i, StatusControllerID(key))
  {
    forall i ensures StatusController(c, i) == Some(StatusControllerID(key)) <==> StatusGives(c, i, StatusControllerID(key)) {
      StatusControllerGives(c, i, StatusControllerID(key));
    }
  }

  lemma StatusControllerGives(c: Cluster, i: Ingress, id: NodeID)
    requires UniqueClasses(c)
    ensures StatusController(c, i) == Some(id) <==> StatusGives(c, i, id)
  {
    var named := ControllerClass(i, ClassesByName(c));
    forall n ensures named == Some(n) <==> HasClass(c, i, n) {
      ClassExactly(c, i, n);
    }
    if named.None? {
      StatusGivesExactly(c, i, id);
    } else {
      assert HasClass(c, i, named.value);
    }
  }

  /** Where the ports of an exposed Service lead: to the class it matches, else to
      itself as a controller when some Ingress's address makes it one, else to
      the Service. */
  lemma TargetExactly(c: Cluster, s: Service, id: NodeID)
    requires UniqueClasses(c)
    ensures ExposureTarget(c, s) == id <==>
              match ServiceClass(c, s)
              case Some(name) => id == ClassControllerID(name)
              case None =>
                id == if exists i :: i in c.ingresses && StatusGives(c, i, StatusControllerID(s.key))
                      then StatusControllerID(s.key) else ServiceID(s.key)
  {
    OwnedExactly(c, s.key);
  }
}
