/** What it takes for a Service to match an ingress class: the threshold of 6 in
    terms of the evidence, not of the points. */
module ControllerScores {
  import opened Collections
  import opened Kube
  import opened ControllerModel
  import Text

  predicate SameName(service: Service, className: string) {
    Text.Lower(className) != "" && Text.Lower(service.key.name) == Text.Lower(className)
  }

  predicate NameMentioned(service: Service, pods: seq<Pod>, className: string) {
    Text.Lower(className) != "" && Mentions(IdentityTerms(service, pods), Text.Lower(className))
  }

  /** Words of the controller name, apart from the class name, that the Service
      mentions. */
  function MentionedTokens(service: Service, pods: seq<Pod>, className: string, controller: string): set<string> {
    set t | t in IdentityTokens(controller) && !Text.Contains(Text.Lower(className), t) && Mentions(IdentityTerms(service, pods), t)
  }

  predicate HasComponentLabel(service: Service) {
    "app.kubernetes.io/component" in service.labels && Text.EqualFold(service.labels["app.kubernetes.io/component"], "controller")
  }

  predicate IsSupported(service: Service, pods: seq<Pod>) {
    || Mentions(IdentityTerms(service, pods), "ingress") || Mentions(IdentityTerms(service, pods), "controller")
    || HasComponentLabel(service)
  }

  /** A Service named like the class always reaches the threshold. */
  lemma SameNameMatches(service: Service, pods: seq<Pod>, className: string, controller: string)
    requires SameName(service, className)
    ensures Score(service, pods, className, controller) >= 6
  {
  }

  /** Without its name or a word of its controller, a class never scores, however
      much the Service looks like a controller. */
  lemma NothingWithoutEvidence(service: Service, pods: seq<Pod>, className: string, controller: string)
    ensures Score(service, pods, className, controller) == 0 <==>
              && !SameName(service, className) && !NameMentioned(service, pods, className)
              && MentionedTokens(service, pods, className, controller) == {}
  {
  }

  /** A class that is only mentioned needs support: another word of its controller
      or a sign that the Service is a controller. */
  lemma MentionNeedsSupport(service: Service, pods: seq<Pod>, className: string, controller: string)
    requires NameMentioned(service, pods, className) && !SameName(service, className)
    ensures Score(service, pods, className, controller) >= 6 <==>
              MentionedTokens(service, pods, className, controller) != {} || IsSupported(service, pods)
  {
    var tokens := MentionedTokens(service, pods, className, controller);
    assert tokens != {} ==> |tokens| >= 1;
  }

  ghost predicate HasEvidence(service: Service, pods: seq<Pod>, className: string, controller: string) {
    || SameName(service, className) || NameMentioned(service, pods, className)
    || MentionedTokens(service, pods, className, controller) != {}
  }

  /** When a Service speaks of one class alone and mentions it by name, that class
      is matched exactly when the name is the Service's own, or another word of
      the controller or a sign of a controller supports it. */
  lemma SoleMentionDecides(service: Service, pods: seq<Pod>, classes: Classes, name: string)
    requires service.Exposed() && name in classes && (SameName(service, name) || NameMentioned(service, pods, name))
    requires forall other :: other in classes && other != name ==> !HasEvidence(service, pods, other, classes[other].controller)
    ensures MatchingClass(service, pods, classes) == Some(name) <==>
              || SameName(service, name)
              || MentionedTokens(service, pods, name, classes[name].controller) != {}
              || IsSupported(service, pods)
  {
    var controller := classes[name].controller;
    if SameName(service, name) {
      SameNameMatches(service, pods, name, controller);
    } else {
      MentionNeedsSupport(service, pods, name, controller);
    }
    forall other | other in classes && other != name ensures ClassScore(service, pods, classes, other) == 0 {
      NothingWithoutEvidence(service, pods, other, classes[other].controller);
    }
    var best := set n | n in classes && BestClass(service, pods, classes, n);
    if ClassScore(service, pods, classes, name) >= 6 {
      assert best == {name};
    } else {
      assert name !in best;
    }
  }

  /** The matched class has evidence of its own and no other class scores as much. */
  lemma MatchHasEvidence(service: Service, pods: seq<Pod>, classes: Classes, name: string)
    requires MatchingClass(service, pods, classes) == Some(name)
    ensures name in classes && ClassScore(service, pods, classes, name) >= 6
    ensures HasEvidence(service, pods, name, classes[name].controller)
    ensures forall other :: other in classes && other != name ==>
              ClassScore(service, pods, classes, other) < ClassScore(service, pods, classes, name)
  {
    var best := set n | n in classes && BestClass(service, pods, classes, n);
    assert name in best && best == {name};
    NothingWithoutEvidence(service, pods, name, classes[name].controller);
    forall other | other in classes && other != name
      ensures ClassScore(service, pods, classes, other) < ClassScore(service, pods, classes, name)
    {
      assert other !in best;
    }
  }
}
