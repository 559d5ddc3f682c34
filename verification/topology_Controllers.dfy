/** Which controller an Ingress or an exposed Service belongs to
    (builder_controllers.go). */
module ControllerModel {
  import opened Collections
  import opened Kube
  import Sorting
  import Text

  type Classes = map<string, IngressClass>

  // ---- scoring a Service against a class ----

  function LabelTerms(labels: Labels): set<string> {
    labels.Keys + labels.Values
  }

  function PodTerms(pod: Pod): set<string> {
    {pod.key.namespace, pod.key.name} + LabelTerms(pod.labels)
  }

  function KindText(kind: ServiceType): string {
    match kind
    case ClusterIP => "ClusterIP"
    case NodePort => "NodePort"
    case LoadBalancer => "LoadBalancer"
    case ExternalName => "ExternalName"
  }

  /** The words that describe a Service; the source joins them with spaces and
      searches the text, which is the same for parts without spaces. */
  function IdentityTerms(service: Service, pods: seq<Pod>): set<string> {
    {service.key.namespace, service.key.name, KindText(service.kind)}
    + LabelTerms(service.labels) + LabelTerms(service.annotations) + Collect(pods, PodTerms)
  }

  predicate Mentions(terms: set<string>, part: string) {
    exists t | t in terms :: Text.Contains(Text.Lower(t), part)
  }

  predicate Letter(c: char) { 'a' <= c <= 'z' }

  /** strings.FieldsFunc on anything that is not a lower-case letter. */
  function Words(s: string, word: string): set<string> {
    if s == "" then {word}
    else if Letter(s[0]) then Words(s[1..], word + [s[0]])
    else {word} + Words(s[1..], "")
  }

  function IdentityTokens(controller: string): set<string> {
    set w | w in Words(Text.Lower(controller), "") &&
            |w| >= 4 && w !in {"kubernetes", "ingress", "controller"}
  }

  function Score(service: Service, pods: seq<Pod>, className: string, controller: string): nat {
    var lowered := Text.Lower(className);
    var terms := IdentityTerms(service, pods);
    var byName :=
      if lowered != "" && Text.Lower(service.key.name) == lowered then 6
      else if lowered != "" && Mentions(terms, lowered) then 4
      else 0;
    var tokens := set t | t in IdentityTokens(controller) && !Text.Contains(lowered, t) && Mentions(terms, t);
    if byName == 0 && tokens == {} then 0
    else
      byName + 2 * |tokens|
      + (if Mentions(terms, "ingress") then 2 else 0)
      + (if Mentions(terms, "controller") then 2 else 0)
      + (if "app.kubernetes.io/component" in service.labels &&
            Text.EqualFold(service.labels["app.kubernetes.io/component"], "controller") then 4 else 0)
  }

  function ClassScore(service: Service, pods: seq<Pod>, classes: Classes, name: string): nat
    requires name in classes
  {
    Score(service, pods, name, classes[name].controller)
  }

  predicate BestClass(service: Service, pods: seq<Pod>, classes: Classes, name: string) {
    && name in classes
    && ClassScore(service, pods, classes, name) >= 6
    && forall other | other in classes ::
         ClassScore(service, pods, classes, other) <= ClassScore(service, pods, classes, name)
  }

  /** matchingIngressClassName: the only class with the best score, when that
      score reaches 6. */
  ghost function MatchingClass(service: Service, pods: seq<Pod>, classes: Classes): Option<string> {
    if !service.Exposed() then None
    else TheOnly(set name | name in classes && BestClass(service, pods, classes, name))
  }

  // ---- the class an Ingress names ----

  predicate IsDefaultClass(c: IngressClass) { Text.EqualFold(c.defaultAnnotation, "true") }

  ghost function DefaultClass(classes: Classes): Option<string> {
    TheOnly(set name | name in classes && IsDefaultClass(classes[name]))
  }

  predicate UsesAnnotation(ingress: Ingress) {
    ingress.className.None? && ingress.classAnnotation != ""
  }

  function NamedClass(ingress: Ingress): string {
    if ingress.className.Some? then ingress.className.value else ingress.classAnnotation
  }

  /** ingressControllerClassName */
  ghost function ControllerClass(ingress: Ingress, classes: Classes): Option<string> {
    if NamedClass(ingress) != "" then
      if NamedClass(ingress) in classes || UsesAnnotation(ingress) then Some(NamedClass(ingress)) else None
    else if DefaultClass(classes).Some? then DefaultClass(classes)
    else TheOnly(classes.Keys)
  }

  function AnnotationOnly(classes: Classes): Ingress -> set<string> {
    (ingress: Ingress) =>
      if UsesAnnotation(ingress) && ingress.classAnnotation !in classes then {ingress.classAnnotation} else {}
  }

  function AnnotationClasses(ingresses: seq<Ingress>, classes: Classes): set<string> {
    Collect(ingresses, AnnotationOnly(classes))
  }

  /** Controller inference also considers classes known only by annotation. */
  function InferenceClasses(ingresses: seq<Ingress>, classes: Classes): Classes {
    var extra := AnnotationClasses(ingresses, classes);
    classes + map name | name in extra :: IngressClass(name, "", "")
  }

  // ---- the Service behind an Ingress status address ----

  function AddressTexts(a: Address): seq<string> {
    (if a.ip != "" then [a.ip] else []) + (if a.hostname != "" then [a.hostname] else [])
  }

  function ServiceAddresses(service: Service): seq<string> {
    FlatMap(service.status, AddressTexts) + service.externalIPs
  }

  /** ingressLoadBalancerAddresses */
  function IngressAddresses(ingress: Ingress): seq<string> {
    Sorting.SortStrings(FlatMap(ingress.status, AddressTexts))
  }

  predicate SharesAddress(ingress: Ingress, service: Service) {
    exists a :: a in IngressAddresses(ingress) && a in ServiceAddresses(service)
  }

  function ControllerTokens(): set<string> {
    {"ingress", "controller", "traefik", "nginx", "haproxy", "contour", "envoy", "kong", "istio", "gateway"}
  }

  predicate LooksLikeController(service: Service) {
    exists token | token in ControllerTokens() :: Mentions({service.key.name} + LabelTerms(service.labels), token)
  }

  ghost function StatusCandidates(ingress: Ingress, services: seq<Service>): set<Service> {
    set s | s in services && s.Exposed() && SharesAddress(ingress, s)
  }

  /** ingressStatusControllerService: the only candidate, or the only one that
      looks like an ingress controller. */
  ghost function StatusService(ingress: Ingress, services: seq<Service>): Option<Service> {
    var candidates := StatusCandidates(ingress, services);
    if TheOnly(candidates).Some? then TheOnly(candidates)
    else TheOnly(set s | s in candidates && LooksLikeController(s))
  }
}
