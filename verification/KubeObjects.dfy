/** The Kubernetes values the operator builds and compares, and the semantic
    equality of apimachinery: nil and empty maps agree, and opaque third-party
    values (quantities, tolerations, affinity) agree by meaning, not by form. */
module KubeObjects {
  import opened Wrappers

  datatype Opaque = Opaque(meaning: int, form: int)

  type Labels = Option<map<string, string>>   // None is Go's nil map

  datatype EnvSource = SecretKey(secret: string, key: string) | OtherSource(source: Opaque)

  datatype EnvVar = EnvVar(name: string, value: string, valueFrom: Option<EnvSource>)

  datatype VolumeMount = VolumeMount(name: string, mountPath: string, readOnly: bool)

  datatype Port = Port(number: int, name: string)

  datatype Container = Container(
    name: string, image: string, command: seq<string>, args: seq<string>, env: seq<EnvVar>,
    resources: Opaque, mounts: seq<VolumeMount>, ports: seq<Port>, pullPolicy: string, privileged: bool)

  datatype PodSpec = PodSpec(
    imagePullSecrets: seq<string>, tolerations: seq<Opaque>, affinity: Option<Opaque>,
    containers: seq<Container>, volumes: seq<string>, restartPolicy: string)

  datatype Owner = Owner(apiVersion: string, kind: string, name: string, uid: string)

  datatype PodTemplate = PodTemplate(labels: Labels, annotations: Labels, owners: seq<Owner>, spec: PodSpec)

  function CanonLabels(l: Labels): map<string, string> {
    if l.None? then map[] else l.value
  }

  function CanonOpaque(o: Opaque): Opaque {
    o.(form := 0)
  }

  function CanonOpaques(os: seq<Opaque>): seq<Opaque> {
    seq(|os|, i requires 0 <= i < |os| => CanonOpaque(os[i]))
  }

  function CanonEnv(e: EnvVar): EnvVar {
    match e.valueFrom
    case Some(OtherSource(s)) => e.(valueFrom := Some(OtherSource(CanonOpaque(s))))
    case _ => e
  }

  function CanonContainer(c: Container): Container {
    c.(env := seq(|c.env|, i requires 0 <= i < |c.env| => CanonEnv(c.env[i])),
       resources := CanonOpaque(c.resources))
  }

  function CanonContainers(cs: seq<Container>): seq<Container> {
    seq(|cs|, i requires 0 <= i < |cs| => CanonContainer(cs[i]))
  }

  function CanonPodSpec(p: PodSpec): PodSpec {
    p.(tolerations := CanonOpaques(p.tolerations),
       affinity := if p.affinity.None? then None else Some(CanonOpaque(p.affinity.value)),
       containers := CanonContainers(p.containers))
  }

  /** equality.Semantic.DeepEqual on labels, on containers and on pod specs. */
  predicate SameLabels(a: Labels, b: Labels) {
    CanonLabels(a) == CanonLabels(b)
  }

  predicate SameContainers(a: seq<Container>, b: seq<Container>) {
    CanonContainers(a) == CanonContainers(b)
  }

  predicate SamePodSpec(a: PodSpec, b: PodSpec) {
    CanonPodSpec(a) == CanonPodSpec(b)
  }

  // ---------- what semantic equality distinguishes ----------

  /** The value of a label, if it is set. */
  function LabelValue(l: Labels, key: string): Option<string> {
    if l.Some? && key in l.value then Some(l.value[key]) else None
  }

  /** Labels are the same exactly when every key has the same value in both. */
  lemma SameLabelsIff(a: Labels, b: Labels)
    ensures SameLabels(a, b) <==> forall key :: LabelValue(a, key) == LabelValue(b, key)
  {
    var m, n := CanonLabels(a), CanonLabels(b);
    if forall key :: LabelValue(a, key) == LabelValue(b, key) {
      forall key ensures key in m <==> key in n {
        assert LabelValue(a, key) == LabelValue(b, key);
      }
      forall key | key in m ensures m[key] == n[key] {
        assert LabelValue(a, key) == LabelValue(b, key);
      }
      assert m == n;
    }
  }

  predicate SourcesMatch(a: Option<EnvSource>, b: Option<EnvSource>) {
    if a.Some? && a.value.OtherSource? then
      b.Some? && b.value.OtherSource? && a.value.source.meaning == b.value.source.meaning
    else a == b
  }

  predicate EnvMatches(a: EnvVar, b: EnvVar) {
    a.name == b.name && a.value == b.value && SourcesMatch(a.valueFrom, b.valueFrom)
  }

  /** Two containers that are the same to the eye of a user. */
  ghost predicate ContainerMatches(a: Container, b: Container) {
    && a.name == b.name && a.image == b.image && a.command == b.command && a.args == b.args
    && a.mounts == b.mounts && a.ports == b.ports && a.pullPolicy == b.pullPolicy && a.privileged == b.privileged
    && a.resources.meaning == b.resources.meaning
    && |a.env| == |b.env| && forall i :: 0 <= i < |a.env| ==> EnvMatches(a.env[i], b.env[i])
  }

  lemma CanonEnvIff(a: EnvVar, b: EnvVar)
    ensures CanonEnv(a) == CanonEnv(b) <==> EnvMatches(a, b)
  {}

  lemma CanonContainerIff(a: Container, b: Container)
    ensures CanonContainer(a) == CanonContainer(b) <==> ContainerMatches(a, b)
  {
    var x, y := CanonContainer(a), CanonContainer(b);
    forall i | 0 <= i < |a.env| && i < |b.env| ensures x.env[i] == y.env[i] <==> EnvMatches(a.env[i], b.env[i]) {
      CanonEnvIff(a.env[i], b.env[i]);
    }
    if ContainerMatches(a, b) {
      assert x.env == y.env;
    }
    if x == y {
      assert |a.env| == |x.env| == |y.env| == |b.env|;
    }
  }

  /** Container lists are the same exactly when they are so pairwise. */
  lemma SameContainersIff(a: seq<Container>, b: seq<Container>)
    ensures SameContainers(a, b) <==> |a| == |b| && forall i :: 0 <= i < |a| ==> ContainerMatches(a[i], b[i])
  {
    var x, y := CanonContainers(a), CanonContainers(b);
    forall i | 0 <= i < |a| && i < |b| ensures x[i] == y[i] <==> ContainerMatches(a[i], b[i]) {
      CanonContainerIff(a[i], b[i]);
    }
    if |a| == |b| && forall i :: 0 <= i < |a| ==> ContainerMatches(a[i], b[i]) {
      assert x == y;
    }
    if x == y {
      assert |a| == |x| == |y| == |b|;
    }
  }

  ghost predicate OpaquesMatch(a: seq<Opaque>, b: seq<Opaque>) {
    |a| == |b| && forall i :: 0 <= i < |a| ==> a[i].meaning == b[i].meaning
  }

  ghost predicate PodSpecMatches(a: PodSpec, b: PodSpec) {
    && a.imagePullSecrets == b.imagePullSecrets && a.volumes == b.volumes && a.restartPolicy == b.restartPolicy
    && OpaquesMatch(a.tolerations, b.tolerations)
    && a.affinity.Some? == b.affinity.Some?
    && (a.affinity.Some? ==> a.affinity.value.meaning == b.affinity.value.meaning)
    && |a.containers| == |b.containers|
    && forall i :: 0 <= i < |a.containers| ==> ContainerMatches(a.containers[i], b.containers[i])
  }

  lemma CanonOpaquesIff(a: seq<Opaque>, b: seq<Opaque>)
    ensures CanonOpaques(a) == CanonOpaques(b) <==> OpaquesMatch(a, b)
  {
    var x, y := CanonOpaques(a), CanonOpaques(b);
    if OpaquesMatch(a, b) {
      assert x == y;
    }
    if x == y {
      assert |a| == |x| == |y| == |b|;
      forall i | 0 <= i < |a| ensures a[i].meaning == b[i].meaning {
        assert x[i] == y[i];
      }
    }
  }

  /** Pod specs are the same exactly when nothing a user can set differs. */
  lemma SamePodSpecIff(a: PodSpec, b: PodSpec)
    ensures SamePodSpec(a, b) <==> PodSpecMatches(a, b)
  {
    SameContainersIff(a.containers, b.containers);
    CanonOpaquesIff(a.tolerations, b.tolerations);
  }
}
