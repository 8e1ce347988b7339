/** The generated deep copy of the custom resource, on the heap.  As in Go, a
    struct is a value whose pointers, maps and slices refer to shared storage; a
    slice is a stretch of an array that may have room behind it.  The status
    snapshot the controller keeps is such a copy. */
module DeepCopy {
  import opened Wrappers
  import P = FinalizerProtocol

  // ---------- references ----------

  /** The target of a pointer field. */
  class Box {
    var v: int

    constructor (v: int)
      ensures this.v == v
    {
      this.v := v;
    }
  }

  class MapBox {
    var m: map<string, string>

    constructor (m: map<string, string>)
      ensures this.m == m
    {
      this.m := m;
    }
  }

  datatype RawSlice<T> = RawSlice(arr: array?<T>, len: nat)

  /** A nil slice has no array; the length may be less than the capacity. */
  type Slice<T> = s: RawSlice<T> | if s.arr == null then s.len == 0 else s.len <= s.arr.Length
    witness RawSlice(null, 0)

  // ---------- the structs ----------

  datatype Claim = Claim(name: string, request: string)
  datatype Toleration = Toleration(key: string, seconds: Box?)
  datatype EnvVar = EnvVar(name: string, value: string, valueFrom: Box?)
  datatype Condition = Condition(kind: string, status: string, reason: string, message: string, since: int)
  datatype SpecScalars = SpecScalars(poolName: string, patSecretRef: string, rest: int)
  datatype Counters = Counters(current: int, queued: int, desired: int, ready: int)

  datatype Meta = Meta(name: string, deletedAt: Box?, labels: MapBox?, annotations: MapBox?, finalizers: Slice<string>)

  datatype Resources = Resources(limits: MapBox?, requests: MapBox?, claims: Slice<Claim>)

  datatype Spec = Spec(
    scalars: SpecScalars, resources: Resources, tolerations: Slice<Toleration>, affinity: Box?, env: Slice<EnvVar>)

  datatype Status = Status(
    counters: Counters, lastScalingTime: Box?, conditions: Slice<Condition>, lastFailedCheck: Box?)

  // ---------- what they mean ----------

  /** The same structs as values: None is a nil pointer, map or slice. */
  datatype TolerationValue = TolerationValue(key: string, seconds: Option<int>)
  datatype EnvValue = EnvValue(name: string, value: string, valueFrom: Option<int>)

  datatype MetaValue = MetaValue(
    name: string, deletedAt: Option<int>, labels: Option<map<string, string>>,
    annotations: Option<map<string, string>>, finalizers: Option<seq<string>>)

  datatype ResourcesValue = ResourcesValue(
    limits: Option<map<string, string>>, requests: Option<map<string, string>>, claims: Option<seq<Claim>>)

  datatype SpecValue = SpecValue(
    scalars: SpecScalars, resources: ResourcesValue, tolerations: Option<seq<TolerationValue>>,
    affinity: Option<int>, env: Option<seq<EnvValue>>)

  datatype StatusValue = StatusValue(
    counters: Counters, lastScalingTime: Option<int>, conditions: Option<seq<Condition>>,
    lastFailedCheck: Option<int>)

  datatype CrValue = CrValue(meta: MetaValue, spec: SpecValue, status: StatusValue)

  ghost function BoxValue(b: Box?): Option<int>
    reads b
  {
    if b == null then None else Some(b.v)
  }

  ghost function MapValue(b: MapBox?): Option<map<string, string>>
    reads b
  {
    if b == null then None else Some(b.m)
  }

  ghost function Items<T>(s: Slice<T>): Option<seq<T>>
    reads s.arr
  {
    if s.arr == null then None else Some(s.arr[..s.len])
  }

  ghost function TolerationBoxes(s: Slice<Toleration>): set<Box>
    reads s.arr
  {
    set i | 0 <= i < s.len && s.arr[i].seconds != null :: s.arr[i].seconds
  }

  /** The first `n` tolerations. */
  ghost function TolerationValues(s: Slice<Toleration>, n: nat): seq<TolerationValue>
    requires n <= s.len
    reads s.arr, TolerationBoxes(s)
  {
    if n == 0 then []
    else TolerationValues(s, n - 1) + [TolerationValue(s.arr[n - 1].key, BoxValue(s.arr[n - 1].seconds))]
  }

  ghost function Tolerations(s: Slice<Toleration>): Option<seq<TolerationValue>>
    reads s.arr, TolerationBoxes(s)
  {
    if s.arr == null then None else Some(TolerationValues(s, s.len))
  }

  ghost function EnvBoxes(s: Slice<EnvVar>): set<Box>
    reads s.arr
  {
    set i | 0 <= i < s.len && s.arr[i].valueFrom != null :: s.arr[i].valueFrom
  }

  ghost function EnvValues(s: Slice<EnvVar>, n: nat): seq<EnvValue>
    requires n <= s.len
    reads s.arr, EnvBoxes(s)
  {
    if n == 0 then []
    else EnvValues(s, n - 1) + [EnvValue(s.arr[n - 1].name, s.arr[n - 1].value, BoxValue(s.arr[n - 1].valueFrom))]
  }

  ghost function Env(s: Slice<EnvVar>): Option<seq<EnvValue>>
    reads s.arr, EnvBoxes(s)
  {
    if s.arr == null then None else Some(EnvValues(s, s.len))
  }

  ghost function Refs(o: object?): set<object> {
    if o == null then {} else {o}
  }

  ghost function MetaStorage(m: Meta): set<object> {
    Refs(m.deletedAt) + Refs(m.labels) + Refs(m.annotations) + Refs(m.finalizers.arr)
  }

  ghost function ResourcesStorage(res: Resources): set<object> {
    Refs(res.limits) + Refs(res.requests) + Refs(res.claims.arr)
  }

  ghost function TolerationStorage(s: Slice<Toleration>): set<object>
    reads s.arr
  {
    Refs(s.arr) + TolerationBoxes(s)
  }

  ghost function EnvStorage(s: Slice<EnvVar>): set<object>
    reads s.arr
  {
    Refs(s.arr) + EnvBoxes(s)
  }

  ghost function SpecStorage(sp: Spec): set<object>
    reads sp.tolerations.arr, sp.env.arr
  {
    ResourcesStorage(sp.resources) + TolerationStorage(sp.tolerations) + Refs(sp.affinity) + EnvStorage(sp.env)
  }

  ghost function StatusStorage(st: Status): set<object> {
    Refs(st.lastScalingTime) + Refs(st.conditions.arr) + Refs(st.lastFailedCheck)
  }

  ghost function MetaOf(m: Meta): MetaValue
    reads MetaStorage(m)
  {
    MetaValue(m.name, BoxValue(m.deletedAt), MapValue(m.labels), MapValue(m.annotations), Items(m.finalizers))
  }

  ghost function ResourcesOf(res: Resources): ResourcesValue
    reads ResourcesStorage(res)
  {
    ResourcesValue(MapValue(res.limits), MapValue(res.requests), Items(res.claims))
  }

  ghost function SpecOf(sp: Spec): SpecValue
    reads sp.tolerations.arr, sp.env.arr, SpecStorage(sp)
  {
    SpecValue(sp.scalars, ResourcesOf(sp.resources), Tolerations(sp.tolerations), BoxValue(sp.affinity), Env(sp.env))
  }

  ghost function StatusOf(st: Status): StatusValue
    reads StatusStorage(st)
  {
    StatusValue(st.counters, BoxValue(st.lastScalingTime), Items(st.conditions), BoxValue(st.lastFailedCheck))
  }

  class AzureDevOps {
    var meta: Meta
    var spec: Spec
    var status: Status

    ghost function Value(): CrValue
      reads this, spec.tolerations.arr, spec.env.arr, MetaStorage(meta), SpecStorage(spec), StatusStorage(status)
    {
      CrValue(MetaOf(meta), SpecOf(spec), StatusOf(status))
    }

    constructor (meta: Meta, spec: Spec, status: Status)
      ensures this.meta == meta && this.spec == spec && this.status == status
      ensures Value() == old(CrValue(MetaOf(meta), SpecOf(spec), StatusOf(status)))
    {
      this.meta, this.spec, this.status := meta, spec, status;
      new;
      SpecKept(spec);
    }
  }

  /** The value of a resource tells all its fields, whatever they refer to. */
  lemma ValueInPlainFields(cr: AzureDevOps)
    ensures var (m, v) := (cr.meta, cr.Value().meta);
            && v.name == m.name && v.deletedAt == (if m.deletedAt == null then None else Some(m.deletedAt.v))
            && v.labels == (if m.labels == null then None else Some(m.labels.m))
            && v.annotations == (if m.annotations == null then None else Some(m.annotations.m))
            && v.finalizers == if m.finalizers.arr == null then None else Some(m.finalizers.arr[..m.finalizers.len])
    ensures var (res, v) := (cr.spec.resources, cr.Value().spec.resources);
            && v.limits == (if res.limits == null then None else Some(res.limits.m))
            && v.requests == (if res.requests == null then None else Some(res.requests.m))
            && v.claims == if res.claims.arr == null then None else Some(res.claims.arr[..res.claims.len])
    ensures var (st, v) := (cr.status, cr.Value().status);
            && v.counters == st.counters
            && v.lastScalingTime == (if st.lastScalingTime == null then None else Some(st.lastScalingTime.v))
            && v.lastFailedCheck == (if st.lastFailedCheck == null then None else Some(st.lastFailedCheck.v))
            && v.conditions == if st.conditions.arr == null then None else Some(st.conditions.arr[..st.conditions.len])
  {}

  lemma {:induction false} TolerationAt(s: Slice<Toleration>, n: nat, i: nat)
    requires i < n <= s.len
    ensures |TolerationValues(s, n)| == n
    ensures TolerationValues(s, n)[i] == TolerationValue(s.arr[i].key, BoxValue(s.arr[i].seconds))
  {
    if n > 1 {
      TolerationAt(s, n - 1, if i < n - 1 then i else 0);
    }
  }

  lemma {:induction false} EnvAt(s: Slice<EnvVar>, n: nat, i: nat)
    requires i < n <= s.len
    ensures |EnvValues(s, n)| == n
    ensures EnvValues(s, n)[i] == EnvValue(s.arr[i].name, s.arr[i].value, BoxValue(s.arr[i].valueFrom))
  {
    if n > 1 {
      EnvAt(s, n - 1, if i < n - 1 then i else 0);
    }
  }

  /** Slices of tolerations and variables entry by entry, and the rest of the spec. */
  lemma SpecInPlainFields(cr: AzureDevOps)
    ensures var (sp, v) := (cr.spec, cr.Value().spec);
            && v.scalars == sp.scalars && v.affinity == (if sp.affinity == null then None else Some(sp.affinity.v))
            && (v.tolerations.Some? <==> sp.tolerations.arr != null) && (v.env.Some? <==> sp.env.arr != null)
    ensures var (ts, v) := (cr.spec.tolerations, cr.Value().spec.tolerations);
            v.Some? ==> forall i :: 0 <= i < ts.len ==>
              i < |v.value| && v.value[i] == TolerationValue(ts.arr[i].key, BoxValue(ts.arr[i].seconds))
    ensures var (es, v) := (cr.spec.env, cr.Value().spec.env);
            v.Some? ==> forall i :: 0 <= i < es.len ==>
              i < |v.value| && v.value[i] == EnvValue(es.arr[i].name, es.arr[i].value, BoxValue(es.arr[i].valueFrom))
  {
    var ts, es := cr.spec.tolerations, cr.spec.env;
    forall i | 0 <= i < ts.len
      ensures |TolerationValues(ts, ts.len)| == ts.len
      ensures TolerationValues(ts, ts.len)[i] == TolerationValue(ts.arr[i].key, BoxValue(ts.arr[i].seconds))
    {
      TolerationAt(ts, ts.len, i);
    }
    forall i | 0 <= i < es.len
      ensures |EnvValues(es, es.len)| == es.len
      ensures EnvValues(es, es.len)[i] == EnvValue(es.arr[i].name, es.arr[i].value, BoxValue(es.arr[i].valueFrom))
    {
      EnvAt(es, es.len, i);
    }
  }

  // ---------- storage that existed before ----------

  twostate predicate Old(new o: object?) {
    o != null && !fresh(o)
  }

  twostate predicate SharesMeta(new m: Meta) {
    Old(m.deletedAt) || Old(m.labels) || Old(m.annotations) || Old(m.finalizers.arr)
  }

  twostate predicate SharesResources(new res: Resources) {
    Old(res.limits) || Old(res.requests) || Old(res.claims.arr)
  }

  twostate predicate SharesTolerations(new s: Slice<Toleration>)
    reads s.arr
  {
    Old(s.arr) || exists i :: 0 <= i < s.len && Old(s.arr[i].seconds)
  }

  twostate predicate SharesEnv(new s: Slice<EnvVar>)
    reads s.arr
  {
    Old(s.arr) || exists i :: 0 <= i < s.len && Old(s.arr[i].valueFrom)
  }

  twostate predicate SharesSpec(new sp: Spec)
    reads sp.tolerations.arr, sp.env.arr
  {
    SharesResources(sp.resources) || SharesTolerations(sp.tolerations) || Old(sp.affinity) || SharesEnv(sp.env)
  }

  twostate predicate SharesStatus(new st: Status) {
    Old(st.lastScalingTime) || Old(st.conditions.arr) || Old(st.lastFailedCheck)
  }

  /** Something mutable that existed before is reachable from the resource. */
  twostate predicate SharesStorage(new cr: AzureDevOps)
    reads cr, cr.spec.tolerations.arr, cr.spec.env.arr
  {
    Old(cr) || SharesMeta(cr.meta) || SharesSpec(cr.spec) || SharesStatus(cr.status)
  }

  // ---------- what is not written keeps its value ----------

  twostate predicate Touched(o: object?)
    reads o
  {
    o != null && !unchanged(o)
  }

  twostate predicate TolerationsTouched(s: Slice<Toleration>)
    reads s.arr, TolerationBoxes(s)
  {
    || Touched(s.arr)
    || exists i :: 0 <= i < s.len && old(s.arr[i].seconds) != null && !unchanged(old(s.arr[i].seconds))
  }

  twostate predicate EnvTouched(s: Slice<EnvVar>)
    reads s.arr, EnvBoxes(s)
  {
    || Touched(s.arr)
    || exists i :: 0 <= i < s.len && old(s.arr[i].valueFrom) != null && !unchanged(old(s.arr[i].valueFrom))
  }

  twostate lemma TolerationsKept(s: Slice<Toleration>)
    requires !TolerationsTouched(s)
    ensures Tolerations(s) == old(Tolerations(s))
  {
    for n := 0 to s.len
      invariant TolerationValues(s, n) == old(TolerationValues(s, n))
    {
      assert old(s.arr[n].seconds) == s.arr[n].seconds;
    }
  }

  twostate lemma EnvKept(s: Slice<EnvVar>)
    requires !EnvTouched(s)
    ensures Env(s) == old(Env(s))
  {
    for n := 0 to s.len
      invariant EnvValues(s, n) == old(EnvValues(s, n))
    {
      assert old(s.arr[n].valueFrom) == s.arr[n].valueFrom;
    }
  }

  twostate predicate SpecTouched(sp: Spec)
    reads sp.tolerations.arr, sp.env.arr, SpecStorage(sp)
  {
    Touched(sp.resources.limits) || Touched(sp.resources.requests) || Touched(sp.resources.claims.arr)
    || Touched(sp.affinity) || TolerationsTouched(sp.tolerations) || EnvTouched(sp.env)
  }

  twostate lemma SpecKept(sp: Spec)
    requires !SpecTouched(sp)
    ensures SpecOf(sp) == old(SpecOf(sp))
  {
    TolerationsKept(sp.tolerations);
    EnvKept(sp.env);
  }

  // ---------- the copies ----------

  method CopyBox(b: Box?) returns (r: Box?)
    ensures BoxValue(r) == BoxValue(b) && !Old(r)
  {
    r := null;
    if b != null {
      r := new Box(b.v);
    }
  }

  method CopyMap(b: MapBox?) returns (r: MapBox?)
    ensures MapValue(r) == MapValue(b) && !Old(r)
  {
    r := null;
    if b != null {
      r := new MapBox(b.m);
    }
  }

  method CopySlice<T(0)>(s: Slice<T>) returns (r: Slice<T>)
    ensures Items(r) == Items(s) && !Old(r.arr)
  {
    r := RawSlice(null, 0);
    if s.arr != null {
      var a := new T[s.len];
      for i := 0 to s.len
        invariant fresh(a) && a.Length == s.len && a[..i] == s.arr[..i]
      {
        a[i] := s.arr[i];
      }
      r := RawSlice(a, s.len);
    }
  }

  lemma {:induction false} SameTolerations(r: Slice<Toleration>, s: Slice<Toleration>, n: nat)
    requires n <= r.len && n <= s.len
    requires forall k :: 0 <= k < n ==>
               r.arr[k].key == s.arr[k].key && BoxValue(r.arr[k].seconds) == BoxValue(s.arr[k].seconds)
    ensures TolerationValues(r, n) == TolerationValues(s, n)
  {
    if n > 0 {
      SameTolerations(r, s, n - 1);
    }
  }

  lemma {:induction false} SameEnv(r: Slice<EnvVar>, s: Slice<EnvVar>, n: nat)
    requires n <= r.len && n <= s.len
    requires forall k :: 0 <= k < n ==>
               r.arr[k].name == s.arr[k].name && r.arr[k].value == s.arr[k].value
               && BoxValue(r.arr[k].valueFrom) == BoxValue(s.arr[k].valueFrom)
    ensures EnvValues(r, n) == EnvValues(s, n)
  {
    if n > 0 {
      SameEnv(r, s, n - 1);
    }
  }

  method CopyTolerations(s: Slice<Toleration>) returns (r: Slice<Toleration>)
    ensures !SharesTolerations(r) && Tolerations(r) == old(Tolerations(s))
  {
    r := RawSlice(null, 0);
    if s.arr != null {
      var blank := Toleration("", null);
      var a := new Toleration[s.len](_ => blank);
      for i := 0 to s.len
        invariant fresh(a) && a.Length == s.len
        invariant forall k :: 0 <= k < a.Length && a[k].seconds != null ==> fresh(a[k].seconds)
        invariant forall k :: 0 <= k < i ==>
                    a[k].key == s.arr[k].key && BoxValue(a[k].seconds) == BoxValue(s.arr[k].seconds)
      {
        var b := CopyBox(s.arr[i].seconds);
        a[i] := s.arr[i].(seconds := b);
      }
      r := RawSlice(a, s.len);
      SameTolerations(r, s, s.len);
      TolerationsKept(s);
    }
  }

  method CopyEnv(s: Slice<EnvVar>) returns (r: Slice<EnvVar>)
    ensures !SharesEnv(r) && Env(r) == old(Env(s))
  {
    r := RawSlice(null, 0);
    if s.arr != null {
      var blank := EnvVar("", "", null);
      var a := new EnvVar[s.len](_ => blank);
      for i := 0 to s.len
        invariant fresh(a) && a.Length == s.len
        invariant forall k :: 0 <= k < a.Length && a[k].valueFrom != null ==> fresh(a[k].valueFrom)
        invariant forall k :: 0 <= k < i ==>
                    a[k].name == s.arr[k].name && a[k].value == s.arr[k].value
                    && BoxValue(a[k].valueFrom) == BoxValue(s.arr[k].valueFrom)
      {
        var b := CopyBox(s.arr[i].valueFrom);
        a[i] := s.arr[i].(valueFrom := b);
      }
      r := RawSlice(a, s.len);
      SameEnv(r, s, s.len);
      EnvKept(s);
    }
  }

  method CopyMeta(m: Meta) returns (r: Meta)
    ensures !SharesMeta(r) && MetaOf(r) == old(MetaOf(m))
  {
    var deletedAt := CopyBox(m.deletedAt);
    var labels := CopyMap(m.labels);
    var annotations := CopyMap(m.annotations);
    var finalizers := CopySlice(m.finalizers);
    r := Meta(m.name, deletedAt, labels, annotations, finalizers);
  }

  method CopyResources(res: Resources) returns (r: Resources)
    ensures !SharesResources(r) && ResourcesOf(r) == old(ResourcesOf(res))
  {
    var limits := CopyMap(res.limits);
    var requests := CopyMap(res.requests);
    var claims := CopySlice(res.claims);
    r := Resources(limits, requests, claims);
  }

  method CopyLists(ts: Slice<Toleration>, es: Slice<EnvVar>)
      returns (tolerations: Slice<Toleration>, env: Slice<EnvVar>)
    ensures !SharesTolerations(tolerations) && Tolerations(tolerations) == old(Tolerations(ts))
    ensures !SharesEnv(env) && Env(env) == old(Env(es))
  {
    tolerations := CopyTolerations(ts);
    EnvKept(es);
    label copied:
    env := CopyEnv(es);
    TolerationsKept@copied(tolerations);
  }

  /** The rest of the spec; the slices keep their meaning meanwhile. */
  method CopyTargets(sp: Spec) returns (resources: Resources, affinity: Box?)
    ensures !SharesResources(resources) && ResourcesOf(resources) == old(ResourcesOf(sp.resources))
    ensures !Old(affinity) && BoxValue(affinity) == old(BoxValue(sp.affinity))
    ensures Tolerations(sp.tolerations) == old(Tolerations(sp.tolerations)) && Env(sp.env) == old(Env(sp.env))
  {
    resources := CopyResources(sp.resources);
    affinity := CopyBox(sp.affinity);
    TolerationsKept(sp.tolerations);
    EnvKept(sp.env);
  }

  method CopySpec(sp: Spec) returns (r: Spec)
    ensures !SharesSpec(r) && SpecOf(r) == old(SpecOf(sp))
  {
    var resources, affinity := CopyTargets(sp);
    var tolerations, env := CopyLists(sp.tolerations, sp.env);
    r := Spec(sp.scalars, resources, tolerations, affinity, env);
  }

  method CopyStatus(st: Status) returns (r: Status)
    ensures !SharesStatus(r) && StatusOf(r) == old(StatusOf(st))
  {
    var lastScalingTime := CopyBox(st.lastScalingTime);
    var conditions := CopySlice(st.conditions);
    var lastFailedCheck := CopyBox(st.lastFailedCheck);
    r := Status(st.counters, lastScalingTime, conditions, lastFailedCheck);
  }

  /** Metadata and status; the spec keeps its meaning meanwhile. */
  method CopyEnds(src: AzureDevOps) returns (meta: Meta, status: Status)
    ensures !SharesMeta(meta) && MetaOf(meta) == old(MetaOf(src.meta))
    ensures !SharesStatus(status) && StatusOf(status) == old(StatusOf(src.status))
    ensures SpecOf(src.spec) == old(SpecOf(src.spec))
  {
    meta := CopyMeta(src.meta);
    status := CopyStatus(src.status);
    SpecKept(src.spec);
  }

  method CopyParts(src: AzureDevOps) returns (meta: Meta, spec: Spec, status: Status)
    ensures !SharesMeta(meta) && MetaOf(meta) == old(MetaOf(src.meta))
    ensures !SharesSpec(spec) && SpecOf(spec) == old(SpecOf(src.spec))
    ensures !SharesStatus(status) && StatusOf(status) == old(StatusOf(src.status))
  {
    meta, status := CopyEnds(src);
    spec := CopySpec(src.spec);
  }

  /** The copy has the value of the original and shares no storage with it. */
  method CopyOf(src: AzureDevOps) returns (out: AzureDevOps)
    ensures !SharesStorage(out) && out.Value() == old(src.Value())
  {
    var meta, spec, status := CopyParts(src);
    out := new AzureDevOps(meta, spec, status);
  }

  // ---------- what a pass writes into the resource it read ----------

  /** The in-place writes of a pass: the two finalizer helpers, the status the use
      case records, and the time of a failed queue check. */
  datatype Write =
    | RemoveFinalizer(f: string)
    | AddFinalizer(f: string)
    | RecordScaling(queueLength: int, desired: int, now: int)
    | RecordFailure(now: int)

  function WithoutName(s: seq<string>, f: string): seq<string> {
    if s == [] then []
    else WithoutName(s[..|s| - 1], f) + (if s[|s| - 1] == f then [] else [s[|s| - 1]])
  }

  function Entries(fs: Option<seq<string>>): seq<string> {
    if fs.None? then [] else fs.value
  }

  function WithoutFinalizer(m: MetaValue, f: string): MetaValue {
    m.(finalizers := if m.finalizers.None? then None else Some(WithoutName(m.finalizers.value, f)))
  }

  function WithFinalizer(m: MetaValue, f: string): MetaValue {
    if f in Entries(m.finalizers) then m else m.(finalizers := Some(Entries(m.finalizers) + [f]))
  }

  function WithScaling(st: StatusValue, queueLength: int, desired: int, now: int): StatusValue {
    st.(counters := Counters(st.counters.current, queueLength, desired, st.counters.desired),
        lastScalingTime := if st.counters.desired != desired then Some(now) else st.lastScalingTime)
  }

  function WrittenMeta(m: MetaValue, w: Write): MetaValue {
    match w
    case RemoveFinalizer(f) => WithoutFinalizer(m, f)
    case AddFinalizer(f) => WithFinalizer(m, f)
    case _ => m
  }

  function WrittenStatus(st: StatusValue, w: Write): StatusValue {
    match w
    case RecordScaling(q, d, now) => WithScaling(st, q, d, now)
    case RecordFailure(now) => st.(lastFailedCheck := Some(now))
    case _ => st
  }

  /** What a write means for the value of the resource. */
  function Written(v: CrValue, w: Write): CrValue {
    CrValue(WrittenMeta(v.meta, w), v.spec, WrittenStatus(v.status, w))
  }

  /** What the writes mean in plain terms: the other finalizers stay, as often as
      before; a finalizer is added once, at the end; scaling changes the three
      counters and, if the desired count moved, the time. */
  lemma {:induction false} WithoutNameMeaning(s: seq<string>, f: string)
    ensures multiset(WithoutName(s, f)) == multiset(s)[f := 0]
  {
    if s != [] {
      WithoutNameMeaning(s[..|s| - 1], f);
      assert s == s[..|s| - 1] + [s[|s| - 1]];
    }
  }

  lemma WithFinalizerMeaning(m: MetaValue, f: string)
    ensures var r := WithFinalizer(m, f);
            && r.(finalizers := m.finalizers) == m && f in Entries(r.finalizers)
            && Entries(m.finalizers) <= Entries(r.finalizers)
            && |Entries(r.finalizers)| == |Entries(m.finalizers)| + (if f in Entries(m.finalizers) then 0 else 1)
  {}

  lemma WithScalingMeaning(st: StatusValue, queueLength: int, desired: int, now: int)
    ensures var r := WithScaling(st, queueLength, desired, now);
            && r.counters.queued == queueLength && r.counters.desired == desired
            && r.counters.ready == st.counters.desired && r.counters.current == st.counters.current
            && (desired != st.counters.desired ==> r.lastScalingTime == Some(now))
            && (desired == st.counters.desired ==> r.lastScalingTime == st.lastScalingTime)
            && r.conditions == st.conditions && r.lastFailedCheck == st.lastFailedCheck
  {}

  /** The heap operations on finalizers are those the reconcile protocol speaks of. */
  lemma {:induction false} SameAsInProtocol(fs: seq<string>)
    ensures WithoutName(fs, P.FINALIZER) == P.WithoutFinalizer(fs)
  {
    if fs != [] {
      var front, last := fs[..|fs| - 1], fs[|fs| - 1];
      SameAsInProtocol(front);
      ProtocolRemovesLast(front, last);
      assert fs == front + [last];
    }
  }

  lemma {:induction false} ProtocolRemovesLast(front: seq<string>, last: string)
    ensures P.WithoutFinalizer(front + [last])
         == P.WithoutFinalizer(front) + (if last == P.FINALIZER then [] else [last])
  {
    if front != [] {
      assert (front + [last])[1..] == front[1..] + [last];
      ProtocolRemovesLast(front[1..], last);
    }
  }

  function AllWritten(v: CrValue, ws: seq<Write>): CrValue {
    if ws == [] then v else Written(AllWritten(v, ws[..|ws| - 1]), ws[|ws| - 1])
  }

  /** RemoveFinalizer compacts the slice in its own array. */
  method Compact(s: Slice<string>, f: string) returns (r: Slice<string>)
    modifies s.arr
    ensures r.arr == s.arr
    ensures s.arr != null ==> Items(r) == Some(WithoutName(old(s.arr[..s.len]), f))
  {
    if s.arr == null {
      return s;
    }
    var a, n := s.arr, 0;
    ghost var was := a[..s.len];
    for i := 0 to s.len
      invariant n <= i && a[..n] == WithoutName(was[..i], f)
      invariant forall k :: i <= k < s.len ==> a[k] == was[k]
    {
      assert was[..i + 1][..i] == was[..i];
      if a[i] != f {
        ghost var kept := a[..n];
        a[n] := a[i];
        assert a[..n + 1] == kept + [a[n]];
        n := n + 1;
      }
    }
    assert was[..s.len] == was;
    r := RawSlice(a, n);
  }

  /** Go's append: in place if there is room behind the slice, else in a new array. */
  method Append(s: Slice<string>, x: string) returns (r: Slice<string>)
    modifies s.arr
    ensures r.arr != null && Items(r) == Some(Entries(old(Items(s))) + [x])
    ensures if s.arr != null && s.len < s.arr.Length then r.arr == s.arr else fresh(r.arr)
  {
    ghost var was := Entries(Items(s));
    if s.arr != null && s.len < s.arr.Length {
      s.arr[s.len] := x;
      assert s.arr[..s.len + 1] == was + [x];
      r := RawSlice(s.arr, s.len + 1);
      return;
    }
    var capacity: int := *;
    if capacity <= s.len {
      capacity := s.len + 1;
    }
    var a := new string[capacity](_ => "");
    if s.arr != null {
      for i := 0 to s.len
        invariant fresh(a) && a.Length == capacity && a[..i] == s.arr[..i]
        modifies a
      {
        a[i] := s.arr[i];
      }
    }
    assert a[..s.len] == was;
    a[s.len] := x;
    assert a[..s.len + 1] == was + [x];
    r := RawSlice(a, s.len + 1);
  }

  method Contains(s: Slice<string>, f: string) returns (found: bool)
    ensures found <==> f in Entries(Items(s))
  {
    if s.arr == null {
      return false;
    }
    for i := 0 to s.len
      invariant f !in s.arr[..i]
    {
      if s.arr[i] == f {
        return true;
      }
    }
    return false;
  }

  // ---------- the writes leave every other resource alone ----------

  /** No write to the resource reaches the snapshot. */
  predicate Apart(cr: AzureDevOps, snapshot: AzureDevOps)
    reads cr, snapshot
  {
    cr != snapshot && (cr.meta.finalizers.arr == null || cr.meta.finalizers.arr != snapshot.meta.finalizers.arr)
  }

  method RemoveFinalizerFrom(cr: AzureDevOps, f: string)
    modifies cr`meta, cr.meta.finalizers.arr
    ensures MetaOf(cr.meta) == WithoutFinalizer(old(MetaOf(cr.meta)), f)
    ensures StatusOf(cr.status) == old(StatusOf(cr.status))
    ensures cr.meta.finalizers.arr == old(cr.meta.finalizers.arr)
  {
    var fs := Compact(cr.meta.finalizers, f);
    cr.meta := cr.meta.(finalizers := fs);
  }

  method AddFinalizerTo(cr: AzureDevOps, f: string)
    modifies cr`meta, cr.meta.finalizers.arr
    ensures MetaOf(cr.meta) == WithFinalizer(old(MetaOf(cr.meta)), f)
    ensures StatusOf(cr.status) == old(StatusOf(cr.status))
    ensures cr.meta.finalizers.arr == old(cr.meta.finalizers.arr) || fresh(cr.meta.finalizers.arr)
  {
    var found := Contains(cr.meta.finalizers, f);
    if !found {
      var fs := Append(cr.meta.finalizers, f);
      cr.meta := cr.meta.(finalizers := fs);
    }
  }

  method RecordScalingIn(cr: AzureDevOps, queueLength: int, desired: int, now: int)
    modifies cr`status
    ensures StatusOf(cr.status) == WithScaling(old(StatusOf(cr.status)), queueLength, desired, now)
    ensures MetaOf(cr.meta) == old(MetaOf(cr.meta))
  {
    var st := cr.status;
    var current := st.counters.desired;
    st := st.(counters := st.counters.(queued := queueLength));
    st := st.(counters := st.counters.(desired := desired));
    st := st.(counters := st.counters.(ready := current));
    if current != desired {
      var time := new Box(now);
      st := st.(lastScalingTime := time);
    }
    cr.status := st;
  }

  method RecordFailureIn(cr: AzureDevOps, now: int)
    modifies cr`status
    ensures StatusOf(cr.status) == old(StatusOf(cr.status)).(lastFailedCheck := Some(now))
    ensures MetaOf(cr.meta) == old(MetaOf(cr.meta))
  {
    var time := new Box(now);
    cr.status := cr.status.(lastFailedCheck := time);
  }

  method WriteOnce(cr: AzureDevOps, w: Write)
    modifies cr`meta, cr`status, cr.meta.finalizers.arr
    ensures MetaOf(cr.meta) == WrittenMeta(old(MetaOf(cr.meta)), w)
    ensures StatusOf(cr.status) == WrittenStatus(old(StatusOf(cr.status)), w)
    ensures cr.meta.finalizers.arr == old(cr.meta.finalizers.arr) || fresh(cr.meta.finalizers.arr)
  {
    match w
    case RemoveFinalizer(f) => RemoveFinalizerFrom(cr, f);
    case AddFinalizer(f) => AddFinalizerTo(cr, f);
    case RecordScaling(q, d, now) => RecordScalingIn(cr, q, d, now);
    case RecordFailure(now) => RecordFailureIn(cr, now);
  }

  lemma {:induction false} WritesKeepSpec(v: CrValue, ws: seq<Write>)
    ensures AllWritten(v, ws).spec == v.spec
  {
    if ws != [] {
      WritesKeepSpec(v, ws[..|ws| - 1]);
    }
  }

  method WriteAll(cr: AzureDevOps, ws: seq<Write>)
    modifies cr, cr.meta.finalizers.arr
    ensures MetaOf(cr.meta) == AllWritten(old(cr.Value()), ws).meta
    ensures StatusOf(cr.status) == AllWritten(old(cr.Value()), ws).status
    ensures cr.spec == old(cr.spec)
  {
    for i := 0 to |ws|
      invariant MetaOf(cr.meta) == AllWritten(old(cr.Value()), ws[..i]).meta
      invariant StatusOf(cr.status) == AllWritten(old(cr.Value()), ws[..i]).status
      invariant cr.meta.finalizers.arr == old(cr.meta.finalizers.arr) || fresh(cr.meta.finalizers.arr)
      invariant cr.spec == old(cr.spec)
    {
      assert ws[..i + 1][..i] == ws[..i];
      WriteOnce(cr, ws[i]);
    }
    assert ws[..|ws|] == ws;
  }

  /** The resource ends with the value the writes stand for; metadata and status
      of one with storage of its own stay as they are. */
  method WriteBeside(cr: AzureDevOps, ws: seq<Write>, ghost other: AzureDevOps)
    requires Apart(cr, other)
    modifies cr, cr.meta.finalizers.arr
    ensures cr.Value() == AllWritten(old(cr.Value()), ws)
    ensures MetaOf(other.meta) == old(MetaOf(other.meta)) && StatusOf(other.status) == old(StatusOf(other.status))
  {
    ghost var meta, status := other.meta, other.status;
    WritesKeepSpec(cr.Value(), ws);
    WriteAll(cr, ws);
    SpecKept(cr.spec);
    assert MetaOf(meta) == old(MetaOf(meta));
    assert StatusOf(status) == old(StatusOf(status));
  }

  /** Any writes in any order: the resource ends with the value they stand for,
      and they do not show in another resource with storage of its own. */
  method WriteInPlace(cr: AzureDevOps, ws: seq<Write>, ghost snapshot: AzureDevOps)
    requires Apart(cr, snapshot)
    modifies cr, cr.meta.finalizers.arr
    ensures cr.Value() == AllWritten(old(cr.Value()), ws)
    ensures snapshot.Value() == old(snapshot.Value())
  {
    ghost var spec := snapshot.spec;
    WriteBeside(cr, ws, snapshot);
    SpecKept(spec);
  }

  method TakeSnapshot(cr: AzureDevOps) returns (snapshot: AzureDevOps)
    ensures !SharesStorage(snapshot) && snapshot.Value() == old(cr.Value()) == cr.Value()
  {
    snapshot := CopyOf(cr);
    SpecKept(cr.spec);
  }

  /** The controller takes its snapshot, then writes into the resource: the
      snapshot keeps the value the resource had. */
  method SnapshotThenWrite(cr: AzureDevOps, ws: seq<Write>) returns (snapshot: AzureDevOps)
    modifies cr, cr.meta.finalizers.arr
    ensures !SharesStorage(snapshot) && snapshot.Value() == old(cr.Value())
    ensures cr.Value() == AllWritten(old(cr.Value()), ws)
  {
    snapshot := TakeSnapshot(cr);
    WriteInPlace(cr, ws, snapshot);
  }
}
