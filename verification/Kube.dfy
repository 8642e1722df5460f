/**
 The Kubernetes objects the Service Director reads and writes, the API store that
 holds them, and the writes that change it.
 */
module Kube {
  import opened Wrappers

  /** Instants and durations, in nanoseconds. */
  type Time = int
  type UID = string
  type StringMap = map<string, string>

  datatype NamespacedName = NamespacedName(namespace: string, name: string)

  /** The checks of k8s.io/apimachinery/pkg/util/validation; which names pass plays no part in this model. */
  const IsDNS1123Label: string -> bool
  const IsDNS1123Subdomain: string -> bool

  predicate ValidNames(k: NamespacedName) {
    IsDNS1123Label(k.namespace) && IsDNS1123Subdomain(k.name)
  }

  // ---------- Pods ----------

  datatype PodPhase = Pending | Running | Succeeded | Failed | PhaseUnknown

  datatype ConditionStatus = StatusTrue | StatusFalse | StatusUnknown

  datatype PodCondition = PodCondition(kind: string, status: ConditionStatus, lastTransitionTime: Time)

  datatype ContainerPort = ContainerPort(name: string, containerPort: int)

  /** `containers` lists, container by container, the ports each one declares. */
  datatype Pod = Pod(
    key: NamespacedName,
    uid: UID,
    labels: StringMap,
    creation: Time,
    deletion: Option<Time>,
    phase: PodPhase,
    conditions: seq<PodCondition>,
    podIP: string,
    nodeName: string,
    containers: seq<seq<ContainerPort>>)

  // ---------- Services ----------

  datatype TargetPort = Number(number: int) | Named(name: string)

  datatype ServicePort = ServicePort(name: string, protocol: string, port: int, targetPort: TargetPort)

  /** `kind` is spec.type; `headless` says that spec.clusterIP is "None". */
  datatype Service = Service(
    key: NamespacedName,
    uid: UID,
    labels: StringMap,
    annotations: StringMap,
    selector: StringMap,
    ports: seq<ServicePort>,
    kind: string,
    headless: bool)

  // ---------- EndpointSlices ----------

  datatype TargetRef = TargetRef(kind: string, pod: NamespacedName, uid: UID)

  datatype Endpoint = Endpoint(
    addresses: seq<string>, ready: bool, nodeName: Option<string>, targetRef: Option<TargetRef>)

  datatype EndpointPort = EndpointPort(name: Option<string>, port: int, protocol: string)

  datatype AddressType = IPv4 | IPv6

  /** The part of an EndpointSlice that routes traffic, which every reconcile rewrites. */
  datatype SliceBody = SliceBody(addressType: AddressType, endpoints: seq<Endpoint>, ports: seq<EndpointPort>)

  datatype EndpointSlice = EndpointSlice(
    key: NamespacedName, labels: StringMap, ownerName: string, ownerUid: UID, body: SliceBody)

  // ---------- The API store ----------

  datatype Store = Store(
    services: map<NamespacedName, Service>,
    pods: map<NamespacedName, Pod>,
    slices: map<NamespacedName, EndpointSlice>)

  /** A write that changed an object; the API server announces each one to its watchers. */
  datatype Write =
    | PutService(service: Service)
    | DeleteService(service: Service)
    | PutSlice(slice: EndpointSlice)
    | DeleteSlice(slice: EndpointSlice)

  function ApplyWrite(store: Store, w: Write): Store {
    match w
    case PutService(s) => store.(services := store.services[s.key := s])
    case DeleteService(s) => store.(services := store.services - {s.key})
    case PutSlice(s) => store.(slices := store.slices[s.key := s])
    case DeleteSlice(s) => store.(slices := store.slices - {s.key})
  }

  function ApplyWrites(store: Store, ws: seq<Write>): Store
    decreases |ws|
  {
    if ws == [] then store else ApplyWrites(ApplyWrite(store, ws[0]), ws[1..])
  }

  lemma {:induction false} ApplyWritesAppend(store: Store, ws: seq<Write>, more: seq<Write>)
    ensures ApplyWrites(store, ws + more) == ApplyWrites(ApplyWrites(store, ws), more)
    decreases |ws|
  {
    if ws == [] {
      assert ws + more == more;
    } else {
      assert (ws + more)[1..] == ws[1..] + more;
      ApplyWritesAppend(ApplyWrite(store, ws[0]), ws[1..], more);
    }
  }

  /** Two maps that agree on every other key. */
  ghost predicate SameExcept<K(!new), V>(key: K, m: map<K, V>, n: map<K, V>) {
    forall k :: k != key ==> (k in m <==> k in n) && (k in m ==> m[k] == n[k])
  }

  ghost predicate OnlyAt(key: NamespacedName, before: Store, after: Store) {
    && after.pods == before.pods
    && SameExcept(key, before.slices, after.slices)
    && SameExcept(key, before.services, after.services)
  }

  /** A write touches one object. */
  lemma WriteTouches(store: Store, w: Write)
    ensures OnlyAt(KeyOf(w), store, ApplyWrite(store, w))
  {
  }

  lemma OnlyAtComposes(key: NamespacedName, a: Store, b: Store, c: Store)
    ensures OnlyAt(key, a, a)
    ensures OnlyAt(key, a, b) && OnlyAt(key, b, c) ==> OnlyAt(key, a, c)
  {
  }

  function KeyOf(w: Write): NamespacedName {
    if w.PutService? || w.DeleteService? then w.service.key else w.slice.key
  }

  // ---------- Label selection ----------

  /** labels.SelectorFromSet(selector).Matches(labels). */
  predicate Selects(selector: StringMap, labels: StringMap) {
    forall k :: k in selector ==> k in labels && labels[k] == selector[k]
  }

  predicate Matches(svc: Service, pod: Pod) {
    pod.key.namespace == svc.key.namespace && Selects(svc.selector, pod.labels)
  }

  ghost predicate DistinctKeys(pods: seq<Pod>) {
    forall i, j :: 0 <= i < j < |pods| ==> pods[i].key != pods[j].key
  }

  /** The answers List may give for the pods of `svc`: each matching pod once, in any order. */
  ghost predicate IsListing(listing: seq<Pod>, store: Store, svc: Service) {
    && DistinctKeys(listing)
    && (forall p :: p in listing <==> p.key in store.pods && store.pods[p.key] == p && Matches(svc, p))
  }

  // ---------- Facts of the API server ----------

  /**
   What never changes about the objects of one cluster: `home(u)` is the only namespace and
   name the pod with UID u ever has, `leader(k)` the leader Service name the Service k keeps.
   */
  datatype World = World(home: UID -> NamespacedName, leader: NamespacedName -> NamespacedName)

  /** No two Services share a leader Service name. */
  ghost predicate LeaderNamesDistinct(w: World) {
    forall a, b :: w.leader(a) == w.leader(b) ==> a == b
  }

  /** Pods are stored under their own name, with a UID that never named another pod. */
  ghost predicate PodsOf(w: World, pods: map<NamespacedName, Pod>) {
    forall k :: k in pods ==> pods[k].key == k && pods[k].uid != "" && w.home(pods[k].uid) == k
  }
}
