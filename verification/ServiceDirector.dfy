/**
 The Service Director itself: pkg/director/service_director.go, lines 228-1760. Its methods change
 the API server's objects and its two caches in place, and are proved against the functions of
 Reconciling, Selection, Routing and OptedIn, about which the other modules prove their theorems.
 */
module ServiceDirectors {
  import opened Wrappers
  import opened Kube
  import opened Sorting
  import opened Selection
  import opened Routing
  import opened OptedIn
  import opened Reconciling
  import Runs
  import Interface
  import Attachment
  import Outcomes

  // ---------- The API server ----------

  class ApiServer {
    var services: map<NamespacedName, Service>
    var pods: map<NamespacedName, Pod>
    var slices: map<NamespacedName, EndpointSlice>
    /** Every change so far; the watches announce them. */
    var changes: seq<Write>

    ghost function Contents(): Store
      reads this
    {
      Store(services, pods, slices)
    }

    /** Objects are stored under their own names. */
    ghost predicate Valid()
      reads this
    {
      && (forall k :: k in services ==> services[k].key == k)
      && (forall k :: k in slices ==> slices[k].key == k)
    }

    method PutService(svc: Service)
      requires Valid()
      modifies this
      ensures Valid()
      ensures Contents() == ApplyWrite(old(Contents()), Write.PutService(svc)) && changes == old(changes) + [Write.PutService(svc)]
    {
      services := services[svc.key := svc];
      changes := changes + [Write.PutService(svc)];
    }

    method DeleteService(svc: Service)
      requires Valid()
      modifies this
      ensures Valid()
      ensures Contents() == ApplyWrite(old(Contents()), Write.DeleteService(svc)) && changes == old(changes) + [Write.DeleteService(svc)]
    {
      services := services - {svc.key};
      changes := changes + [Write.DeleteService(svc)];
    }

    /** A patch that changes nothing is no change, and is not announced. */
    method PatchService(svc: Service)
      requires Valid()
      modifies this
      ensures Valid()
      ensures var same := svc.key in old(services) && old(services)[svc.key] == svc;
              if same then Contents() == old(Contents()) && changes == old(changes)
              else Contents() == ApplyWrite(old(Contents()), Write.PutService(svc)) && changes == old(changes) + [Write.PutService(svc)]
    {
      if !(svc.key in services && services[svc.key] == svc) { PutService(svc); }
    }

    method PatchSlice(slice: EndpointSlice)
      requires Valid()
      modifies this
      ensures Valid()
      ensures var same := slice.key in old(slices) && old(slices)[slice.key] == slice;
              if same then Contents() == old(Contents()) && changes == old(changes)
              else Contents() == ApplyWrite(old(Contents()), Write.PutSlice(slice)) && changes == old(changes) + [Write.PutSlice(slice)]
    {
      if !(slice.key in slices && slices[slice.key] == slice) { PutSlice(slice); }
    }

    method PutSlice(slice: EndpointSlice)
      requires Valid()
      modifies this
      ensures Valid()
      ensures Contents() == ApplyWrite(old(Contents()), Write.PutSlice(slice)) && changes == old(changes) + [Write.PutSlice(slice)]
    {
      slices := slices[slice.key := slice];
      changes := changes + [Write.PutSlice(slice)];
    }

    method DeleteSlice(slice: EndpointSlice)
      requires Valid()
      modifies this
      ensures Valid()
      ensures Contents() == ApplyWrite(old(Contents()), Write.DeleteSlice(slice)) && changes == old(changes) + [Write.DeleteSlice(slice)]
    {
      slices := slices - {slice.key};
      changes := changes + [Write.DeleteSlice(slice)];
    }
  }

  // ---------- Selection ----------

  /** isPodReady. */
  method CheckReady(pod: Pod) returns (ready: bool)
    ensures ready == IsPodReady(pod)
  {
    if !pod.phase.Running? { return false; }
    for i := 0 to |pod.conditions|
      invariant ReadyCondition(pod.conditions) == ReadyCondition(pod.conditions[i..])
    {
      if pod.conditions[i].kind == "Ready" { return pod.conditions[i].status.StatusTrue?; }
    }
    return false;
  }

  /** getPodReadySince. */
  method GetReadySince(pod: Pod) returns (since: Option<Time>)
    ensures since == ReadySince(pod.conditions)
  {
    for i := 0 to |pod.conditions|
      invariant ReadySince(pod.conditions) == ReadySince(pod.conditions[i..])
    {
      if pod.conditions[i].kind == "Ready" && pod.conditions[i].status.StatusTrue? {
        return Some(pod.conditions[i].lastTransitionTime);
      }
    }
    return None;
  }

  /** The Ready pods that were Ready long enough. */
  method FilterEligible(pods: seq<Pod>, minReady: Time, now: Time) returns (eligible: seq<Pod>)
    ensures forall p :: p in eligible <==> p in pods && Eligible(p, minReady, now)
  {
    hide IsPodReady;
    eligible := [];
    for i := 0 to |pods|
      invariant forall p :: p in eligible <==> p in pods[..i] && Eligible(p, minReady, now)
    {
      assert pods[..i + 1] == pods[..i] + [pods[i]];
      var ready := CheckReady(pods[i]);
      if !ready { continue; }
      if minReady > 0 {
        var since := GetReadySince(pods[i]);
        if since.None? || now - since.value < minReady { continue; }
      }
      eligible := eligible + [pods[i]];
    }
    assert pods[..|pods|] == pods;
  }

  lemma OlderOrders(pods: seq<Pod>, s: seq<Pod>)
    requires Distinct(pods) && forall p :: p in s ==> p in pods
    ensures Orders(Older, s)
  {
    forall x, y, z | x in s && y in s && z in s
      ensures (Older(x, y) ==> !Older(y, x)) && (!Older(y, x) && !Older(z, y) ==> !Older(z, x)) {
      OlderIsStrictTotalOrder(x, y, x);
      OlderIsStrictTotalOrder(z, x, y);
      OlderIsStrictTotalOrder(y, z, x);
      OlderIsStrictTotalOrder(x, y, z);
      if x.key == y.key { DistinctKeysOf(pods, x, y); }
      if y.key == z.key { DistinctKeysOf(pods, y, z); }
    }
  }

  lemma FirstOfSortedIsEldest(pods: seq<Pod>, sorted: seq<Pod>, minReady: Time, now: Time)
    requires Distinct(pods) && sorted != [] && Sorted(Older, sorted)
    requires forall p :: p in sorted <==> p in pods && Eligible(p, minReady, now)
    ensures Eldest(pods, minReady, now) == Some(sorted[0])
  {
    hide IsPodReady, Eligible;
    var first := sorted[0];
    assert first in sorted;
    forall q | q in pods && Eligible(q, minReady, now) && q != first ensures Older(first, q) {
      var j :| 0 <= j < |sorted| && sorted[j] == q;
      if q.key == first.key { DistinctKeysOf(pods, q, first); }
      OlderIsStrictTotalOrder(q, first, q);
    }
    EldestIsEldest(pods, minReady, now);
    EldestIsUnique(Eldest(pods, minReady, now).value, first, pods, minReady, now);
  }

  /** The end of selectLeaderPod: filter, sort, take the first. */
  method SelectEldest(pods: seq<Pod>, minReady: Time, now: Time) returns (leader: Option<Pod>)
    requires Distinct(pods)
    ensures leader == Eldest(pods, minReady, now)
  {
    hide IsPodReady, Eligible;
    var ready := FilterEligible(pods, minReady, now);
    if ready == [] {
      assert forall p :: p in pods && Eligible(p, minReady, now) ==> p in ready;
      return None;
    }
    OlderOrders(pods, ready);
    var sorted := SortSlice(ready, Older);
    FirstOfSortedIsEldest(pods, sorted, minReady, now);
    return Some(sorted[0]);
  }

  /** The sticky part of selectLeaderPod: for each endpoint the first pod with its UID, if Ready. */
  method FindSticky(endpoints: seq<Endpoint>, pods: seq<Pod>) returns (leader: Option<Pod>)
    ensures leader == StickyLeader(endpoints, pods)
  {
    hide IsPodReady;
    for i := 0 to |endpoints|
      invariant StickyLeader(endpoints, pods) == StickyLeader(endpoints[i..], pods)
    {
      if NamesPod(endpoints[i]) {
        var uid := endpoints[i].targetRef.value.uid;
        var j := 0;
        while j < |pods| && pods[j].uid != uid
          invariant 0 <= j <= |pods|
          invariant FirstWithUid(pods, uid) == FirstWithUid(pods[j..], uid)
        {
          j := j + 1;
        }
        if j < |pods| {
          var ready := CheckReady(pods[j]);
          if ready { return Some(pods[j]); }
        }
      }
    }
    return None;
  }

  // ---------- Ports ----------

  /** resolveNamedPort. */
  method FindNamedPort(pod: Pod, name: string) returns (port: Result<int, string>)
    ensures port == ResolveNamedPort(pod, name)
  {
    for i := 0 to |pod.containers|
      invariant FirstNamed(pod.containers, name) == FirstNamed(pod.containers[i..], name)
    {
      var ports := pod.containers[i];
      for j := 0 to |ports|
        invariant FirstInContainer(ports, name) == FirstInContainer(ports[j..], name)
      {
        if ports[j].name == name {
          if ports[j].containerPort <= 0 { return Failure("invalid port number"); }
          return Success(ports[j].containerPort);
        }
      }
    }
    return Failure("named port not found");
  }

  /** resolveServicePorts: the first failure ends it, with no ports. */
  method ResolveServicePorts(svc: Service, leader: Option<Pod>) returns (resolved: Result<seq<ServicePort>, string>)
    ensures resolved == ResolvePorts(svc.ports, leader)
  {
    hide ResolveNamedPort;
    var ports: seq<ServicePort> := [];
    assert svc.ports[0..] == svc.ports;
    for i := 0 to |svc.ports|
      invariant ResolvePorts(svc.ports, leader) == Prepended(ports, ResolvePorts(svc.ports[i..], leader))
    {
      var port := svc.ports[i];
      assert svc.ports[i..][0] == port && svc.ports[i..][1..] == svc.ports[i + 1..];
      if port.targetPort.Named? {
        if leader.None? { return Failure("no leader pod available"); }
        var number := FindNamedPort(leader.value, port.targetPort.name);
        if number.Failure? { return Failure(number.error); }
        port := port.(targetPort := Number(number.value));
      }
      PrependedAssociates(ports, port, ResolvePorts(svc.ports[i + 1..], leader));
      ports := ports + [port];
    }
    return Success(ports);
  }

  ghost function Prepended(ports: seq<ServicePort>, rest: Result<seq<ServicePort>, string>): (r: Result<seq<ServicePort>, string>)
    ensures ports == [] ==> r == rest
    ensures rest == Success([]) ==> r == Success(ports)
  {
    assert rest.Success? && ports == [] ==> ports + rest.value == rest.value;
    assert rest == Success([]) ==> ports + rest.value == ports;
    if rest.Failure? then rest else Success(ports + rest.value)
  }

  lemma PrependedAssociates(ports: seq<ServicePort>, port: ServicePort, rest: Result<seq<ServicePort>, string>)
    ensures Prepended(ports, Prepended([port], rest)) == Prepended(ports + [port], rest)
  {
    if rest.Success? { assert ports + ([port] + rest.value) == ports + [port] + rest.value; }
  }

  // ---------- The objects written ----------

  method BuildLeaderService(svc: Service, leader: Option<Pod>, ports: seq<ServicePort>, now: Time, uid: UID) returns (built: Service)
    ensures built == NewLeaderService(svc, leader, ports, now, uid)
  {
    hide LeaderServiceName;
    var labels := svc.labels - GITOPS_LABELS;
    labels := labels[LABEL_MANAGED_BY := ZEN_LEAD];
    labels := labels[LABEL_SOURCE_SERVICE := svc.key.name];
    var annotations := svc.annotations - GITOPS_ANNOTATIONS;
    if leader.Some? {
      annotations := annotations[ANNOTATION_CURRENT_LEADER := leader.value.key.name];
      annotations := annotations[ANNOTATION_LEADER_POD_NAME := leader.value.key.name];
      annotations := annotations[ANNOTATION_LEADER_POD_UID := leader.value.uid];
      annotations := annotations[ANNOTATION_LAST_SWITCH_TIME := FormatTime(now)];
    }
    built := Service(LeaderKey(svc), uid, labels, annotations, map[], ports, svc.kind, false);
    if svc.headless { built := built.(kind := "ClusterIP"); }
    if built.kind == "" { built := built.(kind := "ClusterIP"); }
  }

  method ReviseLeaderService(stored: Service, svc: Service, leader: Option<Pod>, ports: seq<ServicePort>, now: Time) returns (revised: Service)
    ensures revised == UpdatedLeaderService(stored, svc, leader, ports, now)
  {
    revised := stored.(selector := map[], ports := ports, kind := svc.kind);
    if svc.headless { revised := revised.(kind := "ClusterIP"); }
    if revised.kind == "" { revised := revised.(kind := "ClusterIP"); }
    var annotations := stored.annotations;
    var oldUid := Value(annotations, ANNOTATION_LEADER_POD_UID);
    if leader.Some? {
      annotations := annotations[ANNOTATION_CURRENT_LEADER := leader.value.key.name];
      annotations := annotations[ANNOTATION_LEADER_POD_NAME := leader.value.key.name];
      annotations := annotations[ANNOTATION_LEADER_POD_UID := leader.value.uid];
      if oldUid != leader.value.uid { annotations := annotations[ANNOTATION_LAST_SWITCH_TIME := FormatTime(now)]; }
    } else {
      annotations := annotations - {ANNOTATION_CURRENT_LEADER};
      annotations := annotations - {ANNOTATION_LEADER_POD_NAME};
      annotations := annotations - {ANNOTATION_LEADER_POD_UID};
      assert annotations == stored.annotations - {ANNOTATION_CURRENT_LEADER, ANNOTATION_LEADER_POD_NAME, ANNOTATION_LEADER_POD_UID};
    }
    revised := revised.(annotations := annotations);
  }

  /** Lines 1042-1129: nothing if a target is still a name. */
  method BuildSliceBody(leader: Option<Pod>, ports: seq<ServicePort>) returns (body: Option<SliceBody>)
    ensures body == if AllNumbered(ports) then Some(LeaderBody(leader, ports)) else None
  {
    var endpointPorts: seq<EndpointPort> := [];
    for i := 0 to |ports|
      invariant AllNumbered(ports[..i]) && endpointPorts == EndpointPorts(ports[..i])
    {
      if ports[i].targetPort.Named? { return None; }
      endpointPorts := endpointPorts + [EndpointPort(if ports[i].name != "" then Some(ports[i].name) else None,
                                                     ports[i].targetPort.number, ports[i].protocol)];
    }
    assert ports[..|ports|] == ports;
    var addresses: seq<string>, node: Option<string>, reference: Option<TargetRef> := [], None, None;
    var addressType := IPv4;
    if leader.Some? && leader.value.podIP != "" {
      addresses := [leader.value.podIP];
      if leader.value.nodeName != "" { node := Some(leader.value.nodeName); }
      reference := Some(TargetRef("Pod", leader.value.key, leader.value.uid));
      if ParsesAsIPv6(leader.value.podIP) { addressType := IPv6; }
    }
    var ready := false;
    if leader.Some? { ready := FindReady(leader.value.conditions); }
    return Some(SliceBody(addressType, [Endpoint(addresses, ready, node, reference)], endpointPorts));
  }

  method FindReady(conditions: seq<PodCondition>) returns (ready: bool)
    ensures ready == (ReadyCondition(conditions).Some? && ReadyCondition(conditions).value.status.StatusTrue?)
  {
    for i := 0 to |conditions|
      invariant ReadyCondition(conditions) == ReadyCondition(conditions[i..])
    {
      if conditions[i].kind == "Ready" { return conditions[i].status.StatusTrue?; }
    }
    return false;
  }

  // ---------- Lists of opted-in Services ----------

  lemma {:induction false} FirstIndexPutAndRemove(list: seq<CachedService>, entry: CachedService, i: nat)
    requires i <= |list| && forall j :: 0 <= j < i ==> list[j].name != entry.name
    requires i < |list| ==> list[i].name == entry.name
    ensures i < |list| ==> Remove(list, entry.name) == list[..i] + list[i + 1..] && Put(list, entry) == list[i := entry]
    ensures i == |list| ==> Put(list, entry) == list + [entry]
    ensures Lookup(list, entry.name).Some? <==> i < |list|
  {
    if list != [] && i > 0 {
      FirstIndexPutAndRemove(list[1..], entry, i - 1);
      assert list == [list[0]] + list[1..];
    }
  }

  method FindCached(list: seq<CachedService>, name: string) returns (i: nat)
    ensures i <= |list| && (i < |list| ==> list[i].name == name)
    ensures forall j :: 0 <= j < i ==> list[j].name != name
  {
    i := 0;
    while i < |list| && list[i].name != name
      invariant i <= |list|
      invariant forall j :: 0 <= j < i ==> list[j].name != name
    {
      i := i + 1;
    }
  }

  /** The answers List may give for the Services of a namespace. */
  ghost predicate IsServiceListing(listing: seq<Service>, services: map<NamespacedName, Service>, namespace: string) {
    && (forall i, j :: 0 <= i < j < |listing| ==> listing[i].key != listing[j].key)
    && (forall s :: s in listing <==> s.key in services && services[s.key] == s && s.key.namespace == namespace)
  }

  datatype TimedEntry = TimedEntry(entry: CachedService, lastAccess: Time)

  function Untimed(timed: seq<TimedEntry>): (list: seq<CachedService>)
    ensures |list| == |timed|
    ensures forall e :: e in list <==> exists t :: t in timed && t.entry == e
  {
    if timed == [] then [] else [timed[0].entry] + Untimed(timed[1..])
  }

  lemma {:induction false} UntimedAppend(timed: seq<TimedEntry>, t: TimedEntry)
    ensures Untimed(timed + [t]) == Untimed(timed) + [t.entry]
  {
    if timed != [] {
      assert (timed + [t])[1..] == timed[1..] + [t];
      UntimedAppend(timed[1..], t);
    }
  }

  predicate Fits(e: CachedService, services: map<NamespacedName, Service>, namespace: string) {
    var k := NamespacedName(namespace, e.name);
    k in services && Source(services[k]) && services[k].selector == e.selector
  }

  /** As many different keys as entries: the names are different. */
  lemma {:induction false} DistinctByCount(list: seq<CachedService>, namespace: string)
    requires |KeysOf(list, namespace)| == |list|
    ensures forall i, j :: 0 <= i < j < |list| ==> list[i].name != list[j].name
  {
    if list != [] {
      var head := NamespacedName(namespace, list[0].name);
      assert KeysOf(list, namespace) == KeysOf(list[1..], namespace) + {head};
      DistinctByCount(list[1..], namespace);
      forall j | 0 < j < |list| ensures list[j].name != list[0].name {
        assert list[1..][j - 1] == list[j] && list[j] in list[1..];
      }
    }
  }

  lemma KeysOfSameEntries(list: seq<CachedService>, other: seq<CachedService>, namespace: string)
    requires forall e :: e in list <==> e in other
    ensures KeysOf(list, namespace) == KeysOf(other, namespace)
  {
  }

  lemma SelectorsNotEmpty(list: seq<CachedService>, services: map<NamespacedName, Service>, namespace: string)
    requires forall e :: e in list ==> Fits(e, services, namespace)
    ensures forall e :: e in list ==> |e.selector| > 0
  {
    hide Enabled;
  }

  /** What a complete scan found agrees with the stored Services. */
  lemma ScanIsInSync(list: seq<CachedService>, services: map<NamespacedName, Service>, namespace: string)
    requires KeysOf(list, namespace) == SourceKeys(services, namespace) && |list| == |SourceKeys(services, namespace)|
    requires forall e :: e in list ==> Fits(e, services, namespace)
    ensures InSync(list, services, namespace)
  {
    hide KeysOf, SourceKeys, Source;
    DistinctByCount(list, namespace);
    SelectorsNotEmpty(list, services, namespace);
    forall n ensures Lookup(list, n) ==
        var k := NamespacedName(namespace, n);
        if k in services && Source(services[k]) then Some(services[k].selector) else None {
      LookupIsMembership(list, n);
      SourceIsListed(list, services, namespace, n);
    }
  }

  lemma SourceIsListed(list: seq<CachedService>, services: map<NamespacedName, Service>, namespace: string, n: string)
    requires KeysOf(list, namespace) == SourceKeys(services, namespace)
    ensures var k := NamespacedName(namespace, n);
            (k in services && Source(services[k])) <==> exists e :: e in list && e.name == n
  {
    hide Enabled;
    var k := NamespacedName(namespace, n);
    assert k in SourceKeys(services, namespace) <==> k in services && Source(services[k]);
    assert k in KeysOf(list, namespace) <==> exists e :: e in list && e.name == k.name;
  }

  /** Sorting and cutting what a scan found leaves what a refresh may leave. */
  lemma CutIsRefresh(all: seq<CachedService>, sorted: seq<CachedService>, services: map<NamespacedName, Service>, namespace: string, limit: nat)
    requires KeysOf(all, namespace) == SourceKeys(services, namespace) && |all| == |SourceKeys(services, namespace)|
    requires forall e :: e in all ==> Fits(e, services, namespace)
    requires |sorted| == |all| && forall e :: e in sorted <==> e in all
    ensures IsRefresh(if limit < |all| then sorted[..limit] else sorted, services, namespace, limit)
  {
    hide KeysOf, SourceKeys, Source, InSync;
    KeysOfSameEntries(all, sorted, namespace);
    if limit < |all| {
      DistinctByCount(sorted, namespace);
      SelectorsNotEmpty(sorted, services, namespace);
      assert forall e :: e in sorted[..limit] ==> e in sorted;
    } else {
      ScanIsInSync(sorted, services, namespace);
    }
  }

  /** More recently accessed entries come first. */
  predicate MoreRecent(t: TimedEntry, u: TimedEntry) {
    t.lastAccess > u.lastAccess
  }

  /** The scan after some of the listed Services: their sources, each once. */
  ghost predicate Scanned(timed: seq<TimedEntry>, found: set<NamespacedName>, services: map<NamespacedName, Service>, namespace: string) {
    && KeysOf(Untimed(timed), namespace) == found && |timed| == |found|
    && forall e :: e in Untimed(timed) ==> Fits(e, services, namespace)
  }

  lemma ScanOneMore(timed: seq<TimedEntry>, found: set<NamespacedName>, services: map<NamespacedName, Service>, namespace: string, t: TimedEntry)
    requires Scanned(timed, found, services, namespace) && Fits(t.entry, services, namespace)
    requires NamespacedName(namespace, t.entry.name) !in found
    ensures Scanned(timed + [t], found + {NamespacedName(namespace, t.entry.name)}, services, namespace)
  {
    hide Untimed, Fits, KeysOf;
    UntimedAppend(timed, t);
    KeysOfAppend(Untimed(timed), t.entry, namespace);
  }

  lemma KeysOfAppend(list: seq<CachedService>, e: CachedService, namespace: string)
    ensures KeysOf(list + [e], namespace) == KeysOf(list, namespace) + {NamespacedName(namespace, e.name)}
  {
    assert forall x :: x in list + [e] <==> x in list || x == e;
    assert e in list + [e];
  }

  /** The scanned entry of a source, dated when it is appended. */
  function Dated(svc: Service, at: Time): TimedEntry {
    TimedEntry(CachedService(svc.key.name, svc.selector), at)
  }

  ghost predicate DatedAsScanned(timed: seq<TimedEntry>, listing: seq<Service>, clock: seq<Time>)
    requires |clock| == |listing|
  {
    forall t :: t in timed <==> exists i :: 0 <= i < |listing| && Source(listing[i]) && t == Dated(listing[i], clock[i])
  }

  lemma DatedOneMore(timed: seq<TimedEntry>, more: seq<TimedEntry>, listing: seq<Service>, clock: seq<Time>, i: nat)
    requires i < |listing| == |clock| && DatedAsScanned(timed, listing[..i], clock[..i])
    requires more == if Source(listing[i]) then timed + [Dated(listing[i], clock[i])] else timed
    ensures DatedAsScanned(more, listing[..i + 1], clock[..i + 1])
  {
    hide Source, Dated;
    var l, c := listing[..i + 1], clock[..i + 1];
    forall t ensures t in more <==> exists j :: 0 <= j < |l| && Source(l[j]) && t == Dated(l[j], c[j]) {
      if t in timed {
        var j :| 0 <= j < i && Source(listing[..i][j]) && t == Dated(listing[..i][j], clock[..i][j]);
        assert l[j] == listing[..i][j] && c[j] == clock[..i][j];
      } else if t in more {
        assert l[i] == listing[i] && c[i] == clock[i];
      }
      if j :| 0 <= j < |l| && Source(l[j]) && t == Dated(l[j], c[j]) {
        if j < i { assert listing[..i][j] == l[j] && clock[..i][j] == c[j]; }
      }
    }
  }

  /** No source that is left out was scanned later than one that is kept. */
  ghost predicate KeepsTheLatest(list: seq<CachedService>, listing: seq<Service>, clock: seq<Time>)
    requires |clock| == |listing|
  {
    forall i, j :: 0 <= i < |listing| && 0 <= j < |listing| && Source(listing[i]) && Source(listing[j]) ==>
      Lookup(list, listing[i].key.name).Some? && Lookup(list, listing[j].key.name).None? ==> clock[j] <= clock[i]
  }

  lemma CutKeepsTheLatest(timed: seq<TimedEntry>, sorted: seq<TimedEntry>, listing: seq<Service>, clock: seq<Time>, namespace: string, limit: nat)
    requires |clock| == |listing| && DatedAsScanned(timed, listing, clock) && limit <= |sorted|
    requires (forall i, j :: 0 <= i < j < |listing| ==> listing[i].key != listing[j].key) && forall s :: s in listing ==> s.key.namespace == namespace
    requires Sorted(MoreRecent, sorted) && forall t :: t in sorted <==> t in timed
    ensures KeepsTheLatest(Untimed(sorted)[..limit], listing, clock)
  {
    hide Source, DatedAsScanned;
    var list := Untimed(sorted)[..limit];
    forall i, j | 0 <= i < |listing| && 0 <= j < |listing| && Source(listing[i]) && Source(listing[j])
                  && Lookup(list, listing[i].key.name).Some? && Lookup(list, listing[j].key.name).None?
      ensures clock[j] <= clock[i]
    {
      var p := IndexOfKept(sorted, limit, listing[i].key.name);
      ScannedAtItsTime(timed, listing, clock, namespace, sorted[p], i);
      var q := IndexOfScanned(timed, sorted, listing, clock, j);
      if q < limit { KeptIsKnown(sorted, limit, q); }
      assert !MoreRecent(sorted[q], sorted[p]);
    }
  }

  lemma IndexOfScanned(timed: seq<TimedEntry>, sorted: seq<TimedEntry>, listing: seq<Service>, clock: seq<Time>, j: nat) returns (q: nat)
    requires j < |listing| == |clock| && Source(listing[j]) && DatedAsScanned(timed, listing, clock) && forall t :: t in sorted <==> t in timed
    ensures q < |sorted| && sorted[q] == Dated(listing[j], clock[j])
  {
    hide Source;
    assert Dated(listing[j], clock[j]) in timed;
    q :| 0 <= q < |sorted| && sorted[q] == Dated(listing[j], clock[j]);
  }

  lemma ScannedAtItsTime(timed: seq<TimedEntry>, listing: seq<Service>, clock: seq<Time>, namespace: string, t: TimedEntry, i: nat)
    requires i < |listing| == |clock| && DatedAsScanned(timed, listing, clock) && t in timed && t.entry.name == listing[i].key.name
    requires (forall i, j :: 0 <= i < j < |listing| ==> listing[i].key != listing[j].key) && forall s :: s in listing ==> s.key.namespace == namespace
    ensures t.lastAccess == clock[i]
  {
    hide Source;
    var h :| 0 <= h < |listing| && Source(listing[h]) && t == Dated(listing[h], clock[h]);
    assert listing[h].key == NamespacedName(namespace, t.entry.name) == listing[i].key;
  }

  lemma {:induction false} UntimedAt(timed: seq<TimedEntry>, q: nat)
    requires q < |timed|
    ensures Untimed(timed)[q] == timed[q].entry
  {
    if q > 0 { UntimedAt(timed[1..], q - 1); }
  }

  lemma IndexOfKept(sorted: seq<TimedEntry>, limit: nat, name: string) returns (p: nat)
    requires limit <= |sorted| && Lookup(Untimed(sorted)[..limit], name).Some?
    ensures p < limit && sorted[p].entry.name == name
  {
    var list := Untimed(sorted)[..limit];
    LookupIsMembership(list, name);
    p :| 0 <= p < |list| && list[p].name == name;
    UntimedAt(sorted, p);
  }

  lemma KeptIsKnown(sorted: seq<TimedEntry>, limit: nat, q: nat)
    requires q < limit <= |sorted|
    ensures Lookup(Untimed(sorted)[..limit], sorted[q].entry.name).Some?
  {
    var list := Untimed(sorted)[..limit];
    UntimedAt(sorted, q);
    assert list[q] in list;
    LookupIsMembership(list, sorted[q].entry.name);
  }

  lemma UncutKeepsAll(timed: seq<TimedEntry>, listing: seq<Service>, clock: seq<Time>)
    requires |clock| == |listing| && DatedAsScanned(timed, listing, clock)
    ensures KeepsTheLatest(Untimed(timed), listing, clock)
  {
    hide Source, DatedAsScanned;
    forall j | 0 <= j < |listing| && Source(listing[j]) ensures Lookup(Untimed(timed), listing[j].key.name).Some? {
      var q := IndexOfScanned(timed, timed, listing, clock, j);
      assert Untimed(timed)[..|timed|] == Untimed(timed);
      KeptIsKnown(timed, |timed|, q);
    }
  }

  /** The entries of the sources among the listed Services, with the clock readings at their appending. */
  method CollectSources(listing: seq<Service>, clock: seq<Time>, ghost services: map<NamespacedName, Service>, namespace: string)
    returns (timed: seq<TimedEntry>)
    requires IsServiceListing(listing, services, namespace) && |clock| == |listing| && forall k :: k in services ==> services[k].key == k
    ensures Scanned(timed, SourceKeys(services, namespace), services, namespace) && DatedAsScanned(timed, listing, clock)
  {
    hide Enabled, Scanned, DatedAsScanned;
    timed := [];
    assert DatedAsScanned(timed, listing[..0], clock[..0]) by { NothingIsDated(); }
    ghost var found: set<NamespacedName> := {};
    assert Scanned(timed, found, services, namespace) by { EmptyScan(services, namespace); }
    for i := 0 to |listing|
      invariant found == set s | s in listing[..i] && Source(s) :: s.key
      invariant Scanned(timed, found, services, namespace) && DatedAsScanned(timed, listing[..i], clock[..i])
    {
      var svc := listing[i];
      DatedOneMore(timed, if Source(svc) then timed + [Dated(svc, clock[i])] else timed, listing, clock, i);
      assert svc in listing && listing[..i + 1] == listing[..i] + [svc];
      if !Enabled(svc) { continue; }
      if |svc.selector| == 0 { continue; }
      var t := TimedEntry(CachedService(svc.key.name, svc.selector), clock[i]);
      assert svc.key == NamespacedName(namespace, t.entry.name);
      ScanOneMore(timed, found, services, namespace, t);
      timed := timed + [t];
      found := found + {svc.key};
    }
    assert listing[..|listing|] == listing && clock[..|listing|] == clock;
    forall k | k in SourceKeys(services, namespace) ensures k in found { assert services[k] in listing; }
    assert found == SourceKeys(services, namespace);
  }

  lemma NothingIsDated()
    ensures DatedAsScanned([], [], [])
  {
  }

  lemma EmptyScan(services: map<NamespacedName, Service>, namespace: string)
    ensures Scanned([], {}, services, namespace)
  {
  }

  /** Lines 1643-1677 of updateOptedInServicesCacheLocked. A limit of 0 means none. */
  method ScanOptedIn(listing: seq<Service>, clock: seq<Time>, ghost services: map<NamespacedName, Service>, namespace: string, limit: nat)
    returns (list: seq<CachedService>)
    requires IsServiceListing(listing, services, namespace) && |clock| == |listing| && forall k :: k in services ==> services[k].key == k
    ensures IsRefresh(list, services, namespace, if limit > 0 then limit else |SourceKeys(services, namespace)|)
    ensures KeepsTheLatest(list, listing, clock)
  {
    hide IsRefresh, Fits, DatedAsScanned, KeepsTheLatest, Sorted, MoreRecent, Scanned, Orders;
    var timed := CollectSources(listing, clock, services, namespace);
    var sorted := timed;
    var cuts := limit > 0 && |timed| > limit;
    if cuts {
      MoreRecentOrders(timed);
      sorted := SortSlice(timed, MoreRecent);
      CutKeepsTheLatest(timed, sorted, listing, clock, namespace, limit);
    } else {
      UncutKeepsAll(timed, listing, clock);
    }
    CutScanIsRefresh(timed, sorted, services, namespace, if limit > 0 then limit else |SourceKeys(services, namespace)|);
    list := Untimed(sorted);
    if cuts { list := list[..limit]; }
  }

  lemma MoreRecentOrders(timed: seq<TimedEntry>)
    ensures Orders(MoreRecent, timed)
  {
  }

  lemma CutScanIsRefresh(timed: seq<TimedEntry>, sorted: seq<TimedEntry>, services: map<NamespacedName, Service>, namespace: string, limit: nat)
    requires Scanned(timed, SourceKeys(services, namespace), services, namespace)
    requires |sorted| == |timed| && forall t :: t in sorted <==> t in timed
    ensures |timed| == |SourceKeys(services, namespace)|
    ensures IsRefresh(if limit < |timed| then Untimed(sorted)[..limit] else Untimed(sorted), services, namespace, limit)
  {
    hide IsRefresh, Fits, KeysOf;
    CutIsRefresh(Untimed(timed), Untimed(sorted), services, namespace, limit);
  }

  lemma RequestsFrom(list: seq<CachedService>, i: nat, namespace: string, labels: StringMap)
    requires i < |list|
    ensures Requests(list[i..], namespace, labels) ==
            (if Selects(list[i].selector, labels) then [NamespacedName(namespace, list[i].name)] else []) + Requests(list[i + 1..], namespace, labels)
  {
    hide Selects;
    assert list[i..][1..] == list[i + 1..];
  }

  /** mapPodToService, once the list is there. */
  method MatchRequests(list: seq<CachedService>, namespace: string, labels: StringMap) returns (requests: seq<NamespacedName>)
    ensures requests == Requests(list, namespace, labels)
  {
    hide Requests, Selects;
    requests := [];
    assert list[0..] == list;
    for i := 0 to |list|
      invariant Requests(list, namespace, labels) == requests + Requests(list[i..], namespace, labels)
    {
      RequestsFrom(list, i, namespace, labels);
      if Selects(list[i].selector, labels) { requests := requests + [NamespacedName(namespace, list[i].name)]; }
    }
    assert list[|list|..] == [] && Requests([], namespace, labels) == [] by { NoRequests(namespace, labels); }
  }

  lemma NoRequests(namespace: string, labels: StringMap)
    ensures Requests([], namespace, labels) == []
  {
  }

  lemma CleanupReadsNoCache(store: Store, request: NamespacedName, a: Answers, refreshed: seq<CachedService>)
    ensures Cleanup(store, request, a.(refreshed := refreshed)) == Cleanup(store, request, a)
  {
  }

  /** One entry set and the others kept: that determines the cache. */
  lemma CacheIsDetermined(before: LeaderCache, after: LeaderCache, key: NamespacedName, pod: Pod, now: Time)
    requires before.Some? == after.Some?
    requires before.Some? ==>
               SameExcept(key, before.value, after.value) && key in after.value && after.value[key] == CachedLeader(pod, now + LEADER_POD_TTL)
    ensures after == CacheLeader(before, key, pod, now)
  {
    if before.Some? { assert after.value == before.value[key := CachedLeader(pod, now + LEADER_POD_TTL)]; }
  }

  lemma CacheIsForgotten(before: LeaderCache, after: LeaderCache, key: NamespacedName)
    requires before.Some? == after.Some?
    requires before.Some? ==> SameExcept(key, before.value, after.value) && key !in after.value
    ensures after == ForgetLeader(before, key)
  {
    if before.Some? { assert after.value == before.value - {key}; }
  }

  // ---------- The director ----------

  class ServiceDirector {
    const api: ApiServer
    /** At most this many Services per namespace are kept by a refresh; 0 means any number. */
    const maxCacheSize: nat
    var leaderPodCache: LeaderCache
    var optedInServices: OptedInCache

    ghost function Abstract(): Director
      reads this, api
    {
      Director(api.Contents(), leaderPodCache, optedInServices)
    }

    constructor (api: ApiServer, cacheEnabled: bool, maxCacheSize: nat)
      ensures this.api == api && this.maxCacheSize == maxCacheSize
      ensures leaderPodCache == (if cacheEnabled then Some(map[]) else None) && optedInServices == map[]
    {
      this.api, this.maxCacheSize := api, maxCacheSize;
      leaderPodCache, optedInServices := if cacheEnabled then Some(map[]) else None, map[];
    }

    // ----- The leader-pod cache -----

    /** For thirty seconds, and if the cache is on, lookups of the key find the pod as long as it is stored; other keys are as before. */
    method UpdateLeaderPodCache(key: NamespacedName, pod: Pod, now: Time)
      modifies this`leaderPodCache
      ensures leaderPodCache.Some? == old(leaderPodCache).Some?
      ensures leaderPodCache.Some? ==>
                && key in leaderPodCache.value && leaderPodCache.value[key] == CachedLeader(pod, now + 30_000_000_000)
                && SameExcept(key, old(leaderPodCache).value, leaderPodCache.value)
      ensures forall store, a: Answers :: CachedPod(store, leaderPodCache, key, a) ==
                if leaderPodCache.Some? && a.now < now + 30_000_000_000 && GetPodCached !in a.failing
                then PodWithUid(store, pod.key, pod.uid) else None
    {
      if leaderPodCache.Some? {
        leaderPodCache := Some(leaderPodCache.value[key := CachedLeader(pod, now + LEADER_POD_TTL)]);
      }
    }

    /** No lookup of the key finds a pod any more; other keys are as before. */
    method ClearLeaderPodCache(key: NamespacedName)
      modifies this`leaderPodCache
      ensures leaderPodCache.Some? == old(leaderPodCache).Some?
      ensures leaderPodCache.Some? ==> key !in leaderPodCache.value && SameExcept(key, old(leaderPodCache).value, leaderPodCache.value)
      ensures forall store, a: Answers :: CachedPod(store, leaderPodCache, key, a).None?
    {
      if leaderPodCache.Some? { leaderPodCache := Some(leaderPodCache.value - {key}); }
    }

    /** One tick of cleanupLeaderPodCache. */
    method CleanupLeaderPodCache(now: Time)
      modifies this`leaderPodCache
      ensures leaderPodCache == Sweep(old(leaderPodCache), now)
    {
      if leaderPodCache.None? { return; }
      var cache := leaderPodCache.value;
      var left := cache.Keys;
      while left != {}
        invariant leaderPodCache.Some? && left <= cache.Keys
        invariant forall k :: k in leaderPodCache.value <==> k in cache && (k in left || !(now > cache[k].expiresAt))
        invariant forall k :: k in leaderPodCache.value ==> leaderPodCache.value[k] == cache[k]
        decreases |left|
      {
        var k :| k in left;
        left := left - {k};
        if now > cache[k].expiresAt { leaderPodCache := Some(leaderPodCache.value - {k}); }
      }
      assert leaderPodCache.value == Sweep(Some(cache), now).value;
    }

    // ----- The current leader -----

    method GetCurrentLeaderPod(svc: Service, a: Answers) returns (pod: Option<Pod>)
      modifies this`leaderPodCache
      ensures (pod, leaderPodCache) == CurrentLeader(api.Contents(), old(leaderPodCache), svc, a)
    {
      hide LeaderServiceName;
      if leaderPodCache.Some? && svc.key in leaderPodCache.value {
        var cached := leaderPodCache.value[svc.key];
        if a.now < cached.expiresAt && GetPodCached !in a.failing && cached.pod.key in api.pods {
          if api.pods[cached.pod.key].uid == cached.pod.uid { return Some(api.pods[cached.pod.key]); }
        }
      }
      if GetSlice in a.failing || LeaderKey(svc) !in api.slices { return None; }
      var endpoints := api.slices[LeaderKey(svc)].body.endpoints;
      for i := 0 to |endpoints|
        invariant leaderPodCache == old(leaderPodCache)
        invariant ReferencedPod(api.Contents(), endpoints, a.failing) == ReferencedPod(api.Contents(), endpoints, a.failing, i)
      {
        if NamesPod(endpoints[i]) && GetPod(i) !in a.failing && endpoints[i].targetRef.value.pod in api.pods {
          var found := api.pods[endpoints[i].targetRef.value.pod];
          if found.uid == endpoints[i].targetRef.value.uid {
            UpdateLeaderPodCache(svc.key, found, a.now);
            CacheIsDetermined(old(leaderPodCache), leaderPodCache, svc.key, found, a.now);
            return Some(found);
          }
        }
      }
      ClearLeaderPodCache(svc.key);
      CacheIsForgotten(old(leaderPodCache), leaderPodCache, svc.key);
      return None;
    }

    /** selectLeaderPod. */
    method SelectLeaderPod(svc: Service, pods: seq<Pod>, bypass: bool, a: Answers) returns (leader: Option<Pod>)
      requires Distinct(pods)
      ensures leader == SelectLeader(svc, StickySlice(api.Contents(), svc, a), pods, bypass, a.now)
      ensures Interface.NotSticky(svc) || bypass ==> leader == Eldest(pods, MinReadyDuration(svc), a.now)
    {
      hide LeaderServiceName, MinReadyDuration;
      if Sticky(svc) && !bypass && GetSliceSticky !in a.failing && LeaderKey(svc) in api.slices {
        leader := FindSticky(api.slices[LeaderKey(svc)].body.endpoints, pods);
        if leader.Some? { return; }
      }
      leader := SelectEldest(pods, MinReadyDuration(svc), a.now);
    }

    /** Lines 375-452 of Reconcile. */
    method ChooseLeader(svc: Service, a: Answers) returns (leader: Option<Pod>)
      requires Distinct(a.listing)
      modifies this`leaderPodCache
      ensures (leader, leaderPodCache) == Reconciling.Choose(api.Contents(), old(leaderPodCache), svc, a)
    {
      hide LeaderServiceName, CurrentLeader, SelectLeader, IsPodReady;
      var current := GetCurrentLeaderPod(svc, a);
      var bypass := false;
      if current.Some? {
        var ready := CheckReady(current.value);
        if current.value.deletion.Some? || !ready || current.value.podIP == "" {
          bypass := true;
          ghost var read := leaderPodCache;
          ClearLeaderPodCache(svc.key);
          CacheIsForgotten(read, leaderPodCache, svc.key);
          current := None;
        }
      }
      leader := SelectLeaderPod(svc, a.listing, bypass, a);
      var changed := false;
      if current.Some? && leader.Some? {
        changed := current.value.uid != leader.value.uid;
      } else if current.None? != leader.None? {
        changed := true;
      }
      ghost var checked := leaderPodCache;
      if changed {
        if leader.Some? {
          UpdateLeaderPodCache(svc.key, leader.value, a.now);
          CacheIsDetermined(checked, leaderPodCache, svc.key, leader.value, a.now);
        } else {
          ClearLeaderPodCache(svc.key);
          CacheIsForgotten(checked, leaderPodCache, svc.key);
        }
      }
    }

    // ----- The leader Service and its slice -----

    ghost predicate Wrote(before: Store, changes: seq<Write>, ok: bool, o: Outcome)
      reads api
    {
      api.Contents() == o.store && api.changes == changes + o.writes && ok == o.ok
    }

    /** Lines 789-810. */
    method DropEndpointSlice(svc: Service, a: Answers)
      requires api.Valid()
      modifies api
      ensures api.Valid()
      ensures Wrote(old(api.Contents()), old(api.changes), true, DropSlice(old(api.Contents()), LeaderKey(svc), a))
    {
      hide LeaderServiceName;
      if GetSliceCleanup !in a.failing && LeaderKey(svc) in api.slices && RemoveSlice !in a.failing {
        api.DeleteSlice(api.slices[LeaderKey(svc)]);
      }
    }

    /** reconcileEndpointSlice. */
    method ReconcileEndpointSlice(svc: Service, leader: Option<Pod>, ports: seq<ServicePort>, a: Answers) returns (ok: bool)
      requires api.Valid()
      modifies api
      ensures api.Valid()
      ensures Wrote(old(api.Contents()), old(api.changes), ok, WriteSlice(old(api.Contents()), svc, leader, ports, a))
      ensures ok && LeaderKey(svc) !in old(api.slices) ==> LeaderKey(svc) in api.slices && Attachment.Attached(api.slices[LeaderKey(svc)])
    {
      hide LeaderServiceName, SliceLabels, LeaderBody;
      var key := LeaderKey(svc);
      Attachment.LabelsOfSlice(svc);
      if ports == [] && leader.Some? { return false; }
      var body := BuildSliceBody(leader, ports);
      if body.None? || GetSliceReconcile in a.failing { return false; }
      if key !in api.slices {
        var owner := if GetLeaderServiceUid !in a.failing && key in api.services then api.services[key].uid else "";
        if CreateSlice in a.failing { return false; }
        api.PutSlice(EndpointSlice(key, SliceLabels(svc), key.name, owner, body.value));
        return true;
      }
      var slice := api.slices[key].(body := body.value);
      if Call.PatchSlice in a.failing { return false; }
      api.PatchSlice(slice);
      return true;
    }

    /** Lines 818-945 of reconcileLeaderService. */
    method ReconcileService(svc: Service, leader: Option<Pod>, ports: seq<ServicePort>, a: Answers) returns (ok: bool)
      requires api.Valid()
      modifies api
      ensures api.Valid()
      ensures Wrote(old(api.Contents()), old(api.changes), ok, WriteLeaderService(old(api.Contents()), svc, leader, ports, a))
    {
      hide LeaderServiceName, NewLeaderService, UpdatedLeaderService;
      var key := LeaderKey(svc);
      if GetLeaderService in a.failing { return false; }
      if key !in api.services {
        var built := BuildLeaderService(svc, leader, ports, a.now, a.freshUid);
        if CreateLeaderService in a.failing { return false; }
        api.PutService(built);
      } else {
        var revised := ReviseLeaderService(api.services[key], svc, leader, ports, a.now);
        if PatchLeaderService in a.failing { return false; }
        api.PatchService(revised);
      }
      return true;
    }

    /** Lines 772-945: if the ports do not resolve, go on without leader and without ports. */
    method PublishLeaderService(svc: Service, chosen: Option<Pod>, a: Answers)
      returns (ok: bool, leader: Option<Pod>, ports: seq<ServicePort>)
      requires api.Valid()
      modifies api
      ensures api.Valid()
      ensures Wrote(old(api.Contents()), old(api.changes), ok, Publish(old(api.Contents()), svc, chosen, a))
      ensures leader == Routed(svc, chosen) && ports == RoutedPorts(svc, chosen)
    {
      hide LeaderServiceName, WriteLeaderService, DropSlice, ResolvePorts;
      leader := chosen;
      var resolved := ResolveServicePorts(svc, chosen);
      if resolved.Success? {
        ports := resolved.value;
      } else {
        DropEndpointSlice(svc, a);
        ports := [];
        leader := None;
      }
      ok := ReconcileService(svc, leader, ports, a);
    }

    method ReconcileLeaderService(svc: Service, chosen: Option<Pod>, a: Answers) returns (ok: bool)
      requires api.Valid()
      modifies api
      ensures api.Valid()
      ensures Wrote(old(api.Contents()), old(api.changes), ok, Route(old(api.Contents()), svc, chosen, a))
    {
      hide LeaderServiceName, Publish, WriteSlice, Routed, RoutedPorts;
      var leader, ports;
      ok, leader, ports := PublishLeaderService(svc, chosen, a);
      if ok { ok := ReconcileEndpointSlice(svc, leader, ports, a); }
    }

    /** cleanupLeaderResources. */
    method CleanupLeaderResources(request: NamespacedName, a: Answers) returns (ok: bool)
      requires api.Valid()
      modifies api
      ensures api.Valid()
      ensures Wrote(old(api.Contents()), old(api.changes), ok, Cleanup(old(api.Contents()), request, a))
    {
      hide LeaderServiceName;
      if GetServiceCleanup !in a.failing && request in api.services {
        var key := LeaderKey(api.services[request]);
        if GetLeaderServiceCleanup !in a.failing && key in api.services {
          if RemoveLeaderService in a.failing { return false; }
          api.DeleteService(api.services[key]);
        }
        return true;
      }
      if ListLeaderServices in a.failing { return true; }
      ghost var before, changes := api.Contents(), api.changes;
      ghost var whole := RemoveEach(before, a.labelled, a.failing);
      assert a.labelled[0..] == a.labelled;
      for i := 0 to |a.labelled|
        invariant api.Valid()
        invariant var rest := RemoveEach(api.Contents(), a.labelled[i..], a.failing);
                  rest.store == whole.store && api.changes + rest.writes == changes + whole.writes
      {
        assert a.labelled[i..][1..] == a.labelled[i + 1..];
        if RemoveByLabel(a.labelled[i].key) !in a.failing { api.DeleteService(a.labelled[i]); }
      }
      return true;
    }

    // ----- The opted-in cache -----

    function Limit(sources: nat): nat {
      if maxCacheSize > 0 then maxCacheSize else sources
    }

    method UpdateOptedInServicesCacheForService(svc: Service)
      modifies this`optedInServices
      ensures optedInServices == UpdateFor(old(optedInServices), svc)
    {
      var namespace, entry := svc.key.namespace, CachedService(svc.key.name, svc.selector);
      var list := Entries(optedInServices, namespace);
      var i := FindCached(list, svc.key.name);
      FirstIndexPutAndRemove(list, entry, i);
      if !Enabled(svc) || |svc.selector| == 0 {
        if i < |list| { optedInServices := optedInServices[namespace := list[..i] + list[i + 1..]]; }
      } else if i < |list| {
        optedInServices := optedInServices[namespace := list[i := entry]];
      } else {
        optedInServices := optedInServices[namespace := list + [entry]];
      }
    }

    /** updateOptedInServicesCacheLocked. */
    method UpdateOptedInServicesCache(namespace: string, listing: seq<Service>, clock: seq<Time>, a: Answers)
      returns (ghost refreshed: seq<CachedService>)
      requires api.Valid() && IsServiceListing(listing, api.services, namespace) && |clock| == |listing|
      modifies this`optedInServices
      ensures optedInServices == Refresh(old(optedInServices), namespace, a.(refreshed := refreshed))
      ensures IsRefresh(refreshed, api.services, namespace, Limit(|SourceKeys(api.services, namespace)|))
    {
      hide IsRefresh;
      var list := ScanOptedIn(listing, clock, api.services, namespace, maxCacheSize);
      refreshed := list;
      if ListServicesCache in a.failing { return; }
      optedInServices := optedInServices[namespace := list];
    }

    /** A pod event is mapped on the cached list, which is refreshed first if it is empty. */
    method MapPodToService(pod: Pod, listing: seq<Service>, clock: seq<Time>, a: Answers) returns (requests: seq<NamespacedName>)
      requires api.Valid() && IsServiceListing(listing, api.services, pod.key.namespace) && |clock| == |listing|
      modifies this`optedInServices
      ensures requests == Requests(Entries(optedInServices, pod.key.namespace), pod.key.namespace, pod.labels)
      ensures Entries(old(optedInServices), pod.key.namespace) != [] || ListServicesCache in a.failing ==> optedInServices == old(optedInServices)
      ensures forall n :: n != pod.key.namespace ==> Entries(optedInServices, n) == Entries(old(optedInServices), n)
      ensures var sources := |SourceKeys(api.services, pod.key.namespace)|;
              (Entries(old(optedInServices), pod.key.namespace) == [] && ListServicesCache !in a.failing && sources <= Limit(sources)) ==>
                && (forall k :: k in requests <==> k in api.services && Source(api.services[k]) && Matches(api.services[k], pod))
                && (forall i, j :: 0 <= i < j < |requests| ==> requests[i] != requests[j])
    {
      hide Enabled, Selects;
      var namespace := pod.key.namespace;
      if |Entries(optedInServices, namespace)| == 0 {
        ghost var refreshed := UpdateOptedInServicesCache(namespace, listing, clock, a);
        if ListServicesCache !in a.failing && |SourceKeys(api.services, namespace)| <= Limit(|SourceKeys(api.services, namespace)|) {
          RequestsAreTheListingSources(refreshed, api.services, pod);
        }
      }
      requests := MatchRequests(Entries(optedInServices, namespace), namespace, pod.labels);
    }

    // ----- Reconcile -----

    method Reconcile(request: NamespacedName, services: seq<Service>, clock: seq<Time>, a: Answers)
      returns (ok: bool, ghost refreshed: seq<CachedService>)
      requires api.Valid() && Distinct(a.listing)
      requires IsServiceListing(services, api.services, request.namespace) && |clock| == |services|
      modifies this, api
      ensures api.Valid()
      ensures var r := Reconciling.Reconcile(old(Abstract()), request, a.(refreshed := refreshed));
              Abstract() == r.director && api.changes == old(api.changes) + r.writes && ok == r.ok
      ensures var sources := |SourceKeys(old(api.services), request.namespace)|;
              GetService in a.failing || request !in old(api.services) ==>
                IsRefresh(refreshed, old(api.services), request.namespace, Limit(sources))
      ensures var d := old(Abstract());
              request in d.store.services && Source(d.store.services[request]) ==>
                (ok <==> && GetService !in a.failing && ValidNames(request) && ListPods !in a.failing
                         && Outcomes.CallsSucceed(d.store, d.store.services[request], Runs.Chosen(d, d.store.services[request], a).0, a))
    {
      hide LeaderServiceName, Route, Cleanup, UpdateFor, Reconciling.Choose, IsRefresh, Enabled, Outcomes.CallsSucceed;
      refreshed := a.refreshed;
      if request in api.services && Source(api.services[request]) { Outcomes.SourceSucceedsIff(Abstract(), request, a); }
      if GetService in a.failing || request !in api.services {
        refreshed := UpdateOptedInServicesCache(request.namespace, services, clock, a);
        if GetService in a.failing { return false, refreshed; }
        CleanupReadsNoCache(api.Contents(), request, a, refreshed);
        ok := CleanupLeaderResources(request, a);
        return;
      }
      var svc := api.services[request];
      UpdateOptedInServicesCacheForService(svc);
      if !Enabled(svc) {
        ok := CleanupLeaderResources(request, a);
        return;
      }
      if !IsDNS1123Label(request.namespace) || !IsDNS1123Subdomain(request.name) { return false, refreshed; }
      if |svc.selector| == 0 { return true, refreshed; }
      if ListPods in a.failing { return false, refreshed; }
      var leader: Option<Pod> := None;
      if a.listing != [] { leader := ChooseLeader(svc, a); }
      ok := ReconcileLeaderService(svc, leader, a);
    }
  }
}
