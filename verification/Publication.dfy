/**
 A successful routing makes two separate writes, the leader Service and its EndpointSlice. They
 speak of the same pod and of the same ports.
 */
module Publication {
  import opened Wrappers
  import opened Kube
  import opened Routing
  import opened Reconciling
  import opened Runs

  /** The annotations that name the leader, and the one that dates the switch, as users read them. */
  const IDENTITY := {"zen-lead.io/current-leader", "zen-lead.io/leader-pod-name", "zen-lead.io/leader-pod-uid"}
  const SWITCHED := "zen-lead.io/leader-last-switch-time"

  predicate Says(m: StringMap, key: string, value: string) {
    key in m && m[key] == value
  }

  /** The annotations name this pod, by name twice and by UID. */
  predicate NamesLeader(svc: Service, pod: NamespacedName, uid: UID) {
    && Says(svc.annotations, "zen-lead.io/current-leader", pod.name)
    && Says(svc.annotations, "zen-lead.io/leader-pod-name", pod.name)
    && Says(svc.annotations, "zen-lead.io/leader-pod-uid", uid)
  }

  /** Each port of the slice is the number the leader Service's port of the same place targets. */
  ghost predicate SamePorts(slice: EndpointSlice, svc: Service) {
    && |slice.body.ports| == |svc.ports|
    && forall i :: 0 <= i < |svc.ports| ==>
         && svc.ports[i].targetPort == Number(slice.body.ports[i].port)
         && slice.body.ports[i].protocol == svc.ports[i].protocol
         && slice.body.ports[i].name == (if svc.ports[i].name == "" then None else Some(svc.ports[i].name))
  }

  /** The leader Service as a write for this leader leaves it, whether it was there or not. */
  ghost predicate Serves(before: map<NamespacedName, Service>, after: Service, svc: Service, leader: Option<Pod>, ports: seq<ServicePort>, a: Answers) {
    && after.key == LeaderKey(svc) && |after.selector| == 0 && after.ports == ports
    && (svc.headless || svc.kind == "" ==> after.kind == "ClusterIP") && (!svc.headless && svc.kind != "" ==> after.kind == svc.kind)
    && after.headless == (LeaderKey(svc) in before && before[LeaderKey(svc)].headless)
    && (leader.Some? ==> NamesLeader(after, leader.value.key, leader.value.uid))
    && (leader.None? && (LeaderKey(svc) !in before ==> svc.annotations.Keys !! IDENTITY) ==> after.annotations.Keys !! IDENTITY)
  }

  /** When the switch is dated anew: exactly if another pod leads than the annotations named. */
  ghost predicate Dated(before: Service, after: Service, leader: Option<Pod>, now: Time) {
    var unnamed := "zen-lead.io/leader-pod-uid" !in before.annotations;
    if leader.None? || (unnamed && leader.value.uid == "") || (!unnamed && before.annotations["zen-lead.io/leader-pod-uid"] == leader.value.uid) then
      && (SWITCHED in after.annotations <==> SWITCHED in before.annotations)
      && (SWITCHED in before.annotations ==> after.annotations[SWITCHED] == before.annotations[SWITCHED])
    else Says(after.annotations, SWITCHED, FormatTime(now))
  }

  lemma KeysDiffer()
    ensures ANNOTATION_CURRENT_LEADER != ANNOTATION_LEADER_POD_NAME && ANNOTATION_CURRENT_LEADER != ANNOTATION_LEADER_POD_UID
    ensures ANNOTATION_LEADER_POD_NAME != ANNOTATION_LEADER_POD_UID && ANNOTATION_LAST_SWITCH_TIME !in IDENTITY
    ensures SWITCHED == ANNOTATION_LAST_SWITCH_TIME && IDENTITY == {ANNOTATION_CURRENT_LEADER, ANNOTATION_LEADER_POD_NAME, ANNOTATION_LEADER_POD_UID}
  {
    assert ANNOTATION_CURRENT_LEADER[12] == 'c' && ANNOTATION_LEADER_POD_UID[12] == 'l';
    assert |ANNOTATION_LEADER_POD_NAME| == 27 && |ANNOTATION_LEADER_POD_UID| == 26 && |ANNOTATION_LAST_SWITCH_TIME| == 35;
  }

  lemma NewServes(before: map<NamespacedName, Service>, svc: Service, leader: Option<Pod>, ports: seq<ServicePort>, a: Answers)
    requires LeaderKey(svc) !in before
    ensures var n := NewLeaderService(svc, leader, ports, a.now, a.freshUid);
            && Serves(before, n, svc, leader, ports, a)
            && (leader.Some? ==> Says(n.annotations, SWITCHED, FormatTime(a.now)))
  {
    hide LeaderServiceName, LeaderServiceLabels;
    KeysDiffer();
  }

  /**
   A new leader Service has the labels and annotations of its source, but none that a GitOps tool
   tracks; the director adds two labels, and the annotations for the leader if there is one.
   */
  lemma NewInheritsAllButTracking(svc: Service, leader: Option<Pod>, ports: seq<ServicePort>, now: Time, uid: UID, k: string)
    ensures var n := NewLeaderService(svc, leader, ports, now, uid);
            var labels := {
              "app.kubernetes.io/instance", "app.kubernetes.io/part-of", "app.kubernetes.io/version", "argocd.argoproj.io/instance", "fluxcd.io/part-of",
              "kustomize.toolkit.fluxcd.io/name", "kustomize.toolkit.fluxcd.io/namespace", "kustomize.toolkit.fluxcd.io/revision" };
            var annotations := {
              "argocd.argoproj.io/sync-wave", "argocd.argoproj.io/sync-options", "fluxcd.io/sync-checksum", "kustomize.toolkit.fluxcd.io/checksum" };
            && Says(n.labels, "app.kubernetes.io/managed-by", "zen-lead") && Says(n.labels, "zen-lead.io/source-service", svc.key.name)
            && (k != "app.kubernetes.io/managed-by" && k != "zen-lead.io/source-service" ==>
                  Get(n.labels, k) == if k in labels then None else Get(svc.labels, k))
            && (leader.None? || (k !in IDENTITY && k != SWITCHED) ==>
                  Get(n.annotations, k) == if k in annotations then None else Get(svc.annotations, k))
  {
    hide LeaderServiceName, LeaderServiceKind;
    KeysDiffer();
    assert LABEL_MANAGED_BY[0] == 'a' && LABEL_SOURCE_SERVICE[0] == 'z';
  }

  lemma UpdatedServes(before: map<NamespacedName, Service>, svc: Service, leader: Option<Pod>, ports: seq<ServicePort>, a: Answers)
    requires LeaderKey(svc) in before && before[LeaderKey(svc)].key == LeaderKey(svc)
    ensures var stored := before[LeaderKey(svc)];
            var u := UpdatedLeaderService(stored, svc, leader, ports, a.now);
            && Serves(before, u, svc, leader, ports, a) && Dated(stored, u, leader, a.now) && u.labels == stored.labels && u.uid == stored.uid
            && forall k :: k !in IDENTITY && k != SWITCHED ==> Get(u.annotations, k) == Get(stored.annotations, k)
  {
    hide LeaderServiceName;
    KeysDiffer();
  }

  lemma CarriesSamePorts(slice: EndpointSlice, served: Service, svc: Service, chosen: Option<Pod>)
    requires Carries(slice, svc, chosen) && served.ports == RoutedPorts(svc, chosen)
    ensures SamePorts(slice, served)
  {
    hide Resolvable, ResolvePorts, RoutedPorts, Routed, LeaderEndpoint;
  }

  lemma CarriesTarget(slice: EndpointSlice, svc: Service, chosen: Option<Pod>)
    requires Carries(slice, svc, chosen) && Target(slice).Some?
    ensures Routed(svc, chosen).Some?
    ensures var pod := Routed(svc, chosen).value; Target(slice) == Some(TargetRef("Pod", pod.key, pod.uid))
  {
    hide Resolvable, ResolvePorts, RoutedPorts;
  }

  /**
   After a successful routing the leader Service and the slice agree: the annotations name the pod
   that the slice refers to, and the slice's ports are the numbers the Service's ports target.
   */
  lemma ServiceAndSliceAgree(store: Store, svc: Service, chosen: Option<Pod>, a: Answers)
    requires forall k :: k in store.slices ==> store.slices[k].key == k
    requires forall k :: k in store.services ==> store.services[k].key == k
    requires Route(store, svc, chosen, a).ok
    ensures var after, key := Route(store, svc, chosen, a).store, LeaderKey(svc);
            && key in after.services && key in after.slices
            && Serves(store.services, after.services[key], svc, Routed(svc, chosen), RoutedPorts(svc, chosen), a)
            && (key in store.services ==> Dated(store.services[key], after.services[key], Routed(svc, chosen), a.now))
            && SamePorts(after.slices[key], after.services[key])
            && (Target(after.slices[key]).Some? ==>
                  var target := Target(after.slices[key]).value; NamesLeader(after.services[key], target.pod, target.uid))
  {
    hide LeaderServiceName, WriteLeaderService, WriteSlice, Dated, Resolvable, Routed, RoutedPorts, LeaderBody, SamePorts, Target, NamesLeader, Carries,
      OnlyAt;
    var dropped := if Resolvable(svc.ports, chosen) then Outcome(store, [], true) else DropSlice(store, LeaderKey(svc), a);
    var published := Publish(store, svc, chosen, a);
    PublishedServes(dropped.store, svc, Routed(svc, chosen), RoutedPorts(svc, chosen), a);
    PublishWrites(store, svc, chosen, a);
    SliceWrites(published.store, svc, chosen, a);
    var after, key := Route(store, svc, chosen, a).store, LeaderKey(svc);
    CarriesSamePorts(after.slices[key], after.services[key], svc, chosen);
    if Target(after.slices[key]).Some? { CarriesTarget(after.slices[key], svc, chosen); }
  }

  lemma PublishedServes(store: Store, svc: Service, leader: Option<Pod>, ports: seq<ServicePort>, a: Answers)
    requires forall k :: k in store.services ==> store.services[k].key == k
    requires WriteLeaderService(store, svc, leader, ports, a).ok
    ensures var after, key := WriteLeaderService(store, svc, leader, ports, a).store, LeaderKey(svc);
            && key in after.services && Serves(store.services, after.services[key], svc, leader, ports, a)
            && (key in store.services ==> Dated(store.services[key], after.services[key], leader, a.now))
  {
    hide LeaderServiceName, NewLeaderService, UpdatedLeaderService, Serves, Dated;
    if LeaderKey(svc) in store.services {
      UpdatedServes(store.services, svc, leader, ports, a);
    } else {
      NewServes(store.services, svc, leader, ports, a);
    }
  }
}
