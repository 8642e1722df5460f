/**
 Which Service an EndpointSlice belongs to: kube-proxy reads that off one label. In every reachable
 state each slice belongs to the leader Service whose name it bears, and to no other.
 */
module Attachment {
  import opened Wrappers
  import opened Kube
  import opened Routing
  import opened OptedIn
  import opened Reconciling
  import opened Runs
  import opened Interleaving
  import opened Provenance
  import opened Wakeups

  /** The slice belongs to, and is owned by, the Service of its own name. */
  predicate Attached(slice: EndpointSlice) {
    && "kubernetes.io/service-name" in slice.labels && slice.labels["kubernetes.io/service-name"] == slice.key.name
    && slice.ownerName == slice.key.name
  }

  ghost predicate AllAttached(slices: map<NamespacedName, EndpointSlice>) {
    forall k :: k in slices ==> Attached(slices[k])
  }

  // ---------- A new slice ----------

  /** The labels of a new slice: those of the leader Service, and two that tie the slice to it and to the director. */
  lemma LabelsOfSlice(svc: Service)
    ensures var labels := SliceLabels(svc);
            && "kubernetes.io/service-name" in labels && labels["kubernetes.io/service-name"] == LeaderServiceName(svc)
            && "app.kubernetes.io/managed-by" in labels && labels["app.kubernetes.io/managed-by"] == "zen-lead"
            && "zen-lead.io/source-service" in labels && labels["zen-lead.io/source-service"] == svc.key.name
            && "endpointslice.kubernetes.io/managed-by" in labels && labels["endpointslice.kubernetes.io/managed-by"] == "zen-lead"
            && forall k :: k != "kubernetes.io/service-name" && k != "endpointslice.kubernetes.io/managed-by" ==>
                 Get(labels, k) == Get(LeaderServiceLabels(svc), k)
  {
    hide LeaderServiceName, GITOPS_LABELS;
    var a, k, z, e := "app.kubernetes.io/managed-by", "kubernetes.io/service-name", "zen-lead.io/source-service", "endpointslice.kubernetes.io/managed-by";
    assert a[0] == 'a' && k[0] == 'k' && z[0] == 'z' && e[0] == 'e';
  }

  /** A slice that is created belongs to the leader Service, and is owned by it under the UID it is stored with, if that can be read. */
  lemma NewSliceIsAttached(store: Store, svc: Service, leader: Option<Pod>, ports: seq<ServicePort>, a: Answers)
    requires LeaderKey(svc) !in store.slices && WriteSlice(store, svc, leader, ports, a).ok
    ensures var slices, key := WriteSlice(store, svc, leader, ports, a).store.slices, LeaderKey(svc);
            && key in slices && slices[key].key == key && Attached(slices[key])
            && slices[key].labels == SliceLabels(svc)
            && (GetLeaderServiceUid !in a.failing && key in store.services ==> slices[key].ownerUid == store.services[key].uid)
  {
    hide LeaderServiceName, SliceLabels, LeaderBody;
    LabelsOfSlice(svc);
  }

  /** Writing a slice, at once or some time after reading it, keeps every slice attached. */
  lemma WriteKeepsAttached(store: Store, svc: Service, leader: Option<Pod>, ports: seq<ServicePort>, a: Answers)
    requires AllAttached(store.slices)
    ensures AllAttached(WriteSlice(store, svc, leader, ports, a).store.slices)
  {
    hide LeaderServiceName, SliceLabels, LeaderBody;
    LabelsOfSlice(svc);
  }

  lemma SendKeepsAttached(store: Store, svc: Service, original: Option<EndpointSlice>, wanted: SliceBody, a: Answers)
    requires AllAttached(store.slices)
    ensures AllAttached(SendSlice(store, svc, original, wanted, a).store.slices)
  {
    hide LeaderServiceName, SliceLabels, MergePatch;
    LabelsOfSlice(svc);
  }

  // ---------- Runs ----------

  lemma RouteKeepsAttached(store: Store, svc: Service, chosen: Option<Pod>, a: Answers)
    requires AllAttached(store.slices)
    requires forall k :: k in store.slices ==> store.slices[k].key == k
    requires forall k :: k in store.services ==> store.services[k].key == k
    ensures AllAttached(Route(store, svc, chosen, a).store.slices)
  {
    hide LeaderServiceName, Publish, WriteSlice, Routed, RoutedPorts, OnlyAt, Attached;
    PublishWrites(store, svc, chosen, a);
    WriteKeepsAttached(Publish(store, svc, chosen, a).store, svc, Routed(svc, chosen), RoutedPorts(svc, chosen), a);
  }

  lemma StepKeepsAttached(w: World, d: Director, step: Step)
    requires StoreOf(w, d.store) && AllAttached(d.store.slices)
    ensures AllAttached(Next(d, step).store.slices)
  {
    hide LeaderServiceName, Reconcile, Route, Choose, Enabled, Attached, SingleEndpoint;
    if step.Reconciles? {
      ReconcileRoutesOrCleans(d, step.request, step.answers);
      if Routes(d, step.request, step.answers) {
        var svc := d.store.services[step.request];
        RouteKeepsAttached(d.store, svc, Runs.Chosen(d, svc, step.answers).0, step.answers);
      }
    }
  }

  /** Over every run of whole reconciles, whatever fails. */
  lemma {:induction false} AttachedOverRuns(w: World, d: Director, steps: seq<Step>)
    requires StoreOf(w, d.store) && AdmissibleRun(w, d, steps) && AllAttached(d.store.slices)
    ensures AllAttached(Run(d, steps).store.slices)
    decreases |steps|
  {
    hide Next, Admissible, AllAttached;
    if steps != [] {
      StoreStaysWellFormed(w, d, steps[0]);
      StepKeepsAttached(w, d, steps[0]);
      AttachedOverRuns(w, Next(d, steps[0]), steps[1..]);
    }
  }

  lemma ActKeepsAttached(w: World, s: System, act: Action)
    requires Possible(s, act) && NamesHeld(w, s) && AllAttached(s.store.slices)
    ensures AllAttached(Act(s, act).store.slices)
  {
    hide LeaderServiceName, Act, SendSlice, BodyFor, Attached, NamesHeld;
    if act.PatchSlice? {
      var p := s.workers[act.request];
      PatchSteps(s, act.request, act.answers);
      SendKeepsAttached(s.store, p.svc, p.original, BodyFor(p.svc, p.leader), act.answers);
    } else {
      OnlyPatchesPutSlices(w, s, act);
    }
  }

  /** In every state of every interleaved run each slice belongs to, and is owned by, the Service of the name it is stored under. */
  lemma {:induction false} EverySliceIsAttached(w: World, s: System, acts: seq<Action>)
    requires LeaderNamesDistinct(w) && NamesHeld(w, s) && AllAttached(s.store.slices) && AllowedRun(w, s, acts)
    ensures AllAttached(After(w, s, acts).store.slices)
    ensures var slices := After(w, s, acts).store.slices;
            forall k :: k in slices ==>
              slices[k].labels["kubernetes.io/service-name"] == k.name && slices[k].ownerName == k.name
    decreases |acts|
  {
    hide Act, Possible, Allowed;
    if acts != [] {
      NamesAreHeld(w, s, acts[0]);
      ActKeepsAttached(w, s, acts[0]);
      EverySliceIsAttached(w, Act(s, acts[0]), acts[1..]);
    }
  }
}
