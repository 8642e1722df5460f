/**
 What users write and what other programs read: the annotations, labels and conditions of the API,
 spelled out, and what they do to selection, naming, watching and the objects written.
 */
module Interface {
  import opened Wrappers
  import opened Kube
  import opened Selection
  import opened Routing
  import opened OptedIn
  import opened Reconciling
  import opened Runs
  import opened SteadyState
  import opened Watches

  // ---------- Annotations of a source ----------

  /** A source is a Service annotated "true", with a selector. */
  lemma SourceAsAnnotated(svc: Service)
    ensures Source(svc) <==> ("zen-lead.io/enabled" in svc.annotations && svc.annotations["zen-lead.io/enabled"] == "true" && svc.selector != map[])
  {
  }

  predicate NotSticky(svc: Service) {
    "zen-lead.io/sticky" in svc.annotations && svc.annotations["zen-lead.io/sticky"] == "false"
  }

  /** Annotated sticky "false", a source gets the eldest eligible pod in every reconcile, whatever fails and whatever is cached. */
  lemma NotStickyGetsTheEldest(d: Director, svc: Service, a: Answers)
    requires NotSticky(svc)
    ensures Choose(d.store, d.leaderCache, svc, a).0 == Eldest(a.listing, MinReadyDuration(svc), a.now)
    ensures Choice(d.store, svc, a.listing, a.now) == Eldest(a.listing, MinReadyDuration(svc), a.now)
  {
    hide LeaderServiceName, CurrentLeader, Healthy, StickyLeader, Eldest, MinReadyDuration, TargetPod;
  }

  /** With any other value, or none, a listed target that is running, Ready, addressed and not terminating stays. */
  lemma StickyKeepsTheTarget(w: World, store: Store, svc: Service, listing: seq<Pod>, now: Time, pod: Pod)
    requires StoreOf(w, store) && IsListing(listing, store, svc) && !NotSticky(svc)
    requires TargetPod(store, LeaderKey(svc)) == Some(pod) && pod in listing
    requires pod.deletion.None? && pod.phase.Running? && ReportsReady(pod) && pod.podIP != ""
    ensures Choice(store, svc, listing, now) == Some(pod)
  {
    hide LeaderServiceName, StickyLeader, Eldest, MinReadyDuration;
    StickyHitIsTarget(w, store, svc, listing);
  }

  /** The minimum ready duration is what the annotation says; absent, empty, "0s" or not a duration, it is zero. */
  lemma DampedAsAnnotated(svc: Service)
    ensures var key := "zen-lead.io/min-ready-duration";
            MinReadyDuration(svc) ==
            if key in svc.annotations && svc.annotations[key] != "" && svc.annotations[key] != "0s" && ParseDuration(svc.annotations[key]).Some?
            then ParseDuration(svc.annotations[key]).value else 0
  {
  }

  /** A valid name asked for is used; else the leader Service is named after its source, with "-leader" if that is valid. */
  lemma NamedAsAnnotated(svc: Service)
    ensures var key, default := "zen-lead.io/leader-service-name", svc.key.name + "-leader";
            var asked := key in svc.annotations && svc.annotations[key] != "" && IsDNS1123Subdomain(svc.annotations[key]);
            LeaderKey(svc) == NamespacedName(svc.key.namespace,
              if asked then svc.annotations[key] else if IsDNS1123Subdomain(default) then default else svc.key.name)
  {
  }

  /** A Service's pods are those of its namespace that have every label of its selector. */
  lemma MatchesIff(svc: Service, pod: Pod)
    ensures Matches(svc, pod) <==>
              pod.key.namespace == svc.key.namespace && forall k :: k in svc.selector ==> Get(pod.labels, k) == Some(svc.selector[k])
  {
    if forall k :: k in svc.selector ==> Get(pod.labels, k) == Some(svc.selector[k]) {
      forall k | k in svc.selector ensures k in pod.labels && pod.labels[k] == svc.selector[k] {
        assert Get(pod.labels, k) == Some(svc.selector[k]);
      }
    }
  }

  // ---------- Readiness ----------

  /** A pod is Ready if it is running and its first condition of type "Ready" is True. */
  lemma ReadyIff(pod: Pod)
    ensures IsPodReady(pod) <==>
              pod.phase.Running? && exists i :: 0 <= i < |pod.conditions| && FirstOfType(pod.conditions, i) && pod.conditions[i].status.StatusTrue?
  {
    FirstReady(pod.conditions);
  }

  ghost predicate FirstOfType(conditions: seq<PodCondition>, i: nat)
    requires i < |conditions|
  {
    conditions[i].kind == "Ready" && forall j :: 0 <= j < i ==> conditions[j].kind != "Ready"
  }

  lemma {:induction false} FirstReady(conditions: seq<PodCondition>)
    ensures ReadyCondition(conditions).Some? ==>
              exists i :: 0 <= i < |conditions| && FirstOfType(conditions, i) && ReadyCondition(conditions).value == conditions[i]
    ensures forall i :: 0 <= i < |conditions| && FirstOfType(conditions, i) ==> ReadyCondition(conditions) == Some(conditions[i])
  {
    if conditions != [] {
      FirstReady(conditions[1..]);
      forall i | 0 <= i < |conditions| && FirstOfType(conditions, i) ensures ReadyCondition(conditions) == Some(conditions[i]) {
        if i > 0 {
          assert conditions[0].kind != "Ready";
          assert FirstOfType(conditions[1..], i - 1);
        }
      }
      if conditions[0].kind == "Ready" {
        assert FirstOfType(conditions, 0);
      } else if ReadyCondition(conditions).Some? {
        var i :| 0 <= i < |conditions[1..]| && FirstOfType(conditions[1..], i) && ReadyCondition(conditions[1..]).value == conditions[1..][i];
        assert conditions[1..][i] == conditions[i + 1];
        assert forall j :: 0 < j < i + 1 ==> conditions[j] == conditions[1..][j - 1];
        assert FirstOfType(conditions, i + 1);
      }
    }
  }

  ghost predicate FirstTrue(conditions: seq<PodCondition>, i: nat) {
    && i < |conditions| && conditions[i].kind == "Ready" && conditions[i].status.StatusTrue?
    && forall j :: 0 <= j < i ==> !(conditions[j].kind == "Ready" && conditions[j].status.StatusTrue?)
  }

  /** Readiness dates from the transition of the first condition of type "Ready" that is True, and from no time if none is. */
  lemma {:induction false} ReadySinceIff(conditions: seq<PodCondition>)
    ensures forall i: nat :: FirstTrue(conditions, i) ==> ReadySince(conditions) == Some(conditions[i].lastTransitionTime)
    ensures ReadySince(conditions).Some? ==> exists i: nat :: FirstTrue(conditions, i)
  {
    if conditions != [] {
      var rest := conditions[1..];
      ReadySinceIff(rest);
      assert forall j :: 0 <= j < |rest| ==> rest[j] == conditions[j + 1];
      if conditions[0].kind == "Ready" && conditions[0].status.StatusTrue? {
        assert FirstTrue(conditions, 0);
      } else {
        forall i: nat ensures FirstTrue(conditions, i + 1) <==> FirstTrue(rest, i) { TrueAtTail(conditions, i); }
        forall i: nat | FirstTrue(conditions, i) ensures ReadySince(conditions) == Some(conditions[i].lastTransitionTime) {
          assert i > 0 && FirstTrue(rest, i - 1);
        }
      }
    }
  }

  lemma TrueAtTail(conditions: seq<PodCondition>, i: nat)
    requires conditions != [] && !(conditions[0].kind == "Ready" && conditions[0].status.StatusTrue?)
    ensures FirstTrue(conditions, i + 1) <==> FirstTrue(conditions[1..], i)
  {
    var rest := conditions[1..];
    if FirstTrue(conditions, i + 1) { assert forall j :: 0 <= j < i ==> rest[j] == conditions[j + 1]; }
    if FirstTrue(rest, i) { assert forall j :: 0 < j < i + 1 ==> conditions[j] == rest[j - 1]; }
  }

  // ---------- Seniority ----------

  /** Strings compare at the first place where they differ; a prefix is less. */
  ghost predicate LessAt(a: string, b: string, n: nat) {
    n <= |a| && n < |b| && a[..n] == b[..n] && (n == |a| || a[n] < b[n])
  }

  lemma {:induction false} LexLessIff(a: string, b: string)
    ensures LexLess(a, b) <==> exists n: nat :: LessAt(a, b, n)
  {
    if b != [] {
      if a == [] || a[0] < b[0] {
        assert LessAt(a, b, 0);
      } else if a[0] == b[0] {
        LexLessIff(a[1..], b[1..]);
        if n: nat :| LessAt(a[1..], b[1..], n) {
          assert a[..n + 1] == [a[0]] + a[1..][..n] && b[..n + 1] == [b[0]] + b[1..][..n];
          assert LessAt(a, b, n + 1);
        }
        if n: nat :| LessAt(a, b, n) {
          assert n > 0;
          assert a[1..][..n - 1] == a[..n][1..] && b[1..][..n - 1] == b[..n][1..];
          assert LessAt(a[1..], b[1..], n - 1);
        }
      } else {
        forall n: nat ensures !LessAt(a, b, n) {
          if n > 0 && n <= |a| && n < |b| { assert a[..n][0] == a[0] && b[..n][0] == b[0]; }
        }
      }
    }
  }

  /** The earlier created pod is senior, and of pods created together the one with the lesser name. */
  lemma OlderIff(p: Pod, q: Pod)
    ensures Older(p, q) <==> p.creation < q.creation || (p.creation == q.creation && exists n: nat :: LessAt(p.key.name, q.key.name, n))
  {
    LexLessIff(p.key.name, q.key.name);
  }

  // ---------- Stickiness, endpoint by endpoint ----------

  /** The endpoint names this listed, Ready pod: no earlier listed pod has its UID. */
  ghost predicate Names(e: Endpoint, pods: seq<Pod>, i: nat)
    requires i < |pods|
  {
    && e.targetRef.Some? && e.targetRef.value.kind == "Pod" && e.targetRef.value.uid != "" && e.targetRef.value.uid == pods[i].uid
    && IsPodReady(pods[i]) && forall j :: 0 <= j < i ==> pods[j].uid != pods[i].uid
  }

  ghost predicate FirstAt(pods: seq<Pod>, uid: UID, i: nat) {
    i < |pods| && pods[i].uid == uid && forall j :: 0 <= j < i ==> pods[j].uid != uid
  }

  lemma FirstAtTail(pods: seq<Pod>, uid: UID, i: nat)
    requires pods != [] && pods[0].uid != uid
    ensures FirstAt(pods, uid, i + 1) <==> FirstAt(pods[1..], uid, i)
    ensures !FirstAt(pods, uid, 0)
  {
    if FirstAt(pods, uid, i + 1) { assert forall j :: 0 <= j < i ==> pods[1..][j] == pods[j + 1]; }
    if FirstAt(pods[1..], uid, i) { assert forall j :: 0 < j < i + 1 ==> pods[j] == pods[1..][j - 1]; }
  }

  lemma {:induction false} FirstWithUidIff(pods: seq<Pod>, uid: UID)
    ensures FirstWithUid(pods, uid).Some? ==> exists i: nat :: FirstAt(pods, uid, i) && FirstWithUid(pods, uid) == Some(pods[i])
    ensures forall i: nat :: FirstAt(pods, uid, i) ==> FirstWithUid(pods, uid) == Some(pods[i])
  {
    if pods != [] {
      if pods[0].uid == uid {
        assert FirstAt(pods, uid, 0);
      } else {
        FirstWithUidIff(pods[1..], uid);
        if FirstWithUid(pods, uid).Some? {
          var i: nat :| FirstAt(pods[1..], uid, i) && FirstWithUid(pods[1..], uid) == Some(pods[1..][i]);
          FirstAtTail(pods, uid, i);
        }
        forall i: nat | FirstAt(pods, uid, i) ensures FirstWithUid(pods, uid) == Some(pods[i]) {
          FirstAtTail(pods, uid, if i > 0 then i - 1 else 0);
        }
      }
    }
  }

  /** The pod an endpoint holds: the one it names. */
  function HeldBy(e: Endpoint, pods: seq<Pod>): Option<Pod> {
    var found := if NamesPod(e) then FirstWithUid(pods, e.targetRef.value.uid) else None;
    if found.Some? && IsPodReady(found.value) then found else None
  }

  lemma HeldByIff(e: Endpoint, pods: seq<Pod>)
    ensures HeldBy(e, pods).Some? ==> exists i :: 0 <= i < |pods| && Names(e, pods, i) && HeldBy(e, pods) == Some(pods[i])
    ensures forall i :: 0 <= i < |pods| && Names(e, pods, i) ==> HeldBy(e, pods) == Some(pods[i])
  {
    hide IsPodReady, FirstWithUid;
    if NamesPod(e) {
      var uid := e.targetRef.value.uid;
      FirstWithUidIff(pods, uid);
      forall i | 0 <= i < |pods| && Names(e, pods, i) ensures HeldBy(e, pods) == Some(pods[i]) { assert FirstAt(pods, uid, i); }
      if HeldBy(e, pods).Some? {
        var i: nat :| FirstAt(pods, uid, i) && FirstWithUid(pods, uid) == Some(pods[i]);
        assert Names(e, pods, i);
      }
    }
  }

  lemma StickyUnfolds(endpoints: seq<Endpoint>, pods: seq<Pod>)
    ensures StickyLeader(endpoints, pods) ==
            if endpoints == [] then None
            else if HeldBy(endpoints[0], pods).Some? then HeldBy(endpoints[0], pods) else StickyLeader(endpoints[1..], pods)
  {
    hide IsPodReady, FirstWithUid;
  }

  lemma {:induction false} StickyLeaderIsFirstHeld(endpoints: seq<Endpoint>, pods: seq<Pod>)
    ensures forall e :: 0 <= e < |endpoints| && HeldBy(endpoints[e], pods).Some? && (forall f :: 0 <= f < e ==> HeldBy(endpoints[f], pods).None?) ==>
              StickyLeader(endpoints, pods) == HeldBy(endpoints[e], pods)
    ensures (forall f :: 0 <= f < |endpoints| ==> HeldBy(endpoints[f], pods).None?) ==> StickyLeader(endpoints, pods).None?
  {
    hide HeldBy, StickyLeader;
    StickyUnfolds(endpoints, pods);
    if endpoints != [] {
      StickyLeaderIsFirstHeld(endpoints[1..], pods);
      forall e | 0 <= e < |endpoints| && HeldBy(endpoints[e], pods).Some? && (forall f :: 0 <= f < e ==> HeldBy(endpoints[f], pods).None?)
        ensures StickyLeader(endpoints, pods) == HeldBy(endpoints[e], pods) {
        if e > 0 {
          assert endpoints[1..][e - 1] == endpoints[e];
          assert forall f :: 0 <= f < e - 1 ==> endpoints[1..][f] == endpoints[f + 1];
        }
      }
      if forall f :: 0 <= f < |endpoints| ==> HeldBy(endpoints[f], pods).None? {
        assert forall f :: 0 <= f < |endpoints[1..]| ==> endpoints[1..][f] == endpoints[f + 1];
      }
    }
  }

  /** The held pod is the one named by the first endpoint that names any; there is none exactly if no endpoint names one. */
  lemma StickyLeaderIff(endpoints: seq<Endpoint>, pods: seq<Pod>)
    ensures forall e, i :: 0 <= e < |endpoints| && 0 <= i < |pods| && Names(endpoints[e], pods, i)
                           && (forall f, j :: 0 <= f < e && 0 <= j < |pods| ==> !Names(endpoints[f], pods, j)) ==>
              StickyLeader(endpoints, pods) == Some(pods[i])
    ensures (forall f, j :: 0 <= f < |endpoints| && 0 <= j < |pods| ==> !Names(endpoints[f], pods, j)) ==> StickyLeader(endpoints, pods).None?
  {
    hide HeldBy, StickyLeader, Names;
    StickyLeaderIsFirstHeld(endpoints, pods);
    forall f | 0 <= f < |endpoints|
      ensures HeldBy(endpoints[f], pods).Some? ==> exists j :: 0 <= j < |pods| && Names(endpoints[f], pods, j)
      ensures forall j :: 0 <= j < |pods| && Names(endpoints[f], pods, j) ==> HeldBy(endpoints[f], pods) == Some(pods[j]) {
      HeldByIff(endpoints[f], pods);
    }
  }

  // ---------- Ports by name ----------

  /** Port j of container i is the first of this name, container by container. */
  ghost predicate FirstPort(containers: seq<seq<ContainerPort>>, name: string, i: nat, j: nat) {
    && i < |containers| && j < |containers[i]| && containers[i][j].name == name
    && (forall k :: 0 <= k < j ==> containers[i][k].name != name)
    && (forall h, k :: 0 <= h < i && 0 <= k < |containers[h]| ==> containers[h][k].name != name)
  }

  ghost predicate FirstPortIn(ports: seq<ContainerPort>, name: string, j: nat) {
    j < |ports| && ports[j].name == name && forall k :: 0 <= k < j ==> ports[k].name != name
  }

  lemma {:induction false} FirstInContainerIff(ports: seq<ContainerPort>, name: string)
    ensures forall j: nat :: FirstPortIn(ports, name, j) ==> FirstInContainer(ports, name) == Some(ports[j].containerPort)
    ensures (forall j :: 0 <= j < |ports| ==> ports[j].name != name) <==> FirstInContainer(ports, name).None?
  {
    if ports != [] {
      FirstInContainerIff(ports[1..], name);
      assert forall k :: 0 <= k < |ports[1..]| ==> ports[1..][k] == ports[k + 1];
      forall j: nat | FirstPortIn(ports, name, j) ensures FirstInContainer(ports, name) == Some(ports[j].containerPort) {
        if j > 0 {
          assert ports[0].name != name;
          assert FirstPortIn(ports[1..], name, j - 1);
        }
      }
      if forall j :: 0 <= j < |ports| ==> ports[j].name != name { assert ports[0].name != name; }
      if FirstInContainer(ports, name).None? {
        forall j | 0 <= j < |ports| ensures ports[j].name != name {
          if j > 0 { assert ports[j] == ports[1..][j - 1]; }
        }
      }
    }
  }

  /** A named port stands for the first container port of that name, and for none exactly if no container has one. */
  lemma {:induction false} FirstNamedIff(containers: seq<seq<ContainerPort>>, name: string)
    ensures forall i: nat, j: nat :: FirstPort(containers, name, i, j) ==> FirstNamed(containers, name) == Some(containers[i][j].containerPort)
    ensures (forall i, j :: 0 <= i < |containers| && 0 <= j < |containers[i]| ==> containers[i][j].name != name) <==> FirstNamed(containers, name).None?
  {
    if containers != [] {
      FirstInContainerIff(containers[0], name);
      FirstNamedIff(containers[1..], name);
      assert forall h :: 0 <= h < |containers[1..]| ==> containers[1..][h] == containers[h + 1];
      forall i: nat, j: nat | FirstPort(containers, name, i, j) ensures FirstNamed(containers, name) == Some(containers[i][j].containerPort) {
        if i == 0 {
          assert FirstPortIn(containers[0], name, j);
        } else {
          assert FirstInContainer(containers[0], name).None?;
          assert FirstPort(containers[1..], name, i - 1, j);
        }
      }
      if FirstNamed(containers, name).None? {
        forall i, j | 0 <= i < |containers| && 0 <= j < |containers[i]| ensures containers[i][j].name != name {
          if i > 0 { assert containers[i] == containers[1..][i - 1]; }
        }
      }
    }
  }

  // ---------- What a slice says ----------

  /** For a leader with an address, in the family of that address; else without any, and ready only if a leader is. */
  lemma SliceSays(leader: Option<Pod>, ports: seq<ServicePort>)
    requires AllNumbered(ports)
    ensures var body := LeaderBody(leader, ports);
            && |body.endpoints| == 1
            && var e := body.endpoints[0];
               && (body.addressType == IPv6 <==> leader.Some? && leader.value.podIP != "" && ParsesAsIPv6(leader.value.podIP))
               && (leader.None? ==> e == Endpoint([], false, None, None))
               && (leader.Some? ==>
                     var pod := leader.value;
                     && (e.ready <==> ReportsReady(pod))
                     && (pod.podIP == "" ==> e.addresses == [] && e.nodeName.None? && e.targetRef.None?)
                     && (pod.podIP != "" ==>
                           && e.addresses == [pod.podIP] && e.targetRef == Some(TargetRef("Pod", pod.key, pod.uid))
                           && e.nodeName == if pod.nodeName == "" then None else Some(pod.nodeName)))
  {
  }

  // ---------- Events ----------

  /** A slice wakes its source if it is labelled as the director's, and nobody else. */
  lemma SliceWakesIff(slice: EndpointSlice, k: NamespacedName)
    ensures k in SliceRequests(slice) <==>
              && Get(slice.labels, "endpointslice.kubernetes.io/managed-by") == Some("zen-lead")
              && Get(slice.labels, "zen-lead.io/source-service") == Some(k.name) && k.namespace == slice.key.namespace
  {
  }

  /** A pod update is an event exactly if readiness, termination or address differ, or the phase does and one of the two is an end. */
  lemma UpdatePassesIff(before: Pod, after: Pod)
    ensures UpdatePasses(before, after) <==>
              || IsPodReady(before) != IsPodReady(after) || before.deletion.Some? != after.deletion.Some? || before.podIP != after.podIP
              || (before.phase != after.phase && {before.phase, after.phase} * {Failed, Succeeded} != {})
  {
    assert before.phase in {before.phase, after.phase} * {Failed, Succeeded} <==> before.phase.Failed? || before.phase.Succeeded?;
    assert after.phase in {before.phase, after.phase} * {Failed, Succeeded} <==> after.phase.Failed? || after.phase.Succeeded?;
  }

  /** The managed Services labelled for a source, spelled out. */
  lemma LabelledForIff(svc: Service, source: NamespacedName)
    ensures LabelledFor(svc, source) <==>
              && svc.key.namespace == source.namespace
              && Get(svc.labels, "app.kubernetes.io/managed-by") == Some("zen-lead") && Get(svc.labels, "zen-lead.io/source-service") == Some(source.name)
  {
  }
}
