/** Pod readiness and leader selection: pkg/director/service_director.go, lines 645-750 and 1337-1375. */
module Selection {
  import opened Wrappers
  import opened Kube

  const ANNOTATION_STICKY := "zen-lead.io/sticky"
  const ANNOTATION_MIN_READY := "zen-lead.io/min-ready-duration"

  /** time.ParseDuration; which strings it accepts plays no part in this model. */
  const ParseDuration: string -> Option<Time>

  // ---------- Readiness ----------

  /** The first condition of type Ready. */
  function ReadyCondition(conditions: seq<PodCondition>): Option<PodCondition> {
    if conditions == [] then None
    else if conditions[0].kind == "Ready" then Some(conditions[0])
    else ReadyCondition(conditions[1..])
  }

  predicate ReportsReady(pod: Pod) {
    ReadyCondition(pod.conditions).Some? && ReadyCondition(pod.conditions).value.status.StatusTrue?
  }

  predicate IsPodReady(pod: Pod) {
    pod.phase.Running? && ReportsReady(pod)
  }

  /** When the pod became Ready: the transition time of the first Ready condition that is True. */
  function ReadySince(conditions: seq<PodCondition>): Option<Time> {
    if conditions == [] then None
    else if conditions[0].kind == "Ready" && conditions[0].status.StatusTrue? then Some(conditions[0].lastTransitionTime)
    else ReadySince(conditions[1..])
  }

  /** The check that bypasses stickiness: not terminating, Ready, and addressed. */
  predicate Healthy(pod: Pod) {
    pod.deletion.None? && IsPodReady(pod) && pod.podIP != ""
  }

  // ---------- The Service's annotations ----------

  predicate Sticky(svc: Service) {
    !(ANNOTATION_STICKY in svc.annotations && svc.annotations[ANNOTATION_STICKY] == "false")
  }

  function MinReadyDuration(svc: Service): Time {
    if ANNOTATION_MIN_READY !in svc.annotations then 0
    else
      var text := svc.annotations[ANNOTATION_MIN_READY];
      if text == "" || text == "0s" then 0
      else if ParseDuration(text).Some? then ParseDuration(text).value else 0
  }

  // ---------- The order of seniority ----------

  /** Go's `<` on strings. */
  predicate LexLess(a: string, b: string) {
    b != [] && (a == [] || a[0] < b[0] || (a[0] == b[0] && LexLess(a[1..], b[1..])))
  }

  /** The order sort.Slice is given: creation time first, then name. */
  predicate Older(a: Pod, b: Pod) {
    a.creation < b.creation || (a.creation == b.creation && LexLess(a.key.name, b.key.name))
  }

  lemma {:induction false} LexLessTotal(a: string, b: string)
    ensures a == b || LexLess(a, b) || LexLess(b, a)
  {
    if a != [] && b != [] {
      LexLessTotal(a[1..], b[1..]);
      assert a == [a[0]] + a[1..] && b == [b[0]] + b[1..];
    }
  }

  lemma {:induction false} LexLessStrict(a: string, b: string)
    requires LexLess(a, b)
    ensures !LexLess(b, a)
  {
    if a != [] && a[0] == b[0] {
      LexLessStrict(a[1..], b[1..]);
    }
  }

  lemma {:induction false} LexLessTransitive(a: string, b: string, c: string)
    requires LexLess(a, b) && LexLess(b, c)
    ensures LexLess(a, c)
  {
    if a != [] && a[0] == b[0] == c[0] {
      LexLessTransitive(a[1..], b[1..], c[1..]);
    }
  }

  /** Among pods of one namespace with different names, Older is a strict total order. */
  lemma OlderIsStrictTotalOrder(a: Pod, b: Pod, c: Pod)
    requires a.key.namespace == b.key.namespace
    ensures !Older(a, a)
    ensures a.key != b.key ==> Older(a, b) != Older(b, a)
    ensures Older(a, b) && Older(b, c) ==> Older(a, c)
  {
    LexLessTotal(a.key.name, b.key.name);
    if LexLess(a.key.name, a.key.name) { LexLessStrict(a.key.name, a.key.name); }
    if LexLess(a.key.name, b.key.name) { LexLessStrict(a.key.name, b.key.name); }
    if LexLess(a.key.name, b.key.name) && LexLess(b.key.name, c.key.name) {
      LexLessTransitive(a.key.name, b.key.name, c.key.name);
    }
  }

  // ---------- Selection ----------

  /** Ready, and for at least the minimum duration when one is set (flap damping). */
  predicate Eligible(pod: Pod, minReady: Time, now: Time) {
    IsPodReady(pod) &&
    (minReady > 0 ==>
       var since := ReadySince(pod.conditions);
       since.Some? && now - since.value >= minReady)
  }

  /** The eligible pod that no eligible pod precedes. */
  function Eldest(pods: seq<Pod>, minReady: Time, now: Time): (r: Option<Pod>)
    ensures r.Some? ==> r.value in pods && Eligible(r.value, minReady, now)
    ensures r.None? ==> forall p :: p in pods ==> !Eligible(p, minReady, now)
  {
    if pods == [] then None
    else
      var rest := Eldest(pods[1..], minReady, now);
      if !Eligible(pods[0], minReady, now) then rest
      else if rest.Some? && Older(rest.value, pods[0]) then rest
      else Some(pods[0])
  }

  function FirstWithUid(pods: seq<Pod>, uid: UID): (r: Option<Pod>)
    ensures r.Some? ==> r.value in pods && r.value.uid == uid
    ensures r.None? ==> forall p :: p in pods ==> p.uid != uid
  {
    if pods == [] then None
    else if pods[0].uid == uid then Some(pods[0])
    else FirstWithUid(pods[1..], uid)
  }

  predicate NamesPod(e: Endpoint) {
    e.targetRef.Some? && e.targetRef.value.kind == "Pod" && e.targetRef.value.uid != ""
  }

  /** The first listed pod that is Ready and that an endpoint names by UID. */
  function StickyLeader(endpoints: seq<Endpoint>, pods: seq<Pod>): (r: Option<Pod>)
    ensures r.Some? ==> r.value in pods && IsPodReady(r.value)
  {
    if endpoints == [] then None
    else
      var found := if NamesPod(endpoints[0]) then FirstWithUid(pods, endpoints[0].targetRef.value.uid) else None;
      if found.Some? && IsPodReady(found.value) then found
      else StickyLeader(endpoints[1..], pods)
  }

  /** selectLeaderPod, given what its read of the EndpointSlice returned. */
  function SelectLeader(svc: Service, slice: Option<EndpointSlice>, pods: seq<Pod>, bypass: bool, now: Time): (r: Option<Pod>)
    ensures r.Some? ==> r.value in pods && IsPodReady(r.value)
  {
    var kept := if Sticky(svc) && !bypass && slice.Some? then StickyLeader(slice.value.body.endpoints, pods) else None;
    if kept.Some? then kept else Eldest(pods, MinReadyDuration(svc), now)
  }

  // ---------- Selection does not depend on the order of the listing ----------

  /** Pods of one namespace with different names and different UIDs. */
  ghost predicate Distinct(pods: seq<Pod>) {
    && DistinctKeys(pods)
    && (forall p, q :: p in pods && q in pods && p.uid == q.uid ==> p == q)
    && (forall p, q :: p in pods && q in pods ==> p.key.namespace == q.key.namespace)
  }

  lemma DistinctKeysOf(pods: seq<Pod>, p: Pod, q: Pod)
    requires DistinctKeys(pods) && p in pods && q in pods && p.key == q.key
    ensures p == q
  {
    var i :| 0 <= i < |pods| && pods[i] == p;
    var j :| 0 <= j < |pods| && pods[j] == q;
    assert !(i < j) && !(j < i);
  }

  /** r is senior to every other eligible pod. */
  ghost predicate IsEldest(r: Pod, pods: seq<Pod>, minReady: Time, now: Time) {
    && r in pods && Eligible(r, minReady, now)
    && (forall q :: q in pods && Eligible(q, minReady, now) && q != r ==> Older(r, q))
  }

  lemma {:induction false} EldestIsEldest(pods: seq<Pod>, minReady: Time, now: Time)
    requires Distinct(pods)
    ensures var r := Eldest(pods, minReady, now); r.Some? ==> IsEldest(r.value, pods, minReady, now)
  {
    if pods != [] {
      assert Distinct(pods[1..]);
      EldestIsEldest(pods[1..], minReady, now);
      var r, rest := Eldest(pods, minReady, now), Eldest(pods[1..], minReady, now);
      if r.Some? {
        forall q | q in pods && Eligible(q, minReady, now) && q != r.value
          ensures Older(r.value, q)
        {
          if r == rest {
            assert q == pods[0] || q in pods[1..];
            if Eligible(pods[0], minReady, now) { OlderIsStrictTotalOrder(pods[0], r.value, r.value); }
          } else {
            assert q in pods[1..];
            OlderIsStrictTotalOrder(pods[0], rest.value, q);
          }
        }
      }
    }
  }

  lemma EldestIsUnique(r: Pod, s: Pod, pods: seq<Pod>, minReady: Time, now: Time)
    requires Distinct(pods) && IsEldest(r, pods, minReady, now) && IsEldest(s, pods, minReady, now)
    ensures r == s
  {
    if r != s {
      if r.key == s.key { DistinctKeysOf(pods, r, s); }
      OlderIsStrictTotalOrder(r, s, r);
    }
  }

  ghost predicate SameMembers(pods: seq<Pod>, others: seq<Pod>) {
    forall p :: p in pods <==> p in others
  }

  lemma EldestIgnoresOrder(pods: seq<Pod>, others: seq<Pod>, minReady: Time, now: Time)
    requires Distinct(pods) && Distinct(others) && SameMembers(pods, others)
    ensures Eldest(pods, minReady, now) == Eldest(others, minReady, now)
  {
    EldestIsEldest(pods, minReady, now);
    EldestIsEldest(others, minReady, now);
    var r, s := Eldest(pods, minReady, now), Eldest(others, minReady, now);
    if r.Some? && s.Some? {
      assert IsEldest(s.value, pods, minReady, now);
      EldestIsUnique(r.value, s.value, pods, minReady, now);
    }
  }

  lemma {:induction false} StickyLeaderIgnoresOrder(endpoints: seq<Endpoint>, pods: seq<Pod>, others: seq<Pod>)
    requires Distinct(pods) && Distinct(others) && SameMembers(pods, others)
    ensures StickyLeader(endpoints, pods) == StickyLeader(endpoints, others)
  {
    if endpoints != [] {
      StickyLeaderIgnoresOrder(endpoints[1..], pods, others);
    }
  }

  /**
   Deterministic selection. Without a sticky hit the leader is the one eligible pod senior to
   all others, and there is none exactly when no pod is eligible.
   */
  lemma SelectionIsDeterministic(svc: Service, slice: Option<EndpointSlice>, pods: seq<Pod>, bypass: bool, now: Time)
    requires Distinct(pods)
    requires !Sticky(svc) || bypass || slice.None? || StickyLeader(slice.value.body.endpoints, pods).None?
    ensures var r, d := SelectLeader(svc, slice, pods, bypass, now), MinReadyDuration(svc);
            && (r.None? <==> forall p :: p in pods ==> !Eligible(p, d, now))
            && (forall p :: r == Some(p) <==> IsEldest(p, pods, d, now))
  {
    var d := MinReadyDuration(svc);
    EldestIsEldest(pods, d, now);
    forall p | IsEldest(p, pods, d, now)
      ensures SelectLeader(svc, slice, pods, bypass, now) == Some(p)
    {
      EldestIsUnique(Eldest(pods, d, now).value, p, pods, d, now);
    }
  }

  /** Permuting the listed pods never changes the leader, sticky or not. */
  lemma SelectionIgnoresOrder(svc: Service, slice: Option<EndpointSlice>, pods: seq<Pod>, others: seq<Pod>, bypass: bool, now: Time)
    requires Distinct(pods) && Distinct(others)
    requires multiset(pods) == multiset(others) || SameMembers(pods, others)
    ensures SelectLeader(svc, slice, pods, bypass, now) == SelectLeader(svc, slice, others, bypass, now)
  {
    assert SameMembers(pods, others) by {
      if multiset(pods) == multiset(others) {
        forall p ensures p in pods <==> p in others {
          assert p in pods <==> p in multiset(pods);
          assert p in others <==> p in multiset(others);
        }
      }
    }
    EldestIgnoresOrder(pods, others, MinReadyDuration(svc), now);
    if slice.Some? { StickyLeaderIgnoresOrder(slice.value.body.endpoints, pods, others); }
  }
}
