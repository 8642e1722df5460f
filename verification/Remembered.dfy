/**
 The leader that is remembered: which pod counts as the current leader, what the leader-pod cache
 says after a selection, and what a sweep of it changes.
 */
module Remembered {
  import opened Wrappers
  import opened Kube
  import opened Selection
  import opened Reconciling

  // ---------- Finding the current leader ----------

  /** Endpoint i leads to this pod: it names it by name and UID, it is stored as such, and the read succeeds. */
  ghost predicate LeadsTo(store: Store, endpoints: seq<Endpoint>, failing: set<Call>, i: nat, pod: Pod)
    requires i < |endpoints|
  {
    var ref := endpoints[i].targetRef;
    && ref.Some? && ref.value.kind == "Pod" && ref.value.uid != "" && ref.value.uid == pod.uid
    && GetPod(i) !in failing && ref.value.pod in store.pods && store.pods[ref.value.pod] == pod
  }

  /** What one endpoint leads to. */
  function Found(store: Store, endpoints: seq<Endpoint>, failing: set<Call>, i: nat): Option<Pod>
    requires i < |endpoints|
  {
    if NamesPod(endpoints[i]) && GetPod(i) !in failing
    then PodWithUid(store, endpoints[i].targetRef.value.pod, endpoints[i].targetRef.value.uid) else None
  }

  lemma FoundIff(store: Store, endpoints: seq<Endpoint>, failing: set<Call>, i: nat, pod: Pod)
    requires i < |endpoints|
    ensures Found(store, endpoints, failing, i) == Some(pod) <==> LeadsTo(store, endpoints, failing, i, pod)
  {
  }

  lemma ReferencedUnfolds(store: Store, endpoints: seq<Endpoint>, failing: set<Call>, i: nat)
    requires i < |endpoints|
    ensures var found := Found(store, endpoints, failing, i);
            ReferencedPod(store, endpoints, failing, i) == if found.Some? then found else ReferencedPod(store, endpoints, failing, i + 1)
  {
  }

  ghost predicate NobodyLeads(store: Store, endpoints: seq<Endpoint>, failing: set<Call>, i: nat, j: nat) {
    forall h, p :: i <= h < j && h < |endpoints| ==> !LeadsTo(store, endpoints, failing, h, p)
  }

  /** The pod found is the one that the first endpoint leads to that leads to any; there is none exactly if none leads to any. */
  lemma {:induction false} ReferencedPodIff(store: Store, endpoints: seq<Endpoint>, failing: set<Call>, i: nat, pod: Pod)
    requires i <= |endpoints|
    ensures ReferencedPod(store, endpoints, failing, i) == Some(pod) <==>
              exists j :: i <= j < |endpoints| && LeadsTo(store, endpoints, failing, j, pod) && NobodyLeads(store, endpoints, failing, i, j)
    decreases |endpoints| - i
  {
    hide Found, LeadsTo, ReferencedPod;
    if i < |endpoints| {
      var found := Found(store, endpoints, failing, i);
      ReferencedUnfolds(store, endpoints, failing, i);
      ReferencedPodIff(store, endpoints, failing, i + 1, pod);
      forall p ensures found == Some(p) <==> LeadsTo(store, endpoints, failing, i, p) { FoundIff(store, endpoints, failing, i, p); }
      if found.Some? {
        assert found == Some(found.value);
      } else {
        forall j | i < j ensures NobodyLeads(store, endpoints, failing, i, j) <==> NobodyLeads(store, endpoints, failing, i + 1, j) {}
      }
    } else {
      NoneLeft(store, endpoints, failing, i);
    }
  }

  lemma NoneLeft(store: Store, endpoints: seq<Endpoint>, failing: set<Call>, i: nat)
    requires i == |endpoints|
    ensures ReferencedPod(store, endpoints, failing, i).None?
  {
  }

  /** The entry leads to this pod: it has not expired, and the pod is stored under the name and the UID it was cached with. */
  lemma CachedPodIff(store: Store, cache: LeaderCache, key: NamespacedName, a: Answers, pod: Pod)
    ensures CachedPod(store, cache, key, a) == Some(pod) <==>
              && cache.Some? && key in cache.value && GetPodCached !in a.failing && a.now < cache.value[key].expiresAt
              && Get(store.pods, cache.value[key].pod.key) == Some(pod) && pod.uid == cache.value[key].pod.uid
  {
  }

  /** The cache is asked first, then the slice; a slice without such a pod, or none, means that there is no leader. */
  lemma CurrentLeaderIff(store: Store, cache: LeaderCache, svc: Service, a: Answers, pod: Pod)
    ensures CurrentLeader(store, cache, svc, a).0 == Some(pod) <==>
              || CachedPod(store, cache, svc.key, a) == Some(pod)
              || (&& (forall p :: CachedPod(store, cache, svc.key, a) != Some(p)) && GetSlice !in a.failing && LeaderKey(svc) in store.slices
                  && ReferencedPod(store, store.slices[LeaderKey(svc)].body.endpoints, a.failing) == Some(pod))
  {
    hide LeaderServiceName, CachedPod, ReferencedPod;
    var c := CachedPod(store, cache, svc.key, a);
    if c.Some? { assert c == Some(c.value); }
  }

  // ---------- What is remembered after a selection ----------

  ghost predicate KeepsOthers(key: NamespacedName, before: LeaderCache, after: LeaderCache) {
    before.Some? == after.Some? && (before.Some? ==> SameExcept(key, before.value, after.value))
  }

  /** The entry leads to no pod, and the slice cannot be read or is not there. */
  predicate Unasked(store: Store, cache: LeaderCache, svc: Service, a: Answers) {
    CachedPod(store, cache, svc.key, a).None? && (GetSlice in a.failing || LeaderKey(svc) !in store.slices)
  }

  lemma CurrentIsRemembered(store: Store, cache: LeaderCache, svc: Service, a: Answers)
    ensures var (found, after) := CurrentLeader(store, cache, svc, a);
            && KeepsOthers(svc.key, cache, after)
            && (CachedPod(store, cache, svc.key, a).Some? ==> found == CachedPod(store, cache, svc.key, a) && after == cache)
            && (found.Some? && cache.Some? ==>
                  && svc.key in after.value && after.value[svc.key].pod.uid == found.value.uid
                  && (CachedPod(store, cache, svc.key, a).None? ==> after.value[svc.key].expiresAt == a.now + 30_000_000_000))
            && (Unasked(store, cache, svc, a) ==> found.None? && after == cache)
            && (found.None? && cache.Some? && !Unasked(store, cache, svc, a) ==> svc.key !in after.value)
  {
    hide LeaderServiceName;
  }

  /** The entry led to a healthy pod, and that pod is chosen. */
  predicate Confirmed(store: Store, cache: LeaderCache, svc: Service, a: Answers, leader: Pod) {
    var cached := CachedPod(store, cache, svc.key, a);
    cached.Some? && Healthy(cached.value) && cached.value.uid == leader.uid
  }

  /**
   The cache follows the selection. A chosen leader is remembered, by its UID, for thirty seconds
   from now, unless its entry was just confirmed, which stays as it is; when none is chosen nothing
   is remembered, unless nobody could be asked, and then all stays. Other Services' entries stay.
   */
  lemma SelectionIsRemembered(store: Store, cache: LeaderCache, svc: Service, a: Answers)
    ensures var (leader, after) := Choose(store, cache, svc, a);
            && KeepsOthers(svc.key, cache, after)
            && (leader.Some? && cache.Some? ==>
                  && svc.key in after.value && after.value[svc.key].pod.uid == leader.value.uid
                  && (if Confirmed(store, cache, svc, a, leader.value) then after == cache
                      else after.value[svc.key].expiresAt == a.now + 30_000_000_000))
            && (leader.None? && cache.Some? ==> if Unasked(store, cache, svc, a) then after == cache else svc.key !in after.value)
  {
    hide LeaderServiceName, CurrentLeader, SelectLeader, Healthy, IsPodReady, CachedPod;
    CurrentIsRemembered(store, cache, svc, a);
    var (found, read) := CurrentLeader(store, cache, svc, a);
    var bypass := found.Some? && !Healthy(found.value);
    var leader := SelectLeader(svc, StickySlice(store, svc, a), a.listing, bypass, a.now);
    assert Choose(store, cache, svc, a).0 == leader;
    if bypass { assert KeepsOthers(svc.key, cache, ForgetLeader(read, svc.key)); }
  }

  // ---------- Sweeps ----------

  /** A sweep removes the expired entries and nothing else, so lookups from then on are as without it. */
  lemma SweepRemovesTheExpired(cache: LeaderCache, now: Time)
    ensures cache.None? ==> Sweep(cache, now).None?
    ensures cache.Some? ==>
              && Sweep(cache, now).Some?
              && forall k :: Get(Sweep(cache, now).value, k) ==
                   if k in cache.value && cache.value[k].expiresAt < now then None else Get(cache.value, k)
    ensures forall store, k, a: Answers :: now <= a.now ==> CachedPod(store, Sweep(cache, now), k, a) == CachedPod(store, cache, k, a)
  {
  }
}
