/**
 The cache of opted-in Services, one list per namespace, and the mapping from pods to the
 Services to reconcile: pkg/director/service_director.go, lines 1505-1578, 1620-1759.

 Each list is specified by a map from Service name to selector. The methods that maintain the
 lists are in ServiceDirector.dfy.
 */
module OptedIn {
  import opened Wrappers
  import opened Kube

  const ANNOTATION_ENABLED := "zen-lead.io/enabled"

  datatype CachedService = CachedService(name: string, selector: StringMap)

  type OptedInCache = map<string, seq<CachedService>>

  predicate Enabled(svc: Service) {
    ANNOTATION_ENABLED in svc.annotations && svc.annotations[ANNOTATION_ENABLED] == "true"
  }

  /** A Service whose pods are watched: enabled, and with a selector. */
  predicate Source(svc: Service) {
    Enabled(svc) && |svc.selector| > 0
  }

  function Entries(cache: OptedInCache, namespace: string): seq<CachedService> {
    if namespace in cache then cache[namespace] else []
  }

  // ---------- Updates of one list ----------

  function Remove(list: seq<CachedService>, name: string): seq<CachedService> {
    if list == [] then []
    else if list[0].name == name then list[1..]
    else [list[0]] + Remove(list[1..], name)
  }

  function Put(list: seq<CachedService>, entry: CachedService): seq<CachedService> {
    if list == [] then [entry]
    else if list[0].name == entry.name then [entry] + list[1..]
    else [list[0]] + Put(list[1..], entry)
  }

  /** The list read as a map: the selector cached for a name, if any. */
  function Lookup(list: seq<CachedService>, name: string): Option<StringMap> {
    if list == [] then None
    else if list[0].name == name then Some(list[0].selector)
    else Lookup(list[1..], name)
  }

  /** updateOptedInServicesCacheForService. */
  function UpdateFor(cache: OptedInCache, svc: Service): OptedInCache {
    var list := Entries(cache, svc.key.namespace);
    if Source(svc) then cache[svc.key.namespace := Put(list, CachedService(svc.key.name, svc.selector))]
    else if Lookup(list, svc.key.name).Some? then cache[svc.key.namespace := Remove(list, svc.key.name)]
    else cache
  }

  // ---------- A list as a map ----------

  ghost predicate WellFormed(list: seq<CachedService>) {
    && (forall i, j :: 0 <= i < j < |list| ==> list[i].name != list[j].name)
    && (forall e :: e in list ==> |e.selector| > 0)
  }

  lemma HeadNameIsUnique(list: seq<CachedService>)
    requires WellFormed(list) && list != []
    ensures WellFormed(list[1..])
    ensures forall e :: e in list[1..] ==> e.name != list[0].name
  {
    forall e | e in list[1..] ensures e.name != list[0].name {
      var i :| 0 <= i < |list[1..]| && list[1..][i] == e;
      assert list[i + 1] == e;
    }
  }

  lemma {:induction false} LookupIsMembership(list: seq<CachedService>, name: string)
    ensures Lookup(list, name).Some? <==> exists e :: e in list && e.name == name
    ensures Lookup(list, name).Some? ==> CachedService(name, Lookup(list, name).value) in list
    ensures WellFormed(list) ==> forall e :: e in list && e.name == name ==> Lookup(list, name) == Some(e.selector)
  {
    if list != [] {
      LookupIsMembership(list[1..], name);
      assert list == [list[0]] + list[1..];
      if WellFormed(list) {
        HeadNameIsUnique(list);
      }
    }
  }

  lemma ConsIsWellFormed(e: CachedService, rest: seq<CachedService>)
    requires WellFormed(rest) && |e.selector| > 0 && forall x :: x in rest ==> x.name != e.name
    ensures WellFormed([e] + rest)
  {
    var list := [e] + rest;
    forall i, j | 0 <= i < j < |list| ensures list[i].name != list[j].name {
      assert list[j] == rest[j - 1] && rest[j - 1] in rest;
      if i > 0 { assert list[i] == rest[i - 1]; }
    }
  }

  lemma LookupOfCons(e: CachedService, rest: seq<CachedService>, n: string)
    ensures Lookup([e] + rest, n) == if e.name == n then Some(e.selector) else Lookup(rest, n)
  {
    assert ([e] + rest)[1..] == rest;
  }

  lemma {:induction false} RemoveIsMapRemove(list: seq<CachedService>, name: string, n: string)
    requires WellFormed(list)
    ensures WellFormed(Remove(list, name))
    ensures forall e :: e in Remove(list, name) ==> e in list
    ensures Lookup(Remove(list, name), n) == if n == name then None else Lookup(list, n)
  {
    if list != [] {
      HeadNameIsUnique(list);
      assert list[0] in list;
      if list[0].name != name {
        RemoveIsMapRemove(list[1..], name, n);
        ConsIsWellFormed(list[0], Remove(list[1..], name));
        LookupOfCons(list[0], Remove(list[1..], name), n);
      } else {
        LookupIsMembership(list[1..], name);
      }
    }
  }

  lemma {:induction false} PutIsMapPut(list: seq<CachedService>, entry: CachedService, n: string)
    requires WellFormed(list) && |entry.selector| > 0
    ensures WellFormed(Put(list, entry))
    ensures forall e :: e in Put(list, entry) ==> e == entry || e in list
    ensures Lookup(Put(list, entry), n) == if n == entry.name then Some(entry.selector) else Lookup(list, n)
  {
    if list == [] {
      ConsIsWellFormed(entry, []);
    } else {
      HeadNameIsUnique(list);
      assert list[0] in list;
      if list[0].name != entry.name {
        PutIsMapPut(list[1..], entry, n);
        ConsIsWellFormed(list[0], Put(list[1..], entry));
        LookupOfCons(list[0], Put(list[1..], entry), n);
      } else {
        ConsIsWellFormed(entry, list[1..]);
        LookupOfCons(entry, list[1..], n);
      }
    }
  }

  ghost predicate CacheWellFormed(cache: OptedInCache) {
    forall ns :: ns in cache ==> WellFormed(cache[ns])
  }

  /** A single-Service update is a map put for a source and a map removal for any other Service. */
  lemma UpdateForRefinesMap(cache: OptedInCache, svc: Service, namespace: string, name: string)
    requires CacheWellFormed(cache)
    ensures CacheWellFormed(UpdateFor(cache, svc))
    ensures Lookup(Entries(UpdateFor(cache, svc), namespace), name) ==
            if NamespacedName(namespace, name) != svc.key then Lookup(Entries(cache, namespace), name)
            else if Source(svc) then Some(svc.selector) else None
  {
    var list := Entries(cache, svc.key.namespace);
    if Source(svc) {
      PutIsMapPut(list, CachedService(svc.key.name, svc.selector), name);
    } else {
      RemoveIsMapRemove(list, svc.key.name, name);
    }
  }

  // ---------- Refresh from a scan ----------

  ghost function SourceKeys(services: map<NamespacedName, Service>, namespace: string): set<NamespacedName> {
    set k | k in services && k.namespace == namespace && Source(services[k])
  }

  /** The cache agrees with the Services stored in a namespace. */
  ghost predicate InSync(list: seq<CachedService>, services: map<NamespacedName, Service>, namespace: string) {
    && WellFormed(list)
    && forall n :: Lookup(list, n) ==
         var k := NamespacedName(namespace, n);
         if k in services && Source(services[k]) then Some(services[k].selector) else None
  }

  /**
   What a refresh leaves: every source the scan found, or, when there are more of them than
   the limit, as many as the limit allows (which ones depends on how clock readings tie).
   */
  ghost predicate IsRefresh(list: seq<CachedService>, services: map<NamespacedName, Service>, namespace: string, limit: nat) {
    if |SourceKeys(services, namespace)| <= limit then InSync(list, services, namespace)
    else
      && WellFormed(list) && |list| == limit
      && forall e :: e in list ==>
           var k := NamespacedName(namespace, e.name);
           k in services && Source(services[k]) && services[k].selector == e.selector
  }

  function KeysOf(list: seq<CachedService>, namespace: string): (keys: set<NamespacedName>)
    ensures |keys| <= |list|
    ensures forall k :: k in keys <==> k.namespace == namespace && exists e :: e in list && e.name == k.name
  {
    if list == [] then {}
    else
      var head := NamespacedName(namespace, list[0].name);
      assert head in KeysOf(list[1..], namespace) ==> KeysOf(list[1..], namespace) + {head} == KeysOf(list[1..], namespace);
      KeysOf(list[1..], namespace) + {head}
  }

  /** A refresh finds every source exactly when there are no more of them than the limit. */
  lemma RefreshCoversAllIffUnderLimit(list: seq<CachedService>, services: map<NamespacedName, Service>, namespace: string, limit: nat)
    requires IsRefresh(list, services, namespace, limit)
    ensures |SourceKeys(services, namespace)| <= limit
            <==> forall k :: k in SourceKeys(services, namespace) ==> Lookup(list, k.name) == Some(services[k].selector)
  {
    if |SourceKeys(services, namespace)| <= limit {
      forall k | k in SourceKeys(services, namespace) ensures Lookup(list, k.name) == Some(services[k].selector) {
        assert k == NamespacedName(namespace, k.name);
      }
    } else if forall k :: k in SourceKeys(services, namespace) ==> Lookup(list, k.name) == Some(services[k].selector) {
      forall k | k in SourceKeys(services, namespace) ensures k in KeysOf(list, namespace) {
        LookupIsMembership(list, k.name);
      }
      SubsetSize(SourceKeys(services, namespace), KeysOf(list, namespace));
      assert false;
    }
  }

  lemma {:induction false} SubsetSize<T>(a: set<T>, b: set<T>)
    requires a <= b
    ensures |a| <= |b|
  {
    if a != {} {
      var x :| x in a;
      SubsetSize(a - {x}, b - {x});
    }
  }

  // ---------- Sequences of updates and refreshes ----------

  datatype CacheStep = Updates(svc: Service) | Refreshes(namespace: string, list: seq<CachedService>)

  function CacheAfter(steps: seq<CacheStep>): OptedInCache {
    if steps == [] then map[]
    else
      var before, last := CacheAfter(steps[..|steps| - 1]), steps[|steps| - 1];
      if last.Updates? then UpdateFor(before, last.svc) else before[last.namespace := last.list]
  }

  /** What the last step that concerns a Service says about it. */
  function LastWord(steps: seq<CacheStep>, key: NamespacedName): Option<StringMap> {
    if steps == [] then None
    else
      match steps[|steps| - 1]
      case Updates(svc) =>
        if svc.key != key then LastWord(steps[..|steps| - 1], key)
        else if Source(svc) then Some(svc.selector) else None
      case Refreshes(namespace, list) =>
        if namespace != key.namespace then LastWord(steps[..|steps| - 1], key) else Lookup(list, key.name)
  }

  /** Any sequence of updates and refreshes keeps names unique and selectors non-empty, and the last word on each Service. */
  lemma {:induction false} CacheKeepsTheLastWord(steps: seq<CacheStep>, key: NamespacedName)
    requires forall i :: 0 <= i < |steps| && steps[i].Refreshes? ==> WellFormed(steps[i].list)
    ensures CacheWellFormed(CacheAfter(steps))
    ensures Lookup(Entries(CacheAfter(steps), key.namespace), key.name) == LastWord(steps, key)
  {
    if steps != [] {
      var before, last := steps[..|steps| - 1], steps[|steps| - 1];
      CacheKeepsTheLastWord(before, key);
      if last.Updates? { UpdateForRefinesMap(CacheAfter(before), last.svc, key.namespace, key.name); }
    }
  }

  // ---------- From pods to Services ----------

  /** mapPodToService on a given list. */
  function Requests(list: seq<CachedService>, namespace: string, labels: StringMap): seq<NamespacedName> {
    if list == [] then []
    else
      (if Selects(list[0].selector, labels) then [NamespacedName(namespace, list[0].name)] else [])
      + Requests(list[1..], namespace, labels)
  }

  lemma {:induction false} RequestsFromList(list: seq<CachedService>, namespace: string, labels: StringMap)
    requires WellFormed(list)
    ensures var r := Requests(list, namespace, labels);
            && (forall k :: k in r <==>
                  (k.namespace == namespace && Lookup(list, k.name).Some? && Selects(Lookup(list, k.name).value, labels)))
            && (forall i, j :: 0 <= i < j < |r| ==> r[i] != r[j])
  {
    if list != [] {
      HeadNameIsUnique(list);
      RequestsFromList(list[1..], namespace, labels);
      var head, rest := NamespacedName(namespace, list[0].name), Requests(list[1..], namespace, labels);
      LookupIsMembership(list[1..], list[0].name);
      assert head !in rest;
      assert forall i :: 0 <= i < |rest| ==> rest[i] in rest;
    }
  }

  /**
   What a refresh leaves out is deaf: every pod that a source selects is mapped to it exactly when
   the sources are no more than the limit.
   */
  lemma PodsAreHeardIffUnderLimit(list: seq<CachedService>, services: map<NamespacedName, Service>, namespace: string, limit: nat)
    requires IsRefresh(list, services, namespace, limit)
    ensures |SourceKeys(services, namespace)| <= limit
            <==> forall k, labels :: k in SourceKeys(services, namespace) && Selects(services[k].selector, labels) ==>
                   k in Requests(list, namespace, labels)
  {
    hide Selects, Source;
    RefreshCoversAllIffUnderLimit(list, services, namespace, limit);
    if |SourceKeys(services, namespace)| <= limit {
      forall k, labels | k in SourceKeys(services, namespace) && Selects(services[k].selector, labels) ensures k in Requests(list, namespace, labels) {
        RequestsFromList(list, namespace, labels);
      }
    } else {
      var k :| k in SourceKeys(services, namespace) && Lookup(list, k.name) != Some(services[k].selector);
      RequestsFromList(list, namespace, services[k].selector);
      SelectsItself(services[k].selector);
      LeftOutIsUnknown(list, services, namespace, limit, k);
    }
  }

  lemma SelectsItself(selector: StringMap)
    ensures Selects(selector, selector)
  {
  }

  lemma LeftOutIsUnknown(list: seq<CachedService>, services: map<NamespacedName, Service>, namespace: string, limit: nat, k: NamespacedName)
    requires IsRefresh(list, services, namespace, limit) && |SourceKeys(services, namespace)| > limit
    requires k in SourceKeys(services, namespace) && Lookup(list, k.name) != Some(services[k].selector)
    ensures Lookup(list, k.name).None? && WellFormed(list)
  {
    hide Source;
    LookupIsMembership(list, k.name);
    assert k == NamespacedName(namespace, k.name);
  }

  /**
   A list in sync maps a pod, without duplicates, to exactly the sources whose own pod List
   would include that pod.
   */
  lemma RequestsAreTheListingSources(list: seq<CachedService>, services: map<NamespacedName, Service>, pod: Pod)
    requires InSync(list, services, pod.key.namespace)
    requires forall k :: k in services ==> services[k].key == k
    ensures var r := Requests(list, pod.key.namespace, pod.labels);
            && (forall k :: k in r <==> k in services && Source(services[k]) && Matches(services[k], pod))
            && (forall i, j :: 0 <= i < j < |r| ==> r[i] != r[j])
  {
    RequestsFromList(list, pod.key.namespace, pod.labels);
    forall k ensures k in Requests(list, pod.key.namespace, pod.labels) <==>
        k in services && Source(services[k]) && Matches(services[k], pod) {
      assert k == NamespacedName(k.namespace, k.name);
    }
  }
}
