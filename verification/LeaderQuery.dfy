/**
 The client library's leader query, pkg/client/client.go: a cache with a time to live in front of
 a Lease. The class is one caller's view; the machine below it interleaves any number of callers,
 cache clearings and changes of the Lease, and bounds how stale an answer can be.
 */
module LeaderQuery {
  import opened Wrappers
  import opened Kube

  /** DefaultCacheTTL: two seconds. */
  const TTL: Time := 2_000_000_000
  const MAX_NAMESPACE_FILE_SIZE := 256

  /** strings.TrimSpace; what it strips plays no part in this model. */
  const TrimSpace: string -> string

  datatype Identity = Identity(podName: string, podUID: string)

  datatype CacheEntry = CacheEntry(isLeader: bool, expires: Time)

  type Cache = map<string, CacheEntry>

  // ---------- One query ----------

  /** The two forms of query: IsLeader asks in the pod's own namespace, IsLeaderWithNamespace in a given one. */
  datatype Query = Own(pool: string) | Qualified(namespace: string, pool: string)

  function CacheKey(q: Query): string {
    match q
    case Own(pool) => pool
    case Qualified(namespace, pool) => namespace + "/" + pool
  }

  function LeaseKey(q: Query, home: string): NamespacedName {
    NamespacedName(if q.Own? then home else q.namespace, q.pool)
  }

  function FullIdentity(me: Identity): string {
    me.podName + "-" + me.podUID
  }

  /** The holder is this pod, named with or without its UID. */
  predicate Identifies(me: Identity, holder: Option<string>) {
    holder.Some? && holder.value != "" && (me.podName == holder.value || FullIdentity(me) == holder.value)
  }

  function Hit(cache: Cache, key: string, now: Time): Option<bool> {
    if key in cache && now < cache[key].expires then Some(cache[key].isLeader) else None
  }

  /** The expiry counts from the writing of the entry, not from the reading of the Lease. */
  function Remember(cache: Cache, key: string, isLeader: bool, now: Time): Cache {
    cache[key := CacheEntry(isLeader, now + TTL)]
  }

  // ---------- The client ----------

  /** What a query meets: the clock when it looks into the cache and when it writes to it, and the Leases it can get, with their holders. */
  datatype Moment = Moment(checked: Time, stored: Time, leases: map<NamespacedName, Option<string>>)

  /** The holder's name is the pod's, or the pod's with its UID; what was read is believed for two seconds from its writing. */
  predicate Answered(me: Identity, lease: NamespacedName, key: string, m: Moment, before: Cache, after: Cache, isLeader: bool, err: Option<string>) {
    && (err.None? <==> lease in m.leases)
    && (err.Some? ==> !isLeader && after == before)
    && (err.None? ==>
          var holder := m.leases[lease];
          && (isLeader <==> holder.Some? && holder.value != "" && (holder.value == me.podName || holder.value == me.podName + "-" + me.podUID))
          && after == before[key := CacheEntry(isLeader, m.stored + 2_000_000_000)])
  }

  class Client {
    const podName: string
    const podUID: string
    var cache: Cache

    constructor (podName: string, podUID: string)
      ensures this.podName == podName && this.podUID == podUID && cache == map[]
    {
      this.podName, this.podUID, cache := podName, podUID, map[];
    }

    function Me(): Identity {
      Identity(podName, podUID)
    }

    /**
     A fresh entry answers for two seconds. After that the variable names the namespace, whatever
     the file holds; only without it does a file of at most 256 bytes, and without either there is
     an error. An error is never a yes, and leaves the cache as it was.
     */
    method IsLeader(pool: string, variable: string, file: Option<string>, m: Moment) returns (isLeader: bool, err: Option<string>)
      modifies this
      ensures err.Some? ==> !isLeader && cache == old(cache)
      ensures Hit(old(cache), pool, m.checked).Some? ==> err.None? && Some(isLeader) == Hit(old(cache), pool, m.checked) && cache == old(cache)
      ensures Hit(old(cache), pool, m.checked).None? ==>
                var named := variable != "" || (file.Some? && |file.value| <= 256);
                var ns := TrimSpace(if variable != "" then variable else if file.Some? then file.value else "");
                if podName != "" && named && IsDNS1123Label(ns) then Answered(Me(), NamespacedName(ns, pool), pool, m, old(cache), cache, isLeader, err)
                else err.Some?
    {
      if pool in cache {
        var entry := cache[pool];
        if m.checked < entry.expires { return entry.isLeader, None; }
      }
      if podName == "" { return false, Some("pod name not set"); }
      var namespace := variable;
      if namespace == "" {
        if file.None? { return false, Some("cannot determine namespace"); }
        if |file.value| > MAX_NAMESPACE_FILE_SIZE { return false, Some("namespace file too large"); }
        namespace := file.value;
      }
      namespace := TrimSpace(namespace);
      if !IsDNS1123Label(namespace) { return false, Some("invalid namespace format"); }
      isLeader, err := QueryLease(pool, NamespacedName(namespace, pool), m);
    }

    method IsLeaderWithNamespace(pool: string, namespace: string, m: Moment) returns (isLeader: bool, err: Option<string>)
      modifies this
      ensures err.Some? ==> !isLeader && cache == old(cache)
      ensures var ns := TrimSpace(namespace);
              var hit := Hit(old(cache), CacheKey(Qualified(ns, pool)), m.checked);
              && (err.None? <==> IsDNS1123Label(ns) && IsDNS1123Subdomain(pool) && podName != ""
                                 && (hit.Some? || NamespacedName(ns, pool) in m.leases))
              && (err.None? && hit.Some? ==> isLeader == hit.value && cache == old(cache))
              && (err.None? && hit.None? ==>
                    Answered(Me(), NamespacedName(ns, pool), ns + "/" + pool, m, old(cache), cache, isLeader, err))
    {
      var ns := TrimSpace(namespace);
      if !IsDNS1123Label(ns) { return false, Some("invalid namespace format"); }
      if !IsDNS1123Subdomain(pool) { return false, Some("invalid pool name format"); }
      if podName == "" { return false, Some("pod name not set"); }
      var key := ns + "/" + pool;
      if key in cache {
        var entry := cache[key];
        if m.checked < entry.expires { return entry.isLeader, None; }
      }
      isLeader, err := QueryLease(key, NamespacedName(ns, pool), m);
    }

    /** The common end of both: get the Lease, compare the holder, write the cache. */
    method QueryLease(key: string, lease: NamespacedName, m: Moment) returns (isLeader: bool, err: Option<string>)
      modifies this
      ensures Answered(Me(), lease, key, m, old(cache), cache, isLeader, err)
    {
      if lease !in m.leases { return false, Some("lease not found"); }
      var holder := m.leases[lease];
      isLeader := false;
      if holder.Some? && holder.value != "" {
        if podName == holder.value || podName + "-" + podUID == holder.value { isLeader := true; }
      }
      cache := cache[key := CacheEntry(isLeader, m.stored + TTL)];
      err := None;
    }

    method ClearCache()
      modifies this
      ensures cache == map[]
    {
      cache := map[];
    }
  }

  // ---------- The cache keys ----------

  predicate SlashFree(q: Query) {
    '/' !in q.pool && (q.Qualified? ==> '/' !in q.namespace)
  }

  /** Slash-free queries share a cache key only if they are the same query, so never across two Leases. */
  lemma KeysAreCollisionFree(q: Query, r: Query)
    requires SlashFree(q) && SlashFree(r) && CacheKey(q) == CacheKey(r)
    ensures q == r
  {
    if q.Qualified? { assert CacheKey(q)[|q.namespace|] == '/'; }
    if r.Qualified? { assert CacheKey(r)[|r.namespace|] == '/'; }
    if q.Qualified? && r.Qualified? {
      var key, n, k := CacheKey(q), |q.namespace|, |r.namespace|;
      assert forall i :: 0 <= i < n ==> key[i] == q.namespace[i] && q.namespace[i] in q.namespace;
      assert forall i :: 0 <= i < k ==> key[i] == r.namespace[i] && r.namespace[i] in r.namespace;
      assert n == k;
      assert key[..n] == q.namespace && key[..k] == r.namespace;
      assert key[n + 1..] == q.pool && key[k + 1..] == r.pool;
    }
  }

  /** An own pool name shares its key with some query for another namespace exactly if it contains a slash. */
  lemma OwnKeyCollidesIffSlash(pool: string)
    ensures '/' in pool <==> exists r: Query :: r.Qualified? && CacheKey(r) == CacheKey(Own(pool))
  {
    if '/' in pool {
      var i :| 0 <= i < |pool| && pool[i] == '/';
      assert pool == pool[..i] + "/" + pool[i + 1..];
      assert CacheKey(Qualified(pool[..i], pool[i + 1..])) == CacheKey(Own(pool));
    }
    if r: Query :| r.Qualified? && CacheKey(r) == CacheKey(Own(pool)) {
      assert CacheKey(r)[|r.namespace|] == '/';
    }
  }

  // ---------- Concurrent callers ----------

  /** Who holds each Lease at each instant. */
  type Leases = (NamespacedName, Time) -> Option<string>

  /** A call in progress: past the cache, or with the Lease's answer in hand. */
  datatype Call = Waiting(query: Query) | HasRead(query: Query, isLeader: bool, readAt: Time)

  datatype Answer = Answer(query: Query, isLeader: bool, at: Time)

  /** `readTimes` records when the Lease behind each cache entry was read; the client does not know. */
  datatype State = State(cache: Cache, readTimes: map<string, Time>, calls: map<nat, Call>, answers: seq<Answer>, now: Time)

  datatype Move = Asks(id: nat, query: Query) | Reads(id: nat, found: bool) | Finishes(id: nat) | Clears

  datatype TimedMove = TimedMove(move: Move, at: Time)

  datatype Setting = Setting(me: Identity, home: string, leases: Leases, delay: Time)

  /** The clock does not go back, and a call writes the cache at most `delay` after it read the Lease. */
  predicate Possible(e: Setting, s: State, m: TimedMove) {
    && s.now <= m.at
    && match m.move
       case Asks(id, q) => id !in s.calls && SlashFree(q)
       case Reads(id, _) => id in s.calls && s.calls[id].Waiting?
       case Finishes(id) => id in s.calls && s.calls[id].HasRead? && m.at - s.calls[id].readAt <= e.delay
       case Clears => true
  }

  function Next(e: Setting, s: State, m: TimedMove): State
    requires Possible(e, s, m)
  {
    var t := s.(now := m.at);
    match m.move
    case Asks(id, q) =>
      var hit := Hit(s.cache, CacheKey(q), m.at);
      if hit.Some? then t.(answers := s.answers + [Answer(q, hit.value, m.at)])
      else t.(calls := s.calls[id := Waiting(q)])
    case Reads(id, found) =>
      var q := s.calls[id].query;
      if !found then t.(calls := s.calls - {id})
      else t.(calls := s.calls[id := HasRead(q, Identifies(e.me, e.leases(LeaseKey(q, e.home), m.at)), m.at)])
    case Finishes(id) =>
      var c := s.calls[id];
      t.(cache := Remember(s.cache, CacheKey(c.query), c.isLeader, m.at), readTimes := s.readTimes[CacheKey(c.query) := c.readAt],
         calls := s.calls - {id}, answers := s.answers + [Answer(c.query, c.isLeader, m.at)])
    case Clears => t.(cache := map[])
  }

  /** What the client's cache and pending calls say was so when the Lease was read. */
  ghost predicate Says(e: Setting, q: Query, isLeader: bool, readAt: Time) {
    isLeader == Identifies(e.me, e.leases(LeaseKey(q, e.home), readAt))
  }

  /** The answer was so at an instant no further back than the time to live and the delay together. */
  ghost predicate Recent(e: Setting, a: Answer) {
    exists r :: a.at - TTL - e.delay < r <= a.at && Says(e, a.query, a.isLeader, r)
  }

  ghost predicate EntriesTrue(e: Setting, s: State) {
    forall q :: SlashFree(q) && CacheKey(q) in s.cache ==>
      && CacheKey(q) in s.readTimes && s.readTimes[CacheKey(q)] <= s.now
      && s.cache[CacheKey(q)].expires <= s.readTimes[CacheKey(q)] + e.delay + TTL
      && Says(e, q, s.cache[CacheKey(q)].isLeader, s.readTimes[CacheKey(q)])
  }

  ghost predicate Truthful(e: Setting, s: State) {
    && EntriesTrue(e, s)
    && (forall id :: id in s.calls ==> SlashFree(s.calls[id].query))
    && (forall id :: id in s.calls && s.calls[id].HasRead? ==>
          s.calls[id].readAt <= s.now && Says(e, s.calls[id].query, s.calls[id].isLeader, s.calls[id].readAt))
    && (forall i :: 0 <= i < |s.answers| ==> Recent(e, s.answers[i]))
  }

  lemma FinishKeepsEntries(e: Setting, s: State, m: TimedMove)
    requires Truthful(e, s) && Possible(e, s, m) && m.move.Finishes?
    ensures EntriesTrue(e, Next(e, s, m))
  {
    hide CacheKey, Says, SlashFree, Recent;
    var c, t := s.calls[m.move.id], Next(e, s, m);
    forall q | SlashFree(q) && CacheKey(q) in t.cache && CacheKey(q) == CacheKey(c.query) ensures q == c.query {
      KeysAreCollisionFree(q, c.query);
    }
  }

  lemma TruthIsInductive(e: Setting, s: State, m: TimedMove)
    requires Truthful(e, s) && Possible(e, s, m)
    ensures Truthful(e, Next(e, s, m))
  {
    hide CacheKey, LeaseKey, Identifies, SlashFree;
    var t := Next(e, s, m);
    match m.move
    case Asks(id, q) =>
      if Hit(s.cache, CacheKey(q), m.at).Some? {
        assert Says(e, q, s.cache[CacheKey(q)].isLeader, s.readTimes[CacheKey(q)]);
        assert Recent(e, Answer(q, s.cache[CacheKey(q)].isLeader, m.at));
      }
    case Finishes(id) =>
      FinishKeepsEntries(e, s, m);
      var c := s.calls[id];
      assert Says(e, c.query, c.isLeader, c.readAt);
      assert Recent(e, Answer(c.query, c.isLeader, m.at));
    case _ =>
  }

  ghost predicate PossibleRun(e: Setting, s: State, moves: seq<TimedMove>)
    decreases |moves|
  {
    moves != [] ==> Possible(e, s, moves[0]) && PossibleRun(e, Next(e, s, moves[0]), moves[1..])
  }

  ghost function After(e: Setting, s: State, moves: seq<TimedMove>): State
    requires PossibleRun(e, s, moves)
    decreases |moves|
  {
    if moves == [] then s else After(e, Next(e, s, moves[0]), moves[1..])
  }

  function Fresh(now: Time): State {
    State(map[], map[], map[], [], now)
  }

  /**
   The staleness bound. However many callers ask and whenever the cache is cleared, each answer,
   yes or no, was so at an instant no further back than the time to live plus the delay.
   */
  lemma {:induction false} AnswersAreRecent(e: Setting, s: State, moves: seq<TimedMove>)
    requires (s == Fresh(s.now) || Truthful(e, s)) && PossibleRun(e, s, moves)
    ensures Truthful(e, After(e, s, moves))
    ensures forall a :: a in After(e, s, moves).answers ==> Recent(e, a)
    decreases |moves|
  {
    hide Next, Possible, Recent, Says, CacheKey, SlashFree;
    if moves != [] {
      TruthIsInductive(e, s, moves[0]);
      AnswersAreRecent(e, Next(e, s, moves[0]), moves[1..]);
    }
  }

  // ---------- Two clients ----------

  /** No holder identifies both. */
  predicate Apart(one: Identity, other: Identity) {
    {one.podName, FullIdentity(one)} !! {other.podName, FullIdentity(other)}
  }

  /** Two identities that are not apart, and have names, can both be told yes by one and the same holder. */
  lemma ApartIffNoCommonHolder(one: Identity, other: Identity)
    requires one.podName != "" && other.podName != ""
    ensures Apart(one, other) <==> forall holder :: !(Identifies(one, holder) && Identifies(other, holder))
  {
    if !Apart(one, other) {
      var h :| h in {one.podName, FullIdentity(one)} && h in {other.podName, FullIdentity(other)};
      assert Identifies(one, Some(h)) && Identifies(other, Some(h));
    }
  }

  /** Bounded dual leadership: two yeses at one instant about one Lease mean that its holder changed within the bound. */
  lemma TwoLeadersMeanAChange(e: Setting, f: Setting, s: State, t: State, moves: seq<TimedMove>, others: seq<TimedMove>, a: Answer, b: Answer)
    requires e.leases == f.leases && e.delay == f.delay && Apart(e.me, f.me)
    requires s == Fresh(s.now) && t == Fresh(t.now) && PossibleRun(e, s, moves) && PossibleRun(f, t, others)
    requires a in After(e, s, moves).answers && b in After(f, t, others).answers
    requires a.isLeader && b.isLeader && a.at == b.at && LeaseKey(a.query, e.home) == LeaseKey(b.query, f.home)
    ensures exists q, r :: && a.at - TTL - e.delay < q <= a.at && a.at - TTL - e.delay < r <= a.at
                           && e.leases(LeaseKey(a.query, e.home), q) != e.leases(LeaseKey(a.query, e.home), r)
  {
    hide PossibleRun, After, LeaseKey;
    AnswersAreRecent(e, s, moves);
    AnswersAreRecent(f, t, others);
    var q :| a.at - TTL - e.delay < q <= a.at && Says(e, a.query, true, q);
    var r :| b.at - TTL - f.delay < r <= b.at && Says(f, b.query, true, r);
    var lease := LeaseKey(a.query, e.home);
    assert e.leases(lease, q) != e.leases(lease, r);
  }

  // ---------- The bound cannot be tightened ----------

  lemma FirstMove(e: Setting, s: State, m: TimedMove, rest: seq<TimedMove>)
    requires Possible(e, s, m) && PossibleRun(e, Next(e, s, m), rest)
    ensures PossibleRun(e, s, [m] + rest) && After(e, s, [m] + rest) == After(e, Next(e, s, m), rest)
  {
    hide Possible, Next;
    assert ([m] + rest)[1..] == rest;
  }

  /** A Lease that this pod holds at instant 0 and never after. */
  function HeldOnce(me: Identity): Leases {
    (lease, t) => if t <= 0 then Some(me.podName) else None
  }

  /** Read at 0, written after the whole delay, asked again just before the expiry: yes, long after the pod lost the Lease. */
  lemma BoundIsTight(me: Identity, delay: Time, pool: string)
    requires me.podName != "" && delay >= 0 && '/' !in pool
    ensures var e := Setting(me, "home", HeldOnce(me), delay);
            var moves := [TimedMove(Asks(0, Own(pool)), 0), TimedMove(Reads(0, true), 0), TimedMove(Finishes(0), delay),
                          TimedMove(Asks(1, Own(pool)), delay + TTL - 1)];
            && PossibleRun(e, Fresh(0), moves)
            && Answer(Own(pool), true, delay + TTL - 1) in After(e, Fresh(0), moves).answers
            && forall r :: 0 < r ==> !Says(e, Own(pool), true, r)
  {
    var e := Setting(me, "home", HeldOnce(me), delay);
    var m0, m1 := TimedMove(Asks(0, Own(pool)), 0), TimedMove(Reads(0, true), 0);
    var m2, m3 := TimedMove(Finishes(0), delay), TimedMove(Asks(1, Own(pool)), delay + TTL - 1);
    var s1 := Next(e, Fresh(0), m0);
    var s2 := Next(e, s1, m1);
    var s3 := Next(e, s2, m2);
    var s4 := Next(e, s3, m3);
    FirstMove(e, s3, m3, []);
    FirstMove(e, s2, m2, [m3]);
    FirstMove(e, s1, m1, [m2, m3]);
    FirstMove(e, Fresh(0), m0, [m1, m2, m3]);
    assert [m0, m1, m2, m3] == [m0] + ([m1] + ([m2] + ([m3] + [])));
    assert s4.answers[|s4.answers| - 1] == Answer(Own(pool), true, delay + TTL - 1);
  }

  /** A slow call can put an older result over a newer one: after a yes that was overtaken by a no, the cache says yes again. */
  lemma OlderResultOverwritesNewer(me: Identity, delay: Time, pool: string)
    requires me.podName != "" && delay >= 2 && '/' !in pool
    ensures var e := Setting(me, "home", HeldOnce(me), delay);
            var before := [TimedMove(Asks(0, Own(pool)), 0), TimedMove(Reads(0, true), 0),
                           TimedMove(Asks(1, Own(pool)), 1), TimedMove(Reads(1, true), 1), TimedMove(Finishes(1), 1)];
            && PossibleRun(e, Fresh(0), before) && Hit(After(e, Fresh(0), before).cache, pool, 2) == Some(false)
            && var late := TimedMove(Finishes(0), 2);
               Possible(e, After(e, Fresh(0), before), late)
               && Hit(Next(e, After(e, Fresh(0), before), late).cache, pool, 2) == Some(true)
  {
    var e := Setting(me, "home", HeldOnce(me), delay);
    var m0, m1 := TimedMove(Asks(0, Own(pool)), 0), TimedMove(Reads(0, true), 0);
    var m2, m3, m4 := TimedMove(Asks(1, Own(pool)), 1), TimedMove(Reads(1, true), 1), TimedMove(Finishes(1), 1);
    var s1 := Next(e, Fresh(0), m0);
    var s2 := Next(e, s1, m1);
    var s3 := Next(e, s2, m2);
    var s4 := Next(e, s3, m3);
    FirstMove(e, s4, m4, []);
    FirstMove(e, s3, m3, [m4]);
    FirstMove(e, s2, m2, [m3, m4]);
    FirstMove(e, s1, m1, [m2, m3, m4]);
    FirstMove(e, Fresh(0), m0, [m1, m2, m3, m4]);
    assert [m0, m1, m2, m3, m4] == [m0] + ([m1] + ([m2] + ([m3] + ([m4] + []))));
  }

  // ---------- One caller alone ----------

  /** Without other callers in between, the machine's steps are one call of the class, in the namespace and under the key of its kind. */
  lemma AloneIsOneCall(e: Setting, s: State, id: nat, q: Query, checked: Time, readAt: Time, stored: Time)
    requires id !in s.calls && SlashFree(q) && s.now <= checked <= readAt <= stored && stored - readAt <= e.delay
    ensures Possible(e, s, TimedMove(Asks(id, q), checked))
    ensures var t := Next(e, s, TimedMove(Asks(id, q), checked));
            var key := if q.Own? then q.pool else q.namespace + "/" + q.pool;
            var lease := NamespacedName(if q.Own? then e.home else q.namespace, q.pool);
            if key in s.cache && checked < s.cache[key].expires then
              t.cache == s.cache && t.answers == s.answers + [Answer(q, s.cache[key].isLeader, checked)]
            else
              && Possible(e, t, TimedMove(Reads(id, true), readAt))
              && var u := Next(e, t, TimedMove(Reads(id, true), readAt));
                 && Possible(e, u, TimedMove(Finishes(id), stored))
                 && var v := Next(e, u, TimedMove(Finishes(id), stored));
                    && v.calls == s.calls && |v.answers| == |s.answers| + 1 && v.answers[..|s.answers|] == s.answers
                    && var a := v.answers[|s.answers|];
                       && a.query == q && a.at == stored
                       && Answered(e.me, lease, key, Moment(checked, stored, map[lease := e.leases(lease, readAt)]), s.cache, v.cache, a.isLeader, None)
  {
  }
}
