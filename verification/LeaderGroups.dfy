/**
 LeaderGroups of controller type, pkg/controller/leadergroup_controller.go: the Lease that is kept
 for each of them, the status projected from that Lease, and the cheap comparison that decides
 whether to write it.
 */
module LeaderGroups {
  import opened Wrappers
  import opened Kube

  const LABEL_MANAGED_BY := "app.kubernetes.io/managed-by"
  const LABEL_LEADER_GROUP := "leadership.kube-zen.io/leadergroup"
  const SECOND: Time := 1_000_000_000
  const REQUEUE_AFTER: Time := 10 * SECOND

  // ---------- Objects ----------

  /** The API server's resource versions: every write of a Lease gets one never used before. Unset is "". */
  datatype Version = Unset | Version(n: nat)

  datatype OwnerRef = OwnerRef(name: string, uid: UID)

  datatype Lease = Lease(
    key: NamespacedName, labels: StringMap, owners: seq<OwnerRef>,
    holder: Option<string>, renewTime: Option<Time>, durationSeconds: Option<int>, transitions: Option<int>,
    version: Version)

  datatype Condition = Condition(kind: string, status: bool, reason: string, message: string, lastTransitionTime: Time)

  datatype Status = Status(
    holder: string, renewTime: Option<Time>, durationSeconds: Option<int>, fencingToken: Option<int>,
    observed: Version, conditions: seq<Condition>)

  datatype GroupType = Controller | Routing | OtherType

  datatype LeaderGroup = LeaderGroup(
    key: NamespacedName, uid: UID, deleting: bool, kind: GroupType, component: string,
    leaseDuration: Option<Time>, retryPeriod: Option<Time>, status: Status)

  const NO_STATUS := Status("", None, None, None, Unset, [])

  datatype Cluster = Cluster(groups: map<NamespacedName, LeaderGroup>, leases: map<NamespacedName, Lease>, version: nat)

  datatype Call = GetGroup | GetLease | CreateLease | UpdateLease | UpdateStatus | GetLeaseCleanup | DeleteLease

  // ---------- The Lease ----------

  function LeaseKey(g: LeaderGroup): NamespacedName {
    NamespacedName(g.key.namespace, g.component + "-lease")
  }

  /** int32(d.Seconds()): truncated toward zero. */
  function WholeSeconds(d: Time): int {
    if d >= 0 then d / SECOND else -(-d / SECOND)
  }

  function SecondsOf(d: Option<Time>): Option<int> {
    if d.Some? then Some(WholeSeconds(d.value)) else None
  }

  /** buildLease; the retry period goes into the transitions. */
  function NewLease(g: LeaderGroup): Lease {
    Lease(LeaseKey(g), map[LABEL_MANAGED_BY := "zen-lead", LABEL_LEADER_GROUP := g.key.name], [OwnerRef(g.key.name, g.uid)],
          None, None, SecondsOf(g.leaseDuration), SecondsOf(g.retryPeriod), Unset)
  }

  /** The Lease belongs to the group: owned by somebody, and labelled with the group. */
  predicate Claimed(lease: Lease, g: LeaderGroup) {
    && lease.owners != []
    && LABEL_MANAGED_BY in lease.labels && lease.labels[LABEL_MANAGED_BY] == "zen-lead"
    && LABEL_LEADER_GROUP in lease.labels && lease.labels[LABEL_LEADER_GROUP] == g.key.name
  }

  /** updateLeaseMetadata: a Lease that somebody owns keeps its owners. */
  function Claim(lease: Lease, g: LeaderGroup): Lease {
    lease.(owners := if lease.owners == [] then [OwnerRef(g.key.name, g.uid)] else lease.owners,
           labels := lease.labels[LABEL_MANAGED_BY := "zen-lead"][LABEL_LEADER_GROUP := g.key.name])
  }

  /** Claiming changes a Lease exactly if it was not claimed, and never what is projected from it. */
  lemma ClaimSettles(lease: Lease, g: LeaderGroup)
    ensures Claimed(Claim(lease, g), g) && Claim(Claim(lease, g), g) == Claim(lease, g)
    ensures Claim(lease, g) == lease <==> Claimed(lease, g)
    ensures Claim(lease, g) == lease.(owners := Claim(lease, g).owners, labels := Claim(lease, g).labels)
  {
    assert LABEL_MANAGED_BY != LABEL_LEADER_GROUP by { assert LABEL_MANAGED_BY[0] != LABEL_LEADER_GROUP[0]; }
  }

  // ---------- The projection ----------

  predicate Held(lease: Lease) {
    lease.holder.Some? && lease.holder.value != ""
  }

  function LeaseReady(lease: Lease, now: Time): Condition {
    if Held(lease) then Condition("LeaseReady", true, "LeaseExists", "Lease \"" + lease.key.name + "\" exists", now)
    else Condition("LeaseReady", false, "NoHolder", "Lease exists but no holder", now)
  }

  /** The first condition of the same kind is replaced; without one, the condition is appended. */
  function Upserted(conditions: seq<Condition>, c: Condition): seq<Condition> {
    if conditions == [] then [c]
    else if conditions[0].kind == c.kind then [c] + conditions[1..]
    else [conditions[0]] + Upserted(conditions[1..], c)
  }

  function Projected(status: Status, lease: Lease, now: Time): Status {
    Status(
      if lease.holder.Some? then lease.holder.value else "",
      if lease.renewTime.Some? then lease.renewTime else status.renewTime,
      if lease.durationSeconds.Some? then lease.durationSeconds else status.durationSeconds,
      if lease.transitions.Some? then lease.transitions else status.fencingToken,
      lease.version,
      Upserted(status.conditions, LeaseReady(lease, now)))
  }

  predicate StatusEqual(a: Status, b: Status) {
    && a.holder == b.holder && a.observed == b.observed
    && a.renewTime == b.renewTime && a.durationSeconds == b.durationSeconds
  }

  /** metav1.Time is stored in whole seconds, while a Lease's renew time has microseconds. */
  function InSeconds(t: Time): Time {
    t / SECOND * SECOND
  }

  function Stored(status: Status): Status {
    status.(renewTime := if status.renewTime.Some? then Some(InSeconds(status.renewTime.value)) else None,
            conditions := seq(|status.conditions|, i requires 0 <= i < |status.conditions| =>
              status.conditions[i].(lastTransitionTime := InSeconds(status.conditions[i].lastTransitionTime))))
  }

  // ---------- Reconcile ----------

  datatype Outcome = Outcome(cluster: Cluster, ok: bool, requeueAfter: Option<Time>)

  function Error(c: Cluster): Outcome { Outcome(c, false, None) }

  function Done(c: Cluster): Outcome { Outcome(c, true, None) }

  /** A write of a Lease gets the next version. */
  function PutLease(c: Cluster, key: NamespacedName, lease: Lease): Cluster {
    c.(leases := c.leases[key := lease.(version := Version(c.version + 1))], version := c.version + 1)
  }

  /** cleanupLease. */
  function CleanedUp(c: Cluster, g: LeaderGroup, failing: set<Call>): Outcome {
    if !g.kind.Controller? then Done(c)
    else if GetLeaseCleanup in failing then Error(c)
    else if LeaseKey(g) !in c.leases then Done(c)
    else if DeleteLease in failing then Error(c)
    else Done(c.(leases := c.leases - {LeaseKey(g)}))
  }

  /** Fetch or create the Lease, and claim it. */
  function LeaseEnsured(c: Cluster, g: LeaderGroup, failing: set<Call>): (o: Outcome)
    ensures o.ok ==> LeaseKey(g) in o.cluster.leases && Claimed(o.cluster.leases[LeaseKey(g)], g)
    ensures o.cluster.groups == c.groups
  {
    ClaimSettles(if LeaseKey(g) in c.leases then c.leases[LeaseKey(g)] else NewLease(g), g);
    if GetLease in failing then Error(c)
    else if LeaseKey(g) !in c.leases then
      if CreateLease in failing then Error(c) else Done(PutLease(c, LeaseKey(g), NewLease(g)))
    else if Claimed(c.leases[LeaseKey(g)], g) then Done(c)
    else if UpdateLease in failing then Error(c)
    else Done(PutLease(c, LeaseKey(g), Claim(c.leases[LeaseKey(g)], g)))
  }

  /** updateStatusFromLease. */
  function StatusUpdated(c: Cluster, g: LeaderGroup, lease: Lease, failing: set<Call>, now: Time): Outcome {
    var status := Projected(g.status, lease, now);
    if StatusEqual(g.status, status) then Outcome(c, true, Some(REQUEUE_AFTER))
    else if UpdateStatus in failing then Error(c)
    else Outcome(c.(groups := c.groups[g.key := g.(status := Stored(status))]), true, Some(REQUEUE_AFTER))
  }

  function Reconciled(c: Cluster, key: NamespacedName, failing: set<Call>, now: Time): Outcome {
    if GetGroup in failing then Error(c)
    else if key !in c.groups then Done(c)
    else
      var g := c.groups[key];
      if g.deleting then CleanedUp(c, g, failing)
      else if g.kind.Routing? then Done(c)
      else if !g.kind.Controller? || g.component == "" then Error(c)
      else
        var ensured := LeaseEnsured(c, g, failing);
        if !ensured.ok then ensured
        else StatusUpdated(ensured.cluster, g, ensured.cluster.leases[LeaseKey(g)], failing, now)
  }

  // ---------- What a stored status reflects ----------

  function FirstOfKind(conditions: seq<Condition>, kind: string): Option<Condition> {
    if conditions == [] then None
    else if conditions[0].kind == kind then Some(conditions[0])
    else FirstOfKind(conditions[1..], kind)
  }

  /** The status says what the Lease says, the renew time in whole seconds; what the Lease does not say may be old. */
  ghost predicate Reflects(s: Status, lease: Lease) {
    && s.observed == lease.version
    && s.holder == (if lease.holder.Some? then lease.holder.value else "")
    && (lease.renewTime.Some? ==> s.renewTime == Some(InSeconds(lease.renewTime.value)))
    && (lease.durationSeconds.Some? ==> s.durationSeconds == lease.durationSeconds)
    && (lease.transitions.Some? ==> s.fencingToken == lease.transitions)
    && var ready := FirstOfKind(s.conditions, "LeaseReady");
       ready.Some? && ready.value == LeaseReady(lease, ready.value.lastTransitionTime)
  }

  /** Equal but for the transition times of LeaseReady conditions. */
  ghost predicate AlikeConditions(a: seq<Condition>, b: seq<Condition>) {
    && |a| == |b|
    && forall i :: 0 <= i < |a| ==>
         a[i] == b[i] || (a[i].kind == "LeaseReady" && a[i] == b[i].(lastTransitionTime := a[i].lastTransitionTime))
  }

  ghost predicate AlikeStatus(a: Status, b: Status) {
    AlikeConditions(a.conditions, b.conditions) && a == b.(conditions := a.conditions)
  }

  lemma {:induction false} UpsertedIsFirst(conditions: seq<Condition>, c: Condition)
    ensures FirstOfKind(Upserted(conditions, c), c.kind) == Some(c)
  {
    if conditions != [] { UpsertedIsFirst(conditions[1..], c); }
  }

  lemma {:induction false} UpsertingAgain(conditions: seq<Condition>, c: Condition)
    requires c.kind == "LeaseReady"
    requires var f := FirstOfKind(conditions, c.kind); f.Some? && f.value == c.(lastTransitionTime := f.value.lastTransitionTime)
    ensures AlikeConditions(conditions, Upserted(conditions, c))
    ensures FirstOfKind(conditions, c.kind) == Some(c) <==> Upserted(conditions, c) == conditions
  {
    if conditions[0].kind != c.kind {
      UpsertingAgain(conditions[1..], c);
      assert conditions == [conditions[0]] + conditions[1..];
    } else {
      assert conditions == [conditions[0]] + conditions[1..];
      assert Upserted(conditions, c)[0] == c;
    }
  }

  function StoredConditions(conditions: seq<Condition>): seq<Condition> {
    Stored(NO_STATUS.(conditions := conditions)).conditions
  }

  lemma {:induction false} FirstOfStored(conditions: seq<Condition>, kind: string)
    ensures FirstOfKind(StoredConditions(conditions), kind) ==
            match FirstOfKind(conditions, kind)
            case None => None
            case Some(c) => Some(c.(lastTransitionTime := InSeconds(c.lastTransitionTime)))
  {
    if conditions != [] {
      FirstOfStored(conditions[1..], kind);
      assert StoredConditions(conditions)[1..] == StoredConditions(conditions[1..]);
    }
  }

  lemma {:induction false} StoredUpserted(conditions: seq<Condition>, c: Condition)
    ensures StoredConditions(Upserted(conditions, c)) ==
            Upserted(StoredConditions(conditions), c.(lastTransitionTime := InSeconds(c.lastTransitionTime)))
  {
    if conditions != [] {
      StoredUpserted(conditions[1..], c);
      assert StoredConditions(conditions)[1..] == StoredConditions(conditions[1..]);
      if conditions[0].kind != c.kind {
        assert StoredConditions(Upserted(conditions, c))[1..] == StoredConditions(Upserted(conditions[1..], c));
      } else {
        assert StoredConditions(Upserted(conditions, c))[1..] == StoredConditions(conditions[1..]);
      }
    }
  }

  lemma StoringAgain(s: Status)
    ensures Stored(Stored(s)) == Stored(s)
  {
    assert Stored(Stored(s)).conditions == Stored(s).conditions;
  }

  lemma StoredKeepsFields(s: Status)
    ensures var t := Stored(s);
            && t == s.(renewTime := t.renewTime, conditions := StoredConditions(s.conditions))
            && (s.renewTime.Some? ==> t.renewTime == Some(InSeconds(s.renewTime.value)))
  {
    hide InSeconds;
    assert Stored(s).conditions == StoredConditions(s.conditions);
  }

  /** What is stored after a projection reflects the Lease, and is as stored for good. */
  lemma StoredProjectionReflects(s: Status, lease: Lease, now: Time)
    ensures Reflects(Stored(Projected(s, lease, now)), lease)
    ensures Stored(Stored(s)) == Stored(s)
  {
    StoringAgain(s);
    hide Stored, InSeconds, Upserted, FirstOfKind, StoredConditions;
    StoredKeepsFields(Projected(s, lease, now));
    UpsertedIsFirst(s.conditions, LeaseReady(lease, now));
    FirstOfStored(Upserted(s.conditions, LeaseReady(lease, now)), "LeaseReady");
  }

  /**
   One comparison: against a status that reflects an older or the same Lease, it reports equal
   exactly if no newer version is seen and the renew time is a whole second, and then the projection
   changes nothing but a transition time, though it compares neither fencing token nor conditions.
   */
  lemma EqualMeansNothingToWrite(s: Status, lease: Lease, now: Time)
    requires s.observed == lease.version ==> Reflects(s, lease)
    ensures StatusEqual(s, Projected(s, lease, now)) <==>
            s.observed == lease.version && (lease.renewTime.Some? ==> InSeconds(lease.renewTime.value) == lease.renewTime.value)
    ensures StatusEqual(s, Projected(s, lease, now)) ==> AlikeStatus(s, Projected(s, lease, now))
  {
    if s.observed == lease.version { UpsertingAgain(s.conditions, LeaseReady(lease, now)); }
  }

  // ---------- Runs ----------

  /** `past` records the contents of every Lease version there ever was. */
  datatype History = History(cluster: Cluster, past: map<Version, Lease>)

  datatype Step =
    | Reconciles(key: NamespacedName, failing: set<Call>, now: Time)
    | WritesLease(key: NamespacedName, lease: Lease)
    | DeletesLease(key: NamespacedName)
    | ChangesGroups(groups: map<NamespacedName, LeaderGroup>)

  function StepCluster(c: Cluster, step: Step): Cluster {
    match step
    case Reconciles(key, failing, now) => Reconciled(c, key, failing, now).cluster
    case WritesLease(key, lease) => PutLease(c, key, lease)
    case DeletesLease(key) => c.(leases := c.leases - {key})
    case ChangesGroups(groups) => c.(groups := groups)
  }

  /** The Lease a step may write. */
  function LeaseOf(c: Cluster, step: Step): Option<NamespacedName> {
    match step
    case Reconciles(key, _, _) => if key in c.groups then Some(LeaseKey(c.groups[key])) else None
    case WritesLease(key, _) => Some(key)
    case _ => None
  }

  function Next(h: History, step: Step): History {
    var after, key := StepCluster(h.cluster, step), LeaseOf(h.cluster, step);
    History(after, if key.Some? && key.value in after.leases && after.leases[key.value].version !in h.past
                   then h.past[after.leases[key.value].version := after.leases[key.value]] else h.past)
  }

  /** Only this controller writes statuses: users create groups without one and leave it alone after. */
  ghost predicate Allowed(c: Cluster, step: Step) {
    step.ChangesGroups? ==>
      forall k :: k in step.groups ==>
        && step.groups[k].key == k
        && (step.groups[k].status == NO_STATUS || (k in c.groups && step.groups[k].status == c.groups[k].status))
  }

  /** The status was stored by a projection of the Lease at the version it records, or never. */
  ghost predicate Faithful(s: Status, past: map<Version, Lease>) {
    && Stored(s) == s
    && (s == NO_STATUS || (s.observed in past && Reflects(s, past[s.observed])))
  }

  ghost predicate Consistent(h: History) {
    && (forall k :: k in h.cluster.leases ==>
          h.cluster.leases[k].version in h.past && h.past[h.cluster.leases[k].version] == h.cluster.leases[k])
    && (forall v :: v in h.past ==> v.Version? && v.n <= h.cluster.version && h.past[v].version == v)
    && (forall k :: k in h.cluster.groups ==> h.cluster.groups[k].key == k && Faithful(h.cluster.groups[k].status, h.past))
  }

  lemma FaithfulInMore(s: Status, past: map<Version, Lease>, more: map<Version, Lease>)
    requires Faithful(s, past) && forall v :: v in past ==> v in more && more[v] == past[v]
    ensures Faithful(s, more)
  {
  }

  /** Nothing happened to the Leases, or one was written, with the next version. */
  ghost predicate OneLeaseAtMost(c: Cluster, d: Cluster, key: NamespacedName) {
    || (d.leases == c.leases && d.version == c.version)
    || (d.version == c.version + 1 && key in d.leases && d.leases == c.leases[key := d.leases[key]] && d.leases[key].version == Version(d.version))
    || (d.leases == c.leases - {key} && d.version == c.version)
  }

  lemma ReconcileWrites(c: Cluster, key: NamespacedName, failing: set<Call>, now: Time)
    requires key in c.groups && c.groups[key].key == key
    ensures var d, g := Reconciled(c, key, failing, now).cluster, c.groups[key];
            && OneLeaseAtMost(c, d, LeaseKey(g)) && d.groups.Keys == c.groups.Keys
            && (forall k :: k in c.groups && k != key ==> d.groups[k] == c.groups[k])
            && (d.groups[key] == g ||
                (LeaseKey(g) in d.leases
                 && d.groups[key] == g.(status := Stored(Projected(g.status, d.leases[LeaseKey(g)], now)))))
  {
    hide Stored, Projected, Claim, Claimed, NewLease, StatusEqual;
  }

  lemma ReconcileIsConsistent(h: History, step: Step)
    requires Consistent(h) && step.Reconciles?
    ensures Consistent(Next(h, step))
  {
    hide Stored, Projected, Reconciled, Faithful, LeaseKey;
    var c, key, n := h.cluster, step.key, Next(h, step);
    if key in c.groups {
      var g := c.groups[key];
      ReconcileWrites(c, key, step.failing, step.now);
      forall k | k in c.groups ensures Faithful(c.groups[k].status, n.past) {
        FaithfulInMore(c.groups[k].status, h.past, n.past);
      }
      if LeaseKey(g) in n.cluster.leases && n.cluster.groups[key] != g {
        ProjectionIsFaithful(g.status, n.cluster.leases[LeaseKey(g)], step.now, n.past);
      }
    } else {
      MissingGroupChangesNothing(c, key, step.failing, step.now);
    }
  }

  lemma MissingGroupChangesNothing(c: Cluster, key: NamespacedName, failing: set<Call>, now: Time)
    requires key !in c.groups
    ensures Reconciled(c, key, failing, now).cluster == c
  {
  }

  lemma EmptyStatusIsFaithful(past: map<Version, Lease>)
    ensures Faithful(NO_STATUS, past)
  {
  }

  lemma ProjectionIsFaithful(s: Status, lease: Lease, now: Time, past: map<Version, Lease>)
    requires lease.version in past && past[lease.version] == lease
    ensures Faithful(Stored(Projected(s, lease, now)), past)
  {
    hide Stored, Reflects, Projected;
    StoredProjectionReflects(s, lease, now);
    StoredProjectionReflects(Projected(s, lease, now), lease, now);
    ReflectsItsVersion(Stored(Projected(s, lease, now)), lease);
  }

  lemma ReflectsItsVersion(s: Status, lease: Lease)
    requires Reflects(s, lease)
    ensures s.observed == lease.version
  {
  }

  lemma StepIsConsistent(h: History, step: Step)
    requires Consistent(h) && Allowed(h.cluster, step)
    ensures Consistent(Next(h, step))
  {
    hide Reconciled, Faithful;
    if step.Reconciles? {
      ReconcileIsConsistent(h, step);
    } else {
      assert Faithful(NO_STATUS, Next(h, step).past) by { EmptyStatusIsFaithful(Next(h, step).past); }
      forall k | k in h.cluster.groups ensures Faithful(h.cluster.groups[k].status, Next(h, step).past) {
        FaithfulInMore(h.cluster.groups[k].status, h.past, Next(h, step).past);
      }
    }
  }

  ghost predicate AllowedRun(h: History, steps: seq<Step>)
    decreases |steps|
  {
    steps != [] ==> Allowed(h.cluster, steps[0]) && AllowedRun(Next(h, steps[0]), steps[1..])
  }

  ghost function Run(h: History, steps: seq<Step>): History
    decreases |steps|
  {
    if steps == [] then h else Run(Next(h, steps[0]), steps[1..])
  }

  lemma {:induction false} RunIsConsistent(h: History, steps: seq<Step>)
    requires Consistent(h) && AllowedRun(h, steps)
    ensures Consistent(Run(h, steps))
    decreases |steps|
  {
    hide Next, Consistent, Allowed;
    if steps != [] {
      StepIsConsistent(h, steps[0]);
      RunIsConsistent(Next(h, steps[0]), steps[1..]);
    }
  }

  /**
   Status-skip soundness. In every state that a run can reach, for each group and each version of
   each Lease that was ever stored, read late or not: the write is skipped exactly if that version
   was the last one projected and its renew time is a whole second, and then it was not needed.
   */
  lemma SkippedWritesAreNotNeeded(h: History, steps: seq<Step>, key: NamespacedName, v: Version, now: Time)
    requires Consistent(h) && AllowedRun(h, steps)
    requires key in Run(h, steps).cluster.groups && v in Run(h, steps).past
    ensures var s, lease := Run(h, steps).cluster.groups[key].status, Run(h, steps).past[v];
            && (StatusEqual(s, Projected(s, lease, now)) <==>
                  s.observed == v && (lease.renewTime.Some? ==> InSeconds(lease.renewTime.value) == lease.renewTime.value))
            && (StatusEqual(s, Projected(s, lease, now)) ==> AlikeStatus(s, Projected(s, lease, now)))
  {
    hide Reflects, Projected, StatusEqual, AlikeStatus, Run, AllowedRun;
    RunIsConsistent(h, steps);
    var r := Run(h, steps);
    EqualMeansNothingToWrite(r.cluster.groups[key].status, r.past[v], now);
  }

  // ---------- Coming to rest ----------

  /** A controller group that is not being deleted. */
  predicate Active(c: Cluster, key: NamespacedName) {
    key in c.groups && c.groups[key].key == key && !c.groups[key].deleting && c.groups[key].kind.Controller? && c.groups[key].component != ""
  }

  /** The status is up to date: the last version of a claimed Lease is the one it reflects. */
  ghost predicate Settled(c: Cluster, key: NamespacedName) {
    && Active(c, key)
    && var g := c.groups[key];
       && LeaseKey(g) in c.leases && Claimed(c.leases[LeaseKey(g)], g)
       && Stored(g.status) == g.status && Reflects(g.status, c.leases[LeaseKey(g)])
  }

  /** A reconcile without failures settles the group, whatever happened before. */
  lemma ReconcileSettles(h: History, key: NamespacedName, now: Time)
    requires Consistent(h) && Active(h.cluster, key)
    ensures Reconciled(h.cluster, key, {}, now).ok && Settled(Reconciled(h.cluster, key, {}, now).cluster, key)
  {
    hide Reflects, Stored, Projected, Claim, NewLease, InSeconds;
    var c := h.cluster;
    var g := c.groups[key];
    var ensured := LeaseEnsured(c, g, {});
    var lease := ensured.cluster.leases[LeaseKey(g)];
    StoredProjectionReflects(g.status, lease, now);
    StoredProjectionReflects(Projected(g.status, lease, now), lease, now);
    EqualMeansNothingToWrite(g.status, lease, now);
  }

  /**
   Once settled, another reconcile changes nothing exactly if the Lease's renew time is a whole
   second, or the clock still shows the second of the last transition. A Lease renewed at a
   fraction of a second therefore has its status written again on every later reconcile.
   */
  lemma RestsIffRenewedOnTheSecond(c: Cluster, key: NamespacedName, now: Time)
    requires Settled(c, key)
    ensures var g := c.groups[key];
            var lease, ready := c.leases[LeaseKey(g)], FirstOfKind(g.status.conditions, "LeaseReady").value;
            Reconciled(c, key, {}, now).cluster == c <==>
              || (lease.renewTime.Some? ==> InSeconds(lease.renewTime.value) == lease.renewTime.value)
              || InSeconds(now) == ready.lastTransitionTime
  {
    var g := c.groups[key];
    var lease, s := c.leases[LeaseKey(g)], g.status;
    EqualMeansNothingToWrite(s, lease, now);
    var after, ready := Stored(Projected(s, lease, now)), LeaseReady(lease, now);
    StoredUpserted(s.conditions, ready);
    assert StoredConditions(s.conditions) == s.conditions;
    assert after.conditions == StoredConditions(Upserted(s.conditions, ready));
    UpsertingAgain(s.conditions, ready.(lastTransitionTime := InSeconds(now)));
    assert after == s <==> InSeconds(now) == FirstOfKind(s.conditions, "LeaseReady").value.lastTransitionTime;
    assert c.groups[key := g.(status := after)] == c.groups <==> after == s by {
      assert c.groups[key := g.(status := after)][key] == g.(status := after);
    }
  }

  // ---------- What users see ----------

  /** The number of whole seconds in a duration, cut toward zero. */
  ghost predicate SecondsIn(d: Time, n: int) {
    if d >= 0 then n * 1_000_000_000 <= d < (n + 1) * 1_000_000_000 else (n - 1) * 1_000_000_000 < d <= n * 1_000_000_000
  }

  /** A new Lease is named after the component, labelled for and owned by the group, not yet held, and dated by the group's settings. */
  lemma NewLeaseSays(g: LeaderGroup)
    ensures var lease := NewLease(g);
            && lease.key == NamespacedName(g.key.namespace, g.component + "-lease")
            && lease.labels == map["app.kubernetes.io/managed-by" := "zen-lead", "leadership.kube-zen.io/leadergroup" := g.key.name]
            && lease.owners == [OwnerRef(g.key.name, g.uid)] && lease.holder.None? && lease.renewTime.None?
            && (lease.durationSeconds.Some? <==> g.leaseDuration.Some?) && (lease.transitions.Some? <==> g.retryPeriod.Some?)
            && (g.leaseDuration.Some? ==> SecondsIn(g.leaseDuration.value, lease.durationSeconds.value))
            && (g.retryPeriod.Some? ==> SecondsIn(g.retryPeriod.value, lease.transitions.value))
  {
  }

  lemma InSecondsRoundsDown(t: Time)
    ensures InSeconds(t) % 1_000_000_000 == 0 && t - 1_000_000_000 < InSeconds(t) <= t
  {
  }

  /** The first LeaseReady condition is true, with reason LeaseExists, if the Lease has a holder; else it is false, with reason NoHolder. */
  ghost predicate ReportsLease(s: Status, lease: Lease) {
    exists i :: ReportsAt(s.conditions, i, lease)
  }

  ghost predicate ReportsAt(conditions: seq<Condition>, i: int, lease: Lease) {
    var held := lease.holder.Some? && lease.holder.value != "";
    && 0 <= i < |conditions| && conditions[i].kind == "LeaseReady" && (forall j :: 0 <= j < i ==> conditions[j].kind != "LeaseReady")
    && conditions[i].status == held
    && (held ==> conditions[i].reason == "LeaseExists" && conditions[i].message == "Lease \"" + lease.key.name + "\" exists")
    && (!held ==> conditions[i].reason == "NoHolder" && conditions[i].message == "Lease exists but no holder")
  }

  lemma {:induction false} FirstOfKindAt(conditions: seq<Condition>, kind: string) returns (i: nat)
    requires FirstOfKind(conditions, kind).Some?
    ensures i < |conditions| && FirstOfKind(conditions, kind) == Some(conditions[i]) && conditions[i].kind == kind
    ensures forall j :: 0 <= j < i ==> conditions[j].kind != kind
  {
    i := 0;
    if conditions[0].kind != kind {
      var k := FirstOfKindAt(conditions[1..], kind);
      i := k + 1;
      forall j | 0 <= j < i ensures conditions[j].kind != kind {
        if j > 0 { assert conditions[j] == conditions[1..][j - 1]; }
      }
    }
  }

  ghost predicate FirstKindAt(conditions: seq<Condition>, kind: string, i: nat) {
    i < |conditions| && conditions[i].kind == kind && forall j :: 0 <= j < i ==> conditions[j].kind != kind
  }

  lemma UpsertedUnfolds(first: Condition, rest: seq<Condition>, c: Condition)
    ensures Upserted([first] + rest, c) == if first.kind == c.kind then [c] + rest else [first] + Upserted(rest, c)
  {
    assert ([first] + rest)[1..] == rest;
  }

  /** Of the conditions a projection changes the first of its kind and no other; without one, it appends. */
  lemma {:induction false} UpsertedChangesOne(conditions: seq<Condition>, c: Condition, i: nat)
    ensures FirstKindAt(conditions, c.kind, i) ==> Upserted(conditions, c) == conditions[i := c]
    ensures (forall j :: 0 <= j < |conditions| ==> conditions[j].kind != c.kind) ==> Upserted(conditions, c) == conditions + [c]
  {
    if conditions != [] {
      hide Upserted;
      var first, rest := conditions[0], conditions[1..];
      assert conditions == [first] + rest;
      UpsertedUnfolds(first, rest, c);
      if first.kind != c.kind {
        UpsertedChangesOne(rest, c, if i > 0 then i - 1 else 0);
        if FirstKindAt(conditions, c.kind, i) {
          assert FirstKindAt(rest, c.kind, i - 1) by { assert forall j :: 0 <= j < |rest| ==> rest[j] == conditions[j + 1]; }
          assert conditions[i := c] == [first] + rest[i - 1 := c];
        } else if forall j :: 0 <= j < |conditions| ==> conditions[j].kind != c.kind {
          assert forall j :: 0 <= j < |rest| ==> rest[j] == conditions[j + 1];
          assert conditions + [c] == [first] + (rest + [c]);
        }
      } else if FirstKindAt(conditions, c.kind, i) {
        assert i == 0 && conditions[0 := c] == [c] + rest;
      }
    }
  }

  lemma ReflectingReports(s: Status, lease: Lease)
    requires Reflects(s, lease)
    ensures ReportsLease(s, lease)
  {
    var i := FirstOfKindAt(s.conditions, "LeaseReady");
    assert ReportsAt(s.conditions, i, lease);
  }

  /**
   In every state that a run can reach, a status that was ever written names the holder of the Lease
   it was read from, and its first LeaseReady condition says whether there was one.
   */
  lemma EveryStatusReportsItsLease(h: History, steps: seq<Step>, key: NamespacedName)
    requires Consistent(h) && AllowedRun(h, steps) && key in Run(h, steps).cluster.groups
    requires Run(h, steps).cluster.groups[key].status != NO_STATUS
    ensures var s, past := Run(h, steps).cluster.groups[key].status, Run(h, steps).past;
            && s.observed in past && ReportsLease(s, past[s.observed])
            && s.holder == if past[s.observed].holder.Some? then past[s.observed].holder.value else ""
  {
    hide Run, AllowedRun, ReportsLease, Stored;
    RunIsConsistent(h, steps);
    var s, past := Run(h, steps).cluster.groups[key].status, Run(h, steps).past;
    ReflectingReports(s, past[s.observed]);
  }

  /** A group that is to have a Lease. */
  predicate Usable(c: Cluster, key: NamespacedName) {
    key in c.groups && !c.groups[key].deleting && c.groups[key].kind.Controller? && c.groups[key].component != ""
  }

  /** Each call that is made succeeds. */
  predicate CallsSucceed(c: Cluster, g: LeaderGroup, failing: set<Call>, now: Time) {
    && GetLease !in failing
    && (if LeaseKey(g) !in c.leases then CreateLease !in failing else Claimed(c.leases[LeaseKey(g)], g) || UpdateLease !in failing)
    && var lease := if LeaseKey(g) !in c.leases then NewLease(g).(version := Version(c.version + 1))
                    else if Claimed(c.leases[LeaseKey(g)], g) then c.leases[LeaseKey(g)]
                    else Claim(c.leases[LeaseKey(g)], g).(version := Version(c.version + 1));
       StatusEqual(g.status, Projected(g.status, lease, now)) || UpdateStatus !in failing
  }

  /** Success exactly if the calls succeed and the group is in order; another look in ten seconds exactly for a group with a Lease. */
  lemma ReconcileAnswers(c: Cluster, key: NamespacedName, failing: set<Call>, now: Time)
    ensures var o := Reconciled(c, key, failing, now);
            && (o.requeueAfter == if o.ok && Usable(c, key) then Some(10_000_000_000) else None)
            && (GetGroup in failing ==> !o.ok && o.cluster == c)
            && (GetGroup !in failing && key !in c.groups ==> o.ok && o.cluster == c)
            && (GetGroup !in failing && key in c.groups && !c.groups[key].deleting ==>
                  && (c.groups[key].kind.Routing? ==> o.ok && o.cluster == c)
                  && (!c.groups[key].kind.Routing? && !Usable(c, key) ==> !o.ok && o.cluster == c)
                  && (Usable(c, key) ==> (o.ok <==> CallsSucceed(c, c.groups[key], failing, now))))
  {
    hide Claimed, Claim, NewLease, StatusEqual, Projected, Stored;
  }

  /** A controller group that is deleted takes its Lease along, exactly if no call fails; nothing else changes. */
  lemma DeletionTakesTheLeaseAlong(c: Cluster, key: NamespacedName, failing: set<Call>, now: Time)
    requires GetGroup !in failing && key in c.groups && c.groups[key].deleting && c.groups[key].key == key
    ensures var o, g := Reconciled(c, key, failing, now), c.groups[key];
            && o.cluster.groups == c.groups && o.cluster.version == c.version
            && (o.ok <==> !g.kind.Controller? || (GetLeaseCleanup !in failing && (LeaseKey(g) in c.leases ==> DeleteLease !in failing)))
            && forall k :: Get(o.cluster.leases, k) ==
                 if o.ok && g.kind.Controller? && k == NamespacedName(key.namespace, g.component + "-lease") then None else Get(c.leases, k)
  {
  }

  // ---------- Two groups, one Lease ----------

  lemma SameLeaseOtherName(g: LeaderGroup, h: LeaderGroup)
    requires LeaseKey(g) == LeaseKey(h) && g.key != h.key
    ensures g.key.name != h.key.name
  {
  }

  /** A reconcile without failures of an active group: its Lease is claimed, and written if it was not; other groups and Leases stay. */
  lemma ActiveReconcile(c: Cluster, h: NamespacedName, now: Time)
    requires Active(c, h)
    ensures var e, key := Reconciled(c, h, {}, now).cluster, LeaseKey(c.groups[h]);
            && Reconciled(c, h, {}, now).ok && e.groups.Keys == c.groups.Keys
            && Active(e, h) && LeaseKey(e.groups[h]) == key && (forall k :: k in c.groups && k != h ==> e.groups[k] == c.groups[k])
            && key in e.leases && Claimed(e.leases[key], c.groups[h]) && e.leases == c.leases[key := e.leases[key]]
            && (if key in c.leases && Claimed(c.leases[key], c.groups[h]) then e.leases == c.leases && e.version == c.version
                else e.version == c.version + 1)
  {
    hide Stored, Projected, Claim, Claimed, NewLease, StatusEqual;
  }

  /** A reconcile of another group unsettles a settled one exactly if both have the same Lease. */
  lemma OtherGroupUnsettlesIffSameLease(c: Cluster, g: NamespacedName, h: NamespacedName, now: Time)
    requires Settled(c, g) && Active(c, h) && g != h
    ensures Settled(Reconciled(c, h, {}, now).cluster, g) <==> LeaseKey(c.groups[g]) != LeaseKey(c.groups[h])
  {
    hide Reconciled, Stored, Reflects, Claimed;
    ActiveReconcile(c, h, now);
    var e := Reconciled(c, h, {}, now).cluster;
    if LeaseKey(c.groups[g]) == LeaseKey(c.groups[h]) {
      SameLeaseOtherName(c.groups[g], c.groups[h]);
      ClaimedExcludes(e.leases[LeaseKey(c.groups[h])], c.groups[h], c.groups[g]);
    }
  }

  lemma ClaimedExcludes(lease: Lease, g: LeaderGroup, h: LeaderGroup)
    requires g.key.name != h.key.name && Claimed(lease, g)
    ensures !Claimed(lease, h)
  {
  }

  /** The groups are reconciled in turn, each time without failures. */
  function InTurn(c: Cluster, g: NamespacedName, h: NamespacedName, nows: seq<Time>): Cluster
    decreases |nows|
  {
    if nows == [] then c else InTurn(Reconciled(c, g, {}, nows[0]).cluster, h, g, nows[1..])
  }

  /** Two active groups of one Lease, of which the first does not have it at the moment. */
  ghost predicate Contend(c: Cluster, g: NamespacedName, h: NamespacedName) {
    && g != h && Active(c, g) && Active(c, h) && LeaseKey(c.groups[g]) == LeaseKey(c.groups[h])
    && LeaseKey(c.groups[g]) in c.leases && !Claimed(c.leases[LeaseKey(c.groups[g])], c.groups[g])
  }

  /** They take the Lease from each other for ever: every single reconcile writes it, and leaves the other group without it. */
  lemma {:induction false} SharedLeaseNeverSettles(c: Cluster, g: NamespacedName, h: NamespacedName, nows: seq<Time>)
    requires Contend(c, g, h)
    ensures InTurn(c, g, h, nows).version == c.version + |nows|
    ensures if |nows| % 2 == 0 then Contend(InTurn(c, g, h, nows), g, h) else Contend(InTurn(c, g, h, nows), h, g)
    decreases |nows|
  {
    hide Reconciled, Claimed;
    if nows != [] {
      ActiveReconcile(c, g, nows[0]);
      var e := Reconciled(c, g, {}, nows[0]).cluster;
      SameLeaseOtherName(c.groups[g], c.groups[h]);
      ClaimedExcludes(e.leases[LeaseKey(c.groups[g])], c.groups[g], c.groups[h]);
      SharedLeaseNeverSettles(e, h, g, nows[1..]);
    }
  }

  /** Once one of them is settled, the next reconcile of the other starts such a contention. */
  lemma SettledContends(c: Cluster, g: NamespacedName, h: NamespacedName)
    requires Settled(c, g) && Active(c, h) && g != h && LeaseKey(c.groups[g]) == LeaseKey(c.groups[h])
    ensures Contend(c, h, g)
  {
    SameLeaseOtherName(c.groups[g], c.groups[h]);
  }

  /** For instance two groups of component `db`, starting from no Lease at all. */
  lemma TwoGroupsOfOneComponent(nows: seq<Time>)
    ensures var a, b := NamespacedName("default", "a"), NamespacedName("default", "b");
            var groups := map[a := LeaderGroup(a, "1", false, Controller, "db", None, None, NO_STATUS),
                              b := LeaderGroup(b, "2", false, Controller, "db", None, None, NO_STATUS)];
            InTurn(Reconciled(Cluster(groups, map[], 0), a, {}, 0).cluster, b, a, nows).version == 1 + |nows|
  {
    hide Reconciled, Claimed, InTurn;
    var a, b := NamespacedName("default", "a"), NamespacedName("default", "b");
    assert "a"[0] != "b"[0];
    var groups := map[a := LeaderGroup(a, "1", false, Controller, "db", None, None, NO_STATUS),
                      b := LeaderGroup(b, "2", false, Controller, "db", None, None, NO_STATUS)];
    var c := Cluster(groups, map[], 0);
    ActiveReconcile(c, a, 0);
    var e := Reconciled(c, a, {}, 0).cluster;
    ClaimedExcludes(e.leases[LeaseKey(groups[a])], groups[a], groups[b]);
    SharedLeaseNeverSettles(e, b, a, nows);
  }

  // ---------- The controller ----------

  method UpsertCondition(conditions: seq<Condition>, c: Condition) returns (upserted: seq<Condition>)
    ensures upserted == Upserted(conditions, c)
  {
    assert conditions[0..] == conditions;
    for i := 0 to |conditions|
      invariant Upserted(conditions, c) == conditions[..i] + Upserted(conditions[i..], c)
    {
      if conditions[i].kind == c.kind {
        assert conditions[i := c] == conditions[..i] + ([c] + conditions[i + 1..]);
        return conditions[i := c];
      }
      assert conditions[..i + 1] == conditions[..i] + [conditions[i]];
    }
    assert conditions[..|conditions|] == conditions;
    return conditions + [c];
  }

  class LeaderGroupReconciler {
    var groups: map<NamespacedName, LeaderGroup>
    var leases: map<NamespacedName, Lease>
    ghost var version: nat

    ghost function Contents(): Cluster
      reads this
    {
      Cluster(groups, leases, version)
    }

    /** The API server's part of a Lease write. */
    method StoreLease(key: NamespacedName, lease: Lease, given: nat) returns (stored: Lease)
      requires given == version + 1
      modifies this
      ensures Contents() == PutLease(old(Contents()), key, lease) && stored == leases[key]
    {
      stored := lease.(version := Version(given));
      leases := leases[key := stored];
      version := version + 1;
    }

    method BuildLease(g: LeaderGroup) returns (lease: Lease)
      ensures lease == NewLease(g)
    {
      lease := Lease(LeaseKey(g), map[LABEL_MANAGED_BY := "zen-lead", LABEL_LEADER_GROUP := g.key.name], [OwnerRef(g.key.name, g.uid)],
                     None, None, None, None, Unset);
      if g.leaseDuration.Some? { lease := lease.(durationSeconds := Some(WholeSeconds(g.leaseDuration.value))); }
      if g.retryPeriod.Some? { lease := lease.(transitions := Some(WholeSeconds(g.retryPeriod.value))); }
    }

    /** Updates the Lease only if something about it is missing. */
    method UpdateLeaseMetadata(key: NamespacedName, lease: Lease, g: LeaderGroup, failing: set<Call>, given: nat)
      returns (ok: bool, updated: Lease)
      requires key in leases && leases[key] == lease && given == version + 1
      modifies this
      ensures ok == (Claimed(lease, g) || UpdateLease !in failing)
      ensures Contents() == if Claimed(lease, g) || !ok then old(Contents()) else PutLease(old(Contents()), key, Claim(lease, g))
      ensures ok ==> key in leases && updated == leases[key]
    {
      ClaimSettles(lease, g);
      updated := lease;
      var needsUpdate := false;
      if |lease.owners| == 0 {
        needsUpdate := true;
        updated := updated.(owners := [OwnerRef(g.key.name, g.uid)]);
      }
      if !(LABEL_MANAGED_BY in updated.labels && updated.labels[LABEL_MANAGED_BY] == "zen-lead") {
        updated := updated.(labels := updated.labels[LABEL_MANAGED_BY := "zen-lead"]);
        needsUpdate := true;
      }
      if !(LABEL_LEADER_GROUP in updated.labels && updated.labels[LABEL_LEADER_GROUP] == g.key.name) {
        updated := updated.(labels := updated.labels[LABEL_LEADER_GROUP := g.key.name]);
        needsUpdate := true;
      }
      assert updated == Claim(lease, g);
      if needsUpdate {
        if UpdateLease in failing { return false, lease; }
        updated := StoreLease(key, updated, given);
      }
      ok := true;
    }

    method UpdateStatusFromLease(g: LeaderGroup, lease: Lease, failing: set<Call>, now: Time) returns (ok: bool, requeueAfter: Option<Time>)
      modifies this
      ensures Outcome(Contents(), ok, requeueAfter) == StatusUpdated(old(Contents()), g, lease, failing, now)
      ensures groups == old(groups) || (g.key in groups && ReportsLease(groups[g.key].status, lease))
    {
      hide Upserted, Stored, ReportsLease, Reflects;
      StoredProjectionReflects(g.status, lease, now);
      ReflectingReports(Stored(Projected(g.status, lease, now)), lease);
      var status := g.status;
      if lease.holder.Some? { status := status.(holder := lease.holder.value); } else { status := status.(holder := ""); }
      if lease.renewTime.Some? { status := status.(renewTime := lease.renewTime); }
      if lease.durationSeconds.Some? { status := status.(durationSeconds := lease.durationSeconds); }
      if lease.transitions.Some? { status := status.(fencingToken := lease.transitions); }
      status := status.(observed := lease.version);
      var condition := Condition("LeaseReady", true, "LeaseExists", "Lease \"" + lease.key.name + "\" exists", now);
      if lease.holder.None? || lease.holder.value == "" {
        condition := Condition("LeaseReady", false, "NoHolder", "Lease exists but no holder", now);
      }
      var conditions := UpsertCondition(status.conditions, condition);
      status := status.(conditions := conditions);
      if !StatusEqual(g.status, status) {
        if UpdateStatus in failing { return false, None; }
        groups := groups[g.key := g.(status := Stored(status))];
      }
      return true, Some(REQUEUE_AFTER);
    }

    /** Exactly the Lease of a controller group is deleted, unless a call fails. */
    method CleanupLease(g: LeaderGroup, failing: set<Call>) returns (ok: bool)
      modifies this
      ensures groups == old(groups) && version == old(version)
      ensures ok <==> !g.kind.Controller? || (GetLeaseCleanup !in failing && (LeaseKey(g) in old(leases) ==> DeleteLease !in failing))
      ensures forall k :: k in leases <==> k in old(leases) && !(ok && g.kind.Controller? && k == LeaseKey(g))
      ensures forall k :: k in leases ==> leases[k] == old(leases)[k]
    {
      if !g.kind.Controller? { return true; }
      if GetLeaseCleanup in failing { return false; }
      if LeaseKey(g) !in leases { return true; }
      if DeleteLease in failing { return false; }
      leases := leases - {LeaseKey(g)};
      return true;
    }

    /** `given` is the version the API server would give to a Lease written now. */
    method Reconcile(key: NamespacedName, failing: set<Call>, now: Time, given: nat) returns (ok: bool, requeueAfter: Option<Time>)
      requires given == version + 1
      modifies this
      ensures Outcome(Contents(), ok, requeueAfter) == Reconciled(old(Contents()), key, failing, now)
    {
      hide Projected, StatusEqual, NewLease, Claim, Claimed, Stored;
      if GetGroup in failing { return false, None; }
      if key !in groups { return true, None; }
      var g := groups[key];
      if g.deleting {
        ok := CleanupLease(g, failing);
        assert leases == CleanedUp(old(Contents()), g, failing).cluster.leases;
        return ok, None;
      }
      if g.kind.Routing? { return true, None; }
      if !g.kind.Controller? || g.component == "" { return false, None; }
      if GetLease in failing { return false, None; }
      var lease: Lease;
      if LeaseKey(g) !in leases {
        lease := BuildLease(g);
        if CreateLease in failing { return false, None; }
        lease := StoreLease(LeaseKey(g), lease, given);
      } else {
        ok, lease := UpdateLeaseMetadata(LeaseKey(g), leases[LeaseKey(g)], g, failing, given);
        if !ok { return false, None; }
      }
      ok, requeueAfter := UpdateStatusFromLease(g, lease, failing, now);
    }
  }
}
