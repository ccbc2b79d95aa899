/** How a reconcile may end, and what is stored by then. */
module Endings {
  import opened Wrappers
  import opened Utils
  import opened Lvm
  import opened Api
  import opened World
  import opened SyncSpec
  import opened ReconcileSpec
  import opened Outcomes
  import opened Passes
  import Selector

  /** Once the group is gone the finalizer is next, if there is one; anything else ends the reconcile. */
  predicate RemovalReplied(o: Object, r: Reply, last: Event) {
    match last.action
    case Lvm(_) =>
      if last.error.None? || last.error == Some(NotFound) then r.Requeue? && VOLUME_GROUP_FINALIZER !in o.finalizers
      else r == Erred(FailuresOf(last.error))
    case Update(_, _) => r == if last.error.None? then Done else Erred(FailuresOf(last.error))
    case _ => false
  }

  /**
   * How a deletion may end. While the group is there nothing is stored, so the finalizer stays; undisturbed
   * the group stays exactly if it is stuck.
   */
  ghost predicate Removal(o: Object, key: string, now: int, r: Reply, m: Moment, m': Moment) {
    var name := NameOnNode(o.uid, o.spec);
    && !r.RequeueAfter? && !r.Crashed?
    && (Exists(m', name) ==> r.Erred? && OnlyLvm(m, m'))
    && (r.Done? ==> !Claims(m'.world.store, key))
    && (r.Requeue? ==> VOLUME_GROUP_FINALIZER !in o.finalizers)
    && |m'.events| > 0 && RemovalReplied(o, r, m'.events[|m'.events| - 1])
    && (Undisturbed(m) ==>
          && (Exists(m', name) <==> Stuck(o, now, m.world.host))
          && (!Exists(m', name) && VOLUME_GROUP_FINALIZER !in o.finalizers ==> r.Requeue?)
          && (!Exists(m', name) && VOLUME_GROUP_FINALIZER in o.finalizers ==> r.Done? || !OnlyLvm(m, m')))
  }

  lemma RemovalAfterRead(o: Object, key: string, now: int, r: Reply, m0: Moment, m: Moment, m': Moment)
    requires Stepped(m0, Get(key), None, m) && Continues(m, m') && Removal(o, key, now, r, m, m')
    ensures Removal(o, key, now, r, m0, m')
  {
    GetRests(o, key, m0, m);
    ContinuesTransitive(m0, m, m');
    StepContinues(m0, Get(key), None, m);
  }

  /** What discovery fails with if this call is the one that ends it. */
  function BrokenBy(o: Object, e: Event): seq<Failure> {
    match e.action
    case Lvm(c) => if c.VGS? || c.Create? then FailuresOf(e.error) else []
    case RunLsblk(_) =>
      if e.error.Some? then [Call(e.error.value)]
      else if ScanFault(o.spec, e.after).Some? then [Selection(ScanFault(o.spec, e.after).value)]
      else []
    case _ => []
  }

  /** A failed create is said in the conditions; any other failure of discovery leaves them alone. */
  ghost predicate SaidOfFailure(o: Object, e: Event, after: seq<Condition>) {
    if e.action.Lvm? && e.action.command.Create? then Concluded(o.conditions, after, o.generation, false)
    else after == o.conditions
  }

  /** Discovery has ended with the last call, and this is what it has come to. */
  ghost predicate DiscoveryFailed(o: Object, after: seq<Condition>, failures: seq<Failure>, m: Moment, m': Moment) {
    && |m'.events| > |m.events|
    && var e := m'.events[|m'.events| - 1];
       failures != [] && failures == BrokenBy(o, e) && SaidOfFailure(o, e, after) && InDiscovery(o, e, m)
  }

  /** The lookup, or a call made because there is no group. */
  ghost predicate InDiscovery(o: Object, e: Event, m: Moment) {
    e.action == Lvm(VGS(NameOnNode(o.uid, o.spec))) || !Exists(m, NameOnNode(o.uid, o.spec))
  }

  lemma LookEndsDiscovery(o: Object, out: Outcome, m: Moment, m': Moment)
    requires Looked(o.spec, m, m') && m' != m && Evaluated(o.spec, out, m, m') && out.Failed?
    requires !Exists(m, NameOnNode(o.uid, o.spec))
    ensures DiscoveryFailed(o, o.conditions, out.errors, m, m')
  {
    var columns, err :| Stepped(m, RunLsblk(columns), err, m');
    StepContinues(m, RunLsblk(columns), err, m');
  }

  lemma CreateEndsDiscovery(o: Object, pvs: seq<string>, after: seq<Condition>, m0: Moment, m: Moment,
                            err: Option<Error>, m': Moment)
    requires |m0.events| <= |m.events| && !Exists(m0, NameOnNode(o.uid, o.spec))
    requires err.Some? && Concluded(o.conditions, after, o.generation, false)
    requires Stepped(m, Lvm(Create(NameOnNode(o.uid, o.spec), ConvertToVGCreateOptions(o.spec, pvs))), err, m')
    ensures DiscoveryFailed(o, after, FromCall(err).errors, m0, m')
  {
  }

  /** A status update based on `o`; if it succeeds, its conditions are what is stored. */
  predicate Files(o: Object, key: string, e: Event) {
    && e.action.UpdateStatus? && e.action.key == key
    && e.action.obj.uid == o.uid && e.action.obj.version == o.version
    && (e.error.None? ==> key in e.after.store && e.after.store[key].conditions == e.action.obj.conditions)
  }

  /** Discovery failed, this was stored, and all of it is returned. */
  ghost predicate FailureFiled(o: Object, key: string, failures: seq<Failure>, m: Moment, m': Moment) {
    && |m'.events| > |m.events| + 1
    && var e, last := m'.events[|m'.events| - 2], m'.events[|m'.events| - 1];
       && BrokenBy(o, e) != [] && failures == BrokenBy(o, e) + FailuresOf(last.error)
       && Files(o, key, last) && SaidOfFailure(o, e, last.action.obj.conditions) && InDiscovery(o, e, m)
       && last.action.obj.status == o.status
  }

  lemma FailureIsFiled(o: Object, key: string, obj: Object, failures: seq<Failure>, m0: Moment, m: Moment,
                       err: Option<Error>, m': Moment)
    requires DiscoveryFailed(o, obj.conditions, failures, m0, m) && Stepped(m, UpdateStatus(key, obj), err, m')
    requires Files(o, key, m'.events[|m.events|]) && obj.status == o.status
    ensures FailureFiled(o, key, failures + FailuresOf(err), m0, m')
  {
    assert m'.events[|m.events| - 1] == m'.events[..|m.events|][|m.events| - 1];
  }

  /** The last call stored our finalizer, or failed to. */
  ghost predicate ClaimFiled(o: Object, key: string, r: Reply, m': Moment) {
    && |m'.events| > 0
    && var last := m'.events[|m'.events| - 1];
       && last.action == Update(key, o.(finalizers := o.finalizers + ["topolvm.io/volumegroup-removal-on-node"]))
       && r == if last.error.None? then Requeue else Erred(FailuresOf(last.error))
  }

  /** A synchronisation, the listing of volumes for the status, and the status update. */
  datatype Passage = Passage(
    t: Task, synced: Outcome, begin: Moment, end: Moment, listed: Outcome, seen: Moment, obj: Object,
    err: Option<Error>)

  /** The status was refreshed from the listing, unless that failed, and sent to the API server. */
  ghost predicate Recorded(p: Passage, o: Object, key: string, m': Moment) {
    && QueriesOnly(p.t, p.end, p.seen) && Relayed(p.listed, p.end, p.seen)
    && (if p.listed.Ok? then StatusShows(p.obj.status, p.t.lvm, Group(p.seen, p.t.name)) else p.obj.status == o.status)
    && Stepped(p.seen, UpdateStatus(key, p.obj), p.err, m') && Files(o, key, m'.events[|p.seen.events|])
  }

  lemma WasRecorded(p: Passage, o: Object, key: string, m': Moment)
    requires QueriesOnly(p.t, p.end, p.seen) && Relayed(p.listed, p.end, p.seen)
    requires if p.listed.Ok? then StatusShows(p.obj.status, p.t.lvm, Group(p.seen, p.t.name))
             else p.obj.status == o.status
    requires Stepped(p.seen, UpdateStatus(key, p.obj), p.err, m') && Files(o, key, m'.events[|p.seen.events|])
    ensures Recorded(p, o, key, m')
  {
  }

  /** What the synchronisation has come to is what is stored of it. */
  ghost predicate Passed(p: Passage, o: Object, key: string, m': Moment) {
    && p.t.spec == o.spec && p.t.name == NameOnNode(o.uid, o.spec)
    && Exists(p.begin, p.t.name) && Reflects(p.t.lvm, Group(p.begin, p.t.name))
    && Synchronised(p.t, o.generation, o.conditions, p.obj.conditions, p.synced, p.begin, p.end)
    && Recorded(p, o, key, m')
  }

  lemma HasPassed(p: Passage, o: Object, key: string, m': Moment)
    requires p.t.spec == o.spec && p.t.name == NameOnNode(o.uid, o.spec)
    requires Exists(p.begin, p.t.name) && Reflects(p.t.lvm, Group(p.begin, p.t.name))
    requires Synchronised(p.t, o.generation, o.conditions, p.obj.conditions, p.synced, p.begin, p.end)
    requires Recorded(p, o, key, m')
    ensures Passed(p, o, key, m')
  {
  }

  /** Every error is returned: of the synchronisation, of the listing and of the update. */
  function ReplyTo(p: Passage): Reply {
    if p.synced.Ok? && p.listed.Ok? && p.err.None? then RequeueAfter
    else Erred(ErrorsIn(p.synced) + ErrorsIn(p.listed) + FailuresOf(p.err))
  }

  ghost predicate SyncFiled(o: Object, key: string, r: Reply, m: Moment, m': Moment) {
    exists p :: Passed(p, o, key, m') && Continues(m, p.begin) && r == ReplyTo(p)
  }

  lemma JoinedReply(p: Passage, s: Outcome, r: Reply)
    requires !p.synced.Panicked? && !s.Panicked? && (s.Ok? <==> p.listed.Ok? && p.err.None?)
    requires ErrorsIn(s) == ErrorsIn(p.listed) + FailuresOf(p.err)
    requires var o := Joined(p.synced, s); r == if o.Ok? then RequeueAfter else Erred(ErrorsIn(o))
    ensures r == ReplyTo(p)
  {
    assert ErrorsIn(p.synced) + (ErrorsIn(p.listed) + FailuresOf(p.err))
        == ErrorsIn(p.synced) + ErrorsIn(p.listed) + FailuresOf(p.err);
  }

  lemma CalmIsReported(t: Task, ok: bool, o: Object, stored: bool, m0: Moment, m: Moment, m': Moment)
    requires t.spec == o.spec && t.name == NameOnNode(o.uid, o.spec)
    requires SyncDone(t, ok, m0, m) && Reflects(t.lvm, Group(m0, t.name))
    requires ok && Calm(m, t.name) ==> (stored <==> !LastFailed(m'))
    ensures CalmReport(o, ok && stored, m0, m')
  {
  }

  lemma PanicIsIssued(node: string, key: string, now: int, o: Object, t: Task, m: Moment, m': Moment)
    requires t.spec == o.spec && t.name == NameOnNode(o.uid, o.spec)
    requires Exists(m, t.name) && Reflects(t.lvm, Group(m, t.name)) && SyncDone(t, false, m, m')
    requires o.spec.nodeName == node && o.deletion.None? && VOLUME_GROUP_FINALIZER in o.finalizers
    ensures IssuedAll(node, key, now, o, m, m') && Rests(o, m, m') && CalmReport(o, false, m, m')
  {
    SyncedIsIssued(node, key, now, o, t, false, m, m');
    CalmIsReported(t, false, o, false, m, m', m');
  }

  /** What follows from all that has happened for the reply. */
  lemma SyncReplied(p: Passage, s: Outcome, r: Reply, o: Object, key: string, m': Moment)
    requires p.t.spec == o.spec && p.t.name == NameOnNode(o.uid, o.spec)
    requires Exists(p.begin, p.t.name) && Reflects(p.t.lvm, Group(p.begin, p.t.name))
    requires Synchronised(p.t, o.generation, o.conditions, p.obj.conditions, p.synced, p.begin, p.end)
    requires Recorded(p, o, key, m')
    requires !p.synced.Panicked? && !s.Panicked? && (s.Ok? <==> p.listed.Ok? && p.err.None?)
    requires ErrorsIn(s) == ErrorsIn(p.listed) + FailuresOf(p.err)
    requires var j := Joined(p.synced, s); r == if j.Ok? then RequeueAfter else Erred(ErrorsIn(j))
    requires Calm(p.end, p.t.name) ==> (s.Ok? <==> !LastFailed(m'))
    ensures SyncFiled(o, key, r, p.begin, m') && CalmReport(o, r.RequeueAfter?, p.begin, m')
  {
    HasPassed(p, o, key, m');
    JoinedReply(p, s, r);
    RanNothing(p.t, p.begin);
    CalmIsReported(p.t, p.synced.Ok?, o, s.Ok?, p.begin, p.end, m');
  }

  lemma SyncFiledLater(o: Object, key: string, r: Reply, m0: Moment, m: Moment, m': Moment)
    requires Continues(m0, m) && SyncFiled(o, key, r, m, m')
    ensures SyncFiled(o, key, r, m0, m')
  {
    var p :| Passed(p, o, key, m') && Continues(m, p.begin) && r == ReplyTo(p);
    ContinuesTransitive(m0, m, p.begin);
  }

  /** Whatever has happened is stored in the end, unless the reconcile crashes. */
  ghost predicate Filed(o: Object, key: string, r: Reply, m: Moment, m': Moment) {
    || r.Crashed?
    || (r.Erred? && FailureFiled(o, key, r.errors, m, m'))
    || (if VOLUME_GROUP_FINALIZER in o.finalizers then SyncFiled(o, key, r, m, m') else ClaimFiled(o, key, r, m'))
  }

  lemma FiledLater(o: Object, key: string, r: Reply, m0: Moment, m: Moment, m': Moment)
    requires Continues(m0, m) && Filed(o, key, r, m, m')
    requires Exists(m0, NameOnNode(o.uid, o.spec)) == Exists(m, NameOnNode(o.uid, o.spec))
    ensures Filed(o, key, r, m0, m')
  {
    if SyncFiled(o, key, r, m, m') {
      SyncFiledLater(o, key, r, m0, m, m');
    }
  }

  /** How a reconcile of a resource that is not being deleted may end. */
  ghost predicate Upkeep(o: Object, key: string, r: Reply, m: Moment, m': Moment) {
    var name := NameOnNode(o.uid, o.spec);
    && !r.Done?
    && Rests(o, m, m') && Filed(o, key, r, m, m')
    && (r.Requeue? ==> VOLUME_GROUP_FINALIZER !in o.finalizers && Exists(m', name) && Claims(m'.world.store, key))
    && (r.RequeueAfter? ==> VOLUME_GROUP_FINALIZER in o.finalizers && Reported(o, key, m, m'))
    && (r.Crashed? ==>
          || PanicSeen(o.spec, m'.world)
          || (VOLUME_GROUP_FINALIZER in o.finalizers && !Exists(m, name)))
    && (Undisturbed(m) ==> (r.Crashed? <==> Crashing(o, m)))
    && (Undisturbed(m) && !r.Crashed? && !Exists(m, name) && !Creatable(o.spec, m.world.host) ==>
          r.Erred? && FailureFiled(o, key, r.errors, m, m'))
    && (if VOLUME_GROUP_FINALIZER in o.finalizers then CalmReport(o, r.RequeueAfter?, m, m')
        else Undisturbed(m) && (Exists(m, name) || Creatable(o.spec, m.world.host)) ==> r.Requeue? || LastFailed(m'))
  }

  lemma FailureIsUpkeep(o: Object, key: string, r: Reply, m: Moment, m': Moment)
    requires r.Erred? && FailureFiled(o, key, r.errors, m, m') && Rests(o, m, m')
    requires Undisturbed(m) ==> !Exists(m, NameOnNode(o.uid, o.spec)) && !SelectorPanics(o.spec, m.world.host)
                                && !Creatable(o.spec, m.world.host)
    ensures Upkeep(o, key, r, m, m')
  {
  }

  lemma ClaimIsUpkeep(o: Object, key: string, r: Reply, m: Moment, m': Moment)
    requires VOLUME_GROUP_FINALIZER !in o.finalizers && ClaimFiled(o, key, r, m') && Rests(o, m, m')
    requires (r.Requeue? && Claims(m'.world.store, key)) || (r.Erred? && LastFailed(m'))
    requires Exists(m', NameOnNode(o.uid, o.spec))
    requires Undisturbed(m) ==> Exists(m, NameOnNode(o.uid, o.spec)) || Creatable(o.spec, m.world.host)
    ensures Upkeep(o, key, r, m, m')
  {
    CreatableIsNoPanic(o.spec, m.world.host);
  }

  lemma SyncIsUpkeep(o: Object, key: string, r: Reply, m: Moment, m': Moment)
    requires VOLUME_GROUP_FINALIZER in o.finalizers && !r.Done? && !r.Requeue? && Rests(o, m, m')
    requires r.Crashed? || SyncFiled(o, key, r, m, m')
    requires r.RequeueAfter? ==> Reported(o, key, m, m')
    requires CalmReport(o, r.RequeueAfter?, m, m')
    requires r.Crashed? ==> PanicSeen(o.spec, m'.world) || !Exists(m, NameOnNode(o.uid, o.spec))
    requires Undisturbed(m) ==>
               if Exists(m, NameOnNode(o.uid, o.spec)) then r.Crashed? <==> SelectorPanics(o.spec, m.world.host)
               else r.Crashed? && Creatable(o.spec, m.world.host)
    ensures Upkeep(o, key, r, m, m')
  {
  }

  lemma UpkeepAfterRead(o: Object, key: string, r: Reply, m0: Moment, m: Moment, m': Moment)
    requires Stepped(m0, Get(key), None, m) && Continues(m, m') && m.world.StoreValid() && m.world.store[key] == o
    requires Upkeep(o, key, r, m, m')
    ensures Upkeep(o, key, r, m0, m')
    ensures r.RequeueAfter? ==> Unchanged(o, m'.world.store[key])
  {
    AfterRead(o, key, r.RequeueAfter?, m0, m, m');
    GetRests(o, key, m0, m);
    FiledLater(o, key, r, m0, m, m');
    if VOLUME_GROUP_FINALIZER in o.finalizers && Exists(m0, NameOnNode(o.uid, o.spec)) {
      WatchedCalmReport(o, r.RequeueAfter?, m0, m, m');
    }
  }
}
