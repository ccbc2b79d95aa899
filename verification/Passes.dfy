/** One pass over all synchronisers, and the verdict of a whole synchronisation. */
module Passes {
  import opened Wrappers
  import opened Utils
  import opened Lsblk
  import opened Lvm
  import opened Api
  import opened World
  import opened SyncSpec
  import opened Outcomes
  import Moving
  import Selector

  /** Every failure of a synchroniser while volumes are missing is put down to that, or to the selector. */
  predicate Answered(t: Task, o: Outcome, m: Moment) {
    o.Ok? || Complains(o) || SelectorAborts(t.spec, m.world.host)
  }

  /** What one synchroniser has done. */
  ghost predicate PartRun(p: Part, t: Task, o: Outcome, m: Moment, m': Moment) {
    && PartDone(p, t, o.Ok?, m, m')
    && Stalled(t.name, if p.PVsPart? then Answered(t, o, m) else o.Ok? || Complains(o), m, m')
    && (Complains(o) ==> Blames(t.name, m, m'))
    && (o.Panicked? ==> p.PVsPart? && PanicSeen(t.spec, m'.world))
    && (p.PVsPart? && Undisturbed(m) ==> (o.Panicked? <==> SelectorPanics(t.spec, m.world.host)))
    && (p.PVsPart? && Undisturbed(m) && SelectorAborts(t.spec, m.world.host) ==> !Complains(o))
  }

  /** How its outcome comes from the calls it has made. */
  ghost predicate PartTold(p: Part, spec: Spec, o: Outcome, m: Moment, m': Moment) {
    if p.PVsPart? then Evaluated(spec, o, m, m') else Relayed(o, m, m')
  }

  /** While volumes are missing it complains exactly if it would change something. */
  ghost predicate PartComplains(p: Part, t: Task, o: Outcome, m: Moment) {
    Lossy(m, t.name) && Reflects(t.lvm, Group(m, t.name)) && !o.Panicked? ==>
      (Complains(o) <==> DuePart(p, t.spec, m.world.host, Group(m, t.name)))
  }

  /** What one synchroniser has come to. */
  ghost predicate PartEnded(p: Part, t: Task, o: Outcome, m: Moment, m': Moment) {
    PartRun(p, t, o, m, m') && PartTold(p, t.spec, o, m, m') && PartComplains(p, t, o, m)
  }

  lemma ComplainsIfDue(p: Part, t: Task, o: Outcome, m: Moment, m': Moment)
    requires PartRun(p, t, o, m, m')
    ensures PartComplains(p, t, o, m)
  {
  }

  /** What a pass that began at `m0` has come to after `i` synchronisers, or where one of them panicked. */
  ghost predicate PassStands(t: Task, i: nat, o: Outcome, m0: Moment, m: Moment)
    requires i <= |SYNCERS|
  {
    && (if o.Panicked? then PassPanicked(t, m0, m) else PassSoFar(t, i, o.Ok?, m0, m) && Spared(t, i, m0))
    && Stalled(t.name, Answered(t, o, m0), m0, m)
    && (Complains(o) ==> Blames(t.name, m0, m))
    && PassTold(t.spec, i, o, m0, m)
    && PassComplains(t, i, o, m0)
  }

  /** Errors are those of calls, or of the selector on the devices that lsblk has reported. */
  ghost predicate PassTold(spec: Spec, i: nat, o: Outcome, m0: Moment, m: Moment) {
    if o.Panicked? then ScanFault(spec, m.world) == Some(Selector.Panic)
    else Accounted(o, Since(m0, m), if i > 1 then ScanFault(spec, m.world) else None)
  }

  ghost predicate PassComplains(t: Task, i: nat, o: Outcome, m0: Moment)
    requires i <= |SYNCERS|
  {
    Lossy(m0, t.name) && Reflects(t.lvm, Group(m0, t.name)) && !o.Panicked? ==>
      (Complains(o) <==> DueUpTo(i, t.spec, m0.world.host, Group(m0, t.name)))
  }

  lemma PartAccounted(p: Part, spec: Spec, o: Outcome, m: Moment, m': Moment)
    requires PartTold(p, spec, o, m, m')
    ensures Accounted(o, Since(m, m'), if p.PVsPart? then ScanFault(spec, m'.world) else None)
    ensures o.Panicked? ==> p.PVsPart? && ScanFault(spec, m'.world) == Some(Selector.Panic)
  {
    if Relayed(o, m, m') {
      RelaysFailures(o, Since(m, m'));
    }
  }

  lemma NextTold(spec: Spec, i: nat, before: Outcome, more: Outcome, m0: Moment, m: Moment, m': Moment)
    requires i < |SYNCERS| && PassTold(spec, i, before, m0, m) && !before.Panicked?
    requires PartTold(SYNCERS[i], spec, more, m, m') && (!SYNCERS[i].PVsPart? ==> SameScan(m, m'))
    requires Since(m0, m') == Since(m0, m) + Since(m, m')
    ensures PassTold(spec, i + 1, Joined(before, more), m0, m')
  {
    PartAccounted(SYNCERS[i], spec, more, m, m');
    AccountedTogether(before, Since(m0, m), if i > 1 then ScanFault(spec, m.world) else None,
        more, Since(m, m'), if SYNCERS[i].PVsPart? then ScanFault(spec, m'.world) else None);
  }

  lemma EitherComplains(before: Outcome, more: Outcome)
    requires !before.Panicked? && !more.Panicked?
    ensures Complains(Joined(before, more)) <==> Complains(before) || Complains(more)
    ensures Joined(before, more).Ok? <==> before.Ok? && more.Ok?
  {
  }

  lemma NextComplains(t: Task, i: nat, before: Outcome, more: Outcome, m0: Moment, m: Moment)
    requires i < |SYNCERS| && PassComplains(t, i, before, m0) && !before.Panicked?
    requires PartComplains(SYNCERS[i], t, more, m) && Stalled(t.name, Answered(t, before, m0), m0, m)
    ensures PassComplains(t, i + 1, Joined(before, more), m0)
  {
    if Lossy(m0, t.name) {
      DueNext(i, t.spec, m0.world.host, Group(m0, t.name));
    }
    if !more.Panicked? {
      EitherComplains(before, more);
    }
  }

  ghost predicate PassPanicked(t: Task, m0: Moment, m: Moment) {
    && SyncDone(t, false, m0, m) && PanicSeen(t.spec, m.world)
    && (forall e | e in Since(m0, m) :: !Repairs(e.action))
    && (Undisturbed(m0) ==> SelectorPanics(t.spec, m0.world.host))
  }

  /** The `k`-th synchroniser. */
  ghost predicate PartRan(t: Task, k: nat, o: Outcome, m: Moment, m': Moment) {
    k < |SYNCERS| && PartEnded(SYNCERS[k], t, o, m, m')
  }

  /** The synchronisers ran one after the other; a panic is the last thing that happens. */
  ghost predicate PassRan(t: Task, parts: seq<Outcome>, ms: seq<Moment>, m0: Moment, m: Moment) {
    && |parts| <= |SYNCERS| && |ms| == |parts| + 1 && ms[0] == m0 && ms[|parts|] == m
    && (forall k | 0 <= k < |parts| :: PartRan(t, k, parts[k], ms[k], ms[k + 1]))
    && (forall k | 0 <= k < |parts| - 1 :: !parts[k].Panicked?)
  }

  lemma PartRanOn(t: Task, parts: seq<Outcome>, ms: seq<Moment>, more: Outcome, m0: Moment, m: Moment, m': Moment)
    requires PassRan(t, parts, ms, m0, m) && forall p | p in parts :: !p.Panicked?
    requires PartRan(t, |parts|, more, m, m')
    ensures PassRan(t, parts + [more], ms + [m'], m0, m')
  {
  }

  /** After `i` synchronisers. */
  ghost predicate PassGoes(t: Task, i: nat, o: Outcome, parts: seq<Outcome>, ms: seq<Moment>, m0: Moment, m: Moment) {
    && i <= |SYNCERS| && PassStands(t, i, o, m0, m)
    && PassRan(t, parts, ms, m0, m) && JoinOf(o, parts) && |parts| == i
  }

  lemma PassGoesFurther(t: Task, i: nat, o: Outcome, parts: seq<Outcome>, ms: seq<Moment>, more: Outcome,
                        m0: Moment, m: Moment, m': Moment)
    requires i < |SYNCERS| && PassGoes(t, i, o, parts, ms, m0, m) && !o.Panicked?
    requires PartEnded(SYNCERS[i], t, more, m, m')
    ensures PassGoes(t, i + 1, Joined(o, more), parts + [more], ms + [m'], m0, m')
  {
    NextStands(t, i, o, more, m0, m, m');
    PartRanOn(t, parts, ms, more, m0, m, m');
    JoinedIsJoin(o, parts, more);
  }

  lemma PassStandsOnGroup(t: Task, i: nat, o: Outcome, m0: Moment, m: Moment)
    requires i <= |SYNCERS| && PassStands(t, i, o, m0, m) && !o.Panicked?
    ensures Exists(m, t.name) && Near(t, Group(m, t.name))
  {
  }

  lemma PanicStands(t: Task, i: nat, o: Outcome, m0: Moment, m: Moment)
    requires i <= |SYNCERS| && PassStands(t, i, o, m0, m) && o.Panicked?
    ensures PassStands(t, |SYNCERS|, o, m0, m)
  {
  }

  lemma JoinedStalls(t: Task, before: Outcome, more: Outcome, m0: Moment, m: Moment, m': Moment)
    requires Stalled(t.name, Answered(t, before, m0), m0, m) && Stalled(t.name, Answered(t, more, m), m, m')
    requires !before.Panicked?
    ensures Stalled(t.name, Answered(t, Joined(before, more), m0), m0, m')
  {
    StalledTogether(t.name, Answered(t, before, m0), Answered(t, more, m), Answered(t, Joined(before, more), m0), m0,
        m, m');
  }

  lemma PanicEnds(t: Task, i: nat, ok: bool, m0: Moment, m: Moment, m': Moment)
    requires i < |SYNCERS| && PassSoFar(t, i, ok, m0, m) && PartDone(SYNCERS[i], t, false, m, m')
    requires PanicSeen(t.spec, m'.world) && Stalled(t.name, true, m0, m')
    requires Undisturbed(m) ==> SelectorPanics(t.spec, m.world.host)
    ensures PassPanicked(t, m0, m')
  {
    PassPanics(t, i, ok, m0, m, m');
    SameForest(t, m0, m);
    ContinuesTransitive(m0, m, m');
  }

  lemma NextStands(t: Task, i: nat, before: Outcome, more: Outcome, m0: Moment, m: Moment, m': Moment)
    requires i < |SYNCERS| && PassStands(t, i, before, m0, m) && !before.Panicked?
    requires PartEnded(SYNCERS[i], t, more, m, m')
    ensures PassStands(t, i + 1, Joined(before, more), m0, m')
  {
    JoinedStalls(t, before, more, m0, m, m');
    ContinuesTransitive(m0, m, m');
    NextTold(t.spec, i, before, more, m0, m, m');
    NextComplains(t, i, before, more, m0, m);
    if more.Panicked? {
      PanicEnds(t, i, before.Ok?, m0, m, m');
    } else {
      EitherComplains(before, more);
      NextPart(t, i, before.Ok?, more.Ok?, m0, m, m');
    }
  }

  lemma PassEnded(t: Task, o: Outcome, m: Moment, m': Moment)
    requires PassStands(t, |SYNCERS|, o, m, m') && (Complains(o) ==> t.spec.deviceLoss.FailOnLoss?)
    ensures SyncDone(t, o.Ok?, m, m') && SyncTold(t, o, m, m') && (!o.Panicked? ==> !EndsInRepair(Since(m, m')))
    ensures o.Panicked? ==> PanicSeen(t.spec, m'.world)
    ensures Undisturbed(m) ==> (o.Panicked? <==> SelectorPanics(t.spec, m.world.host))
  {
    if !o.Panicked? {
      if Lossy(m, t.name) {
        AllPartsDue(t.spec, m.world.host, Group(m, t.name));
      }
      PassEnds(t, o.Ok?, Complains(o), m, m');
    }
    PassEndTold(t, o, m, m');
  }

  lemma PassComplained(t: Task, o: Outcome, m: Moment, m': Moment)
    requires PassStands(t, |SYNCERS|, o, m, m') && Complains(o)
    ensures PassSoFar(t, |SYNCERS|, false, m, m') && Stalled(t.name, true, m, m') && Blames(t.name, m, m')
    ensures Undisturbed(m) ==> !SelectorPanics(t.spec, m.world.host)
    ensures Lossy(m, t.name) && Reflects(t.lvm, Group(m, t.name)) ==> Due(t.spec, m.world.host, Group(m, t.name))
  {
    if Lossy(m, t.name) {
      AllPartsDue(t.spec, m.world.host, Group(m, t.name));
    }
  }

  // ---- the verdict of a synchronisation ----

  /**
   * Nil is returned exactly if since the last repair no call has failed and the selector can be evaluated on the
   * devices last reported; otherwise every one of these failures is returned, and nothing else. Unless the policy is
   * to fail, loss that a call has met is answered with a repair, and nothing else is.
   */
  ghost predicate SyncTold(t: Task, o: Outcome, m: Moment, m': Moment) {
    && (o.Ok? <==> Clean(Since(m, m')) && ScanFault(t.spec, m'.world).None?)
    && LastErrors(o, Since(m, m'), ScanFault(t.spec, m'.world))
    && (!o.Panicked? && !t.spec.deviceLoss.FailOnLoss? ==> LossMet(Since(m, m')))
    && Provoked(Since(m, m'))
  }

  /** Why: a failed repair and a panic leave the reason that a synchronisation begins with. */
  ghost predicate ReasonGiven(before: seq<Condition>, after: seq<Condition>, o: Outcome, m: Moment, m': Moment) {
    |OfKind(before, "VolumeGroupSyncedOnNode")| <= 1 ==>
      && |OfKind(after, "VolumeGroupSyncedOnNode")| == 1
      && OfKind(after, "VolumeGroupSyncedOnNode")[0].reason ==
           if o.Ok? then "VolumeGroupSynced"
           else if o.Panicked? || EndsInRepair(Since(m, m')) then "VolumeGroupSyncPending"
           else "VolumeGroupSyncFailed"
  }

  /** The synchronisation has begun and nothing has been said about it yet. */
  ghost predicate Pending(conditions: seq<Condition>) {
    |OfKind(conditions, "VolumeGroupSyncedOnNode")| <= 1 ==>
      && |OfKind(conditions, "VolumeGroupSyncedOnNode")| == 1
      && OfKind(conditions, "VolumeGroupSyncedOnNode")[0].reason == "VolumeGroupSyncPending"
  }

  lemma PassEndTold(t: Task, o: Outcome, m: Moment, m': Moment)
    requires PassStands(t, |SYNCERS|, o, m, m') && (Complains(o) ==> t.spec.deviceLoss.FailOnLoss?)
    ensures SyncTold(t, o, m, m')
    ensures !o.Panicked? ==> !EndsInRepair(Since(m, m'))
  {
    var events := Since(m, m');
    if o.Panicked? {
      assert forall e | e in events :: !Repairs(e.action);
    } else {
      WithoutRepair(o, events, ScanFault(t.spec, m'.world));
    }
  }

  /** What a synchronisation has come to, said in the conditions that were `before` and are `after`. */
  ghost predicate Synchronised(t: Task, generation: int, before: seq<Condition>, after: seq<Condition>, o: Outcome,
                               m: Moment, m': Moment) {
    && SyncDone(t, o.Ok?, m, m') && SyncTold(t, o, m, m')
    && ConditionSet(before, after, generation, o.Ok?) && ReasonGiven(before, after, o, m, m')
    && (o.Panicked? ==> PanicSeen(t.spec, m'.world))
    && (Undisturbed(m) ==> (o.Panicked? <==> SelectorPanics(t.spec, m.world.host)))
  }

  /** A pass after which nothing is repaired; its outcome is said, unless it panicked. */
  lemma PassConcludes(t: Task, generation: int, before: seq<Condition>, pending: seq<Condition>,
                      after: seq<Condition>, o: Outcome, m: Moment, m': Moment)
    requires PassStands(t, |SYNCERS|, o, m, m') && (Complains(o) ==> t.spec.deviceLoss.FailOnLoss?)
    requires ConditionSet(before, pending, generation, false) && Pending(pending)
    requires if o.Panicked? then after == pending else Concluded(pending, after, generation, o.Ok?)
    ensures Synchronised(t, generation, before, after, o, m, m')
  {
    PassEnded(t, o, m, m');
    if !o.Panicked? {
      ConditionSetAgain(before, pending, after, generation, false, o.Ok?);
    }
  }

  /** The condition says how it ended, with the reason that belongs to it. */
  ghost predicate Concluded(before: seq<Condition>, after: seq<Condition>, generation: int, ok: bool) {
    && ConditionSet(before, after, generation, ok)
    && (|OfKind(before, "VolumeGroupSyncedOnNode")| <= 1 ==>
          OfKind(after, "VolumeGroupSyncedOnNode") ==
            [Condition("VolumeGroupSyncedOnNode", ok, if ok then "VolumeGroupSynced" else "VolumeGroupSyncFailed",
                       generation)])
  }

  /** A pass after which a repair is tried and fails. */
  lemma RepairConcludes(t: Task, generation: int, pending: seq<Condition>, o: Outcome, err: Option<Error>,
                        m0: Moment, m1: Moment, m: Moment)
    requires PassStands(t, |SYNCERS|, o, m0, m1) && Complains(o) && Called(m1, Repair(t), err, m) && err.Some?
    requires Repaired(t, false, m0, m) && (Undisturbed(m0) ==> !SelectorPanics(t.spec, m0.world.host))
    requires ConditionSet(pending, pending, generation, false) && Pending(pending)
    ensures Synchronised(t, generation, pending, pending, FromCall(err), m0, m)
  {
    NotMended(t, m0, m);
    FailedRepairTold(t, o, err, m0, m1, m);
  }

  /** A pass after which a repair works, and what starting over has come to. */
  lemma AgainConcludes(t: Task, generation: int, pending: seq<Condition>, after: seq<Condition>, o: Outcome,
                       m0: Moment, m1: Moment, m: Moment, again: Outcome, m': Moment)
    requires PassStands(t, |SYNCERS|, o, m0, m1) && Complains(o) && Called(m1, Repair(t), None, m)
    requires Repaired(t, true, m0, m) && (Undisturbed(m0) ==> !SelectorPanics(t.spec, m0.world.host))
    requires Synchronised(t, generation, pending, after, again, m, m')
    ensures Synchronised(t, generation, pending, after, again, m0, m')
  {
    AfterRecursion(t, again.Ok?, m0, m, m');
    RepairTold(t, o, m0, m1, m, again, m');
    if Undisturbed(m0) {
      RepairKeepsForest(t, m0, m1, m);
    }
  }

  lemma RepairKeepsForest(t: Task, m0: Moment, m1: Moment, m: Moment)
    requires Ran(t, m0, m1) && Called(m1, Repair(t), None, m) && Undisturbed(m0)
    ensures Undisturbed(m) && m.world.host.forest == m0.world.host.forest
  {
  }

  lemma PendingIsFirst(t: Task, generation: int, before: seq<Condition>, pending: seq<Condition>,
                       after: seq<Condition>, o: Outcome, m: Moment, m': Moment)
    requires ConditionSet(before, pending, generation, false) && Pending(pending)
    requires Synchronised(t, generation, pending, after, o, m, m')
    ensures Synchronised(t, generation, before, after, o, m, m')
  {
    ConditionSetAgain(before, pending, after, generation, false, o.Ok?);
  }

  lemma FailedRepairTold(t: Task, o: Outcome, err: Option<Error>, m0: Moment, m1: Moment, m: Moment)
    requires PassStands(t, |SYNCERS|, o, m0, m1) && Complains(o) && Called(m1, Repair(t), err, m) && err.Some?
    ensures SyncTold(t, FromCall(err), m0, m) && EndsInRepair(Since(m0, m))
  {
    var a, e := Since(m0, m1), m.events[|m1.events|];
    ContinuesTransitive(m0, m1, m);
    AccountedOutcome(o, a, ScanFault(t.spec, m1.world));
    RepairIsLast(a, e);
  }

  lemma RepairTold(t: Task, o: Outcome, m0: Moment, m1: Moment, m: Moment, again: Outcome, m': Moment)
    requires PassStands(t, |SYNCERS|, o, m0, m1) && Complains(o) && Called(m1, Repair(t), None, m)
    requires SyncTold(t, again, m, m') && Continues(m, m')
    ensures SyncTold(t, again, m0, m') && EndsInRepair(Since(m0, m')) == EndsInRepair(Since(m, m'))
  {
    var a, e, b := Since(m0, m1), m.events[|m1.events|], Since(m, m');
    ContinuesTransitive(m0, m1, m);
    ContinuesTransitive(m0, m, m');
    AccountedOutcome(o, a, ScanFault(t.spec, m1.world));
    CleanAfterRepair(a, e, b);
    LastErrorsAfterRepair(again, a, e, b, ScanFault(t.spec, m'.world));
    if LossMet(b) {
      LossMetAfterRepair(a, e, b);
    }
    ProvokedAgain(a, e, b);
  }

  /** The calls of a removal: of each of `names` a move to what is desired, if the policy is that, and a reduction. */
  ghost predicate RemovalCall(t: Task, names: seq<string>, desired: seq<string>, a: Action) {
    && a.Lvm?
    && (|| a.command == Command.Reduce(t.name, names, t.spec.deviceRemoval.ForceReduce?)
        || (t.spec.deviceRemoval.MoveAndReduce? && a.command.Move?
            && a.command == Move(t.name, a.command.source, desired) && a.command.source in names))
  }

  ghost predicate RemovalCalls(t: Task, names: seq<string>, desired: seq<string>, m: Moment, m': Moment) {
    forall e | e in Since(m, m') :: RemovalCall(t, names, desired, e.action)
  }

  lemma RemovalCallsOn(t: Task, names: seq<string>, desired: seq<string>, m0: Moment, m: Moment, c: Command,
                       err: Option<Error>, m': Moment)
    requires Continues(m0, m) && RemovalCalls(t, names, desired, m0, m) && Called(m, c, err, m')
    requires RemovalCall(t, names, desired, Lvm(c))
    ensures RemovalCalls(t, names, desired, m0, m')
  {
    ContinuesTransitive(m0, m, m');
  }

  /** The calls of a two-way synchronisation: the two differences, in order, are what is handed to lvm2. */
  ghost predicate TwoWayCall(t: Task, cb: Callbacks, desired: seq<string>, current: seq<string>, a: Action) {
    match cb
    case TagCallbacks =>
      a == Lvm(AddTags(t.name, Diff(desired, current))) || a == Lvm(DelTags(t.name, Diff(current, desired)))
    case PVCallbacks(_) =>
      a == Lvm(Extend(t.name, Diff(desired, current))) || RemovalCall(t, Diff(current, desired), desired, a)
  }

  ghost predicate TwoWayCalls(t: Task, cb: Callbacks, desired: seq<string>, current: seq<string>, m: Moment,
                              m': Moment) {
    forall e | e in Since(m, m') :: TwoWayCall(t, cb, desired, current, e.action)
  }

  lemma NoCalls(t: Task, cb: Callbacks, desired: seq<string>, current: seq<string>, m: Moment)
    ensures TwoWayCalls(t, cb, desired, current, m, m) && RemovalCalls(t, desired, current, m, m)
  {
    NoEvents(m);
  }

  lemma TwoWayCallsOn(t: Task, cb: Callbacks, desired: seq<string>, current: seq<string>, m0: Moment, m: Moment,
                      m': Moment)
    requires Continues(m0, m) && Continues(m, m')
    requires TwoWayCalls(t, cb, desired, current, m0, m) && TwoWayCalls(t, cb, desired, current, m, m')
    ensures TwoWayCalls(t, cb, desired, current, m0, m')
  {
    ContinuesTransitive(m0, m, m');
  }

  /** Only this command was issued. */
  ghost predicate OnlyCalls(c: Command, m: Moment, m': Moment) {
    forall e | e in Since(m, m') :: e.action == Lvm(c)
  }

  /** What the function for the old elements calls. */
  ghost predicate OldCalls(t: Task, cb: Callbacks, diff: seq<string>, m: Moment, m': Moment) {
    if cb.TagCallbacks? then OnlyCalls(DelTags(t.name, diff), m, m')
    else RemovalCalls(t, diff, cb.desiredState, m, m')
  }

  /** The first `i` moves have succeeded. */
  ghost predicate MovesStand(t: Task, names: seq<string>, i: nat, desired: seq<string>, m0: Moment, m: Moment)
    requires i <= |names|
  {
    && MoveLoop(t, names, i, desired, m0, m) && Stalled(t.name, true, m0, m) && Relayed(Ok, m0, m)
    && RemovalCalls(t, names, desired, m0, m)
  }

  /** How the selector's fault is returned. */
  function FromFault(f: Selector.SelectError): Outcome {
    if f.Panic? then Panicked else Failed([Selection(f)])
  }

  /** Either some call failed, or the devices that lsblk has reported cannot be evaluated, or all is well. */
  ghost predicate Evaluated(spec: Spec, o: Outcome, m: Moment, m': Moment) {
    && LooksFirst(spec, Since(m, m'))
    && (|| (Relayed(o, m, m') && (o.Ok? || !LookFailed(Since(m, m')) ==> ScanFault(spec, m'.world).None?))
        || (Smooth(m, m') && ScanFault(spec, m'.world).Some? && o == FromFault(ScanFault(spec, m'.world).value)))
  }

  /** With a selector, lsblk is the first to be called. */
  ghost predicate LooksFirst(spec: Spec, events: seq<Event>) {
    spec.selector != [] ==> events != [] && events[0].action.RunLsblk?
  }

  /** What follows once the selector has been evaluated. */
  lemma EvaluatedOn(spec: Spec, o: Outcome, m0: Moment, m: Moment, m': Moment)
    requires Evaluated(spec, Ok, m0, m) && Continues(m0, m) && Continues(m, m')
    requires Relayed(o, m0, m') && SameScan(m, m')
    ensures Evaluated(spec, o, m0, m')
  {
    ContinuesTransitive(m0, m, m');
  }

  /** The volumes are left alone, since it cannot be told which ones are selected. */
  lemma LookEndsPart(t: Task, o: Outcome, m: Moment, m': Moment)
    requires QueriesOnly(t, m, m') && Stalled(t.name, true, m, m') && !o.Ok? && !Complains(o)
    requires o.Panicked? ==> PanicSeen(t.spec, m'.world)
    requires m'.reliable ==> SelectorAborts(t.spec, m'.world.host)
    requires m'.reliable && SelectorPanics(t.spec, m'.world.host) ==> o.Panicked?
    ensures PartRun(PVsPart, t, o, m, m')
  {
    QueriesFailed(t, m, m');
  }

  /** Once the selector has been evaluated there is no panic. */
  lemma EvaluatedPart(t: Task, o: Outcome, m0: Moment, m: Moment, m': Moment)
    requires QueriesOnly(t, m0, m) && !SelectorAborts(t.spec, m.world.host)
    requires PartDone(PVsPart, t, o.Ok?, m0, m') && Stalled(t.name, o.Ok? || Complains(o), m0, m')
    requires !o.Panicked? && (Complains(o) ==> Blames(t.name, m0, m'))
    ensures PartRun(PVsPart, t, o, m0, m')
  {
    Selector.AbortsIffFault(t.spec.selector, Flatten(m.world.host.forest));
  }

  lemma CallRelayed(m: Moment, c: Command, err: Option<Error>, m': Moment)
    requires Called(m, c, err, m')
    ensures Relayed(FromCall(err), m, m')
  {
    CallRelays(err, m'.events[|m.events|]);
  }

  lemma CallRelayedOn(m0: Moment, m: Moment, c: Command, err: Option<Error>, m': Moment)
    requires Continues(m0, m) && Smooth(m0, m) && Called(m, c, err, m')
    ensures Relayed(FromCall(err), m0, m') && (err.None? ==> Smooth(m0, m'))
  {
    CallRelayed(m, c, err, m');
    RelayedOn(FromCall(err), m0, m, m');
  }
}
