/** The reconciler, after `internal/controller/`. */
module Controller {
  import opened Wrappers
  import opened Utils
  import opened Lsblk
  import opened Lvm
  import opened Api
  import opened World
  import opened Environment
  import opened SyncSpec
  import opened ReconcileSpec
  import opened Outcomes
  import opened Passes
  import opened Endings
  import Moving
  import Selector
  import Sorting
  import SnakeCase

  /** The fetched resource; finalizers, conditions and status are changed in place. */
  class VolumeGroupObject {
    const key: string
    const fetched: Object
    var finalizers: seq<string>
    var conditions: seq<Condition>
    var status: Status

    constructor (key: string, fetched: Object)
      ensures this.key == key && this.fetched == fetched
      ensures finalizers == fetched.finalizers && conditions == fetched.conditions && status == fetched.status
    {
      this.key := key;
      this.fetched := fetched;
      finalizers := fetched.finalizers;
      conditions := fetched.conditions;
      status := fetched.status;
    }

    function Value(): Object
      reads this
    {
      fetched.(finalizers := finalizers, conditions := conditions, status := status)
    }

    function Name(): string {
      NameOnNode(fetched.uid, fetched.spec)
    }

    /** With at most one synced condition before, this is the only one there is. */
    ghost predicate SaysOnly(before: seq<Condition>, status: bool, reason: string)
      reads this`conditions
    {
      |OfKind(before, "VolumeGroupSyncedOnNode")| <= 1 ==>
        OfKind(conditions, "VolumeGroupSyncedOnNode") ==
          [Condition("VolumeGroupSyncedOnNode", status, reason, fetched.generation)]
    }

    method SetCondition(status: bool, reason: string)
      requires Apt(status, reason)
      modifies this`conditions
      ensures ConditionSet(old(conditions), conditions, fetched.generation, status)
      ensures SaysOnly(old(conditions), status, reason)
    {
      var c := Condition(SYNCED_ON_NODE, status, reason, fetched.generation);
      SetSetsCondition(conditions, c);
      if |OfKind(conditions, SYNCED_ON_NODE)| <= 1 {
        SetLeavesOne(conditions, c);
      }
      conditions := SetStatusCondition(conditions, c);
    }

    method SetSyncedOnHostDefault()
      modifies this`conditions
      ensures ConditionSet(old(conditions), conditions, fetched.generation, false)
      ensures SaysOnly(old(conditions), false, "VolumeGroupSyncPending")
    {
      SetCondition(false, REASON_SYNC_PENDING);
    }

    method SetSyncedOnHostCreationFailed()
      modifies this`conditions
      ensures ConditionSet(old(conditions), conditions, fetched.generation, false)
      ensures SaysOnly(old(conditions), false, "VolumeGroupSyncFailed")
    {
      SetCondition(false, REASON_SYNC_FAILED);
    }

    method SetSyncedOnHostCreationOK()
      modifies this`conditions
      ensures ConditionSet(old(conditions), conditions, fetched.generation, true)
      ensures SaysOnly(old(conditions), true, "VolumeGroupSynced")
    {
      SetCondition(true, REASON_SYNCED);
    }

    /** The last word of a synchronisation that is not started over. */
    method SetSyncedOnHostOutcome(ok: bool)
      modifies this`conditions
      ensures Concluded(old(conditions), conditions, fetched.generation, ok)
    {
      if ok {
        SetSyncedOnHostCreationOK();
      } else {
        SetSyncedOnHostCreationFailed();
      }
    }
  }

  class Reconciler {
    const nodeName: string
    const env: Client

    constructor (nodeName: string, env: Client)
      ensures this.nodeName == nodeName && this.env == env
    {
      this.nodeName := nodeName;
      this.env := env;
    }

    /** One lvm2 call that addresses an existing group. */
    method LVM(c: Command) returns (err: Option<Error>)
      requires env.Valid() && OnGroup(c) && Exists(env.Now(), c.vg)
      modifies env
      ensures env.Valid() && Called(old(env.Now()), c, err, env.Now())
    {
      ghost var m := env.Now();
      err := env.Run(Lvm(c));
      StepIsCall(m, c, err, env.Now());
    }

    /** The function for what is desired but not there: vgchange --addtag, or vgextend. */
    method CallNew(cb: Callbacks, t: Task, diff: seq<string>) returns (o: Outcome)
      requires env.Valid() && Exists(env.Now(), t.name) && Near(t, Group(env.Now(), t.name))
      requires Allowed(t, env.Now(), NewCommand(cb, t.name, diff))
      modifies env
      ensures env.Valid() && Progress(t, old(env.Now()), env.Now())
      ensures SameScan(old(env.Now()), env.Now()) && AtOnce(old(env.Now()), env.Now())
      ensures !o.Panicked? && (Complains(o) ==> Blames(t.name, old(env.Now()), env.Now()))
      ensures Stalled(t.name, Complains(o), old(env.Now()), env.Now()) && Relayed(o, old(env.Now()), env.Now())
      ensures OnlyCalls(NewCommand(cb, t.name, diff), old(env.Now()), env.Now())
      ensures Added(cb, Elements(diff), o.Ok?, old(Group(env.Now(), t.name)), Group(env.Now(), t.name))
      ensures Calm(old(env.Now()), t.name) ==>
                AddedCalmly(cb, Elements(diff), o.Ok?, old(env.world.host),
                            old(Group(env.Now(), t.name)), Group(env.Now(), t.name))
    {
      ghost var m := env.Now();
      var err := LVM(NewCommand(cb, t.name, diff));
      CallRelayed(m, NewCommand(cb, t.name, diff), err, env.Now());
      NewCommandDone(cb, t, diff, err, m, env.Now());
      CallStalls(t.name, m, NewCommand(cb, t.name, diff), err, env.Now());
      o := FromCall(err);
    }

    /** One turn of the pvmove loop that started at `m0`. */
    method MoveNext(t: Task, names: seq<string>, i: nat, desiredState: seq<string>, ghost m0: Moment)
      returns (err: Option<Error>)
      requires env.Valid() && i < |names| && Movable(t, names, desiredState, m0)
      requires MovesStand(t, names, i, desiredState, m0, env.Now())
      modifies env
      ensures env.Valid() && Shifting(t, m0, env.Now()) && Relayed(FromCall(err), m0, env.Now())
      ensures RemovalCalls(t, names, desiredState, m0, env.Now())
      ensures err.None? ==> MovesStand(t, names, i + 1, desiredState, m0, env.Now())
      ensures err.Some? ==> MovedAll(names, desiredState, false, Group(m0, t.name), Group(env.Now(), t.name))
      ensures desiredState != [] ==> Moving.CutRun(MetBetween(t.name, m0, env.Now()), names, Elements(desiredState))
      ensures Stalled(t.name, err == Some(MissingPVs), m0, env.Now())
      ensures err == Some(MissingPVs) ==> Blames(t.name, m0, env.Now())
      ensures err.Some? && Calm(m0, t.name) ==> MovedAllCalmly(names, desiredState, false, Group(m0, t.name))
    {
      ghost var m := env.Now();
      err := LVM(Move(t.name, names[i], desiredState));
      CallRelayedOn(m0, m, Move(t.name, names[i], desiredState), err, env.Now());
      RemovalCallsOn(t, names, desiredState, m0, m, Move(t.name, names[i], desiredState), err, env.Now());
      MoveLoopStep(t, names, i, desiredState, m0, m, err, env.Now());
      CallStalls(t.name, m, Move(t.name, names[i], desiredState), err, env.Now());
      StalledOn(t.name, err == Some(MissingPVs), m0, m, env.Now());
      if err.Some? {
        MoveFailed(t, names, i, desiredState, m0, m, err, env.Now());
      }
    }

    /** The pvmove loop of the MoveAndReduce policy. The groups it meets are a run of moves, perhaps cut off. */
    method MoveAll(t: Task, names: seq<string>, desiredState: seq<string>) returns (o: Outcome)
      requires env.Valid() && Movable(t, names, desiredState, env.Now())
      modifies env
      ensures env.Valid() && Shifting(t, old(env.Now()), env.Now())
      ensures RemovalCalls(t, names, desiredState, old(env.Now()), env.Now())
      ensures !o.Panicked? && (Complains(o) ==> Blames(t.name, old(env.Now()), env.Now()))
      ensures Stalled(t.name, o.Ok? || Complains(o), old(env.Now()), env.Now()) && Relayed(o, old(env.Now()), env.Now())
      ensures MovedAll(names, desiredState, o.Ok?, old(Group(env.Now(), t.name)), Group(env.Now(), t.name))
      ensures desiredState != [] ==>
                Moving.CutRun(MetBetween(t.name, old(env.Now()), env.Now()), names, Elements(desiredState))
      ensures Calm(old(env.Now()), t.name) ==>
                MovedAllCalmly(names, desiredState, o.Ok?, old(Group(env.Now(), t.name)))
    {
      ghost var m0 := env.Now();
      NoMovesYet(t, names, desiredState, m0);
      NothingRelayed(m0);
      NoEvents(m0);
      for i := 0 to |names|
        invariant env.Valid() && MovesStand(t, names, i, desiredState, m0, env.Now())
      {
        var err := MoveNext(t, names, i, desiredState, m0);
        if err.Some? {
          o := FromCall(err);
          return;
        }
      }
      MovesDone(t, names, desiredState, m0, env.Now());
      o := Ok;
    }

    /** The function for physical volumes that are there but not desired: the removal policy. */
    method RemovePVs(t: Task, names: seq<string>, desiredState: seq<string>) returns (o: Outcome)
      requires env.Valid() && Surplus(t, names, desiredState, env.Now())
      modifies env
      ensures env.Valid() && RemovalDone(t, names, desiredState, o.Ok?, old(env.Now()), env.Now())
      ensures RemovalCalls(t, names, desiredState, old(env.Now()), env.Now())
      ensures Stalled(t.name, Complains(o), old(env.Now()), env.Now()) && Relayed(o, old(env.Now()), env.Now())
      ensures !o.Panicked? && (Complains(o) ==> Blames(t.name, old(env.Now()), env.Now()))
    {
      ghost var m0 := env.Now();
      NoShift(t, m0);
      NothingRelayed(m0);
      NoEvents(m0);
      if t.spec.deviceRemoval.MoveAndReduce? {
        AllBearable(t, names, desiredState, m0);
        o := MoveAll(t, names, desiredState);
        if !o.Ok? {
          FailedMoves(t, names, desiredState, m0, env.Now());
          return;
        }
      }
      o := ReducePVs(t, names, desiredState, m0);
    }

    /** The vgreduce that closes a removal begun at `m0`. */
    method ReducePVs(t: Task, names: seq<string>, desiredState: seq<string>, ghost m0: Moment) returns (o: Outcome)
      requires env.Valid() && ReadyToReduce(t, names, desiredState, m0, env.Now())
      requires Stalled(t.name, true, m0, env.Now()) && Smooth(m0, env.Now())
      requires RemovalCalls(t, names, desiredState, m0, env.Now())
      modifies env
      ensures env.Valid() && RemovalDone(t, names, desiredState, o.Ok?, m0, env.Now())
      ensures RemovalCalls(t, names, desiredState, m0, env.Now())
      ensures Stalled(t.name, Complains(o), m0, env.Now()) && Relayed(o, m0, env.Now())
      ensures !o.Panicked? && (Complains(o) ==> Blames(t.name, m0, env.Now()))
    {
      ghost var m := env.Now();
      var err := LVM(Command.Reduce(t.name, names, t.spec.deviceRemoval.ForceReduce?));
      CallRelayedOn(m0, m, Command.Reduce(t.name, names, t.spec.deviceRemoval.ForceReduce?), err, env.Now());
      RemovalCallsOn(t, names, desiredState, m0, m,
          Command.Reduce(t.name, names, t.spec.deviceRemoval.ForceReduce?), err, env.Now());
      ReduceStep(t, names, desiredState, m0, m, err, env.Now());
      CallStalls(t.name, m, Command.Reduce(t.name, names, t.spec.deviceRemoval.ForceReduce?), err, env.Now());
      StalledOn(t.name, err == Some(MissingPVs), m0, m, env.Now());
      o := FromCall(err);
    }

    /** The function for what is there but not desired: vgchange --deltag, or the removal policy. */
    method CallOld(cb: Callbacks, t: Task, diff: seq<string>) returns (o: Outcome)
      requires env.Valid() && Exists(env.Now(), t.name) && Near(t, Group(env.Now(), t.name))
      requires cb.TagCallbacks? ==>
                 Elements(diff) !! Elements(t.spec.tags) && Elements(t.spec.tags) <= Group(env.Now(), t.name).tags
      requires cb.PVCallbacks? ==> Surplus(t, diff, cb.desiredState, env.Now())
      modifies env
      ensures env.Valid() && OldDone(t, cb, diff, o.Ok?, old(env.Now()), env.Now())
      ensures OldCalls(t, cb, diff, old(env.Now()), env.Now())
      ensures Stalled(t.name, Complains(o), old(env.Now()), env.Now()) && Relayed(o, old(env.Now()), env.Now())
      ensures !o.Panicked? && (Complains(o) ==> Blames(t.name, old(env.Now()), env.Now()))
    {
      ghost var m := env.Now();
      if cb.PVCallbacks? {
        o := RemovePVs(t, diff, cb.desiredState);
        PVsOld(t, cb, diff, o.Ok?, m, env.Now());
        return;
      }
      var err := LVM(DelTags(t.name, diff));
      CallRelayed(m, DelTags(t.name, diff), err, env.Now());
      TagsOld(t, cb, diff, err, m, env.Now());
      CallStalls(t.name, m, DelTags(t.name, diff), err, env.Now());
      o := FromCall(err);
    }

    /**
     * Adds what is desired but not current, then removes what is current but not desired. A failed
     * addition prevents the removal. `current` may be stale as long as the view is in between.
     */
    method SequentialTwoWaySync(t: Task, cb: Callbacks, desired: seq<string>, current: seq<string>) returns (o: Outcome)
      requires env.Valid() && Exists(env.Now(), t.name) && Near(t, Group(env.Now(), t.name))
      requires Comparable(t, cb, desired, current, env.Now())
      modifies env
      ensures env.Valid() && TwoWayDone(t, cb, desired, current, o.Ok?, old(env.Now()), env.Now())
      ensures Stalled(t.name, o.Ok? || Complains(o), old(env.Now()), env.Now()) && Relayed(o, old(env.Now()), env.Now())
      ensures !o.Panicked? && (Complains(o) ==> Blames(t.name, old(env.Now()), env.Now()))
      ensures Elements(desired) == Elements(current) ==> env.Now() == old(env.Now()) && o.Ok?
      ensures TwoWayCalls(t, cb, desired, current, old(env.Now()), env.Now())
    {
      ghost var m0 := env.Now();
      var newFromA := InLeftButNotInRight(desired, current);
      var oldFromB := InLeftButNotInRight(current, desired);
      NewPermitted(t, cb, desired, current, newFromA, m0);
      NoCalls(t, cb, desired, current, m0);
      if |newFromA| > 0 {
        o := CallNew(cb, t, newFromA);
        AddedIsHalfWay(t, cb, desired, current, o.Ok?, m0, env.Now());
        if !o.Ok? {
          NothingOld(t, cb, desired, current, false, m0, env.Now());
          return;
        }
      } else {
        NothingNew(t, cb, desired, current, m0);
        NothingRelayed(m0);
      }
      OldPermitted(t, cb, desired, current, oldFromB, m0, env.Now());
      if |oldFromB| > 0 {
        o := GiveUpOld(t, cb, desired, current, oldFromB, m0);
      } else {
        NothingOld(t, cb, desired, current, true, m0, env.Now());
        o := Ok;
      }
    }

    /** The second half of a two-way synchronisation that began at `m0`. */
    method GiveUpOld(t: Task, cb: Callbacks, desired: seq<string>, current: seq<string>, diff: seq<string>,
                     ghost m0: Moment) returns (o: Outcome)
      requires env.Valid() && HalfWay(t, cb, desired, current, true, m0, env.Now()) && Smooth(m0, env.Now())
      requires Near(t, Group(m0, t.name)) && Comparable(t, cb, desired, current, m0) && diff != []
      requires Stalled(t.name, true, m0, env.Now()) && Elements(diff) == Elements(current) - Elements(desired)
      requires cb.TagCallbacks? ==> Elements(t.spec.tags) <= Group(env.Now(), t.name).tags
      requires cb.PVCallbacks? ==> Surplus(t, diff, desired, env.Now())
      requires diff == Diff(current, desired) && TwoWayCalls(t, cb, desired, current, m0, env.Now())
      modifies env
      ensures TwoWayCalls(t, cb, desired, current, m0, env.Now())
      ensures env.Valid() && TwoWayDone(t, cb, desired, current, o.Ok?, m0, env.Now())
      ensures Stalled(t.name, o.Ok? || Complains(o), m0, env.Now()) && Relayed(o, m0, env.Now())
      ensures !o.Panicked? && (Complains(o) ==> Blames(t.name, m0, env.Now()))
    {
      ghost var m := env.Now();
      o := CallOld(cb, t, diff);
      RemovedIsTwoWay(t, cb, desired, current, diff, o.Ok?, m0, m, env.Now());
      TwoWayCallsOn(t, cb, desired, current, m0, m, env.Now());
      RelayedOn(o, m0, m, env.Now());
    }

    /** The devices the selector asks for; an empty selector does not even ask lsblk. */
    method GetPhysicalVolumeNames(spec: Spec) returns (o: Outcome, names: seq<string>)
      requires env.Valid()
      modifies env
      ensures env.Valid() && Looked(spec, old(env.Now()), env.Now()) && !Complains(o)
      ensures Evaluated(spec, o, old(env.Now()), env.Now()) && (!o.Ok? ==> env.Now() != old(env.Now()))
      ensures o.Ok? ==>
                && Sorting.StrictlyIncreasing(names)
                && Choice(spec, env.world) == Some(Elements(names))
                && Elements(names) == Desired(spec, env.world.host)
                && !Selector.Aborts(spec.selector, Flatten(env.world.host.forest))
      ensures env.reliable && !o.Ok? ==> Selector.Aborts(spec.selector, Flatten(env.world.host.forest))
      ensures o.Panicked? ==> PanicSeen(spec, env.world)
      ensures env.reliable && SelectorPanics(spec, env.world.host) ==> o.Panicked?
    {
      ghost var m := env.Now();
      if |spec.selector| == 0 {
        NoneDesired([]);
        NothingRelayed(m);
        return Ok, [];
      }
      var columns := Selector.RequestedColumns(spec.selector);
      var err := env.Run(RunLsblk(columns));
      LsblkErrors(m, columns, err, env.Now());
      StepRelayed(m, RunLsblk(columns), err, env.Now());
      if err.Some? {
        return FromCall(err), [];
      }
      o, names := Evaluate(spec.selector, columns, env.world.host.forest);
    }

    /** The selector on what lsblk answers when it is asked for these columns. */
    static method Evaluate(selector: Selector.PhysicalVolumeSelector, columns: seq<string>, forest: seq<BlockDevice>)
      returns (o: Outcome, names: seq<string>)
      requires Selector.IsRequest(selector, columns)
      ensures o == (match Selector.FirstFault(selector, Flatten(forest)) case None => Ok case Some(f) => FromFault(f))
      ensures o.Ok? <==> !Selector.Aborts(selector, Flatten(forest))
      ensures o.Ok? ==> Selector.IsSelection(selector, Flatten(forest), names)
    {
      var devices := RecursiveBlockDevices(Project(forest, Keys(columns)));
      Selector.RequestedCover(selector, columns);
      Selector.ProjectionSafe(selector, forest, Keys(columns));
      var selected := Selector.SelectDevices(selector, devices);
      match selected {
        case Success(paths) => return Ok, paths;
        case Failure(Panic) => return Panicked, [];
        case Failure(reason) => return Failed([Selection(reason)]), [];
      }
    }

    /** The physical volumes lvm2 lists for the group, missing ones included. */
    method ListPVs(t: Task) returns (o: Outcome, names: seq<string>)
      requires env.Valid() && Exists(env.Now(), t.name) && Near(t, Group(env.Now(), t.name))
      modifies env
      ensures env.Valid() && QueriesOnly(t, old(env.Now()), env.Now()) && SameScan(old(env.Now()), env.Now())
      ensures !Complains(o) && !o.Panicked?
      ensures o.Ok? ==> Elements(names) == Group(env.Now(), t.name).pvs.Keys && Moving.Distinct(names)
      ensures Calm(old(env.Now()), t.name) ==> o.Ok?
      ensures Stalled(t.name, o.Ok?, old(env.Now()), env.Now()) && Relayed(o, old(env.Now()), env.Now())
    {
      ghost var m := env.Now();
      var err := LVM(PVS(t.name));
      CallRelayed(m, PVS(t.name), err, env.Now());
      QueryIsQuiet(t, m, PVS(t.name), err, env.Now());
      CallStalls(t.name, m, PVS(t.name), err, env.Now());
      if err.Some? {
        return FromCall(err), [];
      }
      names := Listed(env.world.host.vgs[t.name].pvs.Keys);
      o := Ok;
    }

    static method Listed(s: set<string>) returns (names: seq<string>)
      ensures Elements(names) == s && Moving.Distinct(names)
    {
      names := [];
      var rest := s;
      while rest != {}
        invariant rest !! Elements(names) && rest + Elements(names) == s && Moving.Distinct(names)
        decreases rest
      {
        var x :| x in rest;
        assert forall i | 0 <= i < |names| :: names[i] in Elements(names);
        ghost var was := names;
        names := names + [x];
        assert Elements(names) == Elements(was) + {x};
        rest := rest - {x};
      }
    }

    method SyncTags(t: Task) returns (o: Outcome)
      requires env.Valid() && Exists(env.Now(), t.name) && Near(t, Group(env.Now(), t.name))
      modifies env
      ensures env.Valid() && PartDone(TagsPart, t, o.Ok?, old(env.Now()), env.Now())
      ensures Relayed(o, old(env.Now()), env.Now())
      ensures Stalled(t.name, o.Ok? || Complains(o), old(env.Now()), env.Now())
      ensures !o.Panicked? && (Complains(o) ==> Blames(t.name, old(env.Now()), env.Now()))
    {
      ghost var m := env.Now();
      o := SequentialTwoWaySync(t, TagCallbacks, t.spec.tags, t.lvm.tags);
      TagsDone(t, o.Ok?, m, env.Now());
    }

    method SyncPVs(t: Task) returns (o: Outcome)
      requires env.Valid() && Exists(env.Now(), t.name) && Near(t, Group(env.Now(), t.name))
      modifies env
      ensures env.Valid() && PartRun(PVsPart, t, o, old(env.Now()), env.Now())
      ensures Evaluated(t.spec, o, old(env.Now()), env.Now())
    {
      ghost var m0 := env.Now();
      var desiredState;
      o, desiredState := GetPhysicalVolumeNames(t.spec);
      ghost var m := env.Now();
      LookedIsQuiet(t, m0, m);
      if !o.Ok? {
        LookEndsPart(t, o, m0, m);
        return;
      }
      o := SyncToDesiredState(t, desiredState, m0);
      EvaluatedPart(t, o, m0, m, env.Now());
      EvaluatedOn(t.spec, o, m0, m, env.Now());
    }

    /** The second half of the synchronisation of physical volumes, once the selector has been evaluated. */
    method SyncToDesiredState(t: Task, desiredState: seq<string>, ghost m0: Moment) returns (o: Outcome)
      requires env.Valid() && QueriesOnly(t, m0, env.Now()) && Stalled(t.name, true, m0, env.Now())
      requires Smooth(m0, env.Now())
      requires Choice(t.spec, env.world) == Some(Elements(desiredState))
      requires Elements(desiredState) == Desired(t.spec, env.world.host)
      requires !Selector.Aborts(t.spec.selector, Flatten(env.world.host.forest))
      modifies env
      ensures env.Valid() && PartDone(PVsPart, t, o.Ok?, m0, env.Now())
      ensures Relayed(o, m0, env.Now()) && SameScan(old(env.Now()), env.Now())
      ensures Continues(old(env.Now()), env.Now())
      ensures Stalled(t.name, o.Ok? || Complains(o), m0, env.Now())
      ensures !o.Panicked? && (Complains(o) ==> Blames(t.name, m0, env.Now()))
    {
      ghost var m1 := env.Now();
      var currentState;
      o, currentState := ListPVs(t);
      ghost var m := env.Now();
      QueriesThenQueries(t, m0, m1, m);
      RelayedOn(o, m0, m1, m);
      if !o.Ok? {
        QueriesFailed(t, m0, m);
        return;
      }
      SameDesired(t, m0, m1, m);
      o := SyncListedPVs(t, desiredState, currentState, m0);
      ContinuesTransitive(m1, m, env.Now());
    }

    /** Brings what lvm2 has listed in step with what was found selected. */
    method SyncListedPVs(t: Task, desiredState: seq<string>, currentState: seq<string>, ghost m0: Moment)
      returns (o: Outcome)
      requires env.Valid() && QueriesOnly(t, m0, env.Now()) && Stalled(t.name, true, m0, env.Now())
      requires Smooth(m0, env.Now()) && Comparable(t, PVCallbacks(desiredState), desiredState, currentState, env.Now())
      requires Quiet(m0, env.Now()) ==>
                 && Elements(desiredState) == Desired(t.spec, env.world.host)
                 && !Selector.Aborts(t.spec.selector, Flatten(env.world.host.forest))
      modifies env
      ensures env.Valid() && PartDone(PVsPart, t, o.Ok?, m0, env.Now())
      ensures Relayed(o, m0, env.Now()) && SameScan(old(env.Now()), env.Now())
      ensures Continues(old(env.Now()), env.Now())
      ensures Stalled(t.name, o.Ok? || Complains(o), m0, env.Now())
      ensures !o.Panicked? && (Complains(o) ==> Blames(t.name, m0, env.Now()))
    {
      ghost var m := env.Now();
      o := SequentialTwoWaySync(t, PVCallbacks(desiredState), desiredState, currentState);
      PVsDone(t, desiredState, currentState, o.Ok?, m0, m, env.Now());
      RelayedOn(o, m0, m, env.Now());
    }

    method SetMaximumPhysicalVolumes(t: Task) returns (err: Option<Error>)
      requires env.Valid() && Exists(env.Now(), t.name) && Near(t, Group(env.Now(), t.name)) && t.lvm.name == t.name
      modifies env
      ensures env.Valid() && HalfLimits(t, err.None?, old(env.Now()), env.Now())
      ensures Relayed(FromCall(err), old(env.Now()), env.Now())
      ensures Stalled(t.name, err.None? || err == Some(MissingPVs), old(env.Now()), env.Now())
      ensures err == Some(MissingPVs) ==> Blames(t.name, old(env.Now()), env.Now())
    {
      ghost var m := env.Now();
      if t.spec.maxPV.Some? && t.lvm.maxPV != t.spec.maxPV.value {
        err := LVM(SetMaxPV(t.lvm.name, t.spec.maxPV.value));
        CallRelayed(m, SetMaxPV(t.lvm.name, t.spec.maxPV.value), err, env.Now());
        MaxPVSet(t, err, m, env.Now());
        CallStalls(t.name, m, SetMaxPV(t.name, t.spec.maxPV.value), err, env.Now());
      } else {
        MaxPVKept(t, m);
        NothingRelayed(m);
        err := None;
      }
    }

    method SetMaximumLogicalVolumes(t: Task, ghost m0: Moment) returns (err: Option<Error>)
      requires Stalled(t.name, true, m0, env.Now()) && Smooth(m0, env.Now())
      requires env.Valid() && HalfLimits(t, true, m0, env.Now()) && Near(t, Group(m0, t.name)) && t.lvm.name == t.name
      modifies env
      ensures env.Valid() && PartDone(LimitsPart, t, err.None?, m0, env.Now())
      ensures Relayed(FromCall(err), m0, env.Now())
      ensures Group(env.Now(), t.name).maxPV == old(Group(env.Now(), t.name)).maxPV
      ensures Stalled(t.name, err.None? || err == Some(MissingPVs), m0, env.Now())
      ensures err == Some(MissingPVs) ==> Blames(t.name, m0, env.Now())
    {
      ghost var m := env.Now();
      if t.spec.maxLV.Some? && t.lvm.maxLV != t.spec.maxLV.value {
        err := LVM(SetMaxLV(t.lvm.name, t.spec.maxLV.value));
        CallRelayedOn(m0, m, SetMaxLV(t.lvm.name, t.spec.maxLV.value), err, env.Now());
        MaxLVSet(t, err, m, env.Now());
        BothLimits(t, err.None?, m0, m, env.Now());
        CallStalls(t.name, m, SetMaxLV(t.name, t.spec.maxLV.value), err, env.Now());
        StalledOn(t.name, err == Some(MissingPVs), m0, m, env.Now());
      } else {
        MaxLVKept(t, m0, m);
        err := None;
      }
    }

    /** A failure to set the first limit leaves the second one alone. */
    method SyncMaximumVolumes(t: Task) returns (o: Outcome)
      requires env.Valid() && Exists(env.Now(), t.name) && Near(t, Group(env.Now(), t.name)) && t.lvm.name == t.name
      modifies env
      ensures env.Valid() && PartDone(LimitsPart, t, o.Ok?, old(env.Now()), env.Now())
      ensures Relayed(o, old(env.Now()), env.Now())
      ensures t.spec.maxPV.Some? && Group(env.Now(), t.name).maxPV != t.spec.maxPV.value ==>
                Group(env.Now(), t.name).maxLV == old(Group(env.Now(), t.name)).maxLV
      ensures Stalled(t.name, o.Ok? || Complains(o), old(env.Now()), env.Now())
      ensures !o.Panicked? && (Complains(o) ==> Blames(t.name, old(env.Now()), env.Now()))
    {
      ghost var m0 := env.Now();
      var err := SetMaximumPhysicalVolumes(t);
      if err.Some? {
        FirstLimitFailed(t, m0, env.Now());
        return FromCall(err);
      }
      err := SetMaximumLogicalVolumes(t, m0);
      o := FromCall(err);
    }

    method SyncAllocationPolicy(t: Task) returns (o: Outcome)
      requires env.Valid() && Exists(env.Now(), t.name) && Near(t, Group(env.Now(), t.name)) && t.lvm.name == t.name
      modifies env
      ensures env.Valid() && PartDone(PolicyPart, t, o.Ok?, old(env.Now()), env.Now())
      ensures Relayed(o, old(env.Now()), env.Now())
      ensures Stalled(t.name, o.Ok? || Complains(o), old(env.Now()), env.Now())
      ensures !o.Panicked? && (Complains(o) ==> Blames(t.name, old(env.Now()), env.Now()))
    {
      ghost var m := env.Now();
      NothingRelayed(m);
      if t.spec.policy.None? {
        PartKept(PolicyPart, t, m);
        return Ok;
      }
      var desired := SnakeCase.ToSnakeCase(t.spec.policy.value);
      if t.lvm.policy == desired {
        PartKept(PolicyPart, t, m);
        return Ok;
      }
      var err := LVM(SetPolicy(t.lvm.name, desired));
      CallRelayed(m, SetPolicy(t.lvm.name, desired), err, env.Now());
      PolicySet(t, err, m, env.Now());
      CallStalls(t.name, m, SetPolicy(t.name, desired), err, env.Now());
      o := FromCall(err);
    }

    method SyncAutoActivation(t: Task) returns (o: Outcome)
      requires env.Valid() && Exists(env.Now(), t.name) && Near(t, Group(env.Now(), t.name)) && t.lvm.name == t.name
      modifies env
      ensures env.Valid() && PartDone(AutoActivationPart, t, o.Ok?, old(env.Now()), env.Now())
      ensures Relayed(o, old(env.Now()), env.Now())
      ensures Stalled(t.name, o.Ok? || Complains(o), old(env.Now()), env.Now())
      ensures !o.Panicked? && (Complains(o) ==> Blames(t.name, old(env.Now()), env.Now()))
    {
      ghost var m := env.Now();
      NothingRelayed(m);
      if t.spec.autoActivation.None? {
        PartKept(AutoActivationPart, t, m);
        return Ok;
      }
      var desired := ConvertToAutoActivation(t.spec.autoActivation);
      if t.lvm.autoActivation && desired {
        PartKept(AutoActivationPart, t, m);
        return Ok;
      } else if !t.lvm.autoActivation && !desired {
        PartKept(AutoActivationPart, t, m);
        return Ok;
      }
      var err := LVM(SetAutoActivation(t.lvm.name, desired));
      CallRelayed(m, SetAutoActivation(t.lvm.name, desired), err, env.Now());
      AutoActivationSet(t, err, m, env.Now());
      CallStalls(t.name, m, SetAutoActivation(t.name, desired), err, env.Now());
      o := FromCall(err);
    }

    /** Renames the group only if the snapshot carries another name than the desired one. */
    method SyncName(t: Task) returns (o: Outcome)
      requires env.Valid()
      modifies env
      ensures env.Valid()
      ensures t.lvm.name == t.name ==> o.Ok? && env.Now() == old(env.Now())
      ensures t.lvm.name != t.name ==>
                exists err :: Stepped(old(env.Now()), Lvm(Rename(t.lvm.name, t.name)), err, env.Now()) &&
                    o == FromCall(err)
    {
      var desired := t.name;
      if t.lvm.name == desired {
        return Ok;
      }
      var err := env.Run(Lvm(Rename(t.lvm.name, desired)));
      o := FromCall(err);
    }

    method RunSyncer(p: Part, t: Task) returns (o: Outcome)
      requires env.Valid() && Exists(env.Now(), t.name) && Near(t, Group(env.Now(), t.name)) && t.lvm.name == t.name
      modifies env
      ensures env.Valid() && PartEnded(p, t, o, old(env.Now()), env.Now())
    {
      ghost var m := env.Now();
      match p {
        case TagsPart => o := SyncTags(t);
        case PVsPart => o := SyncPVs(t);
        case LimitsPart => o := SyncMaximumVolumes(t);
        case PolicyPart => o := SyncAllocationPolicy(t);
        case AutoActivationPart => o := SyncAutoActivation(t);
        case NamePart =>
          PartKept(NamePart, t, env.Now());
          NothingRelayed(m);
          o := SyncName(t);
      }
      ComplainsIfDue(p, t, o, m, env.Now());
    }

    /**
     * Every synchroniser runs, whatever the ones before it reported; a panic ends the pass. `parts` and `ms` say what
     * each of them has returned and between which moments it ran.
     */
    method RunSyncers(t: Task) returns (o: Outcome, ghost parts: seq<Outcome>, ghost ms: seq<Moment>)
      requires env.Valid() && Exists(env.Now(), t.name) && Near(t, Group(env.Now(), t.name)) && t.lvm.name == t.name
      modifies env
      ensures env.Valid() && PassStands(t, |SYNCERS|, o, old(env.Now()), env.Now())
      ensures PassRan(t, parts, ms, old(env.Now()), env.Now()) && JoinOf(o, parts)
      ensures !o.Panicked? ==> |parts| == 6
    {
      ghost var m0 := env.Now();
      PassBegins(t, m0);
      NothingRelayed(m0);
      o, parts, ms := Ok, [], [m0];
      for i := 0 to |SYNCERS|
        invariant env.Valid() && !o.Panicked? && PassGoes(t, i, o, parts, ms, m0, env.Now())
      {
        ghost var m, before := env.Now(), o;
        PassStandsOnGroup(t, i, o, m0, m);
        var more := RunSyncer(SYNCERS[i], t);
        o := Joined(o, more);
        PassGoesFurther(t, i, before, parts, ms, more, m0, m, env.Now());
        parts, ms := parts + [more], ms + [env.Now()];
        if o.Panicked? {
          PanicStands(t, i + 1, o, m0, env.Now());
          return;
        }
      }
    }

    /** vgreduce --removemissing, forced only under the ForceRemove policy. */
    method RepairLoss(t: Task, ghost o: Outcome, ghost m0: Moment) returns (err: Option<Error>)
      requires env.Valid() && Complains(o) && PassStands(t, |SYNCERS|, o, m0, env.Now())
      requires !t.spec.deviceLoss.FailOnLoss?
      modifies env
      ensures env.Valid() && Repaired(t, err.None?, m0, env.Now()) && Called(old(env.Now()), Repair(t), err, env.Now())
      ensures Undisturbed(m0) ==> !SelectorPanics(t.spec, m0.world.host)
    {
      ghost var m1 := env.Now();
      PassComplained(t, o, m0, m1);
      err := LVM(Repair(t));
      AfterRepair(t, false, err, m0, m1, env.Now());
    }

    /** Repairs the loss that the pass begun at `m0` has met and, if that works, starts over with the old snapshot. */
    method RepairAndSyncAgain(vg: VolumeGroupObject, lvm: Snapshot, ghost o: Outcome, ghost m0: Moment)
      returns (again: Outcome)
      requires env.Valid() && lvm.name == vg.Name()
      requires Complains(o) && PassStands(Task(vg.fetched.spec, vg.Name(), lvm), |SYNCERS|, o, m0, env.Now())
      requires !vg.fetched.spec.deviceLoss.FailOnLoss?
      requires ConditionSet(vg.conditions, vg.conditions, vg.fetched.generation, false) && Pending(vg.conditions)
      modifies env, vg`conditions
      ensures env.Valid()
      ensures Synchronised(Task(vg.fetched.spec, vg.Name(), lvm), vg.fetched.generation,
          old(vg.conditions), vg.conditions, again, m0, env.Now())
      decreases m0.disruptions, |m0.world.host.Missing(vg.Name())|, 0
    {
      ghost var t := Task(vg.fetched.spec, vg.Name(), lvm);
      ghost var m1 := env.Now();
      var err := RepairLoss(Task(vg.fetched.spec, vg.Name(), lvm), o, m0);
      ghost var m := env.Now();
      ghost var pending := vg.conditions;
      if err.Some? {
        RepairConcludes(t, vg.fetched.generation, pending, o, err, m0, m1, m);
        return FromCall(err);
      }
      again := Sync(vg, lvm);
      AgainConcludes(t, vg.fetched.generation, pending, vg.conditions, o, m0, m1, m, again, env.Now());
    }

    /**
     * Runs the synchronisers and collects their errors; after a successful repair of device loss it
     * starts over with the snapshot of the first attempt.
     */
    method Sync(vg: VolumeGroupObject, lvm: Snapshot) returns (o: Outcome)
      requires env.Valid() && lvm.name == vg.Name() && Exists(env.Now(), vg.Name())
      requires Near(Task(vg.fetched.spec, vg.Name(), lvm), Group(env.Now(), vg.Name()))
      modifies env, vg`conditions
      ensures env.Valid()
      ensures Synchronised(Task(vg.fetched.spec, vg.Name(), lvm), vg.fetched.generation,
          old(vg.conditions), vg.conditions, o, old(env.Now()), env.Now())
      decreases env.disruptions, |env.world.host.Missing(vg.Name())|, 1
    {
      ghost var m0, before := env.Now(), vg.conditions;
      vg.SetSyncedOnHostDefault();
      ghost var pending := vg.conditions;
      ghost var parts, ms;
      o, parts, ms := RunSyncers(Task(vg.fetched.spec, vg.Name(), lvm));
      if Complains(o) && !vg.fetched.spec.deviceLoss.FailOnLoss? {
        o := RepairAndSyncAgain(vg, lvm, o, m0);
        PendingIsFirst(Task(vg.fetched.spec, vg.Name(), lvm), vg.fetched.generation, before, pending, vg.conditions, o,
            m0, env.Now());
        return;
      }
      if !o.Panicked? {
        vg.SetSyncedOnHostOutcome(o.Ok?);
      }
      PassConcludes(Task(vg.fetched.spec, vg.Name(), lvm), vg.fetched.generation, before, pending, vg.conditions, o, m0,
          env.Now());
    }

    // ---- the life cycle ----

    method InitializeVG(vg: VolumeGroupObject, now: int) returns (o: Outcome)
      requires env.Valid() && vg.fetched.spec.nodeName == nodeName && vg.fetched.deletion.None?
      requires !Exists(env.Now(), vg.Name()) && vg.conditions == vg.fetched.conditions
      modifies env, vg`conditions
      ensures env.Valid() && IssuedAll(nodeName, vg.key, now, vg.fetched, old(env.Now()), env.Now())
      ensures o.Ok? ==> Exists(env.Now(), vg.Name())
      ensures o.Failed? ==> DiscoveryFailed(vg.fetched, vg.conditions, o.errors, old(env.Now()), env.Now())
      ensures !o.Failed? ==> vg.conditions == old(vg.conditions)
      ensures o.Ok? ==> MadeAsChosen(vg.fetched.spec, vg.Name(), env.Now())
      ensures o.Ok? && Quiet(old(env.Now()), env.Now()) ==>
                MadeAsDesired(vg.fetched.spec, env.world.host, Group(env.Now(), vg.Name()))
      ensures o.Panicked? ==> PanicSeen(vg.fetched.spec, env.world)
      ensures Undisturbed(old(env.Now())) ==>
                && (o.Panicked? <==> SelectorPanics(vg.fetched.spec, old(env.world.host)))
                && (o.Ok? <==> Creatable(vg.fetched.spec, old(env.world.host)))
    {
      ghost var m0 := env.Now();
      var names;
      o, names := GetPhysicalVolumeNames(vg.fetched.spec);
      ghost var m := env.Now();
      LookedIsIssued(nodeName, vg.key, now, vg.fetched, m0, m);
      if !o.Ok? {
        if o.Failed? {
          LookEndsDiscovery(vg.fetched, o, m0, m);
        }
        return;
      }
      var options := ConvertToVGCreateOptions(vg.fetched.spec, names);
      var err := env.Run(Lvm(Create(vg.Name(), options)));
      CreateIsIssued(nodeName, vg.key, now, vg.fetched, names, m0, m, err, env.Now());
      CreateMakes(vg.fetched, names, m, err, env.Now());
      if err.Some? {
        vg.SetSyncedOnHostCreationFailed();
        CreateEndsDiscovery(vg.fetched, names, vg.conditions, m0, m, err, env.Now());
      }
      o := FromCall(err);
    }

    /** Host discovery. A group that is not there yet is created, and then there is no snapshot of it. */
    method Discover(vg: VolumeGroupObject, now: int) returns (o: Outcome, lvm: Option<Snapshot>)
      requires env.Valid() && vg.fetched.spec.nodeName == nodeName && vg.fetched.deletion.None?
      requires vg.conditions == vg.fetched.conditions
      modifies env, vg`conditions
      ensures env.Valid() && IssuedAll(nodeName, vg.key, now, vg.fetched, old(env.Now()), env.Now())
      ensures o.Ok? ==> Exists(env.Now(), vg.Name()) && vg.conditions == old(vg.conditions)
      ensures o.Failed? ==> DiscoveryFailed(vg.fetched, vg.conditions, o.errors, old(env.Now()), env.Now())
      ensures o.Ok? && lvm.Some? ==>
                && lvm.value.name == vg.Name() && Watched(vg.Name(), old(env.Now()), env.Now())
                && Reflects(lvm.value, Group(env.Now(), vg.Name()))
      ensures o.Ok? && lvm.None? ==> !Exists(old(env.Now()), vg.Name())
      ensures Rests(vg.fetched, old(env.Now()), env.Now())
      ensures o.Panicked? ==> PanicSeen(vg.fetched.spec, env.world)
      ensures Undisturbed(old(env.Now())) ==>
                if Exists(old(env.Now()), vg.Name()) then o.Ok? && lvm.Some?
                else
                  && (o.Panicked? <==> SelectorPanics(vg.fetched.spec, old(env.world.host)))
                  && (o.Ok? <==> Creatable(vg.fetched.spec, old(env.world.host)))
    {
      ghost var m0 := env.Now();
      var err := env.Run(Lvm(VGS(vg.Name())));
      ghost var m := env.Now();
      LookupIsIssued(nodeName, vg.key, now, vg.fetched, m0, err, m);
      WatchedRests(vg.fetched, m0, m);
      if err == Some(NotFound) {
        o := InitializeVG(vg, now);
        IssuedMore(nodeName, vg.key, now, vg.fetched, m0, m, env.Now());
        return o, None;
      }
      if err.Some? {
        return FromCall(err), None;
      }
      var g := env.world.host.vgs[vg.Name()];
      var tags := Listed(g.tags);
      return Ok, Some(Snapshot(vg.Name(), tags, g.maxPV, g.maxLV, g.policy, g.autoActivation));
    }

    /** Fills in the status: physical volumes as they are now, everything else from the snapshot. */
    method SyncStatus(vg: VolumeGroupObject, lvm: Snapshot) returns (o: Outcome)
      requires env.Valid() && lvm.name == vg.Name() && Exists(env.Now(), vg.Name())
      requires Near(Task(vg.fetched.spec, vg.Name(), lvm), Group(env.Now(), vg.Name()))
      modifies env, vg`status
      ensures env.Valid() && !o.Panicked?
      ensures QueriesOnly(Task(vg.fetched.spec, vg.Name(), lvm), old(env.Now()), env.Now())
      ensures SameScan(old(env.Now()), env.Now())
      ensures Calm(old(env.Now()), vg.Name()) ==> o.Ok?
      ensures Relayed(o, old(env.Now()), env.Now()) && (!o.Ok? ==> vg.status == old(vg.status))
      ensures o.Ok? ==> StatusShows(vg.status, lvm, Group(env.Now(), vg.Name()))
    {
      var names;
      o, names := ListPVs(Task(vg.fetched.spec, vg.Name(), lvm));
      if o.Ok? {
        vg.status := Status(lvm.name, Elements(lvm.tags), names, lvm.maxPV, lvm.maxLV);
      }
    }

    /** The last call of a reconcile that has not ended before: conditions and status are stored. */
    method StoreStatus(vg: VolumeGroupObject, now: int, ghost m0: Moment) returns (err: Option<Error>)
      requires env.Valid() && vg.fetched.spec.nodeName == nodeName && vg.fetched.deletion.None?
      requires IssuedAll(nodeName, vg.key, now, vg.fetched, m0, env.Now()) && Rests(vg.fetched, m0, env.Now())
      requires Earned(vg.fetched, vg.conditions, env.world)
      modifies env
      ensures env.Valid()
      ensures Stepped(old(env.Now()), UpdateStatus(vg.key, vg.Value()), err, env.Now())
      ensures Files(vg.fetched, vg.key, env.Now().events[|old(env.Now().events)|])
      ensures IssuedAll(nodeName, vg.key, now, vg.fetched, m0, env.Now()) && Rests(vg.fetched, m0, env.Now())
      ensures LastFailed(env.Now()) <==> err.Some?
    {
      ghost var m := env.Now();
      err := env.Run(UpdateStatus(vg.key, vg.Value()));
      ReportIsIssued(nodeName, vg.key, now, vg.fetched, vg.Value(), m0, m, err, env.Now());
    }

    /** Stores what a synchronisation begun at `m0` has come to. */
    method StoreReport(vg: VolumeGroupObject, lvm: Snapshot, ok: bool, now: int, ghost m0: Moment)
      returns (err: Option<Error>)
      requires env.Valid() && vg.fetched.spec.nodeName == nodeName && vg.fetched.deletion.None?
      requires Storable(nodeName, vg.key, now, vg.fetched, Task(vg.fetched.spec, vg.Name(), lvm), ok, vg.conditions, m0,
          env.Now())
      modifies env
      ensures env.Valid() && Stepped(old(env.Now()), UpdateStatus(vg.key, vg.Value()), err, env.Now())
      ensures Files(vg.fetched, vg.key, env.Now().events[|old(env.Now().events)|])
      ensures IssuedAll(nodeName, vg.key, now, vg.fetched, m0, env.Now()) && Rests(vg.fetched, m0, env.Now())
      ensures err.Some? || !ok || !StatusShows(vg.status, lvm, old(Group(env.Now(), vg.Name()))) ||
                Reported(vg.fetched, vg.key, m0, env.Now())
      ensures LastFailed(env.Now()) <==> err.Some?
    {
      ghost var t, m := Task(vg.fetched.spec, vg.Name(), lvm), env.Now();
      err := StoreStatus(vg, now, m0);
      if err.None? && ok && StatusShows(vg.status, lvm, Group(m, t.name)) {
        ReportStored(vg.fetched, t, vg.key, vg.Value(), m0, m, env.Now());
      }
    }

    /**
     * Refreshes the status and stores it together with the condition that the synchronisation has set. `p` is all
     * that has happened since the synchronisation, with `synced` for what that has come to.
     */
    method RefreshAndStore(vg: VolumeGroupObject, lvm: Snapshot, ghost synced: Outcome, ok: bool, now: int,
                           ghost m0: Moment)
      returns (o: Outcome, ghost p: Passage)
      requires env.Valid() && vg.fetched.spec.nodeName == nodeName && vg.fetched.deletion.None?
      requires VOLUME_GROUP_FINALIZER in vg.fetched.finalizers && lvm.name == vg.Name()
      requires Storable(nodeName, vg.key, now, vg.fetched, Task(vg.fetched.spec, vg.Name(), lvm), ok, vg.conditions, m0,
          env.Now())
      requires Near(Task(vg.fetched.spec, vg.Name(), lvm), Group(env.Now(), vg.Name()))
      requires vg.status == vg.fetched.status
      modifies env, vg`status
      ensures env.Valid() && !o.Panicked?
      ensures IssuedAll(nodeName, vg.key, now, vg.fetched, m0, env.Now()) && Rests(vg.fetched, m0, env.Now())
      ensures !o.Ok? || !ok || Reported(vg.fetched, vg.key, m0, env.Now())
      ensures Calm(old(env.Now()), vg.Name()) ==> (o.Ok? <==> !LastFailed(env.Now()))
      ensures p == Passage(Task(vg.fetched.spec, vg.Name(), lvm), synced, m0, old(env.Now()), p.listed, p.seen,
                           vg.Value(), p.err)
      ensures Recorded(p, vg.fetched, vg.key, env.Now())
      ensures o.Ok? <==> p.listed.Ok? && p.err.None?
      ensures ErrorsIn(o) == ErrorsIn(p.listed) + FailuresOf(p.err)
    {
      ghost var t, m1 := Task(vg.fetched.spec, vg.Name(), lvm), env.Now();
      o := SyncStatus(vg, lvm);
      ghost var m2 := env.Now();
      ListedIsStorable(nodeName, vg.key, now, vg.fetched, t, ok, vg.conditions, m0, m1, m2);
      var err := StoreReport(vg, lvm, ok, now, m0);
      p := Passage(t, synced, m0, m1, o, m2, vg.Value(), err);
      WasRecorded(p, vg.fetched, vg.key, env.Now());
      JoinedWithCall(o, err);
      o := Joined(o, FromCall(err));
    }

    /** The rest of a reconcile whose synchronisation began at `m0` and has not panicked. */
    method Report(vg: VolumeGroupObject, lvm: Snapshot, synced: Outcome, now: int, ghost m0: Moment)
      returns (r: Reply)
      requires env.Valid() && vg.fetched.spec.nodeName == nodeName && vg.fetched.deletion.None?
      requires VOLUME_GROUP_FINALIZER in vg.fetched.finalizers && lvm.name == vg.Name() && !synced.Panicked?
      requires Exists(m0, vg.Name()) && Reflects(lvm, Group(m0, vg.Name())) && vg.status == vg.fetched.status
      requires Synchronised(Task(vg.fetched.spec, vg.Name(), lvm), vg.fetched.generation, vg.fetched.conditions,
          vg.conditions, synced, m0, env.Now())
      modifies env, vg`status
      ensures env.Valid() && IssuedAll(nodeName, vg.key, now, vg.fetched, m0, env.Now())
      ensures !r.RequeueAfter? || Reported(vg.fetched, vg.key, m0, env.Now())
      ensures Rests(vg.fetched, m0, env.Now())
      ensures (r.RequeueAfter? || r.Erred?) && CalmReport(vg.fetched, r.RequeueAfter?, m0, env.Now())
      ensures SyncFiled(vg.fetched, vg.key, r, m0, env.Now())
    {
      SyncedIsStorable(nodeName, vg.key, now, vg.fetched, Task(vg.fetched.spec, vg.Name(), lvm), synced.Ok?,
          vg.conditions, m0, env.Now());
      var s, p := RefreshAndStore(vg, lvm, synced, synced.Ok?, now, m0);
      var o := Joined(synced, s);
      r := if o.Ok? then RequeueAfter else Erred(o.errors);
      SyncReplied(p, s, r, vg.fetched, vg.key, env.Now());
    }

    /** Everything after discovery: synchronise, refresh the status, store it. */
    method SyncAndReport(vg: VolumeGroupObject, lvm: Snapshot, now: int) returns (r: Reply)
      requires env.Valid() && vg.fetched.spec.nodeName == nodeName && vg.fetched.deletion.None?
      requires VOLUME_GROUP_FINALIZER in vg.fetched.finalizers
      requires vg.conditions == vg.fetched.conditions && vg.status == vg.fetched.status
      requires lvm.name == vg.Name() && Exists(env.Now(), vg.Name()) && Reflects(lvm, Group(env.Now(), vg.Name()))
      modifies env, vg`conditions, vg`status
      ensures env.Valid() && IssuedAll(nodeName, vg.key, now, vg.fetched, old(env.Now()), env.Now())
      ensures !r.RequeueAfter? || Reported(vg.fetched, vg.key, old(env.Now()), env.Now())
      ensures r.Crashed? ==> PanicSeen(vg.fetched.spec, env.world)
      ensures Undisturbed(old(env.Now())) ==> (r.Crashed? <==> SelectorPanics(vg.fetched.spec, old(env.world.host)))
      ensures Rests(vg.fetched, old(env.Now()), env.Now())
      ensures !r.Done? && !r.Requeue? && CalmReport(vg.fetched, r.RequeueAfter?, old(env.Now()), env.Now())
      ensures r.Crashed? || SyncFiled(vg.fetched, vg.key, r, old(env.Now()), env.Now())
    {
      ghost var m0 := env.Now();
      var o := Sync(vg, lvm);
      if o.Panicked? {
        PanicIsIssued(nodeName, vg.key, now, vg.fetched, Task(vg.fetched.spec, vg.Name(), lvm), m0, env.Now());
        return Crashed;
      }
      r := Report(vg, lvm, o, now, m0);
    }

    /** Deletion: the group goes first, the finalizer only once the group is gone. */
    method RemoveFromHost(vg: VolumeGroupObject, now: int) returns (r: Reply)
      requires env.Valid() && vg.fetched.spec.nodeName == nodeName && vg.fetched.deletion.Some?
      requires vg.finalizers == vg.fetched.finalizers && vg.conditions == vg.fetched.conditions &&
          vg.status == vg.fetched.status
      modifies env, vg`finalizers
      ensures env.Valid() && IssuedAll(nodeName, vg.key, now, vg.fetched, old(env.Now()), env.Now())
      ensures Removal(vg.fetched, vg.key, now, r, old(env.Now()), env.Now())
      ensures |env.Now().events| <= |old(env.Now()).events| + 2
    {
      ghost var m0 := env.Now();
      var deletion := vg.fetched.deletion.value;
      var forceAt := deletion.timestamp + deletion.gracePeriodSeconds;
      var force := now > forceAt;
      var err := env.Run(Lvm(Remove(vg.Name(), force)));
      ghost var m := env.Now();
      RemovalIsIssued(nodeName, vg.key, now, vg.fetched, force, m0, err, m);
      if err.Some? && !err.value.NotFound? {
        return Erred([Call(err.value)]);
      }
      if VOLUME_GROUP_FINALIZER !in vg.finalizers {
        return Requeue;
      }
      r := Release(vg, now, m0);
    }

    /** The group is gone, and the finalizer goes with it. */
    method Release(vg: VolumeGroupObject, now: int, ghost m0: Moment) returns (r: Reply)
      requires env.Valid() && vg.fetched.spec.nodeName == nodeName && vg.fetched.deletion.Some?
      requires vg.Value() == vg.fetched && VOLUME_GROUP_FINALIZER in vg.finalizers
      requires IssuedAll(nodeName, vg.key, now, vg.fetched, m0, env.Now()) && !Exists(env.Now(), vg.Name())
      requires Undisturbed(m0) ==> !Stuck(vg.fetched, now, m0.world.host)
      modifies env, vg`finalizers
      ensures env.Valid() && IssuedAll(nodeName, vg.key, now, vg.fetched, m0, env.Now())
      ensures Removal(vg.fetched, vg.key, now, r, m0, env.Now())
      ensures |env.Now().events| == |old(env.Now()).events| + 1
    {
      ghost var m := env.Now();
      vg.finalizers := RemoveFinalizer(vg.finalizers);
      var err := env.Run(Update(vg.key, vg.Value()));
      ReleaseIsIssued(nodeName, vg.key, now, vg.fetched, m0, m, err, env.Now());
      r := if err.Some? then Erred([Call(err.value)]) else Done;
    }

    /** The finalizer is stored before anything is synchronised. */
    method Claim(vg: VolumeGroupObject, now: int, ghost m0: Moment) returns (r: Reply)
      requires env.Valid() && vg.fetched.spec.nodeName == nodeName && vg.fetched.deletion.None?
      requires vg.Value() == vg.fetched && VOLUME_GROUP_FINALIZER !in vg.finalizers
      requires IssuedAll(nodeName, vg.key, now, vg.fetched, m0, env.Now()) && Rests(vg.fetched, m0, env.Now())
      requires Exists(env.Now(), vg.Name())
      modifies env, vg`finalizers
      ensures env.Valid()
      ensures (r.Requeue? && Claims(env.world.store, vg.key)) || (r.Erred? && LastFailed(env.Now()))
      ensures ClaimFiled(vg.fetched, vg.key, r, env.Now())
      ensures Exists(env.Now(), vg.Name())
      ensures IssuedAll(nodeName, vg.key, now, vg.fetched, m0, env.Now()) && Rests(vg.fetched, m0, env.Now())
    {
      ghost var m := env.Now();
      vg.finalizers := vg.finalizers + [VOLUME_GROUP_FINALIZER];
      var err := env.Run(Update(vg.key, vg.Value()));
      ClaimIsIssued(nodeName, vg.key, now, vg.fetched, m0, m, err, env.Now());
      r := if err.Some? then Erred([Call(err.value)]) else Requeue;
    }

    /** The synchronisers dereference the snapshot, which is missing if the group has just been created. */
    method SyncWith(vg: VolumeGroupObject, lvm: Option<Snapshot>, now: int, ghost m0: Moment) returns (r: Reply)
      requires env.Valid() && vg.fetched.spec.nodeName == nodeName && vg.fetched.deletion.None?
      requires VOLUME_GROUP_FINALIZER in vg.fetched.finalizers
      requires vg.conditions == vg.fetched.conditions && vg.status == vg.fetched.status
      requires IssuedAll(nodeName, vg.key, now, vg.fetched, m0, env.Now()) && Rests(vg.fetched, m0, env.Now())
      requires match lvm
               case None => !Exists(m0, vg.Name())
               case Some(s) =>
                 && s.name == vg.Name() && Watched(vg.Name(), m0, env.Now())
                 && Reflects(s, Group(env.Now(), vg.Name()))
      modifies env, vg`conditions, vg`status
      ensures env.Valid() && IssuedAll(nodeName, vg.key, now, vg.fetched, m0, env.Now())
      ensures Rests(vg.fetched, m0, env.Now())
      ensures !r.RequeueAfter? || Reported(vg.fetched, vg.key, m0, env.Now())
      ensures lvm.None? ==> r.Crashed?
      ensures lvm.Some? && r.Crashed? ==> PanicSeen(vg.fetched.spec, env.world)
      ensures lvm.Some? && Undisturbed(m0) ==> (r.Crashed? <==> SelectorPanics(vg.fetched.spec, m0.world.host))
      ensures !r.Done? && !r.Requeue? && CalmReport(vg.fetched, r.RequeueAfter?, m0, env.Now())
      ensures r.Crashed? || SyncFiled(vg.fetched, vg.key, r, m0, env.Now())
    {
      ghost var m := env.Now();
      if lvm.None? {
        vg.SetSyncedOnHostDefault();
        return Crashed;
      }
      r := SyncAndReport(vg, lvm.value, now);
      AfterDiscovery(nodeName, vg.key, now, vg.fetched, r.RequeueAfter?, m0, m, env.Now());
      if !r.Crashed? {
        SyncFiledLater(vg.fetched, vg.key, r, m0, m, env.Now());
      }
    }

    /** Discovery has failed: what is to be said of that is stored. */
    method ReportFailure(vg: VolumeGroupObject, failures: seq<Failure>, now: int, ghost m0: Moment) returns (r: Reply)
      requires env.Valid() && vg.fetched.spec.nodeName == nodeName && vg.fetched.deletion.None?
      requires IssuedAll(nodeName, vg.key, now, vg.fetched, m0, env.Now()) && Rests(vg.fetched, m0, env.Now())
      requires DiscoveryFailed(vg.fetched, vg.conditions, failures, m0, env.Now()) && vg.status == vg.fetched.status
      modifies env
      ensures env.Valid() && r.Erred? && FailureFiled(vg.fetched, vg.key, r.errors, m0, env.Now())
      ensures IssuedAll(nodeName, vg.key, now, vg.fetched, m0, env.Now()) && Rests(vg.fetched, m0, env.Now())
    {
      ghost var m := env.Now();
      var err := StoreStatus(vg, now, m0);
      FailureIsFiled(vg.fetched, vg.key, vg.Value(), failures, m0, m, err, env.Now());
      r := Erred(failures + FailuresOf(err));
    }

    /** Creates the group or finds it, claims it with the finalizer, and only then synchronises it. */
    method CreateOrSync(vg: VolumeGroupObject, now: int) returns (r: Reply)
      requires env.Valid() && vg.fetched.spec.nodeName == nodeName && vg.fetched.deletion.None?
      requires vg.Value() == vg.fetched
      modifies env, vg
      ensures env.Valid() && IssuedAll(nodeName, vg.key, now, vg.fetched, old(env.Now()), env.Now())
      ensures Upkeep(vg.fetched, vg.key, r, old(env.Now()), env.Now())
    {
      ghost var m0 := env.Now();
      var o, lvm := Discover(vg, now);
      CreatableIsNoPanic(vg.fetched.spec, m0.world.host);
      if o.Panicked? {
        return Crashed;
      }
      if o.Failed? {
        r := ReportFailure(vg, o.errors, now, m0);
        FailureIsUpkeep(vg.fetched, vg.key, r, m0, env.Now());
        return;
      }
      if VOLUME_GROUP_FINALIZER !in vg.finalizers {
        r := Claim(vg, now, m0);
        ClaimIsUpkeep(vg.fetched, vg.key, r, m0, env.Now());
        return;
      }
      r := SyncWith(vg, lvm, now, m0);
      SyncIsUpkeep(vg.fetched, vg.key, r, m0, env.Now());
    }

    method Reconcile(key: string, now: int) returns (r: Reply)
      requires env.Valid()
      modifies env
      ensures env.Valid() && Continues(old(env.Now()), env.Now())
      ensures Reconciling(nodeName, key, now, Since(old(env.Now()), env.Now()))
      ensures match Fetched(key, Since(old(env.Now()), env.Now()))
              case None =>
                var events := Since(old(env.Now()), env.Now());
                && |events| == 1 && events[0].error.Some?
                && (r.Done? <==> events[0].error == Some(NotFound))
                && (!r.Done? ==> r == Erred([Call(events[0].error.value)]))
              case Some(o) =>
                if o.spec.nodeName != nodeName then r.Done?
                else if o.deletion.Some? then Removal(o, key, now, r, old(env.Now()), env.Now())
                else
                  && Upkeep(o, key, r, old(env.Now()), env.Now())
                  && (r.RequeueAfter? ==> Succeeded(nodeName, key, now, o, old(env.Now()), env.Now()))
    {
      ghost var m0 := env.Now();
      var err := env.Run(Get(key));
      ghost var m := env.Now();
      if err.Some? {
        NothingFetched(nodeName, key, now, m0, err, m);
        return if err.value.NotFound? then Done else Erred([Call(err.value)]);
      }
      var vg := new VolumeGroupObject(key, env.world.store[key]);
      ReadObject(key, m0, m);
      if nodeName != vg.fetched.spec.nodeName {
        OnlyRead(nodeName, key, now, vg.fetched, m0, m);
        return Done;
      }
      if vg.fetched.deletion.Some? {
        r := RemoveFromHost(vg, now);
        RemovalAfterRead(vg.fetched, key, now, r, m0, m, env.Now());
      } else {
        r := CreateOrSync(vg, now);
        UpkeepAfterRead(vg.fetched, key, r, m0, m, env.Now());
      }
      ReadThenIssued(nodeName, key, now, vg.fetched, m0, m, env.Now());
    }
  }
}
