/** Which calls one reconcile of a resource makes, from its first read of the resource to wherever it ends. */
module ReconcileSpec {
  import opened Wrappers
  import opened Utils
  import opened Lvm
  import opened Api
  import opened World
  import opened SyncSpec
  import opened Lsblk
  import Moving
  import Selector
  import SnakeCase

  /** The allocation policy is passed on as it is written; automatic activation as it is converted. */
  function ConvertToVGCreateOptions(spec: Spec, pvs: seq<string>): CreateOptions {
    CreateOptions(
      spec.tags, pvs,
      if spec.autoActivation.Some? then Some(ConvertToAutoActivation(spec.autoActivation)) else None,
      spec.policy, spec.maxPV, spec.maxLV)
  }

  function RemoveFinalizer(finalizers: seq<string>): seq<string> {
    if finalizers == [] then []
    else (if finalizers[0] == VOLUME_GROUP_FINALIZER then [] else [finalizers[0]]) + RemoveFinalizer(finalizers[1..])
  }

  /** Our finalizer goes, however often it is there; all others keep their places. */
  lemma {:induction false} FinalizerRemoved(finalizers: seq<string>)
    ensures "topolvm.io/volumegroup-removal-on-node" !in RemoveFinalizer(finalizers)
    ensures RemoveFinalizer(finalizers) == Diff(finalizers, ["topolvm.io/volumegroup-removal-on-node"])
  {
    if finalizers == [] {
    } else {
      FinalizerRemoved(finalizers[1..]);
    }
  }

  /**
   * The conditions are as they were, or claim to be synced only if the group's properties agree and its
   * volumes are those that were found selected.
   */
  ghost predicate Earned(o: Object, conditions: seq<Condition>, w: State) {
    && (UpTo(o.conditions, o.generation) ==> UpTo(conditions, o.generation))
    && (conditions == o.conditions || !Says(conditions, o.generation, true) || Synced(o, w))
  }

  ghost predicate Synced(o: Object, w: State) {
    var name := NameOnNode(o.uid, o.spec);
    && name in w.host.vgs && PropertiesAgree(o.spec, w.host.vgs[name])
    && Choice(o.spec, w) == Some(w.host.vgs[name].pvs.Keys)
  }

  /** A call made on behalf of `o`, as it was read, by the reconciler of `node`. */
  ghost predicate Issued(node: string, key: string, now: int, o: Object, e: Event) {
    var name := NameOnNode(o.uid, o.spec);
    && o.spec.nodeName == node
    && if o.deletion.Some? then
         match e.action
         case Lvm(Remove(n, force)) =>
           n == name && (force <==> now > o.deletion.value.timestamp + o.deletion.value.gracePeriodSeconds)
         case Update(k, obj) =>
           && k == key && VOLUME_GROUP_FINALIZER in o.finalizers && name !in e.seen.host.vgs
           && obj == o.(finalizers := RemoveFinalizer(o.finalizers))
         case _ => false
       else
         match e.action
         case Lvm(c) =>
           || c == VGS(name)
           || (c.Create? && c.vg == name && c.options == ConvertToVGCreateOptions(o.spec, c.options.pvs)
               && Choice(o.spec, e.seen) == Some(Elements(c.options.pvs)))
           || (VOLUME_GROUP_FINALIZER in o.finalizers && Permitted(o.spec, name, e))
         case RunLsblk(columns) => o.spec.selector != [] && Selector.IsRequest(o.spec.selector, columns)
         case Update(k, obj) =>
           && k == key && VOLUME_GROUP_FINALIZER !in o.finalizers && name in e.seen.host.vgs
           && obj == o.(finalizers := o.finalizers + [VOLUME_GROUP_FINALIZER])
         case UpdateStatus(k, obj) =>
           && k == key && obj.uid == o.uid && obj.version == o.version
           && Earned(o, obj.conditions, e.seen)
         case _ => false
  }

  /** Every lvm2 command is about the group of the name that the specification gives, or else of the UID. */
  lemma AddressesItsGroup(node: string, key: string, now: int, o: Object, e: Event)
    requires Issued(node, key, now, o, e) && e.action.Lvm?
    ensures e.action.command.vg == (if o.spec.nameOnNode.Some? then o.spec.nameOnNode.value else o.uid)
    ensures !e.action.command.Rename?
  {
  }

  /** The resource that a reconcile works on: what its first call, the read, returned. */
  function Fetched(key: string, events: seq<Event>): Option<Object> {
    if events != [] && events[0].action == Get(key) && events[0].error.None? && key in events[0].after.store then
      Some(events[0].after.store[key])
    else None
  }

  /** The calls of one reconcile, or of the beginning of one that was cut off. */
  ghost predicate Reconciling(node: string, key: string, now: int, events: seq<Event>) {
    events != [] ==>
      && events[0].action == Get(key)
      && forall e | e in events[1..] :: Fetched(key, events).Some? &&
          Issued(node, key, now, Fetched(key, events).value, e)
  }

  /** Only issued calls between two moments. */
  ghost predicate IssuedAll(node: string, key: string, now: int, o: Object, m: Moment, m': Moment) {
    Continues(m, m') && forall e | e in Since(m, m') :: Issued(node, key, now, o, e)
  }

  lemma IssuedNothing(node: string, key: string, now: int, o: Object, m: Moment)
    ensures IssuedAll(node, key, now, o, m, m)
  {
    assert m.events[..|m.events|] == m.events;
    NoEvents(m);
  }

  lemma IssuedOne(node: string, key: string, now: int, o: Object, m: Moment, a: Action, err: Option<Error>, m': Moment)
    requires Stepped(m, a, err, m') && Issued(node, key, now, o, m'.events[|m.events|])
    ensures IssuedAll(node, key, now, o, m, m')
  {
    StepContinues(m, a, err, m');
  }

  lemma IssuedMore(node: string, key: string, now: int, o: Object, a: Moment, b: Moment, c: Moment)
    requires IssuedAll(node, key, now, o, a, b) && IssuedAll(node, key, now, o, b, c)
    ensures IssuedAll(node, key, now, o, a, c)
  {
    ContinuesTransitive(a, b, c);
  }

  lemma SyncIsIssued(node: string, key: string, now: int, o: Object, t: Task, m: Moment, m': Moment)
    requires Ran(t, m, m') && t.spec == o.spec && t.name == NameOnNode(o.uid, o.spec)
    requires o.spec.nodeName == node && o.deletion.None? && VOLUME_GROUP_FINALIZER in o.finalizers
    ensures IssuedAll(node, key, now, o, m, m')
  {
    forall e | e in Since(m, m')
      ensures Issued(node, key, now, o, e)
    {
      assert SyncEvent(t, e);
    }
  }

  /** The read, then what was issued for the resource that was read. */
  lemma ReadThenIssued(node: string, key: string, now: int, o: Object, m0: Moment, m: Moment, m': Moment)
    requires Stepped(m0, Get(key), None, m) && key in m.world.store && m.world.store[key] == o
    requires IssuedAll(node, key, now, o, m, m')
    ensures Continues(m0, m') && Reconciling(node, key, now, Since(m0, m')) && Fetched(key, Since(m0, m')) == Some(o)
  {
    StepContinues(m0, Get(key), None, m);
    ContinuesTransitive(m0, m, m');
    var events := Since(m0, m');
    assert events[0] == m.events[|m0.events|];
    assert events[1..] == Since(m, m');
  }

  /** A cut-off reconcile is a reconcile. */
  lemma CutOff(node: string, key: string, now: int, events: seq<Event>, n: nat)
    requires Reconciling(node, key, now, events) && n <= |events|
    ensures Reconciling(node, key, now, events[..n])
  {
    if n > 0 {
      assert events[..n][0] == events[0];
      assert forall e | e in events[..n][1..] :: e in events[1..];
    }
  }

  // ---- the single calls of a reconcile ----

  predicate LastFailed(m: Moment) {
    |m.events| > 0 && m.events[|m.events| - 1].error.Some?
  }

  predicate Claims(store: map<string, Object>, key: string) {
    key in store && VOLUME_GROUP_FINALIZER in store[key].finalizers
  }

  lemma LookedIsIssued(node: string, key: string, now: int, o: Object, m: Moment, m': Moment)
    requires Looked(o.spec, m, m') && o.spec.nodeName == node && o.deletion.None?
    ensures IssuedAll(node, key, now, o, m, m')
    ensures m'.world.host.vgs == m.world.host.vgs && OnlyQueries(m, m')
    ensures Quiet(m, m') ==> m'.world.host == m.world.host
    ensures Undisturbed(m) ==> Undisturbed(m') && m'.world.host == m.world.host
  {
    if m' == m {
      IssuedNothing(node, key, now, o, m);
      NoEvents(m);
    } else {
      var columns, err :|
        Stepped(m, RunLsblk(columns), err, m') && o.spec.selector != [] && Selector.IsRequest(o.spec.selector, columns);
      IssuedOne(node, key, now, o, m, RunLsblk(columns), err, m');
      StepContinues(m, RunLsblk(columns), err, m');
    }
  }

  /** Nothing about the group has changed, and no command that could change it was issued. */
  ghost predicate Watched(name: string, m: Moment, m': Moment) {
    && Exists(m, name) && Exists(m', name) && Group(m', name) == Group(m, name) && OnlyQueries(m, m')
    && m'.disruptions <= m.disruptions
    && (Quiet(m, m') ==> m'.world.host == m.world.host)
  }

  lemma LookupIsIssued(node: string, key: string, now: int, o: Object, m: Moment, err: Option<Error>, m': Moment)
    requires o.spec.nodeName == node && o.deletion.None?
    requires Stepped(m, Lvm(VGS(NameOnNode(o.uid, o.spec))), err, m')
    ensures IssuedAll(node, key, now, o, m, m')
    ensures err.None? ==> Exists(m, NameOnNode(o.uid, o.spec))
    ensures Exists(m, NameOnNode(o.uid, o.spec)) ==> Watched(NameOnNode(o.uid, o.spec), m, m')
    ensures err == Some(NotFound) ==> !Exists(m, NameOnNode(o.uid, o.spec)) && !Exists(m', NameOnNode(o.uid, o.spec))
    ensures m'.events != [] && m'.events[|m'.events| - 1] == m'.events[|m.events|]
    ensures Undisturbed(m) ==>
              && (err.None? <==> Exists(m, NameOnNode(o.uid, o.spec)))
              && (err.Some? ==> err == Some(NotFound))
    ensures Undisturbed(m) ==> Undisturbed(m') && m'.world.host == m.world.host
  {
    var a := Lvm(VGS(NameOnNode(o.uid, o.spec)));
    IssuedOne(node, key, now, o, m, a, err, m');
    StepContinues(m, a, err, m');
  }

  /** What `vgcreate` was told, it did; the policy is the one thing it is told in another form than a sync would. */
  ghost predicate MadeFrom(spec: Spec, selected: set<string>, g: VolumeGroup) {
    && TagsAgree(spec, g) && LimitsAgree(spec, g) && AutoActivationAgrees(spec, g)
    && g.pvs.Keys == selected && g.place == map[]
    && (spec.policy.Some? ==> g.policy == spec.policy.value)
  }

  ghost predicate MadeAsDesired(spec: Spec, h: Host, g: VolumeGroup) {
    MadeFrom(spec, Desired(spec, h), g)
  }

  /** The new group is made from the devices that were found selected. */
  ghost predicate MadeAsChosen(spec: Spec, name: string, m: Moment) {
    Exists(m, name) && Choice(spec, m.world).Some? && MadeFrom(spec, Choice(spec, m.world).value, Group(m, name))
  }

  /** A group that has just been made needs no synchronisation, unless the policy is written with capitals. */
  lemma FreshGroupIsSettled(spec: Spec, h: Host, g: VolumeGroup)
    requires MadeAsDesired(spec, h, g)
    ensures Settled(spec, h, g) <==> (spec.policy.Some? ==> SnakeCase.NoUpper(spec.policy.value))
  {
    if spec.policy.Some? {
      SnakeCase.FixpointIffNoUpper(spec.policy.value);
    }
  }

  /** A group that agrees with its specification does what the user has written exactly if that is `false`. */
  lemma AutoActivationIsAlwaysOff(spec: Spec, g: VolumeGroup)
    requires spec.autoActivation.Some? && AutoActivationAgrees(spec, g)
    ensures g.autoActivation == spec.autoActivation.value <==> !spec.autoActivation.value
  {
  }

  ghost predicate Creatable(spec: Spec, h: Host) {
    !Selector.Aborts(spec.selector, Flatten(h.forest)) && Makeable(spec, h)
  }

  /** What lvm2 asks of a new group. */
  ghost predicate Makeable(spec: Spec, h: Host) {
    var desired := Desired(spec, h);
    && desired != {} && Usable(h, desired)
    && (spec.maxPV.Some? ==> LimitOk(|desired|, spec.maxPV.value))
    && (spec.maxLV.Some? ==> LimitOk(0, spec.maxLV.value))
  }

  lemma MakeableIffEnabled(o: Object, pvs: seq<string>, h: Host)
    requires Elements(pvs) == Desired(o.spec, h) && NameOnNode(o.uid, o.spec) !in h.vgs
    ensures Enabled(h, Create(NameOnNode(o.uid, o.spec), ConvertToVGCreateOptions(o.spec, pvs)))
       <==> Makeable(o.spec, h)
  {
    NoneDesired(pvs);
  }

  lemma CreatedAsTold(o: Object, pvs: seq<string>, h: Host)
    requires Elements(pvs) <= h.sizes.Keys
    ensures MadeFrom(o.spec, Elements(pvs), Created(h, ConvertToVGCreateOptions(o.spec, pvs)))
  {
    assert Created(h, ConvertToVGCreateOptions(o.spec, pvs)).pvs.Keys == Elements(pvs);
  }

  lemma CreateIsIssued(node: string, key: string, now: int, o: Object, pvs: seq<string>,
                       m0: Moment, m: Moment, err: Option<Error>, m': Moment)
    requires o.spec.nodeName == node && o.deletion.None? && IssuedAll(node, key, now, o, m0, m)
    requires Stepped(m, Lvm(Create(NameOnNode(o.uid, o.spec), ConvertToVGCreateOptions(o.spec, pvs))), err, m')
    requires Choice(o.spec, m.world) == Some(Elements(pvs))
    ensures IssuedAll(node, key, now, o, m0, m')
  {
    IssuedOne(node, key, now, o, m,
        Lvm(Create(NameOnNode(o.uid, o.spec), ConvertToVGCreateOptions(o.spec, pvs))), err, m');
    IssuedMore(node, key, now, o, m0, m, m');
  }

  lemma CreateMakes(o: Object, pvs: seq<string>, m: Moment, err: Option<Error>, m': Moment)
    requires Stepped(m, Lvm(Create(NameOnNode(o.uid, o.spec), ConvertToVGCreateOptions(o.spec, pvs))), err, m')
    requires Elements(pvs) == Desired(o.spec, m.world.host) && Choice(o.spec, m.world) == Some(Elements(pvs))
    ensures err.None? ==> MadeAsChosen(o.spec, NameOnNode(o.uid, o.spec), m')
    ensures err.None? && Quiet(m, m') ==> MadeAsDesired(o.spec, m'.world.host, Group(m', NameOnNode(o.uid, o.spec)))
    ensures Undisturbed(m) && !Exists(m, NameOnNode(o.uid, o.spec)) ==> (err.None? <==> Makeable(o.spec, m.world.host))
  {
    if !Exists(m, NameOnNode(o.uid, o.spec)) {
      MakeableIffEnabled(o, pvs, m.world.host);
    }
    if err.None? {
      CreatedAsTold(o, pvs, SeenHost(m, m'));
    }
  }

  /** The API server has not been asked to change anything. */
  predicate OnlyLvm(m: Moment, m': Moment) {
    forall e | e in Since(m, m') :: !e.action.Update? && !e.action.UpdateStatus?
  }

  /** The group cannot be removed: it is in use or lacks volumes, and the grace period has not passed. */
  predicate Stuck(o: Object, now: int, h: Host) {
    var name := NameOnNode(o.uid, o.spec);
    && name in h.vgs
    && o.deletion.Some? && now <= o.deletion.value.timestamp + o.deletion.value.gracePeriodSeconds
    && (h.vgs[name].place != map[] || h.Missing(name) != {})
  }

  /** Until the grace period is over a group in use is not removed. */
  lemma WithinGraceTheGroupStays(node: string, key: string, now: int, o: Object, e: Event, name: string)
    requires Issued(node, key, now, o, e) && Happened(e) && e.action.Lvm? && o.deletion.Some?
    requires now <= o.deletion.value.timestamp + o.deletion.value.gracePeriodSeconds
    requires name in e.before.host.vgs && e.before.host.vgs[name].place != map[]
    ensures name in e.after.host.vgs && e.after.host.vgs[name] == e.before.host.vgs[name]
  {
  }

  lemma RemovalIsIssued(node: string, key: string, now: int, o: Object, force: bool, m: Moment, err: Option<Error>,
                        m': Moment)
    requires o.spec.nodeName == node && o.deletion.Some?
    requires force <==> now > o.deletion.value.timestamp + o.deletion.value.gracePeriodSeconds
    requires Stepped(m, Lvm(Remove(NameOnNode(o.uid, o.spec), force)), err, m')
    ensures IssuedAll(node, key, now, o, m, m')
    ensures err.None? || err == Some(NotFound) ==> !Exists(m', NameOnNode(o.uid, o.spec))
    ensures err.Some? ==> LastFailed(m')
    ensures OnlyLvm(m, m')
    ensures Undisturbed(m) ==>
              && (Exists(m', NameOnNode(o.uid, o.spec)) <==> Stuck(o, now, m.world.host))
              && (err.None? || err == Some(NotFound) <==> !Exists(m', NameOnNode(o.uid, o.spec)))
  {
    StepContinues(m, Lvm(Remove(NameOnNode(o.uid, o.spec), force)), err, m');
    IssuedOne(node, key, now, o, m, Lvm(Remove(NameOnNode(o.uid, o.spec), force)), err, m');
  }

  lemma ReleaseIsIssued(node: string, key: string, now: int, o: Object, m0: Moment, m: Moment, err: Option<Error>,
                        m': Moment)
    requires o.spec.nodeName == node && o.deletion.Some? && VOLUME_GROUP_FINALIZER in o.finalizers
    requires IssuedAll(node, key, now, o, m0, m) && !Exists(m, NameOnNode(o.uid, o.spec))
    requires Stepped(m, Update(key, o.(finalizers := RemoveFinalizer(o.finalizers))), err, m')
    ensures IssuedAll(node, key, now, o, m0, m') && !Exists(m', NameOnNode(o.uid, o.spec))
    ensures if err.None? then !Claims(m'.world.store, key) else LastFailed(m')
    ensures !OnlyLvm(m0, m')
  {
    FinalizerRemoved(o.finalizers);
    IssuedOne(node, key, now, o, m, Update(key, o.(finalizers := RemoveFinalizer(o.finalizers))), err, m');
    IssuedMore(node, key, now, o, m0, m, m');
    StepContinues(m, Update(key, o.(finalizers := RemoveFinalizer(o.finalizers))), err, m');
    ContinuesTransitive(m0, m, m');
    assert m'.events[|m.events|] in Since(m0, m');
  }

  lemma ClaimIsIssued(node: string, key: string, now: int, o: Object, m0: Moment, m: Moment, err: Option<Error>,
                      m': Moment)
    requires o.spec.nodeName == node && o.deletion.None? && VOLUME_GROUP_FINALIZER !in o.finalizers
    requires IssuedAll(node, key, now, o, m0, m) && Exists(m, NameOnNode(o.uid, o.spec)) && Rests(o, m0, m)
    requires Stepped(m, Update(key, o.(finalizers := o.finalizers + [VOLUME_GROUP_FINALIZER])), err, m')
    ensures IssuedAll(node, key, now, o, m0, m') && Rests(o, m0, m')
    ensures if err.None? then Claims(m'.world.store, key) else LastFailed(m')
    ensures Exists(m', NameOnNode(o.uid, o.spec))
  {
    IssuedOne(node, key, now, o, m, Update(key, o.(finalizers := o.finalizers + [VOLUME_GROUP_FINALIZER])), err, m');
    IssuedMore(node, key, now, o, m0, m, m');
    StoringRests(o, m0, m, Update(key, o.(finalizers := o.finalizers + [VOLUME_GROUP_FINALIZER])), err, m');
  }

  /** Calls to the API server do not disturb the host. */
  lemma StoringRests(o: Object, m0: Moment, m: Moment, a: Action, err: Option<Error>, m': Moment)
    requires Continues(m0, m) && Rests(o, m0, m) && Stepped(m, a, err, m') && (a.Update? || a.UpdateStatus?)
    ensures Rests(o, m0, m')
  {
    StepContinues(m, a, err, m');
    ContinuesTransitive(m0, m, m');
  }

  lemma ReportIsIssued(node: string, key: string, now: int, o: Object, obj: Object,
                       m0: Moment, m: Moment, err: Option<Error>, m': Moment)
    requires o.spec.nodeName == node && o.deletion.None? && obj.uid == o.uid && obj.version == o.version
    requires IssuedAll(node, key, now, o, m0, m) && Rests(o, m0, m)
    requires Stepped(m, UpdateStatus(key, obj), err, m') && Earned(o, obj.conditions, m.world)
    ensures IssuedAll(node, key, now, o, m0, m') && Rests(o, m0, m')
    ensures LastFailed(m') <==> err.Some?
  {
    IssuedOne(node, key, now, o, m, UpdateStatus(key, obj), err, m');
    IssuedMore(node, key, now, o, m0, m, m');
    StoringRests(o, m0, m, UpdateStatus(key, obj), err, m');
  }

  // ---- quiescence and soundness of a whole reconcile ----

  /** A group that is as desired, on a host where nothing happens, is left exactly as it is. */
  ghost predicate Rests(o: Object, m: Moment, m': Moment) {
    var name := NameOnNode(o.uid, o.spec);
    Exists(m, name) && Settled(o.spec, m.world.host, Group(m, name)) && Quiet(m, m') ==>
      OnlyQueries(m, m') && Exists(m', name) && Group(m', name) == Group(m, name)
  }

  lemma WatchedRests(o: Object, m: Moment, m': Moment)
    requires Exists(m, NameOnNode(o.uid, o.spec)) ==> Watched(NameOnNode(o.uid, o.spec), m, m')
    ensures Rests(o, m, m')
  {
  }

  lemma SyncedIsIssued(node: string, key: string, now: int, o: Object, t: Task, ok: bool, m: Moment, m': Moment)
    requires SyncDone(t, ok, m, m') && t.spec == o.spec && t.name == NameOnNode(o.uid, o.spec)
    requires Reflects(t.lvm, Group(m, t.name))
    requires o.spec.nodeName == node && o.deletion.None? && VOLUME_GROUP_FINALIZER in o.finalizers
    ensures IssuedAll(node, key, now, o, m, m') && Rests(o, m, m')
  {
    SyncIsIssued(node, key, now, o, t, m, m');
  }

  ghost predicate StatusShows(status: Status, lvm: Snapshot, g: VolumeGroup) {
    && Elements(status.pvs) == g.pvs.Keys && Moving.Distinct(status.pvs)
    && status.name == lvm.name && status.tags == Elements(lvm.tags)
    && status.maxPV == lvm.maxPV && status.maxLV == lvm.maxLV
  }

  /** The last call was a successful status update that was based on `o`. */
  ghost predicate StatusUpdated(o: Object, key: string, m: Moment, m': Moment) {
    && |m'.events| > |m.events|
    && var e := m'.events[|m'.events| - 1];
       && e.action.UpdateStatus? && e.action.key == key && e.error.None? && e.after == m'.world
       && e.action.obj.uid == o.uid && e.action.obj.version == o.version
  }

  /** The resource as it was read is what is stored in the end, with the new conditions and status. */
  ghost predicate Unchanged(o: Object, stored: Object) {
    stored == o.(conditions := stored.conditions, status := stored.status, version := o.version + 1)
  }

  /** Then what is stored now is what was read, but for conditions and status: nobody has edited it since. */
  lemma NothingOverwritten(o: Object, key: string, m: Moment, m': Moment)
    requires Continues(m, m') && key in m.world.store && m.world.store[key] == o && m.world.StoreValid()
    requires StatusUpdated(o, key, m, m')
    ensures key in m'.world.store
    ensures Unchanged(o, m'.world.store[key])
  {
    var events := Since(m, m');
    var last := events[|events| - 1];
    assert last == m'.events[|m'.events| - 1];
    ChainTells(events[..|events| - 1], m.world, last.before, key, o);
    HappenedTells(last, key, o);
  }

  /**
   * What a reconcile that reports success has reached and stored. The status shows the new physical volumes
   * but the tags and limits from before the synchronisation.
   */
  ghost predicate Reported(o: Object, key: string, m: Moment, m': Moment) {
    var name := NameOnNode(o.uid, o.spec);
    && Exists(m, name) && Exists(m', name) && key in m'.world.store
    && var g, g', stored := Group(m, name), Group(m', name), m'.world.store[key];
       && Synced(o, m'.world)
       && (Quiet(m, m') ==> Settled(o.spec, m'.world.host, g'))
       && StatusUpdated(o, key, m, m')
       && ConditionSet(o.conditions, stored.conditions, o.generation, true)
       && Elements(stored.status.pvs) == g'.pvs.Keys && Moving.Distinct(stored.status.pvs)
       && stored.status.name == name && stored.status.tags == g.tags
       && stored.status.maxPV == g.maxPV && stored.status.maxLV == g.maxLV
  }

  /** What is left of a synchronisation that began at `m0` when its outcome is to be stored. */
  ghost predicate ToBeStored(o: Object, t: Task, ok: bool, m0: Moment, m: Moment) {
    && t.spec == o.spec && t.name == NameOnNode(o.uid, o.spec) == t.lvm.name
    && Exists(m0, t.name) && Exists(m, t.name) && Reflects(t.lvm, Group(m0, t.name))
    && (ok ==> Synced(o, m.world))
    && (ok && Quiet(m0, m) ==> Settled(o.spec, m.world.host, Group(m, t.name)))
    && m.disruptions <= m0.disruptions && |m0.events| <= |m.events|
  }

  /** And all that holds so far, `conditions` being what is to be stored. */
  ghost predicate Storable(node: string, key: string, now: int, o: Object, t: Task, ok: bool,
                           conditions: seq<Condition>, m0: Moment, m: Moment) {
    && ToBeStored(o, t, ok, m0, m) && Earned(o, conditions, m.world)
    && IssuedAll(node, key, now, o, m0, m) && Rests(o, m0, m)
    && ConditionSet(o.conditions, conditions, o.generation, ok)
  }

  lemma SyncedIsStorable(node: string, key: string, now: int, o: Object, t: Task, ok: bool,
                         conditions: seq<Condition>, m0: Moment, m: Moment)
    requires t.spec == o.spec && t.name == NameOnNode(o.uid, o.spec) == t.lvm.name
    requires o.spec.nodeName == node && o.deletion.None? && VOLUME_GROUP_FINALIZER in o.finalizers
    requires SyncDone(t, ok, m0, m) && Reflects(t.lvm, Group(m0, t.name))
    requires ConditionSet(o.conditions, conditions, o.generation, ok)
    ensures Storable(node, key, now, o, t, ok, conditions, m0, m) && Near(t, Group(m, t.name))
  {
    SyncedIsIssued(node, key, now, o, t, ok, m0, m);
  }

  lemma ListedIsStorable(node: string, key: string, now: int, o: Object, t: Task, ok: bool,
                         conditions: seq<Condition>, m0: Moment, m: Moment, m': Moment)
    requires o.spec.nodeName == node && o.deletion.None? && VOLUME_GROUP_FINALIZER in o.finalizers
    requires Storable(node, key, now, o, t, ok, conditions, m0, m) && QueriesOnly(t, m, m') && SameScan(m, m')
    ensures Storable(node, key, now, o, t, ok, conditions, m0, m')
  {
    SyncIsIssued(node, key, now, o, t, m, m');
    IssuedMore(node, key, now, o, m0, m, m');
    ContinuesTransitive(m0, m, m');
    if Quiet(m0, m') {
      QueriesKeepHost(t, m, m');
    }
  }

  lemma ReportStored(o: Object, t: Task, key: string, obj: Object, m0: Moment, m: Moment, m': Moment)
    requires ToBeStored(o, t, true, m0, m)
    requires Stepped(m, UpdateStatus(key, obj), None, m') && obj.uid == o.uid && obj.version == o.version
    requires StatusShows(obj.status, t.lvm, Group(m, t.name))
    requires ConditionSet(o.conditions, obj.conditions, o.generation, true)
    ensures Reported(o, key, m0, m')
  {
  }

  /** A whole reconcile that reports success: it read `o`, and what is stored is `o` with its new status. */
  ghost predicate Succeeded(node: string, key: string, now: int, o: Object, m: Moment, m': Moment) {
    && Continues(m, m') && Reconciling(node, key, now, Since(m, m')) && Fetched(key, Since(m, m')) == Some(o)
    && o.spec.nodeName == node && o.deletion.None? && VOLUME_GROUP_FINALIZER in o.finalizers
    && Reported(o, key, m, m') && Unchanged(o, m'.world.store[key])
  }

  lemma AfterDiscovery(node: string, key: string, now: int, o: Object, reported: bool, m0: Moment, m: Moment,
                       m': Moment)
    requires IssuedAll(node, key, now, o, m0, m) && IssuedAll(node, key, now, o, m, m')
    requires Watched(NameOnNode(o.uid, o.spec), m0, m)
    requires Rests(o, m, m') && (reported ==> Reported(o, key, m, m')) && CalmReport(o, reported, m, m')
    ensures IssuedAll(node, key, now, o, m0, m') && CalmReport(o, reported, m0, m')
    ensures Rests(o, m0, m') && (reported ==> Reported(o, key, m0, m'))
  {
    IssuedMore(node, key, now, o, m0, m, m');
    ContinuesTransitive(m0, m, m');
    WatchedCalmReport(o, reported, m0, m, m');
  }

  /**
   * On an undisturbed host a group with no volume missing is reported as synchronised exactly if the specification
   * can be attained and the status update meets no conflict.
   */
  ghost predicate CalmReport(o: Object, reported: bool, m: Moment, m': Moment) {
    var name := NameOnNode(o.uid, o.spec);
    Calm(m, name) && Exists(m, name) ==>
      (reported <==> AttainsNow(o.spec, m.world.host, Group(m, name)) && !LastFailed(m'))
  }

  /** With a snapshot taken now. */
  ghost predicate AttainsNow(spec: Spec, h: Host, g: VolumeGroup) {
    Attains(spec, g.maxPV, g.maxLV, h, g)
  }

  /** Calm is not disturbed by looking. */
  lemma WatchedCalmReport(o: Object, reported: bool, m0: Moment, m: Moment, m': Moment)
    requires Watched(NameOnNode(o.uid, o.spec), m0, m) && m.reliable == m0.reliable
    requires CalmReport(o, reported, m, m')
    ensures CalmReport(o, reported, m0, m')
  {
  }

  /** The read that begins every reconcile. */
  lemma GetRests(o: Object, key: string, m: Moment, m': Moment)
    requires Stepped(m, Get(key), None, m')
    ensures Continues(m, m') && Rests(o, m, m')
    ensures m'.world.host.vgs == m.world.host.vgs && OnlyQueries(m, m')
    ensures Quiet(m, m') ==> m'.world.host == m.world.host
    ensures Undisturbed(m) ==> Undisturbed(m') && m'.world.host == m.world.host
    ensures m'.reliable == m.reliable
    ensures Exists(m, NameOnNode(o.uid, o.spec)) ==> Watched(NameOnNode(o.uid, o.spec), m, m')
    ensures key in m'.world.store
  {
    StepContinues(m, Get(key), None, m');
  }

  lemma ReadObject(key: string, m: Moment, m': Moment)
    requires Stepped(m, Get(key), None, m')
    ensures key in m'.world.store
  {
  }

  lemma AfterRead(o: Object, key: string, reported: bool, m0: Moment, m: Moment, m': Moment)
    requires Stepped(m0, Get(key), None, m) && Continues(m, m') && m.world.StoreValid() && m.world.store[key] == o
    requires Rests(o, m, m') && (reported ==> Reported(o, key, m, m'))
    ensures Rests(o, m0, m')
    ensures reported ==> Reported(o, key, m0, m') && Unchanged(o, m'.world.store[key])
  {
    GetRests(o, key, m0, m);
    ContinuesTransitive(m0, m, m');
    if reported {
      NothingOverwritten(o, key, m, m');
    }
  }

  lemma OnlyRead(node: string, key: string, now: int, o: Object, m: Moment, m': Moment)
    requires Stepped(m, Get(key), None, m') && key in m'.world.store && m'.world.store[key] == o
    ensures Continues(m, m') && Reconciling(node, key, now, Since(m, m')) && Fetched(key, Since(m, m')) == Some(o)
  {
    StepContinues(m, Get(key), None, m');
  }

  lemma NothingFetched(node: string, key: string, now: int, m: Moment, err: Option<Error>, m': Moment)
    requires Stepped(m, Get(key), err, m') && err.Some?
    ensures Continues(m, m') && Reconciling(node, key, now, Since(m, m')) && Fetched(key, Since(m, m')).None?
    ensures |Since(m, m')| == 1 && Since(m, m')[0].error == err
  {
    StepContinues(m, Get(key), err, m');
  }

  // ---- crashes ----

  /** A reconcile of `o` that is not disturbed from here on crashes. */
  ghost predicate Crashing(o: Object, m: Moment) {
    if Exists(m, NameOnNode(o.uid, o.spec)) then
      VOLUME_GROUP_FINALIZER in o.finalizers && SelectorPanics(o.spec, m.world.host)
    else
      || SelectorPanics(o.spec, m.world.host)
      || (VOLUME_GROUP_FINALIZER in o.finalizers && Creatable(o.spec, m.world.host))
  }

  lemma CreatableIsNoPanic(spec: Spec, h: Host)
    ensures Creatable(spec, h) ==> !SelectorPanics(spec, h)
  {
    Selector.AbortsIffFault(spec.selector, Flatten(h.forest));
  }
}
