/** What one synchronisation of a volume group may do and what it is meant to reach. */
module SyncSpec {
  import opened Wrappers
  import opened Utils
  import opened Lsblk
  import opened Lvm
  import opened Api
  import opened World
  import Moving
  import Selector
  import SnakeCase

  /** The `lvm2go.VolumeGroup` read before a synchronisation and never refreshed during it. */
  datatype Snapshot = Snapshot(
    name: string, tags: seq<string>, maxPV: int, maxLV: int, policy: string, autoActivation: bool)

  ghost predicate Reflects(lvm: Snapshot, g: VolumeGroup) {
    && Elements(lvm.tags) == g.tags
    && lvm.maxPV == g.maxPV && lvm.maxLV == g.maxLV
    && lvm.policy == g.policy && lvm.autoActivation == g.autoActivation
  }

  /** What one synchronisation works on. */
  datatype Task = Task(spec: Spec, name: string, lvm: Snapshot)

  /** The value is not looked at: any explicit setting turns automatic activation off. */
  function ConvertToAutoActivation(autoActivation: Option<bool>): bool {
    autoActivation.None?
  }

  /** Nothing will interfere any more, and what is possible succeeds. */
  predicate Undisturbed(m: Moment) {
    m.reliable && m.disruptions == 0
  }

  /** Evaluating the selector on the devices of this host ends in a panic. */
  predicate SelectorPanics(spec: Spec, h: Host) {
    Selector.FirstFault(spec.selector, Flatten(h.forest)) == Some(Selector.Panic)
  }

  predicate SelectorAborts(spec: Spec, h: Host) {
    Selector.Aborts(spec.selector, Flatten(h.forest))
  }

  // ---- the goal ----

  function Desired(spec: Spec, h: Host): set<string> {
    Selector.Paths(spec.selector, Flatten(h.forest))
  }

  ghost predicate TagsAgree(spec: Spec, g: VolumeGroup) {
    g.tags == Elements(spec.tags)
  }

  ghost predicate LimitsAgree(spec: Spec, g: VolumeGroup) {
    && (spec.maxPV.Some? ==> g.maxPV == spec.maxPV.value)
    && (spec.maxLV.Some? ==> g.maxLV == spec.maxLV.value)
  }

  ghost predicate PolicyAgrees(spec: Spec, g: VolumeGroup) {
    spec.policy.Some? ==> g.policy == SnakeCase.ToSnakeCase(spec.policy.value)
  }

  ghost predicate AutoActivationAgrees(spec: Spec, g: VolumeGroup) {
    spec.autoActivation.Some? ==> g.autoActivation == ConvertToAutoActivation(spec.autoActivation)
  }

  /** Everything the specification sets apart from the physical volumes. */
  ghost predicate PropertiesAgree(spec: Spec, g: VolumeGroup) {
    TagsAgree(spec, g) && LimitsAgree(spec, g) && PolicyAgrees(spec, g) && AutoActivationAgrees(spec, g)
  }

  ghost predicate Settled(spec: Spec, h: Host, g: VolumeGroup) {
    PropertiesAgree(spec, g) && g.pvs.Keys == Desired(spec, h)
  }

  // ---- in between ----

  /** `x` is on the way from `a` to `b`: nothing of `a` is given up until all of `b` is there. */
  ghost predicate Between(a: set<string>, b: set<string>, x: set<string>) {
    a * b <= x <= a + b && (a <= x || b <= x)
  }

  /** Each property is still as in the snapshot or already as desired; tags are in between. */
  ghost predicate Near(t: Task, g: VolumeGroup) {
    && Between(Elements(t.lvm.tags), Elements(t.spec.tags), g.tags)
    && (g.maxPV == t.lvm.maxPV || t.spec.maxPV == Some(g.maxPV))
    && (g.maxLV == t.lvm.maxLV || t.spec.maxLV == Some(g.maxLV))
    && (g.policy == t.lvm.policy || (t.spec.policy.Some? && PolicyAgrees(t.spec, g)))
    && (g.autoActivation == t.lvm.autoActivation || (t.spec.autoActivation.Some? && AutoActivationAgrees(t.spec, g)))
  }

  // ---- which calls a synchronisation makes ----

  /** The devices that the reconcile in progress has found to be selected; without a selector none are. */
  function Choice(spec: Spec, w: State): Option<set<string>> {
    if spec.selector == [] then Some({})
    else if w.scan.None? then None
    else Some(Selector.Paths(spec.selector, Flatten(w.scan.value)))
  }

  /** What evaluating the selector on these devices fails with, if it does. */
  function ScanFault(spec: Spec, w: State): Option<Selector.SelectError> {
    if spec.selector == [] || w.scan.None? then None
    else Selector.FirstFault(spec.selector, Flatten(w.scan.value))
  }

  /** The selector panics on the devices that lsblk has reported, and that is what the node has. */
  predicate PanicSeen(spec: Spec, w: State) {
    ScanFault(spec, w) == Some(Selector.Panic) && SelectorPanics(spec, w.host)
  }

  /**
   * Only what the specification asks for, addressed to the group of that name, forced only if told to. Only
   * selected devices are taken in; others are moved from and removed once all selected ones are there.
   */
  ghost predicate Permitted(spec: Spec, name: string, e: Event) {
    match e.action
    case RunLsblk(columns) => spec.selector != [] && Selector.IsRequest(spec.selector, columns)
    case Lvm(c) =>
      && c.vg == name && name in e.seen.host.vgs
      && CommandPermitted(spec, Choice(spec, e.seen), e.seen.host.vgs[name], c)
    case _ => false
  }

  ghost predicate Replaceable(ps: set<string>, choice: Option<set<string>>, g: VolumeGroup) {
    choice.Some? && choice.value <= g.pvs.Keys && ps <= g.pvs.Keys && ps !! choice.value
  }

  ghost predicate CommandPermitted(spec: Spec, choice: Option<set<string>>, g: VolumeGroup, c: Command) {
    match c
    case PVS(_) => true
    case AddTags(_, tags) => Elements(tags) <= Elements(spec.tags)
    case DelTags(_, tags) => Elements(tags) !! Elements(spec.tags) && Elements(spec.tags) <= g.tags
    case Extend(_, ps) => choice.Some? && Elements(ps) <= choice.value && Elements(ps) !! g.pvs.Keys
    case Move(_, source, targets) =>
      && spec.deviceRemoval.MoveAndReduce?
      && Replaceable({source}, choice, g) && Elements(targets) == choice.value
    case Reduce(_, ps, force) =>
      && Replaceable(Elements(ps), choice, g)
      && (force <==> spec.deviceRemoval.ForceReduce?)
      && (spec.deviceRemoval.MoveAndReduce? && Elements(ps) != g.pvs.Keys ==> g.On(Elements(ps)) == {})
    case RemoveMissing(_, force) =>
      !spec.deviceLoss.FailOnLoss? && (force <==> spec.deviceLoss.ForceRemoveMissing?)
    case SetMaxPV(_, limit) => spec.maxPV == Some(limit)
    case SetMaxLV(_, limit) => spec.maxLV == Some(limit)
    case SetPolicy(_, policy) => spec.policy.Some? && policy == SnakeCase.ToSnakeCase(spec.policy.value)
    case SetAutoActivation(_, on) => spec.autoActivation.Some? && on == ConvertToAutoActivation(spec.autoActivation)
    case _ => false
  }

  /** A permitted call after which the group is still near both the snapshot and the goal. */
  ghost predicate SyncEvent(t: Task, e: Event) {
    Permitted(t.spec, t.name, e) && t.name in e.after.host.vgs && Near(t, e.after.host.vgs[t.name])
  }

  predicate Mutating(a: Action) {
    a.Lvm? && !Query(a.command)
  }

  // ---- stretches of a synchronisation ----

  ghost predicate Quiet(m: Moment, m': Moment) {
    m'.disruptions == m.disruptions
  }

  predicate Exists(m: Moment, name: string) {
    name in m.world.host.vgs
  }

  function Group(m: Moment, name: string): VolumeGroup
    requires Exists(m, name)
  {
    m.world.host.vgs[name]
  }

  /** Only permitted calls were made, and only the group of that name changed. */
  ghost predicate Ran(t: Task, m: Moment, m': Moment) {
    && Continues(m, m')
    && Exists(m, t.name) && Exists(m', t.name)
    && m'.world.host.vgs == m.world.host.vgs[t.name := Group(m', t.name)]
    && (Quiet(m, m') ==> m'.world.host == m.world.host.(vgs := m'.world.host.vgs))
    && (forall e | e in Since(m, m') :: SyncEvent(t, e))
  }

  lemma RanNothing(t: Task, m: Moment)
    requires Exists(m, t.name)
    ensures Ran(t, m, m)
  {
    assert m.events[..|m.events|] == m.events;
    assert m.world.host == m.world.host.(vgs := m.world.host.vgs);
  }

  lemma RanTransitive(t: Task, a: Moment, b: Moment, c: Moment)
    requires Ran(t, a, b) && Ran(t, b, c)
    ensures Ran(t, a, c)
    ensures Since(a, c) == Since(a, b) + Since(b, c)
  {
    ContinuesTransitive(a, b, c);
  }

  ghost predicate OnGroup(c: Command) {
    !c.Create? && !c.Remove? && !c.Rename?
  }

  function SeenHost(m: Moment, m': Moment): Host
    requires |m'.events| == |m.events| + 1
  {
    m'.events[|m.events|].seen.host
  }

  /** What one lvm2 call means for the group it addresses. */
  ghost predicate GroupStep(m: Moment, c: Command, err: Option<Error>, m': Moment) {
    && |m'.events| == |m.events| + 1 && Exists(m, c.vg) && Exists(m', c.vg)
    && var h, g, g' := SeenHost(m, m'), Group(m, c.vg), Group(m', c.vg);
       && h.vgs == m.world.host.vgs
       && m'.world.host == h.(vgs := h.vgs[c.vg := g'])
       && (err.None? ==> Enabled(h, c) && GroupEffect(h, g, c, g'))
       && (err.Some? ==> || g' == g
                         || (Enabled(h, c) && GroupEffect(h, g, c, g'))
                         || (c.Move? && PartlyMoved(g, c.source, Destinations(g, c.source, c.targets), g')))
       && (err == Some(MissingPVs) ==> !Query(c) && h.Missing(c.vg) != {})
  }

  lemma StepOnGroup(m: Moment, c: Command, err: Option<Error>, m': Moment)
    requires Stepped(m, Lvm(c), err, m') && Exists(m, c.vg) && OnGroup(c)
    ensures GroupStep(m, c, err, m')
  {
    var e := m'.events[|m.events|];
    assert e.seen.host.vgs == m.world.host.vgs;
    if e.after == e.seen {
      assert e.seen.host.vgs[c.vg := e.seen.host.vgs[c.vg]] == e.seen.host.vgs;
      assert m'.world.host == e.seen.host;
    }
  }

  /** Nothing will change by itself any more and lvm2 does what it can. */
  ghost predicate Calm(m: Moment, name: string) {
    m.reliable && m.disruptions == 0 && m.world.host.Missing(name) == {}
  }

  /** A call on the group, as seen by the code that made it. */
  ghost predicate Called(m: Moment, c: Command, err: Option<Error>, m': Moment) {
    && GroupStep(m, c, err, m')
    && Continues(m, m') && Since(m, m') == [m'.events[|m.events|]]
    && m'.events[|m.events|].action == Lvm(c) && m'.events[|m.events|].error == err
    && m'.events[|m.events|].after == m'.world
    && m'.events[|m.events|].seen.scan == m.world.scan == m'.world.scan
    && (Quiet(m, m') ==> SeenHost(m, m') == m.world.host)
    && (Undisturbed(m) ==>
          && Quiet(m, m') && Undisturbed(m')
          && (if Enabled(m.world.host, c) then err.None? else err.Some? && m'.world.host == m.world.host)
          && (!Enabled(m.world.host, c) && !Query(c) && m.world.host.Missing(c.vg) != {} ==> err == Some(MissingPVs)))
  }

  /** Nothing will interfere, but volumes of the group are missing. */
  ghost predicate Lossy(m: Moment, name: string) {
    Undisturbed(m) && Exists(m, name) && m.world.host.Missing(name) != {}
  }

  /** While volumes are missing lvm2 changes nothing; `answered` is what the code has made of it. */
  ghost predicate Stalled(name: string, answered: bool, m: Moment, m': Moment) {
    Lossy(m, name) ==> Undisturbed(m') && m'.world.host == m.world.host && answered
  }

  lemma StalledOn(name: string, answered: bool, m0: Moment, m: Moment, m': Moment)
    requires Stalled(name, true, m0, m) && Stalled(name, answered, m, m')
    ensures Stalled(name, answered, m0, m')
  {
  }

  lemma StalledTogether(name: string, a: bool, b: bool, both: bool, m0: Moment, m: Moment, m': Moment)
    requires Stalled(name, a, m0, m) && Stalled(name, b, m, m')
    requires Lossy(m0, name) && m.world.host == m0.world.host && a && b ==> both
    ensures Stalled(name, both, m0, m')
  {
  }

  lemma CallStalls(name: string, m: Moment, c: Command, err: Option<Error>, m': Moment)
    requires Called(m, c, err, m') && c.vg == name && OnGroup(c) && !c.RemoveMissing?
    ensures Stalled(name, if Query(c) then err.None? else err == Some(MissingPVs), m, m')
  {
    if Query(c) {
      QueriesEnabled(m, c);
      var vgs := m.world.host.vgs;
      assert vgs[name := vgs[name]] == vgs;
    }
  }

  lemma QueriesEnabled(m: Moment, c: Command)
    requires Exists(m, c.vg) && Query(c)
    ensures Enabled(m.world.host, c)
  {
  }

  lemma StepIsCall(m: Moment, c: Command, err: Option<Error>, m': Moment)
    requires Stepped(m, Lvm(c), err, m') && Exists(m, c.vg) && OnGroup(c)
    ensures Called(m, c, err, m')
  {
    StepOnGroup(m, c, err, m');
    StepContinues(m, Lvm(c), err, m');
    if Undisturbed(m) && !Enabled(m.world.host, c) {
      var e := m'.events[|m.events|];
      assert e.seen.host == m.world.host;
    }
  }

  /** The command may be issued now. */
  ghost predicate Allowed(t: Task, m: Moment, c: Command)
    requires Exists(m, t.name)
  {
    CommandPermitted(t.spec, Choice(t.spec, m.world), Group(m, t.name), c)
  }

  lemma CallRan(t: Task, m: Moment, c: Command, err: Option<Error>, m': Moment)
    requires Called(m, c, err, m') && c.vg == t.name
    requires Allowed(t, m, c) && Near(t, Group(m', t.name))
    ensures Ran(t, m, m')
    ensures forall e | e in Since(m, m') :: e.action == Lvm(c)
  {
  }

  lemma LsblkRan(t: Task, m: Moment, columns: seq<string>, err: Option<Error>, m': Moment)
    requires Stepped(m, RunLsblk(columns), err, m') && Exists(m, t.name) && Near(t, Group(m, t.name))
    requires t.spec.selector != [] && Selector.IsRequest(t.spec.selector, columns)
    ensures Ran(t, m, m') && Group(m', t.name) == Group(m, t.name)
    ensures forall e | e in Since(m, m') :: e.action == RunLsblk(columns)
    ensures m.reliable ==> err.None?
  {
    StepContinues(m, RunLsblk(columns), err, m');
    assert m'.world.host.vgs == m.world.host.vgs;
    assert m.world.host.vgs[t.name := m.world.host.vgs[t.name]] == m.world.host.vgs;
  }

  // ---- the pairs of functions handed to SequentialTwoWaySync ----

  datatype Callbacks = TagCallbacks | PVCallbacks(desiredState: seq<string>)

  /** The set that a pair of callbacks keeps in step. */
  function View(cb: Callbacks, g: VolumeGroup): set<string> {
    if cb.TagCallbacks? then g.tags else g.pvs.Keys
  }

  /** A pair of callbacks changes nothing but its own part of the group. */
  ghost predicate Only(cb: Callbacks, g: VolumeGroup, g': VolumeGroup) {
    if cb.TagCallbacks? then g' == g.(tags := g'.tags) else g' == g.(pvs := g'.pvs, place := g'.place)
  }

  lemma OnlyStaysNear(cb: Callbacks, t: Task, g: VolumeGroup, g': VolumeGroup)
    requires Near(t, g) && Only(cb, g, g')
    requires cb.TagCallbacks? ==> Between(Elements(t.lvm.tags), Elements(t.spec.tags), g'.tags)
    ensures Near(t, g')
  {
  }

  /** A stretch of a synchronisation, with all that is kept along the way. */
  ghost predicate Progress(t: Task, m: Moment, m': Moment) {
    && Ran(t, m, m')
    && Near(t, Group(m', t.name))
    && (Quiet(m, m') ==> m'.world.host.Missing(t.name) == m.world.host.Missing(t.name))
    && (Calm(m, t.name) ==> Calm(m', t.name))
    && (forall e | e in Since(m, m') :: !Repairs(e.action))
  }

  /** lsblk has not been asked again. */
  predicate SameScan(m: Moment, m': Moment) {
    m'.world.scan == m.world.scan
  }

  /** No state in between. */
  predicate AtOnce(m: Moment, m': Moment) {
    forall e | e in Since(m, m') :: e.after == m'.world
  }

  /** What the callbacks keep in step has been on the way from `a` to `b` after every call. */
  ghost predicate AllBetween(cb: Callbacks, a: set<string>, b: set<string>, name: string, m: Moment, m': Moment) {
    forall e | e in Since(m, m') ::
      name in e.after.host.vgs && Between(a, b, View(cb, e.after.host.vgs[name]))
  }

  /** It has been within these bounds after every call. */
  ghost predicate AllWithin(cb: Callbacks, lo: set<string>, hi: set<string>, name: string, m: Moment, m': Moment) {
    forall e | e in Since(m, m') ::
      name in e.after.host.vgs && lo <= View(cb, e.after.host.vgs[name]) <= hi
  }

  lemma WithinAtOnce(cb: Callbacks, lo: set<string>, hi: set<string>, name: string, m: Moment, m': Moment)
    requires AtOnce(m, m') && Exists(m', name) && lo <= View(cb, Group(m', name)) <= hi
    ensures AllWithin(cb, lo, hi, name, m, m')
  {
  }

  lemma WithinThenWithin(cb: Callbacks, lo: set<string>, hi: set<string>, lo': set<string>, hi': set<string>,
                         name: string, a: Moment, b: Moment, c: Moment)
    requires AllWithin(cb, lo, hi, name, a, b) && AllWithin(cb, lo', hi', name, b, c)
    requires Since(a, c) == Since(a, b) + Since(b, c)
    requires lo' <= lo && hi <= hi'
    ensures AllWithin(cb, lo', hi', name, a, c)
  {
  }

  ghost predicate OnlyQueries(m: Moment, m': Moment) {
    forall e | e in Since(m, m') :: !Mutating(e.action)
  }

  /** A missing-volume error is justified: something was to be changed, and volumes were missing. */
  ghost predicate Blames(name: string, m: Moment, m': Moment) {
    !OnlyQueries(m, m') && (Quiet(m, m') ==> m.world.host.Missing(name) != {})
  }

  lemma NoProgress(t: Task, m: Moment)
    requires Exists(m, t.name) && Near(t, Group(m, t.name))
    ensures Progress(t, m, m)
  {
    RanNothing(t, m);
  }

  lemma ProgressTransitive(t: Task, a: Moment, b: Moment, c: Moment)
    requires Progress(t, a, b) && Progress(t, b, c)
    ensures Progress(t, a, c)
    ensures Since(a, c) == Since(a, b) + Since(b, c)
    ensures Blames(t.name, b, c) ==> Blames(t.name, a, c)
  {
    RanTransitive(t, a, b, c);
  }

  lemma CallProgress(t: Task, m: Moment, c: Command, err: Option<Error>, m': Moment)
    requires Called(m, c, err, m') && c.vg == t.name && !c.RemoveMissing?
    requires Allowed(t, m, c) && Near(t, Group(m', t.name))
    ensures Progress(t, m, m') && SameScan(m, m') && AtOnce(m, m')
    ensures err == Some(MissingPVs) ==> Blames(t.name, m, m')
    ensures forall e | e in Since(m, m') :: e.action == Lvm(c)
  {
    CallRan(t, m, c, err, m');
    MissingStays(t.name, m, c, err, m');
  }

  /** Only a repair changes which volumes of the group are missing. */
  lemma MissingStays(name: string, m: Moment, c: Command, err: Option<Error>, m': Moment)
    requires Called(m, c, err, m') && c.vg == name && !c.RemoveMissing?
    ensures Quiet(m, m') ==> m'.world.host.Missing(name) == m.world.host.Missing(name)
    ensures Calm(m, name) ==> Calm(m', name)
  {
    var h, g, g' := SeenHost(m, m'), Group(m, name), Group(m', name);
    if Quiet(m, m') && g' != g && Enabled(h, c) && GroupEffect(h, g, c, g') {
      OnlyShrinksOrExtends(h, g, c, g');
      if c.Extend? {
        assert g'.pvs.Keys * h.lost == {};
      } else if g.pvs.Keys * h.lost == {} {
        assert g'.pvs.Keys * h.lost == {};
      }
    }
  }

  function NewCommand(cb: Callbacks, name: string, diff: seq<string>): Command {
    if cb.TagCallbacks? then AddTags(name, diff) else Extend(name, diff)
  }

  /** The outcome of adding `diff`: nothing else changes, and on success all of it is there. */
  ghost predicate Added(cb: Callbacks, diff: set<string>, ok: bool, g: VolumeGroup, g': VolumeGroup) {
    && Only(cb, g, g') && g'.place == g.place
    && View(cb, g) <= View(cb, g') <= View(cb, g) + diff
    && (ok ==> View(cb, g') == View(cb, g) + diff)
  }

  /** When nothing interferes, adding succeeds exactly if devices and the limit in force allow it. */
  ghost predicate AddedCalmly(cb: Callbacks, diff: set<string>, ok: bool, h: Host, g: VolumeGroup, g': VolumeGroup) {
    if cb.TagCallbacks? then ok
    else
      && (ok <==> Usable(h, diff) && Within(|g.pvs.Keys + diff|, g.maxPV))
      && g'.pvs == if ok then g.pvs + Sized(diff, h.sizes) else g.pvs
  }

  lemma ExtendAdds(h: Host, g: VolumeGroup, diff: seq<string>, desired: seq<string>, g': VolumeGroup)
    requires GroupEnabled(h, g, Extend("", diff)) && g' == g.(pvs := g.pvs + Sized(Elements(diff), h.sizes))
    ensures Added(PVCallbacks(desired), Elements(diff), true, g, g')
  {
    assert Sized(Elements(diff), h.sizes).Keys == Elements(diff);
  }

  lemma NothingAdded(cb: Callbacks, diff: set<string>, g: VolumeGroup)
    ensures Added(cb, diff, false, g, g)
  {
  }

  lemma NewCommandAdds(cb: Callbacks, name: string, diff: seq<string>, err: Option<Error>, m: Moment, m': Moment)
    requires Called(m, NewCommand(cb, name, diff), err, m')
    ensures Added(cb, Elements(diff), err.None?, Group(m, name), Group(m', name))
    ensures Calm(m, name) ==>
              AddedCalmly(cb, Elements(diff), err.None?, m.world.host, Group(m, name), Group(m', name))
  {
    var h, g, g' := SeenHost(m, m'), Group(m, name), Group(m', name);
    if g' == g && err.Some? {
      NothingAdded(cb, Elements(diff), g);
    } else if cb.PVCallbacks? {
      ExtendAdds(h, g, diff, cb.desiredState, g');
    }
  }

  lemma NewCommandDone(cb: Callbacks, t: Task, diff: seq<string>, err: Option<Error>, m: Moment, m': Moment)
    requires Called(m, NewCommand(cb, t.name, diff), err, m') && Near(t, Group(m, t.name))
    requires Allowed(t, m, NewCommand(cb, t.name, diff))
    ensures Progress(t, m, m') && SameScan(m, m') && AtOnce(m, m')
    ensures Added(cb, Elements(diff), err.None?, Group(m, t.name), Group(m', t.name))
    ensures err == Some(MissingPVs) ==> Blames(t.name, m, m')
    ensures Calm(m, t.name) ==>
              AddedCalmly(cb, Elements(diff), err.None?, m.world.host, Group(m, t.name), Group(m', t.name))
  {
    NewCommandAdds(cb, t.name, diff, err, m, m');
    OnlyStaysNear(cb, t, Group(m, t.name), Group(m', t.name));
    CallProgress(t, m, NewCommand(cb, t.name, diff), err, m');
  }

  /** The outcome of removing `diff`: nothing else changes, and on success none of it is left. */
  ghost predicate Removed(cb: Callbacks, diff: set<string>, ok: bool, g: VolumeGroup, g': VolumeGroup) {
    && Only(cb, g, g') && g'.place.Keys <= g.place.Keys
    && View(cb, g) - diff <= View(cb, g') <= View(cb, g)
    && (ok ==> View(cb, g') == View(cb, g) - diff)
  }

  /** What the removal policy needs in order to take `gone` out and keep `desired`. */
  ghost predicate Removable(policy: DeviceRemovalPolicy, gone: set<string>, desired: set<string>, g: VolumeGroup) {
    && desired != {}
    && match policy
       case MoveAndReduce => g.Fits(gone, desired)
       case ForceReduce => true
       case _ => g.On(gone) == {}
  }

  /** The extents that a removal of `gone` leaves: all of them, unless it is forced. */
  function Left(spec: Spec, gone: set<string>, g: VolumeGroup): set<Extent> {
    if spec.deviceRemoval.ForceReduce? then set e | e in g.place && g.place[e] !in gone else g.place.Keys
  }

  function OldCommand(cb: Callbacks, spec: Spec, name: string, diff: seq<string>): Command {
    if cb.TagCallbacks? then DelTags(name, diff) else Command.Reduce(name, diff, spec.deviceRemoval.ForceReduce?)
  }

  lemma OldCommandRemoves(cb: Callbacks, spec: Spec, name: string, diff: seq<string>, err: Option<Error>, m: Moment,
                          m': Moment)
    requires Called(m, OldCommand(cb, spec, name, diff), err, m')
    ensures Removed(cb, Elements(diff), err.None?, Group(m, name), Group(m', name))
    ensures Calm(m, name) ==>
              && (cb.TagCallbacks? ==> err.None?)
              && (cb.PVCallbacks? ==>
                    (err.None? <==> Elements(diff) < Group(m, name).pvs.Keys
                                    && (spec.deviceRemoval.ForceReduce? || Group(m, name).On(Elements(diff)) == {})))
  {
    var h, g := SeenHost(m, m'), Group(m, name);
    if cb.PVCallbacks? {
      assert Without(g, Elements(diff)).pvs.Keys == g.pvs.Keys - Elements(diff);
    }
  }

  /** One pvmove: only extents on the source may have gone, and only to the destinations. */
  ghost predicate MoveCalled(source: string, targets: seq<string>, ok: bool, g: VolumeGroup, g': VolumeGroup) {
    && PartlyMoved(g, source, Destinations(g, source, targets), g')
    && (ok ==> Moved(g, source, Destinations(g, source, targets), g'))
  }

  lemma MoveCommandMoves(name: string, source: string, targets: seq<string>, err: Option<Error>, m: Moment, m': Moment)
    requires Called(m, Move(name, source, targets), err, m')
    requires Group(m, name).Valid()
    ensures MoveCalled(source, targets, err.None?, Group(m, name), Group(m', name))
    ensures err.None? ==> Group(m, name).Fits({source}, Destinations(Group(m, name), source, targets))
    ensures Calm(m, name) ==>
              if GroupEnabled(m.world.host, Group(m, name), Move(name, source, targets)) then err.None?
                 else err.Some? && Group(m', name) == Group(m, name)
  {
    var g, g' := Group(m, name), Group(m', name);
    if g' == g {
      assert g == g.(place := g.place);
    }
  }

  /** The groups met, from `g` on, after each of these calls. */
  function Met(g: VolumeGroup, events: seq<Event>, name: string): (gs: seq<VolumeGroup>)
    ensures |gs| == |events| + 1 && gs[0] == g
  {
    if events == [] then [g]
    else
      var last := events[|events| - 1];
      Met(g, events[..|events| - 1], name) + [if name in last.after.host.vgs then last.after.host.vgs[name] else g]
  }

  function MetBetween(name: string, m: Moment, m': Moment): seq<VolumeGroup>
    requires Exists(m, name)
  {
    Met(Group(m, name), Since(m, m'), name)
  }

  lemma MetNext(name: string, m0: Moment, m: Moment, m': Moment)
    requires Exists(m0, name) && Exists(m', name)
    requires |Since(m, m')| == 1 && AtOnce(m, m') && Since(m0, m') == Since(m0, m) + Since(m, m')
    ensures MetBetween(name, m0, m') == MetBetween(name, m0, m) + [Group(m', name)]
  {
    var events, last := Since(m0, m'), Since(m, m')[0];
    assert last in Since(m, m') && events[|events| - 1] == last;
    assert events[..|events| - 1] == Since(m0, m);
  }

  /** Extents are where they were or have gone from one of `names` to one of `desired`, and so no further. */
  ghost predicate OneHop(names: seq<string>, desired: seq<string>, g0: VolumeGroup, g: VolumeGroup)
    requires g.place.Keys == g0.place.Keys
  {
    forall e | e in g0.place :: g.place[e] == g0.place[e] || (g0.place[e] in names && g.place[e] in desired)
  }

  /** All that is desired is there, and it is what the selector has found. */
  ghost predicate Complete(t: Task, desired: seq<string>, m: Moment)
    requires Exists(m, t.name)
  {
    Choice(t.spec, m.world) == Some(Elements(desired)) && Elements(desired) <= Group(m, t.name).pvs.Keys
  }

  /** `names` are the volumes to be given up in favour of those desired. */
  ghost predicate Surplus(t: Task, names: seq<string>, desired: seq<string>, m: Moment) {
    && Exists(m, t.name) && Near(t, Group(m, t.name)) && Complete(t, desired, m)
    && Moving.Distinct(names) && Elements(names) == Group(m, t.name).pvs.Keys - Elements(desired)
  }

  ghost predicate Movable(t: Task, names: seq<string>, desired: seq<string>, m: Moment) {
    && t.spec.deviceRemoval.MoveAndReduce? && Surplus(t, names, desired, m)
    && forall p | p in Elements(desired) :: Moving.Bearable(Group(m, t.name), p)
  }

  /** The outcome of the move loop: only the placement changed, and on success the sources are empty. */
  ghost predicate MovedAll(names: seq<string>, desired: seq<string>, ok: bool, g: VolumeGroup, g': VolumeGroup) {
    && g' == g.(place := g'.place) && g'.place.Keys == g.place.Keys
    && (desired != [] ==> OneHop(names, desired, g, g'))
    && (ok && desired != [] ==> g'.On(Elements(names)) == {})
  }

  /** When nothing interferes, the loop gets through exactly if everything fits. */
  ghost predicate MovedAllCalmly(names: seq<string>, desired: seq<string>, ok: bool, g: VolumeGroup) {
    desired != [] ==> (ok <==> g.Fits(Elements(names), Elements(desired)))
  }

  /** Along the loop: nothing but the placement changes. */
  ghost predicate Shifting(t: Task, m0: Moment, m: Moment) {
    && Progress(t, m0, m) && SameScan(m0, m)
    && Group(m, t.name) == Group(m0, t.name).(place := Group(m, t.name).place)
    && Group(m, t.name).place.Keys == Group(m0, t.name).place.Keys
    && AllWithin(PVCallbacks([]), Group(m0, t.name).pvs.Keys, Group(m0, t.name).pvs.Keys, t.name, m0, m)
  }

  /** The first `i` moves have succeeded. */
  ghost predicate MoveLoop(t: Task, names: seq<string>, i: nat, desired: seq<string>, m0: Moment, m: Moment)
    requires i <= |names|
  {
    && Shifting(t, m0, m) && |Since(m0, m)| == i
    && MetBetween(t.name, m0, m)[i] == Group(m, t.name)
    && (desired != [] ==> Moving.MoveRun(MetBetween(t.name, m0, m), names, Elements(desired)))
  }

  lemma NoMovesYet(t: Task, names: seq<string>, desired: seq<string>, m: Moment)
    requires Exists(m, t.name) && Near(t, Group(m, t.name))
    ensures MoveLoop(t, names, 0, desired, m, m)
  {
    NoProgress(t, m);
    NoEvents(m);
  }

  lemma MoveAllowed(t: Task, names: seq<string>, i: nat, desired: seq<string>, m0: Moment, m: Moment)
    requires i < |names| && Movable(t, names, desired, m0) && Shifting(t, m0, m)
    ensures Allowed(t, m, Move(t.name, names[i], desired))
  {
    assert names[i] in Elements(names);
  }

  lemma MoveCallShifts(t: Task, names: seq<string>, i: nat, desired: seq<string>, m0: Moment, m: Moment,
                       err: Option<Error>, m': Moment)
    requires i < |names| && Movable(t, names, desired, m0) && Shifting(t, m0, m)
    requires Called(m, Move(t.name, names[i], desired), err, m') && Group(m, t.name).Valid()
    ensures Shifting(t, m, m') && |Since(m, m')| == 1 && AtOnce(m, m')
    ensures err == Some(MissingPVs) ==> Blames(t.name, m, m')
  {
    var ps := Group(m, t.name).pvs.Keys;
    MoveCommandMoves(t.name, names[i], desired, err, m, m');
    MoveAllowed(t, names, i, desired, m0, m);
    CallProgress(t, m, Move(t.name, names[i], desired), err, m');
    WithinAtOnce(PVCallbacks([]), ps, ps, t.name, m, m');
  }

  lemma ShiftingOn(t: Task, m0: Moment, m: Moment, m': Moment)
    requires Shifting(t, m0, m) && Shifting(t, m, m')
    ensures Shifting(t, m0, m') && Since(m0, m') == Since(m0, m) + Since(m, m')
    ensures Blames(t.name, m, m') ==> Blames(t.name, m0, m')
  {
    var ps := Group(m0, t.name).pvs.Keys;
    ProgressTransitive(t, m0, m, m');
    WithinThenWithin(PVCallbacks([]), ps, ps, ps, ps, t.name, m0, m, m');
  }

  /** One more call of the loop, whatever its outcome. */
  lemma MoveShifts(t: Task, names: seq<string>, i: nat, desired: seq<string>, m0: Moment, m: Moment,
                   err: Option<Error>, m': Moment)
    requires i < |names| && Movable(t, names, desired, m0) && Shifting(t, m0, m)
    requires Called(m, Move(t.name, names[i], desired), err, m') && Group(m, t.name).Valid()
    ensures Shifting(t, m0, m') && Since(m0, m') == Since(m0, m) + Since(m, m')
    ensures |Since(m, m')| == 1 && AtOnce(m, m')
    ensures err == Some(MissingPVs) ==> Blames(t.name, m0, m')
  {
    MoveCallShifts(t, names, i, desired, m0, m, err, m');
    ShiftingOn(t, m0, m, m');
  }

  lemma MoveLoopStep(t: Task, names: seq<string>, i: nat, desired: seq<string>, m0: Moment, m: Moment,
                     err: Option<Error>, m': Moment)
    requires i < |names| && Movable(t, names, desired, m0) && MoveLoop(t, names, i, desired, m0, m)
    requires Called(m, Move(t.name, names[i], desired), err, m') && Group(m, t.name).Valid()
    ensures Shifting(t, m0, m')
    ensures err.None? ==> MoveLoop(t, names, i + 1, desired, m0, m')
    ensures desired != [] ==> Moving.CutRun(MetBetween(t.name, m0, m'), names, Elements(desired))
    ensures MetBetween(t.name, m0, m')[i + 1] == Group(m', t.name)
    ensures err == Some(MissingPVs) ==> Blames(t.name, m0, m')
  {
    var gs, gs' := MetBetween(t.name, m0, m), MetBetween(t.name, m0, m');
    MoveShifts(t, names, i, desired, m0, m, err, m');
    MetNext(t.name, m0, m, m');
    MoveCommandMoves(t.name, names[i], desired, err, m, m');
    if desired != [] {
      assert gs'[..i + 1] == gs;
      assert Moving.CutRun(gs', names, Elements(desired));
    }
  }

  lemma HopsOnce(names: seq<string>, desired: seq<string>, gs: seq<VolumeGroup>, g: VolumeGroup)
    requires Elements(names) !! Elements(desired) && Moving.CutRun(gs, names, Elements(desired))
    requires gs[|gs| - 1] == g && g.place.Keys == gs[0].place.Keys
    ensures OneHop(names, desired, gs[0], g)
  {
    forall e | e in gs[0].place
      ensures g.place[e] == gs[0].place[e] || (gs[0].place[e] in names && g.place[e] in desired)
    {
      Moving.CutRunHops(gs, names, Elements(desired), e);
    }
  }

  /** A refused move means that not everything fitted in the first place. */
  lemma RefusedMove(t: Task, names: seq<string>, i: nat, desired: seq<string>, m0: Moment, m: Moment)
    requires i < |names| && Movable(t, names, desired, m0) && MoveLoop(t, names, i, desired, m0, m)
    requires desired != [] && !GroupEnabled(m.world.host, Group(m, t.name), Move(t.name, names[i], desired))
    ensures !Group(m0, t.name).Fits(Elements(names), Elements(desired))
  {
    assert names[i] in Elements(names);
    Moving.MoveLoopSucceedsIffFits(MetBetween(t.name, m0, m), names, Elements(desired));
  }

  lemma MoveFailed(t: Task, names: seq<string>, i: nat, desired: seq<string>, m0: Moment, m: Moment,
                   err: Option<Error>, m': Moment)
    requires i < |names| && Movable(t, names, desired, m0) && MoveLoop(t, names, i, desired, m0, m)
    requires Called(m, Move(t.name, names[i], desired), err, m') && Group(m, t.name).Valid() && err.Some?
    ensures MovedAll(names, desired, false, Group(m0, t.name), Group(m', t.name))
    ensures Calm(m0, t.name) ==> MovedAllCalmly(names, desired, false, Group(m0, t.name))
  {
    MoveLoopStep(t, names, i, desired, m0, m, err, m');
    if desired != [] {
      HopsOnce(names, desired, MetBetween(t.name, m0, m'), Group(m', t.name));
    }
    if Calm(m0, t.name) && desired != [] {
      MoveCommandMoves(t.name, names[i], desired, err, m, m');
      RefusedMove(t, names, i, desired, m0, m);
    }
  }

  lemma MovesDone(t: Task, names: seq<string>, desired: seq<string>, m0: Moment, m: Moment)
    requires Movable(t, names, desired, m0) && MoveLoop(t, names, |names|, desired, m0, m)
    ensures MovedAll(names, desired, true, Group(m0, t.name), Group(m, t.name))
    ensures MovedAllCalmly(names, desired, true, Group(m0, t.name))
    ensures desired != [] ==> Moving.CutRun(MetBetween(t.name, m0, m), names, Elements(desired))
  {
    if desired != [] {
      var gs := MetBetween(t.name, m0, m);
      Moving.RunIsCutRun(gs, names, Elements(desired));
      HopsOnce(names, desired, gs, Group(m, t.name));
      Moving.RunEmpties(gs, names, Elements(desired));
      Moving.MoveLoopSucceedsIffFits(gs, names, Elements(desired));
    }
  }

  /** When nothing interferes, a removal succeeds exactly if the policy's needs are met. */
  ghost predicate RemovedCalmly(spec: Spec, names: seq<string>, desired: seq<string>, ok: bool, g: VolumeGroup) {
    ok <==> Removable(spec.deviceRemoval, Elements(names), Elements(desired), g)
  }

  /** Moves, if the policy asks for them, are done. */
  ghost predicate ReadyToReduce(t: Task, names: seq<string>, desired: seq<string>, m0: Moment, m: Moment) {
    && Surplus(t, names, desired, m0) && Shifting(t, m0, m)
    && if t.spec.deviceRemoval.MoveAndReduce? then
         && MovedAll(names, desired, true, Group(m0, t.name), Group(m, t.name))
         && (Calm(m0, t.name) ==> MovedAllCalmly(names, desired, true, Group(m0, t.name)))
       else m == m0
  }

  lemma NoShift(t: Task, m: Moment)
    requires Exists(m, t.name) && Near(t, Group(m, t.name))
    ensures Shifting(t, m, m)
  {
    NoProgress(t, m);
    NoEvents(m);
  }

  /** Moves only change the placement, so a removal after them is a removal from the start. */
  lemma RemovedAfterMoves(names: set<string>, desired: seq<string>, ok: bool, g0: VolumeGroup, g: VolumeGroup,
                          g': VolumeGroup)
    requires g == g0.(place := g.place) && g.place.Keys == g0.place.Keys
    requires Removed(PVCallbacks(desired), names, ok, g, g')
    ensures Removed(PVCallbacks(desired), names, ok, g0, g')
  {
  }

  lemma ReducedCalmly(spec: Spec, names: seq<string>, desired: seq<string>, ok: bool, g0: VolumeGroup, g: VolumeGroup)
    requires Elements(names) == g0.pvs.Keys - Elements(desired) && g.pvs == g0.pvs && Elements(desired) <= g0.pvs.Keys
    requires spec.deviceRemoval.MoveAndReduce? ==>
               MovedAll(names, desired, true, g0, g) && MovedAllCalmly(names, desired, true, g0)
    requires !spec.deviceRemoval.MoveAndReduce? ==> g == g0
    requires ok <==> Elements(names) < g.pvs.Keys && (spec.deviceRemoval.ForceReduce? || g.On(Elements(names)) == {})
    ensures RemovedCalmly(spec, names, desired, ok, g0)
  {
    NoneDesired(desired);
    SomeKept(g0.pvs.Keys, Elements(desired));
  }

  lemma SomeKept(all: set<string>, kept: set<string>)
    requires kept <= all
    ensures all - kept < all <==> kept != {}
  {
    if kept != {} {
      var x :| x in kept;
      assert x in all && x !in all - kept;
    }
  }

  lemma ReducePermitted(t: Task, names: seq<string>, desired: seq<string>, m0: Moment, m: Moment)
    requires ReadyToReduce(t, names, desired, m0, m)
    ensures Allowed(t, m, Command.Reduce(t.name, names, t.spec.deviceRemoval.ForceReduce?))
  {
    NoneDesired(desired);
  }

  /** What a removal has come to, with all that holds along the way. */
  ghost predicate RemovalDone(t: Task, names: seq<string>, desired: seq<string>, ok: bool, m: Moment, m': Moment) {
    && Progress(t, m, m') && SameScan(m, m')
    && var g, g' := Group(m, t.name), Group(m', t.name);
       && Removed(PVCallbacks(desired), Elements(names), ok, g, g')
       && (ok ==> g'.place.Keys == Left(t.spec, Elements(names), g))
       && AllWithin(PVCallbacks([]), g.pvs.Keys - Elements(names), g.pvs.Keys, t.name, m, m')
       && (Calm(m, t.name) ==> RemovedCalmly(t.spec, names, desired, ok, g))
  }

  lemma ReduceLeaves(spec: Spec, gone: set<string>, g: VolumeGroup)
    requires spec.deviceRemoval.ForceReduce? || g.On(gone) == {}
    ensures Without(g, gone).place.Keys == Left(spec, gone, g)
  {
    if !spec.deviceRemoval.ForceReduce? {
      EmptyKeepsExtents(g, gone);
    }
  }

  lemma ReduceCalled(t: Task, names: seq<string>, desired: seq<string>, m0: Moment, m: Moment, err: Option<Error>,
                     m': Moment)
    requires ReadyToReduce(t, names, desired, m0, m)
    requires Called(m, Command.Reduce(t.name, names, t.spec.deviceRemoval.ForceReduce?), err, m')
    ensures Progress(t, m, m') && SameScan(m, m') && AtOnce(m, m')
    ensures Removed(PVCallbacks(desired), Elements(names), err.None?, Group(m, t.name), Group(m', t.name))
    ensures err.None? ==> Group(m', t.name).place.Keys == Left(t.spec, Elements(names), Group(m, t.name))
    ensures err == Some(MissingPVs) ==> Blames(t.name, m, m')
    ensures Calm(m, t.name) ==>
              (err.None? <==> Elements(names) < Group(m, t.name).pvs.Keys
                              && (t.spec.deviceRemoval.ForceReduce? || Group(m, t.name).On(Elements(names)) == {}))
  {
    OldCommandRemoves(PVCallbacks(desired), t.spec, t.name, names, err, m, m');
    OnlyStaysNear(PVCallbacks(desired), t, Group(m, t.name), Group(m', t.name));
    if err.None? {
      ReduceLeaves(t.spec, Elements(names), Group(m, t.name));
    }
    ReducePermitted(t, names, desired, m0, m);
    CallProgress(t, m, Command.Reduce(t.name, names, t.spec.deviceRemoval.ForceReduce?), err, m');
  }

  /** Where the removal is not forced nothing is left out, and where it is nothing has been moved. */
  lemma SameLeft(t: Task, names: seq<string>, desired: seq<string>, m0: Moment, m: Moment)
    requires ReadyToReduce(t, names, desired, m0, m)
    ensures Left(t.spec, Elements(names), Group(m, t.name)) == Left(t.spec, Elements(names), Group(m0, t.name))
  {
  }

  lemma ReduceWithin(t: Task, names: seq<string>, desired: seq<string>, m0: Moment, m: Moment, ok: bool, m': Moment)
    requires Shifting(t, m0, m) && Progress(t, m, m') && SameScan(m, m') && AtOnce(m, m')
    requires Removed(PVCallbacks(desired), Elements(names), ok, Group(m, t.name), Group(m', t.name))
    ensures Progress(t, m0, m') && SameScan(m0, m')
    ensures Removed(PVCallbacks(desired), Elements(names), ok, Group(m0, t.name), Group(m', t.name))
    ensures var ps := Group(m0, t.name).pvs.Keys; AllWithin(PVCallbacks([]), ps - Elements(names), ps, t.name, m0, m')
    ensures Blames(t.name, m, m') ==> Blames(t.name, m0, m')
  {
    var ps := Group(m0, t.name).pvs.Keys;
    var lo := ps - Elements(names);
    ProgressTransitive(t, m0, m, m');
    RemovedAfterMoves(Elements(names), desired, ok, Group(m0, t.name), Group(m, t.name), Group(m', t.name));
    WithinAtOnce(PVCallbacks([]), lo, ps, t.name, m, m');
    WithinThenWithin(PVCallbacks([]), ps, ps, lo, ps, t.name, m0, m, m');
  }

  lemma ReduceStep(t: Task, names: seq<string>, desired: seq<string>, m0: Moment, m: Moment, err: Option<Error>,
                   m': Moment)
    requires ReadyToReduce(t, names, desired, m0, m)
    requires Called(m, Command.Reduce(t.name, names, t.spec.deviceRemoval.ForceReduce?), err, m')
    ensures RemovalDone(t, names, desired, err.None?, m0, m')
    ensures err == Some(MissingPVs) ==> Blames(t.name, m0, m')
  {
    ReduceCalled(t, names, desired, m0, m, err, m');
    ReduceWithin(t, names, desired, m0, m, err.None?, m');
    SameLeft(t, names, desired, m0, m);
    if Calm(m0, t.name) {
      ReducedCalmly(t.spec, names, desired, err.None?, Group(m0, t.name), Group(m, t.name));
    }
  }

  lemma NoneDesired(desired: seq<string>)
    ensures desired == [] <==> Elements(desired) == {}
  {
    if desired != [] {
      assert desired[0] in Elements(desired);
    }
  }

  /** If the moves fail there is no reduction; then the needs were not met either. */
  lemma FailedMoves(t: Task, names: seq<string>, desired: seq<string>, m: Moment, m': Moment)
    requires Movable(t, names, desired, m) && Shifting(t, m, m')
    requires MovedAll(names, desired, false, Group(m, t.name), Group(m', t.name))
    requires Calm(m, t.name) ==> MovedAllCalmly(names, desired, false, Group(m, t.name))
    ensures RemovalDone(t, names, desired, false, m, m')
  {
    var ps := Group(m, t.name).pvs.Keys;
    NoneDesired(desired);
    NoEvents(m');
    WithinThenWithin(PVCallbacks([]), ps, ps, ps - Elements(names), ps, t.name, m, m', m');
  }

  lemma AllBearable(t: Task, names: seq<string>, desired: seq<string>, m: Moment)
    requires t.spec.deviceRemoval.MoveAndReduce? && Surplus(t, names, desired, m) && Group(m, t.name).Valid()
    ensures Movable(t, names, desired, m)
  {
  }

  /** What the function for the old elements has come to. */
  ghost predicate OldDone(t: Task, cb: Callbacks, diff: seq<string>, ok: bool, m: Moment, m': Moment) {
    && Progress(t, m, m') && SameScan(m, m')
    && var g, g' := Group(m, t.name), Group(m', t.name);
       && Removed(cb, Elements(diff), ok, g, g')
       && (cb.PVCallbacks? && ok ==> g'.place.Keys == Left(t.spec, Elements(diff), g))
       && AllWithin(cb, View(cb, g) - Elements(diff), View(cb, g), t.name, m, m')
       && (Calm(m, t.name) ==> if cb.TagCallbacks? then ok else RemovedCalmly(t.spec, diff, cb.desiredState, ok, g))
  }

  lemma PVsOld(t: Task, cb: Callbacks, diff: seq<string>, ok: bool, m: Moment, m': Moment)
    requires cb.PVCallbacks? && RemovalDone(t, diff, cb.desiredState, ok, m, m')
    ensures OldDone(t, cb, diff, ok, m, m')
  {
  }

  lemma TagsOld(t: Task, cb: Callbacks, diff: seq<string>, err: Option<Error>, m: Moment, m': Moment)
    requires cb.TagCallbacks? && Called(m, DelTags(t.name, diff), err, m') && Near(t, Group(m, t.name))
    requires Elements(diff) !! Elements(t.spec.tags) && Elements(t.spec.tags) <= Group(m, t.name).tags
    ensures OldDone(t, cb, diff, err.None?, m, m')
    ensures err == Some(MissingPVs) ==> Blames(t.name, m, m')
  {
    var g, g' := Group(m, t.name), Group(m', t.name);
    OldCommandRemoves(cb, t.spec, t.name, diff, err, m, m');
    OnlyStaysNear(cb, t, g, g');
    CallProgress(t, m, DelTags(t.name, diff), err, m');
    WithinAtOnce(cb, g.tags - Elements(diff), g.tags, t.name, m, m');
  }

  // ---- two-way synchronisation ----

  /** Nothing outside the view changed, the view stayed in between, and on success it is what is desired. */
  ghost predicate TwoWay(cb: Callbacks, desired: set<string>, current: set<string>, ok: bool, g: VolumeGroup,
                         g': VolumeGroup) {
    && Only(cb, g, g') && g'.place.Keys <= g.place.Keys
    && Between(current, desired, View(cb, g'))
    && (ok ==> View(cb, g') == desired)
  }

  function Extended(g: VolumeGroup, more: set<string>, h: Host): VolumeGroup {
    g.(pvs := g.pvs + Sized(more, h.sizes))
  }

  /** The new physical volumes can be added under the limit in force. */
  ghost predicate Addable(h: Host, g: VolumeGroup, desired: set<string>) {
    desired <= g.pvs.Keys || (Usable(h, desired - g.pvs.Keys) && Within(|g.pvs.Keys + desired|, g.maxPV))
  }

  /** Once they are there, the surplus ones can be taken out. */
  ghost predicate Reducible(spec: Spec, h: Host, g: VolumeGroup, desired: set<string>) {
    || g.pvs.Keys <= desired
    || Removable(spec.deviceRemoval, g.pvs.Keys - desired, desired, Extended(g, desired - g.pvs.Keys, h))
  }

  /** When nothing interferes, the physical volumes get in step exactly if both halves are possible. */
  ghost predicate TwoWayCalmly(cb: Callbacks, spec: Spec, h: Host, desired: set<string>, ok: bool, g: VolumeGroup,
                               g': VolumeGroup) {
    if cb.TagCallbacks? then ok
    else
      && (ok <==> Addable(h, g, desired) && Reducible(spec, h, g, desired))
      && (!Addable(h, g, desired) ==> g' == g)
  }

  lemma DistinctDiff(left: seq<string>, right: seq<string>)
    requires Moving.Distinct(left)
    ensures Moving.Distinct(Diff(left, right))
  {
    var at := DiffIsSubsequence(left, right);
  }

  /** The state after adding `more` and before removing anything. */
  ghost predicate HalfWay(t: Task, cb: Callbacks, desired: seq<string>, current: seq<string>, ok: bool, m: Moment,
                          m': Moment) {
    && Progress(t, m, m') && SameScan(m, m')
    && AllBetween(cb, Elements(current), Elements(desired), t.name, m, m')
    && var more, g, g' := Elements(desired) - Elements(current), Group(m, t.name), Group(m', t.name);
       && Added(cb, more, ok, g, g')
       && (Calm(m, t.name) ==>
             if cb.TagCallbacks? then ok
             else
               && (ok <==> Addable(m.world.host, g, Elements(desired)))
               && g' == (if ok then Extended(g, more, m.world.host) else g))
  }

  /** All that a two-way synchronisation guarantees, from `m` to `m'`. */
  ghost predicate TwoWayDone(t: Task, cb: Callbacks, desired: seq<string>, current: seq<string>, ok: bool, m: Moment,
                             m': Moment) {
    && Progress(t, m, m') && SameScan(m, m')
    && AllBetween(cb, Elements(current), Elements(desired), t.name, m, m')
    && TwoWay(cb, Elements(desired), Elements(current), ok, Group(m, t.name), Group(m', t.name))
    && (cb.PVCallbacks? && ok ==>
          Group(m', t.name).place.Keys == Left(t.spec, Elements(current) - Elements(desired), Group(m, t.name)))
    && (Calm(m, t.name) ==>
          TwoWayCalmly(cb, t.spec, m.world.host, Elements(desired), ok, Group(m, t.name), Group(m', t.name)))
  }

  /** What `current` has to be for the pair of callbacks. */
  ghost predicate Comparable(t: Task, cb: Callbacks, desired: seq<string>, current: seq<string>, m: Moment)
    requires Exists(m, t.name)
  {
    if cb.TagCallbacks? then desired == t.spec.tags && current == t.lvm.tags
    else
      && cb.desiredState == desired && Choice(t.spec, m.world) == Some(Elements(desired))
      && Elements(current) == Group(m, t.name).pvs.Keys && Moving.Distinct(current)
  }

  lemma NothingNew(t: Task, cb: Callbacks, desired: seq<string>, current: seq<string>, m: Moment)
    requires Exists(m, t.name) && Near(t, Group(m, t.name))
    requires Comparable(t, cb, desired, current, m)
    requires Elements(desired) <= Elements(current)
    ensures HalfWay(t, cb, desired, current, true, m, m)
  {
    NoProgress(t, m);
    NoEvents(m);
    var g := Group(m, t.name);
    assert Sized({}, m.world.host.sizes) == map[];
    assert g.pvs + map[] == g.pvs;
  }

  lemma AddedIsHalfWay(t: Task, cb: Callbacks, desired: seq<string>, current: seq<string>, ok: bool, m: Moment,
                       m': Moment)
    requires Progress(t, m, m') && Comparable(t, cb, desired, current, m) && Near(t, Group(m, t.name))
    requires SameScan(m, m') && AtOnce(m, m')
    requires !(Elements(desired) <= Elements(current))
    requires Added(cb, Elements(desired) - Elements(current), ok, Group(m, t.name), Group(m', t.name))
    requires Calm(m, t.name) ==>
               && AddedCalmly(cb, Elements(desired) - Elements(current), ok, m.world.host, Group(m, t.name),
                   Group(m', t.name))
    ensures HalfWay(t, cb, desired, current, ok, m, m')
  {
    if cb.PVCallbacks? {
      var g := Group(m, t.name);
      assert g.pvs.Keys + (Elements(desired) - Elements(current)) == g.pvs.Keys + Elements(desired);
    }
  }

  lemma NothingOld(t: Task, cb: Callbacks, desired: seq<string>, current: seq<string>, ok: bool, m0: Moment, m: Moment)
    requires HalfWay(t, cb, desired, current, ok, m0, m) && Comparable(t, cb, desired, current, m0)
    requires ok ==> Elements(current) <= Elements(desired)
    requires Near(t, Group(m0, t.name))
    ensures TwoWayDone(t, cb, desired, current, ok, m0, m)
  {
  }

  lemma RemovedIsTwoWay(t: Task, cb: Callbacks, desired: seq<string>, current: seq<string>, gone: seq<string>,
                        ok: bool, m0: Moment, m: Moment, m': Moment)
    requires HalfWay(t, cb, desired, current, true, m0, m) && Comparable(t, cb, desired, current, m0)
    requires Near(t, Group(m0, t.name))
    requires Elements(gone) == Elements(current) - Elements(desired) && gone != []
    requires OldDone(t, cb, gone, ok, m, m')
    ensures TwoWayDone(t, cb, desired, current, ok, m0, m')
    ensures Blames(t.name, m, m') ==> Blames(t.name, m0, m')
  {
    ProgressTransitive(t, m0, m, m');
    assert gone[0] in Elements(gone);
    var g := Group(m, t.name);
    WithinIsBetween(cb, Elements(current), Elements(desired), View(cb, g) - Elements(gone), View(cb, g), t.name, m, m');
    BetweenThenBetween(cb, Elements(current), Elements(desired), t.name, m0, m, m');
  }

  lemma WithinIsBetween(cb: Callbacks, a: set<string>, b: set<string>, lo: set<string>, hi: set<string>, name: string,
                        m: Moment, m': Moment)
    requires AllWithin(cb, lo, hi, name, m, m') && b <= lo && hi <= a + b
    ensures AllBetween(cb, a, b, name, m, m')
  {
  }

  lemma BetweenThenBetween(cb: Callbacks, a: set<string>, b: set<string>, name: string, m0: Moment, m: Moment,
                           m': Moment)
    requires AllBetween(cb, a, b, name, m0, m) && AllBetween(cb, a, b, name, m, m')
    requires Since(m0, m') == Since(m0, m) + Since(m, m')
    ensures AllBetween(cb, a, b, name, m0, m')
  {
  }

  lemma NewPermitted(t: Task, cb: Callbacks, desired: seq<string>, current: seq<string>, diff: seq<string>, m: Moment)
    requires Exists(m, t.name) && Comparable(t, cb, desired, current, m)
    requires Elements(diff) == Elements(desired) - Elements(current)
    ensures Allowed(t, m, NewCommand(cb, t.name, diff))
    ensures diff == [] <==> Elements(desired) <= Elements(current)
  {
    NoneDesired(diff);
    NoDifference(Elements(desired), Elements(current));
  }

  lemma NoDifference(a: set<string>, b: set<string>)
    ensures a - b == {} <==> a <= b
  {
    if a - b == {} {
      forall x | x in a
        ensures x in b
      {
        assert x !in a - b;
      }
    }
  }

  lemma OldPermitted(t: Task, cb: Callbacks, desired: seq<string>, current: seq<string>, diff: seq<string>, m0: Moment,
                     m: Moment)
    requires HalfWay(t, cb, desired, current, true, m0, m) && Comparable(t, cb, desired, current, m0)
    requires diff == Diff(current, desired)
    ensures Elements(diff) == Elements(current) - Elements(desired)
    ensures diff == [] <==> Elements(current) <= Elements(desired)
    ensures cb.TagCallbacks? && Near(t, Group(m0, t.name)) ==> Elements(t.spec.tags) <= Group(m, t.name).tags
    ensures cb.PVCallbacks? ==> Surplus(t, diff, desired, m)
  {
    DiffElements(current, desired);
    NoneDesired(diff);
    NoDifference(Elements(current), Elements(desired));
    if cb.PVCallbacks? {
      DistinctDiff(current, desired);
    }
  }

  // ---- the single synchronisers ----

  datatype Part = TagsPart | PVsPart | LimitsPart | PolicyPart | AutoActivationPart | NamePart

  ghost predicate Touches(p: Part, g: VolumeGroup, g': VolumeGroup) {
    match p
    case TagsPart => Only(TagCallbacks, g, g')
    case PVsPart => Only(PVCallbacks([]), g, g')
    case LimitsPart => g' == g.(maxPV := g'.maxPV, maxLV := g'.maxLV)
    case PolicyPart => g' == g.(policy := g'.policy)
    case AutoActivationPart => g' == g.(autoActivation := g'.autoActivation)
    case NamePart => g' == g
  }

  ghost predicate Agrees(p: Part, spec: Spec, h: Host, g: VolumeGroup) {
    match p
    case TagsPart => TagsAgree(spec, g)
    case PVsPart => g.pvs.Keys == Desired(spec, h)
    case LimitsPart => LimitsAgree(spec, g)
    case PolicyPart => PolicyAgrees(spec, g)
    case AutoActivationPart => AutoActivationAgrees(spec, g)
    case NamePart => true
  }

  ghost predicate QueriesOnly(t: Task, m: Moment, m': Moment) {
    && Progress(t, m, m') && Group(m', t.name) == Group(m, t.name) && OnlyQueries(m, m')
    && AllWithin(PVCallbacks([]), Group(m, t.name).pvs.Keys, Group(m, t.name).pvs.Keys, t.name, m, m')
  }

  /** What a part needs in order to be reached when nothing interferes. */
  ghost predicate Reachable(p: Part, spec: Spec, h: Host, g: VolumeGroup) {
    match p
    case PVsPart =>
      && !Selector.Aborts(spec.selector, Flatten(h.forest))
      && Addable(h, g, Desired(spec, h)) && Reducible(spec, h, g, Desired(spec, h))
    case LimitsPart =>
      && (spec.maxPV.Some? ==> LimitOk(|g.pvs|, spec.maxPV.value))
      && (spec.maxLV.Some? ==> LimitOk(|g.LVs()|, spec.maxLV.value))
    case _ => true
  }

  /** What synchronising one part guarantees, from `m` to `m'`. */
  ghost predicate PartDone(p: Part, t: Task, ok: bool, m: Moment, m': Moment) {
    && Progress(t, m, m')
    && var g, g' := Group(m, t.name), Group(m', t.name);
       && Touches(p, g, g')
       && (ok && (p.PVsPart? ==> Quiet(m, m')) ==> Agrees(p, t.spec, m'.world.host, g'))
       && (Quiet(m, m') && Reflects(t.lvm, g) && Agrees(p, t.spec, m.world.host, g) ==>
             g' == g && OnlyQueries(m, m'))
       && (Calm(m, t.name) ==> PartCalmly(p, t, ok, m.world.host, g, g'))
       && (if p.PVsPart? then PVsChosen(t, ok, m, m') else SameScan(m, m'))
  }

  /** The volumes went from what there was to what was found selected, and on success all the way. */
  ghost predicate PVsChosen(t: Task, ok: bool, m: Moment, m': Moment)
    requires Exists(m, t.name) && Exists(m', t.name)
  {
    var g, g', choice := Group(m, t.name), Group(m', t.name), Choice(t.spec, m'.world);
    && (ok ==> choice == Some(g'.pvs.Keys))
    && (choice.None? ==> g' == g && OnlyQueries(m, m'))
    && (choice.Some? ==>
          && AllBetween(PVCallbacks([]), g.pvs.Keys, choice.value, t.name, m, m')
          && Between(g.pvs.Keys, choice.value, g'.pvs.Keys))
    && (Quiet(m, m') ==> Between(g.pvs.Keys, Desired(t.spec, m.world.host), g'.pvs.Keys))
    && (ok && Quiet(m, m') ==> !SelectorAborts(t.spec, m.world.host))
  }

  /** The limits that are not known to be as desired already can be set with so many volumes there. */
  predicate Settable(spec: Spec, maxPV: int, maxLV: int, pvs: nat, lvs: nat) {
    && (spec.maxPV.Some? && maxPV != spec.maxPV.value ==> LimitOk(pvs, spec.maxPV.value))
    && (spec.maxLV.Some? && maxLV != spec.maxLV.value ==> LimitOk(lvs, spec.maxLV.value))
  }

  ghost predicate PartCalmly(p: Part, t: Task, ok: bool, h: Host, g: VolumeGroup, g': VolumeGroup) {
    && (Reachable(p, t.spec, h, g) ==> ok)
    && (p.LimitsPart? ==> (ok <==> Settable(t.spec, t.lvm.maxPV, t.lvm.maxLV, |g.pvs|, |g.LVs()|)))
    && (p.PVsPart? ==>
          && (ok ==> Reachable(p, t.spec, h, g))
          && (ok ==> g'.pvs.Keys == Desired(t.spec, h))
          && (ok ==> g'.place.Keys == Left(t.spec, g.pvs.Keys - Desired(t.spec, h), g))
          && (!Addable(h, g, Desired(t.spec, h)) ==> g' == g)
          && g'.pvs.Keys <= g.pvs.Keys + Desired(t.spec, h)
          && g'.place.Keys <= g.place.Keys)
  }

  lemma QueryIsQuiet(t: Task, m: Moment, c: Command, err: Option<Error>, m': Moment)
    requires Called(m, c, err, m') && c == PVS(t.name) && Near(t, Group(m, t.name))
    ensures QueriesOnly(t, m, m') && SameScan(m, m') && err != Some(MissingPVs)
    ensures Calm(m, t.name) ==> err.None?
  {
    var ps := Group(m, t.name).pvs.Keys;
    CallProgress(t, m, c, err, m');
    WithinAtOnce(PVCallbacks([]), ps, ps, t.name, m, m');
  }

  /** At most lsblk was called, and it was asked for what the selector needs. */
  ghost predicate Looked(spec: Spec, m: Moment, m': Moment) {
    || m' == m
    || exists columns, err ::
         Stepped(m, RunLsblk(columns), err, m') && spec.selector != [] && Selector.IsRequest(spec.selector, columns)
  }

  lemma LsblkErrors(m: Moment, columns: seq<string>, err: Option<Error>, m': Moment)
    requires Stepped(m, RunLsblk(columns), err, m')
    ensures err != Some(MissingPVs) && (m.reliable ==> err.None?)
  {
  }

  lemma LookedStalls(spec: Spec, name: string, m: Moment, m': Moment)
    requires Looked(spec, m, m')
    ensures Stalled(name, true, m, m')
  {
  }

  lemma LookedIsQuiet(t: Task, m: Moment, m': Moment)
    requires Looked(t.spec, m, m') && Exists(m, t.name) && Near(t, Group(m, t.name))
    ensures QueriesOnly(t, m, m') && Stalled(t.name, true, m, m')
  {
    LookedStalls(t.spec, t.name, m, m');
    if m' == m {
      NoQueries(t, m);
    } else {
      var columns, err :|
        Stepped(m, RunLsblk(columns), err, m') && t.spec.selector != [] && Selector.IsRequest(t.spec.selector, columns);
      LsblkRan(t, m, columns, err, m');
    }
  }

  lemma NoQueries(t: Task, m: Moment)
    requires Exists(m, t.name) && Near(t, Group(m, t.name))
    ensures QueriesOnly(t, m, m)
  {
    NoProgress(t, m);
    NoEvents(m);
  }

  lemma QueriesThenQueries(t: Task, a: Moment, b: Moment, c: Moment)
    requires QueriesOnly(t, a, b) && QueriesOnly(t, b, c)
    ensures QueriesOnly(t, a, c)
  {
    var ps := Group(a, t.name).pvs.Keys;
    ProgressTransitive(t, a, b, c);
    WithinThenWithin(PVCallbacks([]), ps, ps, ps, ps, t.name, a, b, c);
  }

  lemma StayedIsBetween(cb: Callbacks, a: set<string>, b: set<string>, name: string, m: Moment, m': Moment)
    requires AllWithin(cb, a, a, name, m, m')
    ensures AllBetween(cb, a, b, name, m, m')
  {
  }

  /** Giving up after queries alone. */
  lemma QueriesFailed(t: Task, m: Moment, m': Moment)
    requires QueriesOnly(t, m, m')
    requires Calm(m, t.name) ==> Selector.Aborts(t.spec.selector, Flatten(m.world.host.forest))
    ensures PartDone(PVsPart, t, false, m, m')
  {
    var choice := Choice(t.spec, m'.world);
    if choice.Some? {
      StayedIsBetween(PVCallbacks([]), Group(m, t.name).pvs.Keys, choice.value, t.name, m, m');
    }
  }

  lemma TagsDone(t: Task, ok: bool, m: Moment, m': Moment)
    requires TwoWayDone(t, TagCallbacks, t.spec.tags, t.lvm.tags, ok, m, m')
    requires Elements(t.spec.tags) == Elements(t.lvm.tags) ==> m' == m
    ensures PartDone(TagsPart, t, ok, m, m')
  {
  }

  lemma QueriesKeepHost(t: Task, m: Moment, m': Moment)
    requires QueriesOnly(t, m, m') && Quiet(m, m')
    ensures m'.world.host == m.world.host
  {
    var n := t.name;
    assert m'.world.host.vgs == m.world.host.vgs[n := m.world.host.vgs[n]] == m.world.host.vgs;
  }

  lemma SameDesired(t: Task, m0: Moment, m: Moment, m': Moment)
    requires QueriesOnly(t, m0, m) && QueriesOnly(t, m, m')
    ensures Quiet(m0, m') ==> m'.world.host.forest == m.world.host.forest
  {
  }

  lemma PVsCalmly(t: Task, desired: seq<string>, ok: bool, h: Host, g: VolumeGroup, g': VolumeGroup)
    requires TwoWay(PVCallbacks(desired), Elements(desired), g.pvs.Keys, ok, g, g')
    requires TwoWayCalmly(PVCallbacks(desired), t.spec, h, Elements(desired), ok, g, g')
    requires ok ==> g'.place.Keys == Left(t.spec, g.pvs.Keys - Elements(desired), g)
    requires Elements(desired) == Desired(t.spec, h) && !Selector.Aborts(t.spec.selector, Flatten(h.forest))
    ensures PartCalmly(PVsPart, t, ok, h, g, g')
  {
  }

  /** What holds along the way, whatever the devices have done. */
  lemma PVsAreChosen(t: Task, desired: seq<string>, current: seq<string>, ok: bool, m0: Moment, m: Moment, m': Moment)
    requires QueriesOnly(t, m0, m) && TwoWayDone(t, PVCallbacks(desired), desired, current, ok, m, m')
    requires Elements(current) == Group(m, t.name).pvs.Keys && Choice(t.spec, m.world) == Some(Elements(desired))
    requires Quiet(m0, m) ==>
               Elements(desired) == Desired(t.spec, m.world.host) && !SelectorAborts(t.spec, m.world.host)
    requires Since(m0, m') == Since(m0, m) + Since(m, m') && m'.disruptions <= m.disruptions <= m0.disruptions
    ensures PVsChosen(t, ok, m0, m')
  {
    var g := Group(m0, t.name);
    StayedIsBetween(PVCallbacks([]), g.pvs.Keys, Elements(desired), t.name, m0, m);
    SameView(desired, g.pvs.Keys, Elements(desired), t.name, m, m');
    BetweenThenBetween(PVCallbacks([]), g.pvs.Keys, Elements(desired), t.name, m0, m, m');
    if Quiet(m0, m') {
      QueriesKeepHost(t, m0, m);
    }
  }

  lemma SameView(desired: seq<string>, a: set<string>, b: set<string>, name: string, m: Moment, m': Moment)
    requires AllBetween(PVCallbacks(desired), a, b, name, m, m')
    ensures AllBetween(PVCallbacks([]), a, b, name, m, m')
  {
  }

  /** What holds of the ends alone. */
  lemma PVsReached(t: Task, desired: seq<string>, current: seq<string>, ok: bool, m0: Moment, m: Moment, m': Moment)
    requires QueriesOnly(t, m0, m) && TwoWayDone(t, PVCallbacks(desired), desired, current, ok, m, m')
    requires Elements(current) == Group(m, t.name).pvs.Keys
    requires Quiet(m0, m) ==>
               && Elements(desired) == Desired(t.spec, m.world.host)
               && !Selector.Aborts(t.spec.selector, Flatten(m.world.host.forest))
    ensures Touches(PVsPart, Group(m0, t.name), Group(m', t.name))
    ensures ok && Quiet(m0, m') ==> Agrees(PVsPart, t.spec, m'.world.host, Group(m', t.name))
    ensures Calm(m0, t.name) ==> PartCalmly(PVsPart, t, ok, m0.world.host, Group(m0, t.name), Group(m', t.name))
  {
    if Quiet(m0, m') {
      QueriesKeepHost(t, m0, m);
      assert m'.world.host.forest == m.world.host.forest;
    }
    if Calm(m0, t.name) {
      QueriesKeepHost(t, m0, m);
      PVsCalmly(t, desired, ok, m0.world.host, Group(m0, t.name), Group(m', t.name));
    }
  }

  lemma PVsDone(t: Task, desired: seq<string>, current: seq<string>, ok: bool, m0: Moment, m: Moment, m': Moment)
    requires QueriesOnly(t, m0, m) && TwoWayDone(t, PVCallbacks(desired), desired, current, ok, m, m')
    requires Elements(current) == Group(m, t.name).pvs.Keys && Choice(t.spec, m.world) == Some(Elements(desired))
    requires Quiet(m0, m) ==>
               && Elements(desired) == Desired(t.spec, m.world.host)
               && !Selector.Aborts(t.spec.selector, Flatten(m.world.host.forest))
    requires Elements(desired) == Elements(current) ==> m' == m
    ensures PartDone(PVsPart, t, ok, m0, m')
    ensures Blames(t.name, m, m') ==> Blames(t.name, m0, m')
  {
    ProgressTransitive(t, m0, m, m');
    PVsAreChosen(t, desired, current, ok, m0, m, m');
    PVsReached(t, desired, current, ok, m0, m, m');
    if Quiet(m0, m') {
      QueriesKeepHost(t, m0, m);
    }
  }

  // ---- limits, policy, automatic activation ----

  ghost predicate HalfLimits(t: Task, ok: bool, m: Moment, m': Moment) {
    && Progress(t, m, m') && SameScan(m, m')
    && var g, g' := Group(m, t.name), Group(m', t.name);
       && g' == g.(maxPV := g'.maxPV)
       && (ok && t.spec.maxPV.Some? ==> g'.maxPV == t.spec.maxPV.value)
       && (Reflects(t.lvm, g) && LimitsAgree(t.spec, g) ==> m' == m)
       && (Calm(m, t.name) ==> (ok <==> Settable(t.spec.(maxLV := None), t.lvm.maxPV, t.lvm.maxLV, |g.pvs|, |g.LVs()|)))
  }

  lemma MaxPVKept(t: Task, m: Moment)
    requires Exists(m, t.name) && Near(t, Group(m, t.name))
    requires t.spec.maxPV.None? || t.lvm.maxPV == t.spec.maxPV.value
    ensures HalfLimits(t, true, m, m)
  {
    NoProgress(t, m);
  }

  lemma MaxPVSet(t: Task, err: Option<Error>, m: Moment, m': Moment)
    requires t.spec.maxPV.Some? && t.lvm.maxPV != t.spec.maxPV.value
    requires Called(m, SetMaxPV(t.name, t.spec.maxPV.value), err, m') && Near(t, Group(m, t.name))
    ensures HalfLimits(t, err.None?, m, m')
    ensures err == Some(MissingPVs) ==> Blames(t.name, m, m')
  {
    CallProgress(t, m, SetMaxPV(t.name, t.spec.maxPV.value), err, m');
  }

  lemma FirstLimitFailed(t: Task, m: Moment, m': Moment)
    requires HalfLimits(t, false, m, m')
    ensures PartDone(LimitsPart, t, false, m, m')
  {
    NoEvents(m);
  }

  lemma NoEvents(m: Moment)
    ensures Since(m, m) == []
  {
  }

  lemma MaxLVKept(t: Task, m0: Moment, m: Moment)
    requires HalfLimits(t, true, m0, m) && Near(t, Group(m0, t.name))
    requires t.spec.maxLV.None? || t.lvm.maxLV == t.spec.maxLV.value
    ensures PartDone(LimitsPart, t, true, m0, m)
  {
    NoEvents(m0);
  }

  ghost predicate LastLimit(t: Task, ok: bool, m: Moment, m': Moment) {
    && t.spec.maxLV.Some? && Progress(t, m, m') && SameScan(m, m')
    && var g, g' := Group(m, t.name), Group(m', t.name);
       && g' == g.(maxLV := g'.maxLV)
       && (ok ==> g'.maxLV == t.spec.maxLV.value)
       && (Calm(m, t.name) ==> (ok <==> LimitOk(|g.LVs()|, t.spec.maxLV.value)))
  }

  lemma MaxLVSet(t: Task, err: Option<Error>, m: Moment, m': Moment)
    requires t.spec.maxLV.Some? && Called(m, SetMaxLV(t.name, t.spec.maxLV.value), err, m')
    requires Near(t, Group(m, t.name))
    ensures LastLimit(t, err.None?, m, m')
    ensures err == Some(MissingPVs) ==> Blames(t.name, m, m')
  {
    CallProgress(t, m, SetMaxLV(t.name, t.spec.maxLV.value), err, m');
  }

  lemma SameLVs(g: VolumeGroup, g': VolumeGroup)
    requires g'.place == g.place
    ensures g'.LVs() == g.LVs()
  {
  }

  lemma BothLimits(t: Task, ok: bool, m0: Moment, m: Moment, m': Moment)
    requires HalfLimits(t, true, m0, m) && LastLimit(t, ok, m, m')
    requires t.lvm.maxLV != t.spec.maxLV.value
    ensures PartDone(LimitsPart, t, ok, m0, m')
    ensures Blames(t.name, m, m') ==> Blames(t.name, m0, m')
  {
    ProgressTransitive(t, m0, m, m');
    SameLVs(Group(m0, t.name), Group(m, t.name));
  }

  /** The part is as desired already, according to the snapshot. */
  lemma PartKept(p: Part, t: Task, m: Moment)
    requires Exists(m, t.name) && Near(t, Group(m, t.name))
    requires match p
             case PolicyPart => t.spec.policy.None? || t.lvm.policy == SnakeCase.ToSnakeCase(t.spec.policy.value)
             case AutoActivationPart =>
               t.spec.autoActivation.None? || t.lvm.autoActivation == ConvertToAutoActivation(t.spec.autoActivation)
             case NamePart => true
             case _ => false
    ensures PartDone(p, t, true, m, m)
  {
    NoProgress(t, m);
    NoEvents(m);
  }

  lemma PolicySet(t: Task, err: Option<Error>, m: Moment, m': Moment)
    requires t.spec.policy.Some? && t.lvm.policy != SnakeCase.ToSnakeCase(t.spec.policy.value)
    requires Called(m, SetPolicy(t.name, SnakeCase.ToSnakeCase(t.spec.policy.value)), err, m') &&
        Near(t, Group(m, t.name))
    ensures PartDone(PolicyPart, t, err.None?, m, m')
    ensures err == Some(MissingPVs) ==> Blames(t.name, m, m')
  {
    CallProgress(t, m, SetPolicy(t.name, SnakeCase.ToSnakeCase(t.spec.policy.value)), err, m');
  }

  lemma AutoActivationSet(t: Task, err: Option<Error>, m: Moment, m': Moment)
    requires t.spec.autoActivation.Some? && t.lvm.autoActivation != ConvertToAutoActivation(t.spec.autoActivation)
    requires Called(m, SetAutoActivation(t.name, ConvertToAutoActivation(t.spec.autoActivation)), err, m')
    requires Near(t, Group(m, t.name))
    ensures PartDone(AutoActivationPart, t, err.None?, m, m')
    ensures err == Some(MissingPVs) ==> Blames(t.name, m, m')
  {
    CallProgress(t, m, SetAutoActivation(t.name, ConvertToAutoActivation(t.spec.autoActivation)), err, m');
  }

  // ---- one pass over all synchronisers ----

  const SYNCERS: seq<Part> := [TagsPart, PVsPart, LimitsPart, PolicyPart, AutoActivationPart, NamePart]

  /** Everything a first round needs except that the limit in force may still be too low. */
  ghost predicate Promising(spec: Spec, h: Host, g: VolumeGroup) {
    var desired := Desired(spec, h);
    && !Selector.Aborts(spec.selector, Flatten(h.forest))
    && (desired <= g.pvs.Keys || Usable(h, desired - g.pvs.Keys))
    && Reducible(spec, h, g, desired)
    && (spec.maxPV.Some? ==> LimitOk(|g.pvs.Keys + desired|, spec.maxPV.value))
    && (spec.maxLV.Some? ==> LimitOk(|g.LVs()|, spec.maxLV.value))
  }

  /** The first `i` parts are as desired; the physical volumes as desired when devices were last looked at. */
  ghost predicate AgreesUpTo(i: nat, quiet: bool, spec: Spec, h: Host, choice: Option<set<string>>, g: VolumeGroup) {
    && (i > 0 ==> TagsAgree(spec, g))
    && (i > 1 ==> choice == Some(g.pvs.Keys))
    && (i > 1 && quiet ==> g.pvs.Keys == Desired(spec, h))
    && (i > 2 ==> LimitsAgree(spec, g))
    && (i > 3 ==> PolicyAgrees(spec, g))
    && (i > 4 ==> AutoActivationAgrees(spec, g))
  }

  /** In calm only the physical volumes can hold a pass up, and only because of the limit in force. */
  ghost predicate CalmSoFar(spec: Spec, i: nat, ok: bool, addable: bool, desired: set<string>, g0: VolumeGroup,
                            g: VolumeGroup) {
    && (addable ==> ok)
    && (i > 1 && ok ==> addable)
    && (!ok ==> g.pvs == g0.pvs && g.place == g0.place)
    && (i <= 1 ==> ok && g.pvs == g0.pvs && g.place == g0.place && g.maxPV == g0.maxPV)
    && g.pvs.Keys <= g0.pvs.Keys + desired && g.place.Keys <= g0.place.Keys
    && (i > 0 ==> TagsAgree(spec, g))
    && (i > 2 ==> LimitsAgree(spec, g))
    && (i > 3 ==> PolicyAgrees(spec, g))
    && (i > 4 ==> AutoActivationAgrees(spec, g))
  }

  ghost predicate PassCalm(t: Task, i: nat, ok: bool, h0: Host, g0: VolumeGroup, g: VolumeGroup) {
    var desired := Desired(t.spec, h0);
    CalmSoFar(t.spec, i, ok, Addable(h0, g0, desired), desired, g0, g)
  }

  function LVsOf(es: set<Extent>): set<string> {
    set e | e in es :: e.lv
  }

  /**
   * What an undisturbed synchronisation with no volume missing needs: the volumes can be brought in step, and the
   * limits fit what is there then. `maxPV` and `maxLV` are the limits according to the snapshot.
   */
  ghost predicate Attains(spec: Spec, maxPV: int, maxLV: int, h: Host, g: VolumeGroup) {
    var desired := Desired(spec, h);
    && Reachable(PVsPart, spec, h, g)
    && Settable(spec, maxPV, maxLV, |desired|, |LVsOf(Left(spec, g.pvs.Keys - desired, g))|)
  }

  /** Whether all has gone well after `i` parts, in terms of the start. */
  ghost predicate OutcomeSoFar(i: nat, ok: bool, reached: bool, attained: bool, desired: set<string>, left: set<Extent>,
                               g0: VolumeGroup, g: VolumeGroup) {
    && (i <= 1 ==> ok && g.pvs == g0.pvs && g.place == g0.place && g.maxPV == g0.maxPV)
    && (i > 1 && ok ==> g.pvs.Keys == desired && g.place.Keys == left)
    && (i == 2 ==> (ok <==> reached))
    && (i > 2 ==> (ok <==> attained))
  }

  ghost predicate CalmOutcome(t: Task, i: nat, ok: bool, h0: Host, g0: VolumeGroup, g: VolumeGroup) {
    var desired := Desired(t.spec, h0);
    OutcomeSoFar(i, ok, Reachable(PVsPart, t.spec, h0, g0), Attains(t.spec, t.lvm.maxPV, t.lvm.maxLV, h0, g0),
                 desired, Left(t.spec, g0.pvs.Keys - desired, g0), g0, g)
  }

  /** No desired volume has been given up and no other taken in. */
  ghost predicate Bounded(before: set<string>, desired: set<string>, after: set<string>) {
    before * desired <= after <= before + desired
  }

  /** Where a pass that began at `m0` stands after its first `i` parts; `ok` if none has failed. */
  ghost predicate PassSoFar(t: Task, i: nat, ok: bool, m0: Moment, m: Moment) {
    && Progress(t, m0, m)
    && (ok ==> AgreesUpTo(i, Quiet(m0, m), t.spec, m.world.host, Choice(t.spec, m.world), Group(m, t.name)))
    && (Quiet(m0, m) ==> Bounded(Group(m0, t.name).pvs.Keys, Desired(t.spec, m0.world.host), Group(m, t.name).pvs.Keys))
    && (Quiet(m0, m) && Reflects(t.lvm, Group(m0, t.name)) && Settled(t.spec, m0.world.host, Group(m0, t.name)) ==>
          Group(m, t.name) == Group(m0, t.name) && OnlyQueries(m0, m))
    && (Calm(m0, t.name) && Promising(t.spec, m0.world.host, Group(m0, t.name)) ==>
          PassCalm(t, i, ok, m0.world.host, Group(m0, t.name), Group(m, t.name)))
    && (Calm(m0, t.name) ==> CalmOutcome(t, i, ok, m0.world.host, Group(m0, t.name), Group(m, t.name)))
    && (ok && i > 1 && Quiet(m0, m) ==> !SelectorAborts(t.spec, m0.world.host))
  }

  lemma PassBegins(t: Task, m: Moment)
    requires Exists(m, t.name) && Near(t, Group(m, t.name))
    ensures PassSoFar(t, 0, true, m, m)
  {
    NoProgress(t, m);
    NoEvents(m);
  }

  lemma LimitsReachable(spec: Spec, h: Host, h0: Host, g0: VolumeGroup, g: VolumeGroup)
    requires Promising(spec, h0, g0)
    requires g.pvs.Keys <= g0.pvs.Keys + Desired(spec, h0) && g.place.Keys <= g0.place.Keys
    ensures Reachable(LimitsPart, spec, h, g)
  {
    SubsetSize(g.pvs.Keys, g0.pvs.Keys + Desired(spec, h0));
    FewerLVs(g0, g);
  }

  lemma FewerLVs(g: VolumeGroup, g': VolumeGroup)
    requires g'.place.Keys <= g.place.Keys
    ensures |g'.LVs()| <= |g.LVs()|
  {
    forall e | e in g'.place
      ensures e in g.place
    {
      assert e in g'.place.Keys;
    }
    SubsetSize(g'.LVs(), g.LVs());
  }

  /** The physical volumes are the second part; before it only tags may differ from the start. */
  lemma PVsCalm(t: Task, ok: bool, more: bool, h0: Host, g0: VolumeGroup, g: VolumeGroup, g': VolumeGroup, h: Host)
    requires Promising(t.spec, h0, g0) && PassCalm(t, 1, ok, h0, g0, g)
    requires h.forest == h0.forest && h.sizes == h0.sizes && h.lost == h0.lost && h.InUse() == h0.InUse()
    requires Touches(PVsPart, g, g') && PartCalmly(PVsPart, t, more, h, g, g')
    ensures PassCalm(t, 2, ok && more, h0, g0, g')
  {
    var desired := Desired(t.spec, h0);
    assert Addable(h, g, desired) == Addable(h0, g0, desired);
    SameRoom(t.spec, h0, h, g0, g, desired);
  }

  lemma SameRoom(spec: Spec, h0: Host, h: Host, g0: VolumeGroup, g: VolumeGroup, desired: set<string>)
    requires g.pvs == g0.pvs && g.place == g0.place && h.sizes == h0.sizes
    ensures Reducible(spec, h, g, desired) == Reducible(spec, h0, g0, desired)
  {
    var e0, e := Extended(g0, desired - g0.pvs.Keys, h0), Extended(g, desired - g.pvs.Keys, h);
    assert e.pvs == e0.pvs && e.place == e0.place;
    var gone := g.pvs.Keys - desired;
    assert e.On(gone) == e0.On(gone) && e.On(desired) == e0.On(desired);
    assert e.Slots(desired) == e0.Slots(desired);
  }

  /** The other parts change neither physical volumes nor placement. */
  lemma OtherCalm(spec: Spec, i: nat, ok: bool, addable: bool, desired: set<string>,
                  g0: VolumeGroup, g: VolumeGroup, g': VolumeGroup, h': Host)
    requires i < |SYNCERS| && i != 1 && CalmSoFar(spec, i, ok, addable, desired, g0, g)
    requires Touches(SYNCERS[i], g, g') && Agrees(SYNCERS[i], spec, h', g')
    ensures CalmSoFar(spec, i + 1, ok, addable, desired, g0, g')
  {
    OtherPartsKeep(SYNCERS[i], g, g');
  }

  lemma OthersReached(t: Task, i: nat, ok: bool, more: bool, h0: Host, g0: VolumeGroup, g: VolumeGroup,
                      g': VolumeGroup, h: Host)
    requires i < |SYNCERS| && i != 1 && Promising(t.spec, h0, g0) && PassCalm(t, i, ok, h0, g0, g)
    requires PartCalmly(SYNCERS[i], t, more, h, g, g')
    ensures more
  {
    if i == 2 {
      LimitsReachable(t.spec, h, h0, g0, g);
    }
  }

  lemma OtherPartsKeep(p: Part, g: VolumeGroup, g': VolumeGroup)
    requires p != PVsPart && Touches(p, g, g')
    ensures g'.pvs == g.pvs && g'.place == g.place
    ensures p != TagsPart ==> g'.tags == g.tags
    ensures p != LimitsPart ==> g'.maxPV == g.maxPV && g'.maxLV == g.maxLV
    ensures p != PolicyPart ==> g'.policy == g.policy
    ensures p != AutoActivationPart ==> g'.autoActivation == g.autoActivation
  {
  }

  lemma SameInUse(h: Host, h': Host)
    requires h'.vgs.Keys == h.vgs.Keys && forall n | n in h.vgs :: h'.vgs[n].pvs.Keys == h.vgs[n].pvs.Keys
    ensures h'.InUse() == h.InUse()
  {
  }

  /** Undisturbed, the host stays as it is but for the group. */
  lemma CalmHost(t: Task, m0: Moment, m: Moment)
    requires Progress(t, m0, m) && Calm(m0, t.name)
    ensures var h0, h := m0.world.host, m.world.host;
            h.forest == h0.forest && h.sizes == h0.sizes && h.lost == h0.lost
    ensures Group(m, t.name).pvs == Group(m0, t.name).pvs ==> m.world.host.InUse() == m0.world.host.InUse()
  {
    if Group(m, t.name).pvs == Group(m0, t.name).pvs {
      SameInUse(m0.world.host, m.world.host);
    }
  }

  lemma PVsPassCalmly(t: Task, ok: bool, more: bool, m0: Moment, m: Moment, m': Moment)
    requires Progress(t, m0, m) && PassCalm(t, 1, ok, m0.world.host, Group(m0, t.name), Group(m, t.name))
    requires PartDone(PVsPart, t, more, m, m')
    requires Calm(m0, t.name) && Promising(t.spec, m0.world.host, Group(m0, t.name))
    ensures PassCalm(t, 2, ok && more, m0.world.host, Group(m0, t.name), Group(m', t.name))
  {
    CalmHost(t, m0, m);
    PVsCalm(t, ok, more, m0.world.host, Group(m0, t.name), Group(m, t.name), Group(m', t.name), m.world.host);
  }

  lemma OtherPassCalmly(t: Task, i: nat, ok: bool, more: bool, m0: Moment, m: Moment, m': Moment)
    requires i < |SYNCERS| && i != 1 && PassSoFar(t, i, ok, m0, m) && PartDone(SYNCERS[i], t, more, m, m')
    requires Calm(m0, t.name) && Promising(t.spec, m0.world.host, Group(m0, t.name))
    ensures PassCalm(t, i + 1, ok && more, m0.world.host, Group(m0, t.name), Group(m', t.name))
  {
    var h0, g0, g, g' := m0.world.host, Group(m0, t.name), Group(m, t.name), Group(m', t.name);
    var desired := Desired(t.spec, h0);
    OthersReached(t, i, ok, more, h0, g0, g, g', m.world.host);
    OtherCalm(t.spec, i, ok, Addable(h0, g0, desired), desired, g0, g, g', m'.world.host);
  }

  lemma PVsOutcome(t: Task, ok: bool, more: bool, h0: Host, g0: VolumeGroup, g: VolumeGroup, g': VolumeGroup, h: Host)
    requires CalmOutcome(t, 1, ok, h0, g0, g) && PartCalmly(PVsPart, t, more, h, g, g')
    requires h.forest == h0.forest && h.sizes == h0.sizes && h.lost == h0.lost && h.InUse() == h0.InUse()
    ensures CalmOutcome(t, 2, ok && more, h0, g0, g')
  {
    var desired := Desired(t.spec, h0);
    assert Addable(h, g, desired) == Addable(h0, g0, desired);
    SameRoom(t.spec, h0, h, g0, g, desired);
  }

  lemma LVsAreThose(g: VolumeGroup)
    ensures g.LVs() == LVsOf(g.place.Keys)
  {
  }

  lemma LimitsOutcome(t: Task, ok: bool, more: bool, h0: Host, g0: VolumeGroup, g: VolumeGroup, g': VolumeGroup,
                      h: Host)
    requires CalmOutcome(t, 2, ok, h0, g0, g) && PartCalmly(LimitsPart, t, more, h, g, g') && Touches(LimitsPart, g, g')
    ensures CalmOutcome(t, 3, ok && more, h0, g0, g')
  {
    LVsAreThose(g);
    assert |g.pvs| == |g.pvs.Keys|;
  }

  lemma OtherOutcome(t: Task, i: nat, ok: bool, more: bool, h0: Host, g0: VolumeGroup, g: VolumeGroup, g': VolumeGroup,
                     h: Host)
    requires i < |SYNCERS| && i != 1 && i != 2 && CalmOutcome(t, i, ok, h0, g0, g)
    requires PartCalmly(SYNCERS[i], t, more, h, g, g') && Touches(SYNCERS[i], g, g')
    ensures CalmOutcome(t, i + 1, ok && more, h0, g0, g')
  {
    OtherPartsKeep(SYNCERS[i], g, g');
  }

  lemma PVsOutcomeGoesOn(t: Task, ok: bool, more: bool, m0: Moment, m: Moment, m': Moment)
    requires Progress(t, m0, m) && PartDone(PVsPart, t, more, m, m') && Calm(m0, t.name)
    requires CalmOutcome(t, 1, ok, m0.world.host, Group(m0, t.name), Group(m, t.name))
    ensures CalmOutcome(t, 2, ok && more, m0.world.host, Group(m0, t.name), Group(m', t.name))
  {
    CalmHost(t, m0, m);
    PVsOutcome(t, ok, more, m0.world.host, Group(m0, t.name), Group(m, t.name), Group(m', t.name), m.world.host);
  }

  lemma OutcomeGoesOn(t: Task, i: nat, ok: bool, more: bool, m0: Moment, m: Moment, m': Moment)
    requires i < |SYNCERS| && Progress(t, m0, m) && PartDone(SYNCERS[i], t, more, m, m') && Calm(m0, t.name)
    requires CalmOutcome(t, i, ok, m0.world.host, Group(m0, t.name), Group(m, t.name))
    ensures CalmOutcome(t, i + 1, ok && more, m0.world.host, Group(m0, t.name), Group(m', t.name))
  {
    var h0, h, g0, g, g' := m0.world.host, m.world.host, Group(m0, t.name), Group(m, t.name), Group(m', t.name);
    if i == 1 {
      PVsOutcomeGoesOn(t, ok, more, m0, m, m');
    } else if i == 2 {
      LimitsOutcome(t, ok, more, h0, g0, g, g', h);
    } else {
      OtherOutcome(t, i, ok, more, h0, g0, g, g', h);
    }
  }

  lemma AgreesGoOn(i: nat, quiet: bool, spec: Spec, h: Host, h': Host, choice: Option<set<string>>,
                   choice': Option<set<string>>,
                   g: VolumeGroup, g': VolumeGroup)
    requires i < |SYNCERS| && AgreesUpTo(i, quiet, spec, h, choice, g) && Touches(SYNCERS[i], g, g')
    requires (SYNCERS[i].PVsPart? ==> quiet) ==> Agrees(SYNCERS[i], spec, h', g')
    requires if SYNCERS[i].PVsPart? then choice' == Some(g'.pvs.Keys) else choice' == choice
    requires quiet ==> h'.forest == h.forest
    ensures AgreesUpTo(i + 1, quiet, spec, h', choice', g')
  {
  }

  lemma SettledPart(p: Part, spec: Spec, h: Host, g: VolumeGroup)
    requires Settled(spec, h, g)
    ensures Agrees(p, spec, h, g)
  {
  }

  lemma BoundedOn(before: set<string>, desired: set<string>, between: set<string>, after: set<string>)
    requires Bounded(before, desired, between) && Between(between, desired, after)
    ensures Bounded(before, desired, after)
  {
  }

  lemma StaysBounded(t: Task, i: nat, more: bool, m0: Moment, m: Moment, m': Moment)
    requires i < |SYNCERS| && Progress(t, m0, m) && PartDone(SYNCERS[i], t, more, m, m')
    requires Quiet(m0, m') && m'.disruptions <= m.disruptions <= m0.disruptions
    requires Bounded(Group(m0, t.name).pvs.Keys, Desired(t.spec, m0.world.host), Group(m, t.name).pvs.Keys)
    ensures Bounded(Group(m0, t.name).pvs.Keys, Desired(t.spec, m0.world.host), Group(m', t.name).pvs.Keys)
  {
    var desired := Desired(t.spec, m0.world.host);
    if SYNCERS[i].PVsPart? {
      assert m.world.host.forest == m0.world.host.forest;
      BoundedOn(Group(m0, t.name).pvs.Keys, desired, Group(m, t.name).pvs.Keys, Group(m', t.name).pvs.Keys);
    } else {
      OtherPartsKeep(SYNCERS[i], Group(m, t.name), Group(m', t.name));
    }
  }

  lemma SameForestQuiet(t: Task, m0: Moment, m: Moment)
    requires Progress(t, m0, m)
    ensures Quiet(m0, m) ==> m.world.host.forest == m0.world.host.forest
  {
  }

  lemma PassGoesOn(t: Task, i: nat, ok: bool, more: bool, m0: Moment, m: Moment, m': Moment)
    requires i < |SYNCERS| && PassSoFar(t, i, ok, m0, m) && PartDone(SYNCERS[i], t, more, m, m')
    ensures PassSoFar(t, i + 1, ok && more, m0, m')
    ensures Blames(t.name, m, m') ==> Blames(t.name, m0, m')
  {
    ProgressTransitive(t, m0, m, m');
    if Quiet(m0, m') {
      SameForestQuiet(t, m0, m);
      StaysBounded(t, i, more, m0, m, m');
    }
    if ok && more {
      AgreesGoOn(i, Quiet(m0, m'), t.spec, m.world.host, m'.world.host,
                 Choice(t.spec, m.world), Choice(t.spec, m'.world), Group(m, t.name), Group(m', t.name));
    }
    if Quiet(m0, m') && Settled(t.spec, m0.world.host, Group(m0, t.name)) {
      SettledPart(SYNCERS[i], t.spec, m0.world.host, Group(m0, t.name));
    }
    if Calm(m0, t.name) {
      OutcomeGoesOn(t, i, ok, more, m0, m, m');
    }
    if Calm(m0, t.name) && Promising(t.spec, m0.world.host, Group(m0, t.name)) {
      if i == 1 {
        PVsPassCalmly(t, ok, more, m0, m, m');
      } else {
        OtherPassCalmly(t, i, ok, more, m0, m, m');
      }
    }
  }

  lemma BlameStays(name: string, m0: Moment, m: Moment, m': Moment)
    requires Continues(m0, m) && Continues(m, m') && Blames(name, m0, m)
    ensures Blames(name, m0, m')
  {
    ContinuesTransitive(m0, m, m');
    var e :| e in Since(m0, m) && Mutating(e.action);
    assert e in Since(m0, m');
  }

  lemma SameForest(t: Task, m0: Moment, m: Moment)
    requires Progress(t, m0, m)
    ensures Undisturbed(m0) ==> Undisturbed(m) && m.world.host.forest == m0.world.host.forest
  {
  }

  /** Once the volumes have been dealt with undisturbed, the selector is known not to panic. */
  predicate Spared(t: Task, i: nat, m0: Moment) {
    i > 1 && Undisturbed(m0) ==> !SelectorPanics(t.spec, m0.world.host)
  }

  lemma SparedOn(t: Task, i: nat, m0: Moment, m: Moment)
    requires Progress(t, m0, m) && Spared(t, i, m0) && i < |SYNCERS|
    requires SYNCERS[i].PVsPart? && Undisturbed(m) ==> !SelectorPanics(t.spec, m.world.host)
    ensures Spared(t, i + 1, m0)
  {
    SameForest(t, m0, m);
  }

  lemma NextPart(t: Task, i: nat, ok: bool, more: bool, m0: Moment, m: Moment, m': Moment)
    requires i < |SYNCERS| && PassSoFar(t, i, ok, m0, m) && PartDone(SYNCERS[i], t, more, m, m') && Spared(t, i, m0)
    requires SYNCERS[i].PVsPart? && Undisturbed(m) ==> !SelectorPanics(t.spec, m.world.host)
    ensures PassSoFar(t, i + 1, ok && more, m0, m') && Spared(t, i + 1, m0)
    ensures Blames(t.name, m0, m) || Blames(t.name, m, m') ==> Blames(t.name, m0, m')
  {
    PassGoesOn(t, i, ok, more, m0, m, m');
    SparedOn(t, i, m0, m);
    if Blames(t.name, m0, m) {
      BlameStays(t.name, m0, m, m');
    }
  }

  // ---- the whole synchronisation ----

  /** What a synchronisation guarantees, however often it repairs and starts over with the same snapshot. */
  ghost predicate SyncCore(t: Task, ok: bool, m: Moment, m': Moment) {
    && Ran(t, m, m')
    && var h, g, g' := m.world.host, Group(m, t.name), Group(m', t.name);
       && Near(t, g')
       && (ok ==> PropertiesAgree(t.spec, g'))
       && (ok ==> Choice(t.spec, m'.world) == Some(g'.pvs.Keys))
       && (ok && Quiet(m, m') ==> Settled(t.spec, m'.world.host, g'))
       && (Quiet(m, m') ==>
             && (g.pvs.Keys - h.Missing(t.name)) * Desired(t.spec, h) <= g'.pvs.Keys <= g.pvs.Keys + Desired(t.spec, h)
             && m'.world.host.Missing(t.name) <= h.Missing(t.name))
       && (Quiet(m, m') && Reflects(t.lvm, g) && Settled(t.spec, h, g) ==> g' == g && OnlyQueries(m, m'))
       && (Calm(m, t.name) && Promising(t.spec, h, g) ==>
             && Calm(m', t.name)
             && (ok <==> Addable(h, g, Desired(t.spec, h)))
             && g'.place.Keys <= g.place.Keys
             && (!ok ==> PropertiesAgree(t.spec, g') && g'.pvs == g.pvs && g'.place == g.place))
       && (Calm(m, t.name) ==> Calm(m', t.name) && (ok <==> Attains(t.spec, t.lvm.maxPV, t.lvm.maxLV, h, g)))
  }

  function Repair(t: Task): Command {
    Command.RemoveMissing(t.name, t.spec.deviceLoss.ForceRemoveMissing?)
  }

  /** A group with missing volumes can be mended: the policy allows it, and lvm2 does. */
  predicate Mends(t: Task, h: Host, g: VolumeGroup) {
    !t.spec.deviceLoss.FailOnLoss? && GroupEnabled(h, g, Repair(t))
  }

  function Mended(h: Host, name: string): Host
    requires name in h.vgs
  {
    h.(vgs := h.vgs[name := WithoutMissing(h.vgs[name], h.Missing(name))])
  }

  /** The part would be changed: it does not agree, and for the volumes this can be told. */
  ghost predicate DuePart(p: Part, spec: Spec, h: Host, g: VolumeGroup) {
    !Agrees(p, spec, h, g) && (p.PVsPart? ==> !SelectorAborts(spec, h))
  }

  ghost predicate DueUpTo(i: nat, spec: Spec, h: Host, g: VolumeGroup)
    requires i <= |SYNCERS|
  {
    exists j | 0 <= j < i :: DuePart(SYNCERS[j], spec, h, g)
  }

  lemma DueNext(i: nat, spec: Spec, h: Host, g: VolumeGroup)
    requires i < |SYNCERS|
    ensures DueUpTo(i + 1, spec, h, g) <==> DueUpTo(i, spec, h, g) || DuePart(SYNCERS[i], spec, h, g)
  {
  }

  /** Something would be changed. */
  ghost predicate Due(spec: Spec, h: Host, g: VolumeGroup) {
    && !SelectorPanics(spec, h)
    && (!PropertiesAgree(spec, g) || (!SelectorAborts(spec, h) && g.pvs.Keys != Desired(spec, h)))
  }

  lemma AllPartsDue(spec: Spec, h: Host, g: VolumeGroup)
    ensures Due(spec, h, g) <==> !SelectorPanics(spec, h) && DueUpTo(|SYNCERS|, spec, h, g)
  {
    assert forall i | 0 <= i < 6 :: DuePart(SYNCERS[i], spec, h, g) ==> DueUpTo(6, spec, h, g);
    assert SYNCERS[0] == TagsPart && SYNCERS[1] == PVsPart && SYNCERS[2] == LimitsPart;
    assert SYNCERS[3] == PolicyPart && SYNCERS[4] == AutoActivationPart;
  }

  /**
   * With volumes missing and nothing else disturbing: what is settled already needs no more than a selector that
   * can be evaluated; anything else succeeds exactly if the group can be mended and the mended group attains the
   * specification. The missing volumes are removed exactly if something would be changed and the group can be
   * mended; otherwise it stays as it is.
   */
  ghost predicate LossOutcome(t: Task, ok: bool, m: Moment, m': Moment)
    requires Exists(m, t.name)
  {
    var h, g := m.world.host, Group(m, t.name);
    Lossy(m, t.name) && Reflects(t.lvm, g) ==>
      && (ok <==>
            if Settled(t.spec, h, g) then !SelectorAborts(t.spec, h)
            else
              && Mends(t, h, g)
              && Attains(t.spec, t.lvm.maxPV, t.lvm.maxLV, Mended(h, t.name), Mended(h, t.name).vgs[t.name]))
      && (if Mends(t, h, g) && Due(t.spec, h, g) then m'.world.host.Missing(t.name) == {} else m'.world.host == h)
  }

  ghost predicate SyncDone(t: Task, ok: bool, m: Moment, m': Moment) {
    SyncCore(t, ok, m, m') && LossOutcome(t, ok, m, m')
  }

  lemma AbortsAttainsNot(spec: Spec, maxPV: int, maxLV: int, h: Host, g: VolumeGroup)
    requires SelectorAborts(spec, h)
    ensures !Attains(spec, maxPV, maxLV, h, g)
  {
  }

  /** The end of a pass after which nothing is repaired. */
  lemma PassEnds(t: Task, ok: bool, complains: bool, m: Moment, m': Moment)
    requires PassSoFar(t, |SYNCERS|, ok, m, m')
    requires Stalled(t.name, ok || complains || SelectorAborts(t.spec, m.world.host), m, m')
    requires complains ==> !ok && t.spec.deviceLoss.FailOnLoss? && Blames(t.name, m, m')
    requires Lossy(m, t.name) && Reflects(t.lvm, Group(m, t.name)) && Due(t.spec, m.world.host, Group(m, t.name)) ==>
               complains
    ensures SyncDone(t, ok, m, m')
  {
    if SelectorAborts(t.spec, m.world.host) {
      AbortsAttainsNot(t.spec, t.lvm.maxPV, t.lvm.maxLV, Mended(m.world.host, t.name),
          Mended(m.world.host, t.name).vgs[t.name]);
    }
  }

  lemma PanicIsCore(t: Task, i: nat, ok: bool, m0: Moment, m: Moment, m': Moment)
    requires i < |SYNCERS| && PassSoFar(t, i, ok, m0, m) && PartDone(SYNCERS[i], t, false, m, m')
    requires SelectorPanics(t.spec, m'.world.host)
    ensures SyncCore(t, false, m0, m')
  {
    Selector.AbortsIffFault(t.spec.selector, Flatten(m'.world.host.forest));
    PassGoesOn(t, i, ok, false, m0, m, m');
    if Calm(m0, t.name) {
      SameForest(t, m0, m');
      AbortsAttainsNot(t.spec, t.lvm.maxPV, t.lvm.maxLV, m0.world.host, Group(m0, t.name));
    }
  }

  lemma PassPanics(t: Task, i: nat, ok: bool, m0: Moment, m: Moment, m': Moment)
    requires i < |SYNCERS| && PassSoFar(t, i, ok, m0, m) && PartDone(SYNCERS[i], t, false, m, m')
    requires SelectorPanics(t.spec, m'.world.host) && Stalled(t.name, true, m0, m')
    ensures SyncDone(t, false, m0, m')
  {
    PanicIsCore(t, i, ok, m0, m, m');
    if Lossy(m0, t.name) {
      Selector.AbortsIffFault(t.spec.selector, Flatten(m0.world.host.forest));
      AbortsAttainsNot(t.spec, t.lvm.maxPV, t.lvm.maxLV, Mended(m0.world.host, t.name),
          Mended(m0.world.host, t.name).vgs[t.name]);
    }
  }

  /** A repair clears the missing volumes of the group unless more devices are lost meanwhile. */
  lemma RepairClears(t: Task, err: Option<Error>, m: Moment, m': Moment)
    requires Called(m, Repair(t), err, m') && Near(t, Group(m, t.name)) && !t.spec.deviceLoss.FailOnLoss?
    ensures Ran(t, m, m') && Near(t, Group(m', t.name))
    ensures err.None? && Quiet(m, m') ==> m'.world.host.Missing(t.name) == {}
    ensures Quiet(m, m') ==>
              && Group(m, t.name).pvs.Keys - m.world.host.Missing(t.name) <= Group(m', t.name).pvs.Keys
              && Group(m', t.name).pvs.Keys <= Group(m, t.name).pvs.Keys
              && m'.world.host.Missing(t.name) <= m.world.host.Missing(t.name)
  {
    var h, g, g' := SeenHost(m, m'), Group(m, t.name), Group(m', t.name);
    assert g' == g.(pvs := g'.pvs, place := g'.place);
    CallRan(t, m, Repair(t), err, m');
  }

  /** A pass that failed on missing volumes, then the repair; `m0` was neither calm nor settled. */
  ghost predicate Repaired(t: Task, cleared: bool, m0: Moment, m: Moment) {
    && SyncCore(t, false, m0, m) && !Calm(m0, t.name)
    && (cleared && Quiet(m0, m) ==> |m.world.host.Missing(t.name)| < |m0.world.host.Missing(t.name)|)
    && (Quiet(m0, m) && Reflects(t.lvm, Group(m0, t.name)) ==>
          !Settled(t.spec, m0.world.host, Group(m0, t.name)))
    && (Lossy(m0, t.name) && Reflects(t.lvm, Group(m0, t.name)) ==> Due(t.spec, m0.world.host, Group(m0, t.name)))
    && (Lossy(m0, t.name) ==>
          && (cleared <==> Mends(t, m0.world.host, Group(m0, t.name)))
          && (if cleared then Calm(m, t.name) && m.world.host == Mended(m0.world.host, t.name)
              else m.world.host == m0.world.host))
  }

  /** What holds along the way, and the measure that falls. */
  lemma RepairBounds(t: Task, ok: bool, err: Option<Error>, m0: Moment, m1: Moment, m: Moment)
    requires PassSoFar(t, |SYNCERS|, ok, m0, m1) && Quiet(m0, m) && m.disruptions <= m1.disruptions <= m0.disruptions
    requires Called(m1, Repair(t), err, m) && !t.spec.deviceLoss.FailOnLoss?
    ensures var p, p', desired := Group(m0, t.name).pvs.Keys, Group(m, t.name).pvs.Keys, Desired(t.spec, m0.world.host);
            (p - m0.world.host.Missing(t.name)) * desired <= p' <= p + desired
    ensures m.world.host.Missing(t.name) <= m0.world.host.Missing(t.name)
    ensures err.None? ==> m.world.host.Missing(t.name) == {}
  {
    RepairClears(t, err, m1, m);
  }

  /** Undisturbed, a repair succeeds exactly if the group can be mended, and mends it. */
  lemma RepairMends(t: Task, err: Option<Error>, m0: Moment, m1: Moment, m: Moment)
    requires Lossy(m0, t.name) && Undisturbed(m1) && m1.world.host == m0.world.host
    requires Called(m1, Repair(t), err, m) && !t.spec.deviceLoss.FailOnLoss?
    ensures err.None? <==> Mends(t, m0.world.host, Group(m0, t.name))
    ensures Undisturbed(m)
    ensures m.world.host == if err.None? then Mended(m0.world.host, t.name) else m0.world.host
  {
  }

  lemma RepairIsCore(t: Task, ok: bool, err: Option<Error>, m0: Moment, m1: Moment, m: Moment)
    requires PassSoFar(t, |SYNCERS|, ok, m0, m1) && Blames(t.name, m0, m1)
    requires Called(m1, Repair(t), err, m) && !t.spec.deviceLoss.FailOnLoss?
    ensures SyncCore(t, false, m0, m)
  {
    RepairClears(t, err, m1, m);
    RanTransitive(t, m0, m1, m);
    if Quiet(m0, m) {
      RepairBounds(t, ok, err, m0, m1, m);
    }
  }

  lemma AfterRepair(t: Task, ok: bool, err: Option<Error>, m0: Moment, m1: Moment, m: Moment)
    requires PassSoFar(t, |SYNCERS|, ok, m0, m1) && Blames(t.name, m0, m1) && Stalled(t.name, true, m0, m1)
    requires Called(m1, Repair(t), err, m) && !t.spec.deviceLoss.FailOnLoss?
    requires Lossy(m0, t.name) && Reflects(t.lvm, Group(m0, t.name)) ==> Due(t.spec, m0.world.host, Group(m0, t.name))
    ensures Repaired(t, err.None?, m0, m)
  {
    RepairIsCore(t, ok, err, m0, m1, m);
    if Quiet(m0, m) {
      RepairBounds(t, ok, err, m0, m1, m);
    }
    if Lossy(m0, t.name) {
      RepairMends(t, err, m0, m1, m);
    }
  }

  lemma NotMended(t: Task, m0: Moment, m: Moment)
    requires Repaired(t, false, m0, m)
    ensures SyncDone(t, false, m0, m)
  {
  }

  lemma RecursionIsCore(t: Task, ok: bool, m0: Moment, m: Moment, m': Moment)
    requires Repaired(t, true, m0, m) && SyncCore(t, ok, m, m')
    ensures SyncCore(t, ok, m0, m')
  {
    RanTransitive(t, m0, m, m');
  }

  lemma AfterRecursion(t: Task, ok: bool, m0: Moment, m: Moment, m': Moment)
    requires Repaired(t, true, m0, m) && SyncDone(t, ok, m, m')
    ensures SyncDone(t, ok, m0, m')
  {
    RecursionIsCore(t, ok, m0, m, m');
  }
}
