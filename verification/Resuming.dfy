/** Runs that were cut off and taken up again end where uninterrupted ones end. */
module Resuming {
  import opened Wrappers
  import opened Utils
  import opened Lsblk
  import opened Lvm
  import opened Api
  import opened World
  import opened SyncSpec
  import opened ReconcileSpec
  import opened Fleet
  import opened Finalizers
  import Selector

  datatype Properties = Properties(maxPV: int, maxLV: int, policy: string, autoActivation: bool)

  function PropertiesOf(g: VolumeGroup): Properties {
    Properties(g.maxPV, g.maxLV, g.policy, g.autoActivation)
  }

  /** What the group has, or what lvm2 would give it by default. */
  function PropertiesAt(h: Host, name: string): Properties {
    if name in h.vgs then PropertiesOf(h.vgs[name]) else Properties(0, 0, h.defaultPolicy, h.defaultAutoActivation)
  }

  predicate LeavesUnset(spec: Spec, a: Properties, b: Properties) {
    && (spec.maxPV.None? ==> b.maxPV == a.maxPV)
    && (spec.maxLV.None? ==> b.maxLV == a.maxLV)
    && (spec.policy.None? ==> b.policy == a.policy)
    && (spec.autoActivation.None? ==> b.autoActivation == a.autoActivation)
  }

  /** From the `s`-th to the `i`-th state whoever asks for the group asks for this, and nobody deletes it. */
  predicate AlwaysAsks(cs: seq<Cluster>, s: nat, i: nat, node: string, name: string, spec: Spec)
    requires s <= i < |cs|
  {
    && JobAsks(cs[s], node, name, spec)
    && forall j, k | s <= j <= i && k in cs[j].store ::
         About(cs[j].store[k], node, name) ==> cs[j].store[k].spec == spec && cs[j].store[k].deletion.None?
  }

  predicate JobAsks(c: Cluster, node: string, name: string, spec: Spec) {
    JobAbout(c, node, name) ==> c.jobs[node].obj.spec == spec && c.jobs[node].obj.deletion.None?
  }

  lemma EffectLeavesUnset(h: Host, c: Command, h': Host, spec: Spec, name: string, choice: Option<set<string>>)
    requires Enabled(h, c) && Effect(h, c, h') && c.vg == name
    requires c.Create? ==> exists pvs :: c.options == ConvertToVGCreateOptions(spec, pvs)
    requires c.Create? || (name in h.vgs && CommandPermitted(spec, choice, h.vgs[name], c))
    ensures name in h'.vgs && LeavesUnset(spec, PropertiesAt(h, name), PropertiesAt(h', name))
  {
  }

  predicate StillThere(c: Cluster, c': Cluster, node: string, name: string, spec: Spec) {
    && node in c.hosts && node in c'.hosts
    && (c.Has(node, name) ==> c'.Has(node, name))
    && LeavesUnset(spec, PropertiesAt(c.hosts[node], name), PropertiesAt(c'.hosts[node], name))
  }

  lemma OtherCommand(h: Host, c: Command, h': Host, name: string)
    requires Enabled(h, c) && Effect(h, c, h') && (c.vg != name || Query(c)) && !c.Rename?
    ensures PropertiesAt(h', name) == PropertiesAt(h, name) && (name in h'.vgs <==> name in h.vgs)
  {
  }

  lemma CommandLeavesUnset(c: Cluster, n: string, now: int, e: Event, c': Cluster, name: string, spec: Spec)
    requires Step(c, n, now, e, c') && JobAsks(c, n, name, spec) && e.action.Lvm?
    requires Enabled(e.seen.host, e.action.command) && Effect(e.seen.host, e.action.command, e.after.host)
    ensures name in e.seen.host.vgs ==> name in e.after.host.vgs
    ensures LeavesUnset(spec, PropertiesAt(e.seen.host, name), PropertiesAt(e.after.host, name))
  {
    if e.action.command.vg == name && !Query(e.action.command) {
      EffectLeavesUnset(e.seen.host, e.action.command, e.after.host, spec, name, Choice(spec, e.seen));
    } else {
      OtherCommand(e.seen.host, e.action.command, e.after.host, name);
    }
  }

  lemma SeenProperties(e: Event, name: string)
    requires HappenedAlone(e)
    ensures PropertiesAt(e.seen.host, name) == PropertiesAt(e.before.host, name)
    ensures name in e.seen.host.vgs <==> name in e.before.host.vgs
    ensures !e.action.Lvm? ==> e.after.host == e.seen.host
  {
  }

  lemma MoveLeavesUnset(h: Host, c: Command, h': Host, name: string)
    requires PartialMove(h, c, h')
    ensures PropertiesAt(h', name) == PropertiesAt(h, name) && (name in h'.vgs <==> name in h.vgs)
  {
  }

  lemma StepLeavesUnset(c: Cluster, n: string, now: int, e: Event, c': Cluster, node: string, name: string, spec: Spec)
    requires Step(c, n, now, e, c') && node in c.hosts && JobAsks(c, node, name, spec)
    ensures StillThere(c, c', node, name, spec)
  {
    if n == node {
      var h, h' := e.seen.host, e.after.host;
      SeenProperties(e, name);
      if e.action.Lvm? && Enabled(h, e.action.command) && Effect(h, e.action.command, h') {
        CommandLeavesUnset(c, n, now, e, c', name, spec);
      } else if e.action.Lvm? && PartialMove(h, e.action.command, h') {
        MoveLeavesUnset(h, e.action.command, h', name);
      }
    }
  }

  lemma NextLeavesUnset(cs: seq<Cluster>, s: nat, i: nat, node: string, name: string, spec: Spec)
    requires Run(cs) && s < i < |cs| && node in cs[i - 1].hosts && AlwaysAsks(cs, s, i - 1, node, name, spec)
    ensures StillThere(cs[i - 1], cs[i], node, name, spec)
  {
    JobWasStored(cs, s, i - 1, node);
    assert Advances(cs, i);
    var n, now, e :| Step(cs[i - 1], n, now, e, cs[i]);
    StepLeavesUnset(cs[i - 1], n, now, e, cs[i], node, name, spec);
  }

  /** What the specification leaves open is never touched, from whichever state on and however often cut off. */
  lemma {:induction false} UnsetIsNeverTouched(cs: seq<Cluster>, s: nat, i: nat, node: string, name: string, spec: Spec)
    requires Run(cs) && s <= i < |cs| && node in cs[s].hosts && AlwaysAsks(cs, s, i, node, name, spec)
    ensures StillThere(cs[s], cs[i], node, name, spec)
    decreases i
  {
    if i == s {
    } else {
      UnsetIsNeverTouched(cs, s, i - 1, node, name, spec);
      NextLeavesUnset(cs, s, i, node, name, spec);
    }
  }

  predicate SameOutcome(g: VolumeGroup, g': VolumeGroup) {
    g.tags == g'.tags && g.pvs.Keys == g'.pvs.Keys && PropertiesOf(g) == PropertiesOf(g')
  }

  ghost predicate GroupSettled(c: Cluster, node: string, name: string, spec: Spec) {
    c.Has(node, name) && Settled(spec, c.hosts[node], c.hosts[node].vgs[name])
  }

  lemma OutcomeIsDetermined(cs: seq<Cluster>, s: nat, i: nat, cs': seq<Cluster>, s': nat, i': nat,
                            node: string, name: string, spec: Spec)
    requires Run(cs) && s <= i < |cs| && AlwaysAsks(cs, s, i, node, name, spec) && GroupSettled(cs[i], node, name, spec)
    requires Run(cs') && s' <= i' < |cs'| && AlwaysAsks(cs', s', i', node, name, spec) &&
        GroupSettled(cs'[i'], node, name, spec)
    requires node in cs[s].hosts && node in cs'[s'].hosts
    requires PropertiesAt(cs[s].hosts[node], name) == PropertiesAt(cs'[s'].hosts[node], name)
    requires cs[i].hosts[node].forest == cs'[i'].hosts[node].forest
    ensures SameOutcome(cs[i].hosts[node].vgs[name], cs'[i'].hosts[node].vgs[name])
  {
    UnsetIsNeverTouched(cs, s, i, node, name, spec);
    UnsetIsNeverTouched(cs', s', i', node, name, spec);
  }

  /** A reconcile that ended in this state has reported success, and no device changed while it ran. */
  ghost predicate EndsWell(c: Cluster, node: string, key: string, now: int, o: Object, m: Moment, m': Moment) {
    c.On(node) && m'.world == c.At(node) && Succeeded(node, key, now, o, m, m') && Quiet(m, m')
  }

  lemma EndsSettled(c: Cluster, node: string, key: string, now: int, o: Object, m: Moment, m': Moment)
    requires EndsWell(c, node, key, now, o, m, m')
    ensures GroupSettled(c, node, NameOnNode(o.uid, o.spec), o.spec)
    ensures Claims(c.store, key)
  {
  }

  /** Both groups are the same but for what nobody has asked for, and both resources hold their finalizer. */
  predicate SameEnd(c: Cluster, c': Cluster, node: string, name: string, key: string, key': string) {
    && c.Has(node, name) && c'.Has(node, name) && SameOutcome(c.hosts[node].vgs[name], c'.hosts[node].vgs[name])
    && Claims(c.store, key) && Claims(c'.store, key')
  }

  /**
   * Two runs that set out from the same state of a group, however they were cut off, resumed and repeated. If the
   * last reconcile of each reports success on the same devices, then both leave the group with the same tags,
   * volumes, limits, policy and activation, and the resource with its finalizer.
   */
  lemma SuccessesAgree(cs: seq<Cluster>, s: nat, i: nat, cs': seq<Cluster>, s': nat, i': nat, node: string,
                       name: string,
                       key: string, now: int, o: Object, m0: Moment, m: Moment,
                       key': string, now': int, o': Object, m0': Moment, m': Moment)
    requires Run(cs) && s <= i < |cs| && node in cs[s].hosts && EndsWell(cs[i], node, key, now, o, m0, m)
    requires Run(cs') && s' <= i' < |cs'| && node in cs'[s'].hosts && EndsWell(cs'[i'], node, key', now', o', m0', m')
    requires About(o, node, name) && About(o', node, name) && o'.spec == o.spec
    requires AlwaysAsks(cs, s, i, node, name, o.spec) && AlwaysAsks(cs', s', i', node, name, o.spec)
    requires PropertiesAt(cs[s].hosts[node], name) == PropertiesAt(cs'[s'].hosts[node], name)
    requires cs[i].hosts[node].forest == cs'[i'].hosts[node].forest
    ensures SameEnd(cs[i], cs'[i'], node, name, key, key')
  {
    EndsSettled(cs[i], node, key, now, o, m0, m);
    EndsSettled(cs'[i'], node, key', now', o', m0', m');
    OutcomeIsDetermined(cs, s, i, cs', s', i', node, name, o.spec);
  }

  lemma SameStart(whole: seq<Cluster>, s: nat, n: nat, resumed: seq<Cluster>)
    requires s <= n < |whole| && n < |resumed| && resumed[..n + 1] == whole[..n + 1]
    ensures resumed[s] == whole[s]
  {
    assert resumed[..n + 1][s] == whole[..n + 1][s];
  }

  /**
   * A run in which a reconcile succeeds in the end, and the same run stopped after any of its calls and taken up
   * by whatever reconciles until one succeeds: the end is the same.
   */
  lemma CutOffEndsTheSame(whole: seq<Cluster>, s: nat, n: nat, i: nat, resumed: seq<Cluster>, i': nat, node: string,
                          name: string,
                          key: string, now: int, o: Object, m0: Moment, m: Moment,
                          key': string, now': int, o': Object, m0': Moment, m': Moment)
    requires Run(whole) && s <= n <= i < |whole| && node in whole[s].hosts &&
        EndsWell(whole[i], node, key, now, o, m0, m)
    requires Run(resumed) && n <= i' < |resumed| && EndsWell(resumed[i'], node, key', now', o', m0', m')
    requires resumed[..n + 1] == whole[..n + 1]
    requires About(o, node, name) && About(o', node, name) && o'.spec == o.spec
    requires AlwaysAsks(whole, s, i, node, name, o.spec) && AlwaysAsks(resumed, s, i', node, name, o.spec)
    requires whole[i].hosts[node].forest == resumed[i'].hosts[node].forest
    ensures SameEnd(whole[i], resumed[i'], node, name, key, key')
  {
    SameStart(whole, s, n, resumed);
    SuccessesAgree(whole, s, i, resumed, s, i', node, name, key, now, o, m0, m, key', now', o', m0', m');
  }

  /** The finalizer is there too, once any reconcile has stored it and as long as the resource is kept. */
  lemma FinalizerStays(cs: seq<Cluster>, s: nat, i: nat, key: string, key': string)
    requires Run(cs) && s <= i < |cs| && key in cs[s].store && key' in cs[i].store
    requires VOLUME_GROUP_FINALIZER in cs[s].store[key].finalizers && cs[s].store[key].spec.nodeName in cs[s].hosts
    requires OwnsName(cs, s, i, cs[s].store[key])
    requires cs[i].store[key'].uid == cs[s].store[key].uid && cs[i].store[key'].deletion.None?
    ensures VOLUME_GROUP_FINALIZER in cs[i].store[key'].finalizers
  {
    FinalizerSafety(cs, s, key, i);
    RunIsConsistent(cs, i);
  }

  // ---- where the guarantee ends ----

  function Orphan(): Object {
    Object("u", 0, 1,
           Spec("n", Some("vg"), [Selector.Term([])], [], None, None, None, None, FailOnLoss, MoveAndReduce),
           None, [], [], Status("", {}, [], 0, 0))
  }

  function BareHost(): Host {
    Host(map[], {}, map["/dev/a" := 1], [BlockDevice(map["path" := Text("/dev/a")], [])], "normal", true)
  }

  function OrphanCreate(): Command {
    Create("vg", ConvertToVGCreateOptions(Orphan().spec, ["/dev/a"]))
  }

  function HostWithOrphan(): Host {
    BareHost().(vgs := map["vg" := Created(BareHost(), OrphanCreate().options)])
  }

  /** A call after what users may have done. */
  lemma CallIsStep(c: Cluster, seen: State, a: Action, err: Option<Error>, w': State, c': Cluster)
    requires c.On("n") && DisturbedByUsers(c.At("n"), seen) && Reacts(seen, a, err, w')
    requires a.Get? || (c.jobs["n"].Job? && Issued("n", c.jobs["n"].key, c.jobs["n"].now, c.jobs["n"].obj,
        Event(c.At("n"), seen, a, err, w')))
    requires c' == After(c, "n", 0, Event(c.At("n"), seen, a, err, w'))
    ensures Next(c, c')
  {
    assert Step(c, "n", 0, Event(c.At("n"), seen, a, err, w'), c');
  }

  function Devices(): Option<seq<BlockDevice>> {
    Some(BareHost().forest)
  }

  function OneNode(h: Host, scan: Option<seq<BlockDevice>>, job: Job, store: map<string, Object>): Cluster {
    Cluster(map["n" := h], map["n" := scan], map["n" := job], store, {"u"})
  }

  /** The create succeeds although the resource has just been deleted. */
  lemma CreateForDeleted(c: Cluster, c': Cluster)
    requires c == OneNode(BareHost(), Devices(), Job("k", 0, Orphan()), map["k" := Orphan()])
    requires c' == OneNode(HostWithOrphan(), Devices(), Job("k", 0, Orphan()), map[])
    ensures Next(c, c')
  {
    var seen := State(BareHost(), map[], {"u"}, Devices(), "n");
    var e := Event(c.At("n"), seen, Lvm(OrphanCreate()), None, State(HostWithOrphan(), map[], {"u"}, Devices(), "n"));
    OrphanCanBeCreated();
    OrphanDeviceIsChosen(seen);
    assert Step(c, "n", 0, e, c');
  }

  lemma OrphanDeviceIsChosen(w: State)
    requires w.scan == Devices()
    ensures Choice(Orphan().spec, w) == Some(Elements(["/dev/a"]))
  {
    OrphanDeviceIsSelected();
    assert Elements(["/dev/a"]) == {"/dev/a"};
  }

  lemma OrphanDeviceIsSelected()
    ensures Desired(Orphan().spec, BareHost()) == {"/dev/a"}
    ensures !Selector.Aborts(Orphan().spec.selector, Flatten(BareHost().forest))
  {
    var dev: Columns := map["path" := Text("/dev/a")];
    assert Flatten(BareHost().forest) == [dev] by {
      assert Flatten([]) == [];
      assert BareHost().forest[1..] == [];
    }
    assert Key(COLUMN_PATH) == "path";
    assert Selector.Matches(dev, Selector.Term([]));
    assert Selector.Selects(Orphan().spec.selector, dev);
    assert Selector.Paths(Orphan().spec.selector, [dev]) == {"/dev/a"};
  }

  lemma OrphanCanBeCreated()
    ensures Enabled(BareHost(), OrphanCreate()) && Effect(BareHost(), OrphanCreate(), HostWithOrphan())
  {
    assert BareHost().InUse() == {};
    assert Elements(["/dev/a"]) == {"/dev/a"};
  }

  lemma OrphanIsLookedUp(c: Cluster)
    requires c == OneNode(BareHost(), None, Job("k", 0, Orphan()), map["k" := Orphan()])
    ensures Next(c, c)
  {
    NoDisturbance(c.At("n"));
    CallIsStep(c, c.At("n"), Lvm(VGS("vg")), Some(NotFound), c.At("n"), c);
  }

  lemma DevicesAreListed(c: Cluster, c': Cluster)
    requires c == OneNode(BareHost(), None, Job("k", 0, Orphan()), map["k" := Orphan()])
    requires c' == OneNode(BareHost(), Devices(), Job("k", 0, Orphan()), map["k" := Orphan()])
    ensures Next(c, c')
  {
    NoDisturbance(c.At("n"));
    PathIsRequested();
    CallIsStep(c, c.At("n"), RunLsblk(["PATH"]), None, c'.At("n"), c');
  }

  lemma PathIsRequested()
    ensures Selector.IsRequest(Orphan().spec.selector, ["PATH"])
  {
    assert forall c :: !Selector.References(Orphan().spec.selector, c);
  }

  lemma OrphanIsRead(c: Cluster, c': Cluster)
    requires c == OneNode(BareHost(), None, Idle, map["k" := Orphan()])
    requires c' == OneNode(BareHost(), None, Job("k", 0, Orphan()), map["k" := Orphan()])
    ensures Next(c, c')
  {
    NoDisturbance(c.At("n"));
    CallIsStep(c, c.At("n"), Get("k"), None, c.At("n"), c');
  }

  lemma OrphanBegins(c: Cluster)
    requires c == OneNode(BareHost(), None, Idle, map["k" := Orphan()])
    ensures Begins(c)
  {
  }

  lemma RunBegins(c: Cluster)
    requires Begins(c)
    ensures Run([c])
  {
  }

  lemma TwoMore(cs: seq<Cluster>, a: Cluster, b: Cluster, c: Cluster)
    requires Run(cs) && cs[|cs| - 1] == a && Next(a, b) && Next(b, c)
    ensures Run(cs + [b] + [c])
  {
    RunGoesOn(cs, b);
    RunGoesOn(cs + [b], c);
  }

  /** The finalizer can no longer be stored. */
  lemma ClaimFails(c: Cluster)
    requires c == OneNode(HostWithOrphan(), Devices(), Job("k", 0, Orphan()), map[])
    ensures Next(c, c)
  {
    var w := c.At("n");
    var obj := Orphan().(finalizers := [VOLUME_GROUP_FINALIZER]);
    NoDisturbance(w);
    CallIsStep(c, w, Update("k", obj), Some(NotFound), w, c);
  }

  /** The next reconcile finds no resource. */
  lemma NothingIsRead(c: Cluster, c': Cluster)
    requires c == OneNode(HostWithOrphan(), Devices(), Job("k", 0, Orphan()), map[])
    requires c' == OneNode(HostWithOrphan(), Devices(), Idle, map[])
    ensures Next(c, c')
  {
    var w := c.At("n");
    NoDisturbance(w);
    CallIsStep(c, w, Get("k"), Some(NotFound), w, c');
  }

  lemma OrphanSteps() returns (a: Cluster, b: Cluster, c: Cluster, d: Cluster, e: Cluster)
    ensures Begins(a) && Next(a, b) && Next(b, b) && Next(b, c) && Next(c, d) && Next(d, d) && Next(d, e)
    ensures a.store == map["k" := Orphan()] && !a.Has("n", "vg")
    ensures e.store == map[] && e.Has("n", "vg") && !JobAbout(e, "n", "vg")
  {
    a := OneNode(BareHost(), None, Idle, map["k" := Orphan()]);
    b := OneNode(BareHost(), None, Job("k", 0, Orphan()), map["k" := Orphan()]);
    c := OneNode(BareHost(), Devices(), Job("k", 0, Orphan()), map["k" := Orphan()]);
    d := OneNode(HostWithOrphan(), Devices(), Job("k", 0, Orphan()), map[]);
    e := OneNode(HostWithOrphan(), Devices(), Idle, map[]);
    OrphanIsRead(a, b);
    OrphanIsLookedUp(b);
    DevicesAreListed(b, c);
    CreateForDeleted(c, d);
    ClaimFails(d);
    NothingIsRead(d, e);
    OrphanBegins(a);
  }

  /**
   * The group is created before the finalizer is stored. A resource that is deleted in between is gone at once. The
   * finalizer can no longer be stored, the next reconcile finds no resource, and the group stays behind: from then
   * on nobody asks for it.
   */
  lemma UnclaimedGroupStaysBehind() returns (cs: seq<Cluster>)
    ensures Run(cs) && |cs| == 7
    ensures cs[0].store == map["k" := Orphan()] && !cs[0].Has("n", "vg")
    ensures cs[6].store == map[] && cs[6].Has("n", "vg") && NeverAsked(cs, 6, 6, "n", "vg")
  {
    var a, b, c, d, e := OrphanSteps();
    RunBegins(a);
    TwoMore([a], a, b, b);
    TwoMore([a] + [b] + [b], b, c, d);
    TwoMore([a] + [b] + [b] + [c] + [d], d, d, e);
    cs := [a] + [b] + [b] + [c] + [d] + [d] + [e];
    NobodyAsks(cs, e);
  }

  // ---- a grace period ----

  /** Deleted at 100, with 30 seconds of grace. */
  function Leaving(): Object {
    Orphan().(finalizers := [VOLUME_GROUP_FINALIZER], deletion := Some(Deletion(100, 30)))
  }

  function UsedHost(): Host {
    var g := Created(BareHost(), OrphanCreate().options);
    BareHost().(vgs := map["vg" := g.(place := map[Extent("data", 0) := "/dev/a"])])
  }

  /** A group in use is stuck up to the last second of the grace period, and no longer. */
  lemma GraceRunsOut(now: int)
    ensures Stuck(Leaving(), now, UsedHost()) <==> now <= 130
  {
    assert Extent("data", 0) in UsedHost().vgs["vg"].place;
  }

  // ---- a name that is edited ----

  function Named(): Object {
    Orphan().(finalizers := [VOLUME_GROUP_FINALIZER])
  }

  /** Another name, and then deleted. */
  function Renamed(): Object {
    Named().(version := 1, generation := 2, spec := Named().spec.(nameOnNode := Some("new")),
        deletion := Some(Deletion(0, 0)))
  }

  /**
   * If a group is lost while its resource holds the finalizer, the next reconcile makes it anew and then crashes
   * for the lack of a snapshot. (`Finalizers.MissingGroupIsNeverMet`: this takes somebody else to remove the group.)
   */
  lemma MissingGroupCrashes(m: Moment)
    requires m.world.host == BareHost()
    ensures Crashing(Named(), m) && !SelectorPanics(Named().spec, m.world.host)
  {
    OrphanDeviceIsSelected();
    assert BareHost().InUse() == {};
    CreatableIsNoPanic(Named().spec, m.world.host);
  }

  lemma RenamedIsRead(c: Cluster, c': Cluster)
    requires c == OneNode(HostWithOrphan(), None, Idle, map["k" := Named()])
    requires c' == OneNode(HostWithOrphan(), None, Job("k", 0, Renamed()), map["k" := Renamed()])
    ensures Next(c, c')
  {
    UserRenames(c.At("n"), c'.At("n"));
    ReadIsStep(c, c'.At("n"), "k", c');
  }

  lemma ReadIsStep(c: Cluster, seen: State, key: string, c': Cluster)
    requires c.On("n") && DisturbedByUsers(c.At("n"), seen) && key in seen.store && seen.scan == None
    requires c' == Cluster(c.hosts["n" := seen.host], c.scans["n" := None],
        c.jobs["n" := Job(key, 0, seen.store[key])], seen.store, seen.uids)
    ensures Next(c, c')
  {
    CallIsStep(c, seen, Get(key), None, seen, c');
  }

  lemma UserRenames(w: State, w': State)
    requires w == State(HostWithOrphan(), map["k" := Named()], {"u"}, None, "n") &&
        w' == w.(store := map["k" := Renamed()])
    ensures DisturbedByUsers(w, w')
  {
    assert Evolves(Named(), Renamed());
  }

  lemma NewNameIsNotFound(c: Cluster)
    requires c == OneNode(HostWithOrphan(), None, Job("k", 0, Renamed()), map["k" := Renamed()])
    ensures Next(c, c)
  {
    var w := c.At("n");
    NoDisturbance(w);
    NewNameIsRemoved(Event(w, w, Lvm(Remove("new", false)), Some(NotFound), w));
    CallIsStep(c, w, Lvm(Remove("new", false)), Some(NotFound), w, c);
  }

  lemma NewNameIsRemoved(e: Event)
    requires e.action == Lvm(Remove("new", false))
    ensures Issued("n", "k", 0, Renamed(), e)
  {
  }

  lemma RenamedIsReleased(c: Cluster, c': Cluster)
    requires c == OneNode(HostWithOrphan(), None, Job("k", 0, Renamed()), map["k" := Renamed()])
    requires c' == OneNode(HostWithOrphan(), None, Job("k", 0, Renamed()), map[])
    ensures Next(c, c')
  {
    var obj := Renamed().(finalizers := RemoveFinalizer(Renamed().finalizers));
    assert obj.finalizers == [];
    assert Updated(c.store, "k", obj) == map[];
    NoDisturbance(c.At("n"));
    CallIsStep(c, c.At("n"), Update("k", obj), None, c'.At("n"), c');
  }

  lemma NamedBegins(c: Cluster)
    requires c == OneNode(HostWithOrphan(), None, Idle, map["k" := Named()])
    ensures Begins(c)
  {
    OrphanCanBeCreated();
    EffectKeepsValid(BareHost(), OrphanCreate(), HostWithOrphan());
  }

  lemma RenamedSteps() returns (a: Cluster, b: Cluster, c: Cluster)
    ensures Begins(a) && Next(a, b) && Next(b, b) && Next(b, c)
    ensures a.store == map["k" := Named()] && a.Has("n", "vg")
    ensures c.store == map[] && c.Has("n", "vg") && !JobAbout(c, "n", "vg")
  {
    a := OneNode(HostWithOrphan(), None, Idle, map["k" := Named()]);
    b := OneNode(HostWithOrphan(), None, Job("k", 0, Renamed()), map["k" := Renamed()]);
    c := OneNode(HostWithOrphan(), None, Job("k", 0, Renamed()), map[]);
    RenamedIsRead(a, b);
    NewNameIsNotFound(b);
    RenamedIsReleased(b, c);
    NamedBegins(a);
  }

  lemma FourLong(a: Cluster, b: Cluster, c: Cluster)
    requires Begins(a) && Next(a, b) && Next(b, b) && Next(b, c)
    ensures Run([a] + [b] + [b] + [c])
  {
    RunBegins(a);
    TwoMore([a], a, b, b);
    RunGoesOn([a] + [b] + [b], c);
  }

  lemma NamedIsClaimed()
    ensures About(Named(), "n", "vg") && VOLUME_GROUP_FINALIZER in Named().finalizers
  {
  }

  /**
   * `nameOnNode` may be edited and is looked up anew each time, so the group of the old name is not renamed. It
   * stays behind even if the resource holds its finalizer and is then deleted; from then on nobody asks for it.
   */
  lemma RenamedGroupStaysBehind() returns (cs: seq<Cluster>)
    ensures Run(cs) && |cs| == 4
    ensures cs[0].store == map["k" := Named()] && cs[0].Has("n", "vg")
    ensures About(Named(), "n", "vg") && VOLUME_GROUP_FINALIZER in Named().finalizers
    ensures cs[3].store == map[] && cs[3].Has("n", "vg") && NeverAsked(cs, 3, 3, "n", "vg")
  {
    var a, b, c := RenamedSteps();
    FourLong(a, b, c);
    cs := [a] + [b] + [b] + [c];
    NamedIsClaimed();
    NobodyAsks(cs, c);
  }

  lemma NobodyAsks(cs: seq<Cluster>, c: Cluster)
    requires |cs| > 0 && cs[|cs| - 1] == c && c.store == map[] && !JobAbout(c, "n", "vg")
    ensures NeverAsked(cs, |cs| - 1, |cs| - 1, "n", "vg")
  {
  }
}
