/** One synchronisation after the other, each with a fresh snapshot, while nothing interferes. */
module Rounds {
  import opened Wrappers
  import opened Utils
  import opened Lsblk
  import opened Lvm
  import opened Api
  import opened World
  import opened SyncSpec
  import Selector
  import Moving

  datatype Round = Round(lvm: Snapshot, ok: bool, begin: Moment, end: Moment)

  ghost predicate IsRound(spec: Spec, name: string, r: Round) {
    && Calm(r.begin, name) && Exists(r.begin, name)
    && Reflects(r.lvm, Group(r.begin, name))
    && SyncDone(Task(spec, name, r.lvm), r.ok, r.begin, r.end)
  }

  ghost predicate IsSequence(spec: Spec, name: string, rs: seq<Round>) {
    && (forall i | 0 <= i < |rs| :: IsRound(spec, name, rs[i]))
    && (forall i, j | 0 <= i && j == i + 1 < |rs| :: rs[j].begin.world.host == rs[i].end.world.host)
  }

  /** The host can be brought to the specification, if need be after raising the limit of physical volumes. */
  ghost predicate Attainable(spec: Spec, h: Host, g: VolumeGroup) {
    && Promising(spec, h, g)
    && (spec.maxPV.None? ==> Within(|g.pvs.Keys + Desired(spec, h)|, g.maxPV))
  }

  ghost predicate AttainableAt(spec: Spec, name: string, m: Moment) {
    Exists(m, name) && Attainable(spec, m.world.host, Group(m, name))
  }

  ghost predicate SettledAt(spec: Spec, name: string, m: Moment) {
    Exists(m, name) && Settled(spec, m.world.host, Group(m, name))
  }

  ghost predicate AddableAt(spec: Spec, name: string, m: Moment) {
    Exists(m, name) && Addable(m.world.host, Group(m, name), Desired(spec, m.world.host))
  }

  lemma SettledStaysAttainable(spec: Spec, h: Host, g: VolumeGroup, h': Host, g': VolumeGroup)
    requires Attainable(spec, h, g) && Settled(spec, h', g') && h'.forest == h.forest
    requires g'.place.Keys <= g.place.Keys
    requires g'.pvs.Keys <= g.pvs.Keys + Desired(spec, h)
    requires spec.maxPV.None? ==> g'.maxPV == g.maxPV
    ensures Attainable(spec, h', g') && Addable(h', g', Desired(spec, h'))
  {
    assert g'.pvs.Keys + Desired(spec, h') == g'.pvs.Keys;
    SubsetSize(g'.pvs.Keys, g.pvs.Keys + Desired(spec, h));
    FewerLVs(g, g');
    var desired := Desired(spec, h');
    assert Reducible(spec, h', g', desired) by {
      assert g'.pvs.Keys <= desired;
    }
  }

  /** The limit that stood in the way has been raised; everything else is as it was. */
  lemma FailedStaysAttainable(spec: Spec, h: Host, g: VolumeGroup, h': Host, g': VolumeGroup, name: string)
    requires Attainable(spec, h, g) && PropertiesAgree(spec, g') && g'.pvs == g.pvs && g'.place == g.place
    requires name in h.vgs && h.vgs[name] == g && h' == h.(vgs := h.vgs[name := g'])
    requires spec.maxPV.None? ==> g'.maxPV == g.maxPV
    ensures Attainable(spec, h', g') && Addable(h', g', Desired(spec, h'))
  {
    SamePVs(h, g, h', g', name, Desired(spec, h));
    SameRoom(spec, h, h', g, g', Desired(spec, h));
    SameLVs(g, g');
  }

  lemma SamePVs(h: Host, g: VolumeGroup, h': Host, g': VolumeGroup, name: string, desired: set<string>)
    requires g'.pvs == g.pvs && name in h.vgs && h.vgs[name] == g && h' == h.(vgs := h.vgs[name := g'])
    ensures Usable(h', desired - g'.pvs.Keys) == Usable(h, desired - g.pvs.Keys)
  {
    SameInUse(h, h');
  }

  lemma RoundGoesOn(spec: Spec, name: string, r: Round)
    requires IsRound(spec, name, r) && AttainableAt(spec, name, r.begin)
    ensures AttainableAt(spec, name, r.end) && AddableAt(spec, name, r.end)
    ensures r.ok <==> AddableAt(spec, name, r.begin)
    ensures r.ok ==> SettledAt(spec, name, r.end)
    ensures SettledAt(spec, name, r.begin) ==> OnlyQueries(r.begin, r.end)
  {
    var h, h', g, g' := r.begin.world.host, r.end.world.host, Group(r.begin, name), Group(r.end, name);
    assert Quiet(r.begin, r.end);
    if r.ok {
      SettledStaysAttainable(spec, h, g, h', g');
    } else {
      FailedStaysAttainable(spec, h, g, h', g', name);
    }
  }

  /**
   * The first round succeeds exactly if the limit in force already admits the old and the new physical
   * volumes together. Every later round succeeds, and from the third on nothing is changed any more.
   */
  lemma {:induction false} TwoRoundsSuffice(spec: Spec, name: string, rs: seq<Round>, i: nat)
    requires IsSequence(spec, name, rs) && i < |rs| && AttainableAt(spec, name, rs[0].begin)
    ensures AttainableAt(spec, name, rs[i].begin)
    ensures i == 0 ==> (rs[i].ok <==> AddableAt(spec, name, rs[i].begin))
    ensures i > 0 ==> rs[i].ok
    ensures rs[i].ok ==> SettledAt(spec, name, rs[i].end)
    ensures i > 1 || (i == 1 && rs[0].ok) ==> OnlyQueries(rs[i].begin, rs[i].end)
  {
    if i == 0 {
    } else {
      TwoRoundsSuffice(spec, name, rs, i - 1);
      RoundGoesOn(spec, name, rs[i - 1]);
      assert Group(rs[i].begin, name) == Group(rs[i - 1].end, name);
    }
    RoundGoesOn(spec, name, rs[i]);
  }

  // ---- from any cut ----

  /** One lvm2 call, whole, in part or not at all. */
  ghost predicate Attempted(h: Host, c: Command, h': Host) {
    h' == h || (Enabled(h, c) && Effect(h, c, h')) || PartialMove(h, c, h')
  }

  /** The group can be brought to the specification and lacks no volume. */
  ghost predicate Sound(spec: Spec, name: string, h: Host) {
    name in h.vgs && Attainable(spec, h, h.vgs[name]) && h.Missing(name) == {}
  }

  /** Nothing but this group has changed. */
  predicate OnlyGroup(h: Host, name: string, h': Host) {
    name in h.vgs && name in h'.vgs && h' == h.(vgs := h.vgs[name := h'.vgs[name]])
  }

  lemma SameStaysSound(spec: Spec, name: string, h: Host, h': Host)
    requires Sound(spec, name, h) && OnlyGroup(h, name, h')
    requires h'.vgs[name].pvs == h.vgs[name].pvs && h'.vgs[name].place == h.vgs[name].place
    requires spec.maxPV.None? ==> h'.vgs[name].maxPV == h.vgs[name].maxPV
    ensures Sound(spec, name, h')
  {
    var g, g', desired := h.vgs[name], h'.vgs[name], Desired(spec, h);
    SamePVs(h, g, h', g', name, desired);
    SameRoom(spec, h, h', g, g', desired);
    SameLVs(g, g');
  }

  lemma SizedInSteps(sizes: map<string, nat>, pvs: map<string, nat>, first: set<string>, all: set<string>)
    requires first <= all && all <= sizes.Keys && all !! pvs.Keys
    ensures (pvs + Sized(first, sizes)) + Sized(all - first, sizes) == pvs + Sized(all, sizes)
  {
  }

  /** No more volumes and extents than before are at stake. */
  lemma StaysSound(spec: Spec, name: string, h: Host, h': Host)
    requires Sound(spec, name, h) && OnlyGroup(h, name, h') && h'.vgs[name].maxPV == h.vgs[name].maxPV
    requires var desired, p' := Desired(spec, h), h'.vgs[name].pvs.Keys;
             && (desired <= p' || Usable(h', desired - p'))
             && Reducible(spec, h', h'.vgs[name], desired)
             && p' + desired <= h.vgs[name].pvs.Keys + desired
    requires h'.vgs[name].place.Keys <= h.vgs[name].place.Keys && h'.Missing(name) == {}
    ensures Sound(spec, name, h')
  {
    var g, g', desired := h.vgs[name], h'.vgs[name], Desired(spec, h);
    SubsetSize(g'.pvs.Keys + desired, g.pvs.Keys + desired);
    FewerLVs(g, g');
  }

  lemma ExtendReducible(spec: Spec, h: Host, g: VolumeGroup, h': Host, g': VolumeGroup, desired: set<string>,
                        ps: set<string>)
    requires Reducible(spec, h, g, desired) && (desired <= g.pvs.Keys || Usable(h, desired - g.pvs.Keys))
    requires ps <= desired && ps !! g.pvs.Keys && Usable(h, ps) && h'.sizes == h.sizes
    requires g' == g.(pvs := g.pvs + Sized(ps, h.sizes))
    ensures Reducible(spec, h', g', desired)
  {
    var more, more' := desired - g.pvs.Keys, desired - g'.pvs.Keys;
    assert Sized(ps, h.sizes).Keys == ps;
    assert g'.pvs.Keys - desired == g.pvs.Keys - desired && more' == more - ps;
    if desired <= g.pvs.Keys {
      assert ps == {} && more == {};
    }
    SizedInSteps(h.sizes, g.pvs, ps, more);
    assert Extended(g', more', h') == Extended(g, more, h);
  }

  lemma ExtendStaysSound(spec: Spec, name: string, h: Host, h': Host, ps: set<string>)
    requires Sound(spec, name, h) && OnlyGroup(h, name, h')
    requires ps <= Desired(spec, h) && ps !! h.vgs[name].pvs.Keys && Usable(h, ps)
    requires h'.vgs[name] == h.vgs[name].(pvs := h.vgs[name].pvs + Sized(ps, h.sizes))
    ensures Sound(spec, name, h')
  {
    assert Sized(ps, h.sizes).Keys == ps;
    assert h'.vgs[name].pvs.Keys == h.vgs[name].pvs.Keys + ps;
    ExtendReducible(spec, h, h.vgs[name], h', h'.vgs[name], Desired(spec, h), ps);
    ExtendUsable(h, name, h', ps, Desired(spec, h));
    StaysSound(spec, name, h, h');
  }

  lemma ExtendUsable(h: Host, name: string, h': Host, ps: set<string>, desired: set<string>)
    requires OnlyGroup(h, name, h') && h'.vgs[name].pvs.Keys == h.vgs[name].pvs.Keys + ps && Usable(h, ps)
    requires var p := h.vgs[name].pvs.Keys; h.Missing(name) == {} && (desired <= p || Usable(h, desired - p))
    ensures desired <= h'.vgs[name].pvs.Keys || Usable(h', desired - h'.vgs[name].pvs.Keys)
    ensures h'.Missing(name) == {}
  {
    InUseGrows(h, name, h', ps);
    forall p | p in h'.Missing(name)
      ensures p in h.Missing(name)
    {
    }
  }

  lemma InUseGrows(h: Host, name: string, h': Host, ps: set<string>)
    requires OnlyGroup(h, name, h') && h'.vgs[name].pvs.Keys <= h.vgs[name].pvs.Keys + ps
    ensures h'.InUse() <= h.InUse() + ps
  {
  }

  lemma TotalKept(g: VolumeGroup, source: string, gone: set<string>, desired: set<string>, g': VolumeGroup)
    requires PartlyMoved(g, source, desired, g') && source in gone && gone !! desired
    ensures g'.On(gone) + g'.On(desired) == g.On(gone) + g.On(desired)
    ensures g'.Slots(desired) == g.Slots(desired)
  {
  }

  /** Moving extents from the surplus volumes to the desired ones, wherever it stops, keeps the total. */
  lemma MoveKeepsRoom(g: VolumeGroup, source: string, gone: set<string>, desired: set<string>, g': VolumeGroup)
    requires PartlyMoved(g, source, desired, g') && source in gone && gone !! desired
    requires g.Fits(gone, desired)
    ensures g'.Fits(gone, desired)
  {
    TotalKept(g, source, gone, desired, g');
    Moving.OnSplit(g, gone, desired);
    Moving.OnSplit(g', gone, desired);
    assert g.On(gone + desired) == g.On(gone) + g.On(desired);
    assert g'.On(gone + desired) == g'.On(gone) + g'.On(desired);
  }

  lemma NothingToExtend(g: VolumeGroup, desired: set<string>, h: Host)
    requires desired <= g.pvs.Keys
    ensures Extended(g, desired - g.pvs.Keys, h) == g
  {
    assert desired - g.pvs.Keys == {};
    assert Sized({}, h.sizes) == map[] && g.pvs + map[] == g.pvs;
  }

  lemma MoveStaysSound(spec: Spec, name: string, h: Host, h': Host, source: string)
    requires Sound(spec, name, h) && OnlyGroup(h, name, h') && spec.deviceRemoval.MoveAndReduce?
    requires Desired(spec, h) <= h.vgs[name].pvs.Keys && source in h.vgs[name].pvs.Keys - Desired(spec, h)
    requires PartlyMoved(h.vgs[name], source, Desired(spec, h), h'.vgs[name])
    ensures Sound(spec, name, h')
  {
    var g, g', desired := h.vgs[name], h'.vgs[name], Desired(spec, h);
    NothingToExtend(g, desired, h);
    NothingToExtend(g', desired, h');
    MoveKeepsRoom(g, source, g.pvs.Keys - desired, desired, g');
    FewerLVs(g, g');
  }

  lemma LessToRemove(g: VolumeGroup, ps: set<string>, desired: set<string>)
    requires ps !! desired
    ensures var g' := Without(g, ps);
            && g'.On(g'.pvs.Keys - desired) <= g.On(g.pvs.Keys - desired) && g'.On(desired) == g.On(desired)
            && g'.Slots(desired) == g.Slots(desired)
  {
  }

  lemma StillRemovable(policy: DeviceRemovalPolicy, g: VolumeGroup, ps: set<string>, desired: set<string>)
    requires ps !! desired && Removable(policy, g.pvs.Keys - desired, desired, g)
    ensures Removable(policy, Without(g, ps).pvs.Keys - desired, desired, Without(g, ps))
  {
    LessToRemove(g, ps, desired);
    SubsetSize(Without(g, ps).On(Without(g, ps).pvs.Keys - desired), g.On(g.pvs.Keys - desired));
  }

  lemma ReduceReducible(spec: Spec, h: Host, g: VolumeGroup, h': Host, desired: set<string>, ps: set<string>)
    requires Reducible(spec, h, g, desired) && desired <= g.pvs.Keys && ps <= g.pvs.Keys && ps !! desired
    ensures Reducible(spec, h', Without(g, ps), desired)
  {
    var g' := Without(g, ps);
    NothingToExtend(g, desired, h);
    NothingToExtend(g', desired, h');
    if !(g.pvs.Keys <= desired) {
      StillRemovable(spec.deviceRemoval, g, ps, desired);
    }
  }

  lemma ReduceStaysSound(spec: Spec, name: string, h: Host, h': Host, ps: set<string>)
    requires Sound(spec, name, h) && OnlyGroup(h, name, h') && h'.vgs[name] == Without(h.vgs[name], ps)
    requires Desired(spec, h) <= h.vgs[name].pvs.Keys && ps <= h.vgs[name].pvs.Keys && ps !! Desired(spec, h)
    ensures Sound(spec, name, h')
  {
    ReduceReducible(spec, h, h.vgs[name], h', Desired(spec, h), ps);
    StaysSound(spec, name, h, h');
  }

  lemma NothingMissing(g: VolumeGroup)
    ensures WithoutMissing(g, {}) == g
  {
    assert g.LVsOn({}) == {};
    assert WithoutMissing(g, {}).place == g.place && g.pvs - {} == g.pvs;
  }

  /** Every call that a synchronisation may make leaves the goal in reach, and so does one that is cut off. */
  lemma CallStaysSound(spec: Spec, name: string, h: Host, c: Command, h': Host)
    requires Sound(spec, name, h) && c.vg == name && Attempted(h, c, h')
    requires CommandPermitted(spec, Some(Desired(spec, h)), h.vgs[name], c)
    ensures Sound(spec, name, h') && h'.forest == h.forest
  {
    if h' != h {
      assert OnlyGroup(h, name, h');
      match c {
        case Extend(_, ps) => ExtendStaysSound(spec, name, h, h', Elements(ps));
        case Move(_, source, targets) => MoveCallStaysSound(spec, name, h, source, targets, h');
        case Reduce(_, ps, _) => ReduceStaysSound(spec, name, h, h', Elements(ps));
        case RemoveMissing(_, _) =>
          NothingMissing(h.vgs[name]);
          SameStaysSound(spec, name, h, h');
        case _ => SameStaysSound(spec, name, h, h');
      }
    }
  }

  lemma MoveCallStaysSound(spec: Spec, name: string, h: Host, source: string, targets: seq<string>, h': Host)
    requires Sound(spec, name, h) && Attempted(h, Move(name, source, targets), h') && h' != h
    requires CommandPermitted(spec, Some(Desired(spec, h)), h.vgs[name], Move(name, source, targets))
    ensures Sound(spec, name, h')
  {
    NoneDesired(targets);
    assert source in h.vgs[name].pvs.Keys - Desired(spec, h);
    MoveStaysSound(spec, name, h, h', source);
  }

  /** What the reconcile in progress knows of the devices is still so. */
  predicate KnowsDevices(w: State) {
    w.scan.Some? ==> w.scan.value == w.host.forest
  }

  lemma ChoiceIsDesired(spec: Spec, w: State)
    requires KnowsDevices(w)
    ensures Choice(spec, w).None? || Choice(spec, w) == Some(Desired(spec, w.host))
  {
    if spec.selector == [] {
      assert Desired(spec, w.host) == {};
    }
  }

  /** A permitted call while the devices stay as they are. */
  ghost predicate StableCall(spec: Spec, name: string, e: Event) {
    Permitted(spec, name, e) && e.seen.host == e.before.host
  }

  lemma EventAttempts(e: Event, c: Command)
    requires Reacts(e.seen, e.action, e.error, e.after) && e.action == Lvm(c)
    ensures Attempted(e.seen.host, c, e.after.host) && e.after.scan == e.seen.scan
  {
  }

  lemma QueryKeepsHost(e: Event)
    requires Reacts(e.seen, e.action, e.error, e.after) && e.action.RunLsblk?
    ensures e.after.host == e.seen.host && (KnowsDevices(e.seen) ==> KnowsDevices(e.after))
  {
  }

  lemma EventStaysSound(spec: Spec, name: string, e: Event)
    requires Happened(e) && StableCall(spec, name, e) && Sound(spec, name, e.before.host) && KnowsDevices(e.before)
    ensures Sound(spec, name, e.after.host) && KnowsDevices(e.after)
  {
    if e.action.Lvm? {
      var h, c := e.seen.host, e.action.command;
      EventAttempts(e, c);
      ChoiceIsDesired(spec, e.seen);
      PermittedByDesired(spec, Choice(spec, e.seen), h, h.vgs[name], c);
      CallStaysSound(spec, name, h, c, e.after.host);
    } else {
      QueryKeepsHost(e);
    }
  }

  lemma PermittedByDesired(spec: Spec, choice: Option<set<string>>, h: Host, g: VolumeGroup, c: Command)
    requires CommandPermitted(spec, choice, g, c) && (choice.None? || choice == Some(Desired(spec, h)))
    ensures CommandPermitted(spec, Some(Desired(spec, h)), g, c)
  {
  }

  lemma {:induction false} CallsStaySound(spec: Spec, name: string, events: seq<Event>, w: State, w': State)
    requires Chain(events, w, w') && Sound(spec, name, w.host) && KnowsDevices(w)
    requires forall e | e in events :: StableCall(spec, name, e)
    ensures Sound(spec, name, w'.host) && KnowsDevices(w')
    decreases |events|
  {
    if events == [] {
    } else {
      var k := |events| - 1;
      assert forall e | e in events[..k] :: e in events;
      CallsStaySound(spec, name, events[..k], w, events[k].before);
      assert events[k] in events;
      EventStaysSound(spec, name, events[k]);
    }
  }

  /**
   * Wherever synchronisations on stable devices are cut off, in the middle of a pvmove too, two further rounds reach
   * the specification, and nothing is changed from then on.
   */
  lemma TwoRoundsFromAnyCut(spec: Spec, name: string, events: seq<Event>, w: State, w': State, rs: seq<Round>, i: nat)
    requires Chain(events, w, w') && Sound(spec, name, w.host) && KnowsDevices(w)
    requires forall e | e in events :: StableCall(spec, name, e)
    requires IsSequence(spec, name, rs) && i < |rs| && rs[0].begin.world.host == w'.host
    ensures i > 0 ==> rs[i].ok
    ensures rs[i].ok ==> SettledAt(spec, name, rs[i].end)
    ensures i > 1 || (i == 1 && rs[0].ok) ==> OnlyQueries(rs[i].begin, rs[i].end)
  {
    CallsStaySound(spec, name, events, w, w');
    TwoRoundsSuffice(spec, name, rs, i);
  }
}
