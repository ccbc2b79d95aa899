/** What lvm2 keeps on one host and what each command of the lvm2go client may do to it. */
module Lvm {
  import opened Wrappers
  import opened Utils
  import opened Lsblk

  /** One physical extent's worth of a logical volume. */
  datatype Extent = Extent(lv: string, index: nat)

  /** `pvs` gives each physical volume its capacity in extents, `place` gives each extent its physical volume. */
  datatype VolumeGroup = VolumeGroup(
    tags: set<string>, pvs: map<string, nat>, place: map<Extent, string>,
    maxPV: int, maxLV: int, policy: string, autoActivation: bool)
  {
    function On(ps: set<string>): set<Extent> {
      set e | e in place && place[e] in ps
    }

    function Slots(ps: set<string>): set<(string, int)> {
      set p, i | p in ps && p in pvs && 0 <= i < pvs[p] :: (p, i)
    }

    function LVs(): set<string> {
      set e | e in place :: e.lv
    }

    function LVsOn(ps: set<string>): set<string> {
      set e | e in place && place[e] in ps :: e.lv
    }

    /** All extents of `sources` fit into what is free on `targets`. */
    predicate Fits(sources: set<string>, targets: set<string>) {
      |On(sources)| + |On(targets)| <= |Slots(targets)|
    }

    ghost predicate Valid() {
      && (forall e | e in place :: place[e] in pvs)
      && (forall p | p in pvs :: |On({p})| <= |Slots({p})|)
      && Within(|pvs|, maxPV)
      && Within(|LVs()|, maxLV)
    }
  }

  /** A limit of 0 means no limit. */
  predicate Within(n: int, limit: int) {
    limit == 0 || n <= limit
  }

  /** `lost`: devices lvm2 can no longer find; `sizes`: devices it can use; `forest`: what lsblk sees. */
  datatype Host = Host(
    vgs: map<string, VolumeGroup>, lost: set<string>, sizes: map<string, nat>, forest: seq<BlockDevice>,
    defaultPolicy: string, defaultAutoActivation: bool)
  {
    function InUse(): set<string> {
      set n, p | n in vgs && p in vgs[n].pvs :: p
    }

    function Missing(vg: string): set<string> {
      if vg in vgs then vgs[vg].pvs.Keys * lost else {}
    }

    ghost predicate Valid() {
      && (forall n {:trigger vgs[n].Valid()} | n in vgs :: vgs[n].Valid())
      && (forall n, m {:trigger Apart(vgs[n], vgs[m])} | n in vgs && m in vgs && n != m :: Apart(vgs[n], vgs[m]))
    }
  }

  /** No physical volume is in both groups. */
  predicate Apart(g: VolumeGroup, g': VolumeGroup) {
    g.pvs.Keys !! g'.pvs.Keys
  }

  datatype CreateOptions = CreateOptions(
    tags: seq<string>, pvs: seq<string>, autoActivation: Option<bool>, policy: Option<string>,
    maxPV: Option<int>, maxLV: Option<int>)

  datatype Command =
    | VGS(vg: string)
    | PVS(vg: string)
    | AddTags(vg: string, tags: seq<string>)
    | DelTags(vg: string, tags: seq<string>)
    | Extend(vg: string, pvs: seq<string>)
    | Move(vg: string, source: string, targets: seq<string>)
    | Reduce(vg: string, pvs: seq<string>, force: bool)
    | RemoveMissing(vg: string, force: bool)
    | SetMaxPV(vg: string, limit: int)
    | SetMaxLV(vg: string, limit: int)
    | SetPolicy(vg: string, policy: string)
    | SetAutoActivation(vg: string, on: bool)
    | Rename(vg: string, to: string)
    | Create(vg: string, options: CreateOptions)
    | Remove(vg: string, force: bool)

  predicate Query(c: Command) {
    c.VGS? || c.PVS?
  }

  /** pvmove without destinations may use every other physical volume of the group. */
  function Destinations(g: VolumeGroup, source: string, targets: seq<string>): set<string> {
    if targets == [] then g.pvs.Keys - {source} else Elements(targets)
  }

  /** The command meets lvm2's own conditions. */
  predicate Enabled(h: Host, c: Command) {
    if c.Create? then
      && c.vg !in h.vgs && c.options.pvs != []
      && Usable(h, Elements(c.options.pvs))
      && (c.options.maxPV.Some? ==> LimitOk(|Elements(c.options.pvs)|, c.options.maxPV.value))
      && (c.options.maxLV.Some? ==> LimitOk(0, c.options.maxLV.value))
    else
      && c.vg in h.vgs
      && (c.VGS? || c.PVS? || c.RemoveMissing? || (c.Remove? && c.force) || h.Missing(c.vg) == {})
      && GroupEnabled(h, h.vgs[c.vg], c)
  }

  /** Devices that are there and belong to no volume group. */
  predicate Usable(h: Host, ps: set<string>) {
    ps <= h.sizes.Keys && ps !! h.InUse() && ps !! h.lost
  }

  predicate LimitOk(n: int, limit: int) {
    limit >= 0 && Within(n, limit)
  }

  predicate GroupEnabled(h: Host, g: VolumeGroup, c: Command) {
    match c
    case Extend(_, ps) =>
      && Usable(h, Elements(ps))
      && Within(|g.pvs.Keys + Elements(ps)|, g.maxPV)
    case Move(_, source, targets) =>
      && source in g.pvs && source !in targets && Elements(targets) <= g.pvs.Keys
      && g.Fits({source}, Destinations(g, source, targets))
    case Reduce(_, ps, force) =>
      Elements(ps) < g.pvs.Keys && (force || g.On(Elements(ps)) == {})
    case RemoveMissing(n, force) =>
      h.Missing(n) < g.pvs.Keys && (force || g.On(h.Missing(n)) == {})
    case SetMaxPV(_, limit) => LimitOk(|g.pvs|, limit)
    case SetMaxLV(_, limit) => LimitOk(|g.LVs()|, limit)
    case Rename(_, to) => to !in h.vgs
    case Remove(_, force) => force || g.place == map[]
    case _ => true
  }

  ghost predicate Moved(g: VolumeGroup, source: string, targets: set<string>, g': VolumeGroup) {
    && PartlyMoved(g, source, targets, g')
    && source !in g'.place.Values
  }

  /** Extents of `source` stayed or went to one of `targets`; nothing else moved and nothing was lost. */
  ghost predicate PartlyMoved(g: VolumeGroup, source: string, targets: set<string>, g': VolumeGroup) {
    && g' == g.(place := g'.place)
    && g'.place.Keys == g.place.Keys
    && (forall e | e in g.place :: g'.place[e] == g.place[e] || (g.place[e] == source && g'.place[e] in targets))
    && (forall p | p in g.pvs :: |g'.On({p})| <= |g.Slots({p})|)
  }

  function Without(g: VolumeGroup, gone: set<string>): VolumeGroup {
    g.(pvs := g.pvs - gone, place := map e | e in g.place && g.place[e] !in gone :: g.place[e])
  }

  /** Logical volumes that were partly on the missing devices are removed completely. */
  function WithoutMissing(g: VolumeGroup, gone: set<string>): VolumeGroup {
    g.(pvs := g.pvs - gone, place := map e | e in g.place && e.lv !in g.LVsOn(gone) :: g.place[e])
  }

  function Sized(ps: set<string>, sizes: map<string, nat>): map<string, nat> {
    map p | p in ps && p in sizes :: sizes[p]
  }

  /** What a successful command does to an existing group; pvmove chooses the placement. */
  ghost predicate GroupEffect(h: Host, g: VolumeGroup, c: Command, g': VolumeGroup) {
    match c
    case AddTags(_, tags) => g' == g.(tags := g.tags + Elements(tags))
    case DelTags(_, tags) => g' == g.(tags := g.tags - Elements(tags))
    case Extend(_, ps) => g' == g.(pvs := g.pvs + Sized(Elements(ps), h.sizes))
    case Move(_, source, targets) => Moved(g, source, Destinations(g, source, targets), g')
    case Reduce(_, ps, _) => g' == Without(g, Elements(ps))
    case RemoveMissing(n, _) => g' == WithoutMissing(g, h.Missing(n))
    case SetMaxPV(_, limit) => g' == g.(maxPV := limit)
    case SetMaxLV(_, limit) => g' == g.(maxLV := limit)
    case SetPolicy(_, policy) => g' == g.(policy := policy)
    case SetAutoActivation(_, on) => g' == g.(autoActivation := on)
    case _ => g' == g
  }

  function Created(h: Host, o: CreateOptions): VolumeGroup {
    VolumeGroup(
      Elements(o.tags), Sized(Elements(o.pvs), h.sizes), map[],
      if o.maxPV.Some? then o.maxPV.value else 0,
      if o.maxLV.Some? then o.maxLV.value else 0,
      if o.policy.Some? then o.policy.value else h.defaultPolicy,
      if o.autoActivation.Some? then o.autoActivation.value else h.defaultAutoActivation)
  }

  /** What a successful command does to the host: one group changes, all others stay. */
  ghost predicate Effect(h: Host, c: Command, h': Host) {
    && h' == h.(vgs := h'.vgs)
    && match c
       case Create(n, o) => h'.vgs == h.vgs[n := Created(h, o)]
       case Remove(n, _) => h'.vgs == h.vgs - {n}
       case Rename(n, to) => n in h.vgs && h'.vgs == (h.vgs - {n})[to := h.vgs[n]]
       case _ =>
         && c.vg in h.vgs && c.vg in h'.vgs
         && h'.vgs == h.vgs[c.vg := h'.vgs[c.vg]]
         && GroupEffect(h, h.vgs[c.vg], c, h'.vgs[c.vg])
  }

  // ---- every command keeps a host well formed ----

  lemma SubsetSize<T>(a: set<T>, b: set<T>)
    requires a <= b
    ensures |a| <= |b|
  {
    assert b == a + (b - a);
  }

  lemma FewerExtents(g: VolumeGroup, g': VolumeGroup)
    requires g.Valid() && g'.place.Keys <= g.place.Keys
    requires forall e | e in g'.place :: g'.place[e] == g.place[e]
    requires g'.pvs.Keys <= g.pvs.Keys && forall p | p in g'.pvs :: g'.pvs[p] == g.pvs[p]
    requires forall e | e in g'.place :: g'.place[e] in g'.pvs
    requires g'.maxPV == g.maxPV && g'.maxLV == g.maxLV
    ensures g'.Valid()
  {
    SubsetSize(g'.pvs.Keys, g.pvs.Keys);
    SubsetSize(g'.LVs(), g.LVs());
    forall p | p in g'.pvs
      ensures |g'.On({p})| <= |g'.Slots({p})|
    {
      assert g'.Slots({p}) == g.Slots({p});
      SubsetSize(g'.On({p}), g.On({p}));
    }
  }

  lemma RoomOnPV(g: VolumeGroup, g': VolumeGroup, p: string)
    requires g.Valid() && g'.place == g.place && p in g'.pvs
    requires p in g.pvs ==> g'.pvs[p] == g.pvs[p]
    ensures |g'.On({p})| <= |g'.Slots({p})|
  {
    assert g'.On({p}) == g.On({p});
    if p in g.pvs {
      assert g'.Slots({p}) == g.Slots({p});
    } else {
      assert g.On({p}) == {};
    }
  }

  lemma MorePVsKeepValid(g: VolumeGroup, g': VolumeGroup, more: map<string, nat>)
    requires g.Valid() && more.Keys !! g.pvs.Keys && g' == g.(pvs := g.pvs + more)
    requires Within(|g.pvs.Keys + more.Keys|, g.maxPV)
    ensures g'.Valid()
  {
    assert g'.pvs.Keys == g.pvs.Keys + more.Keys;
    assert g'.LVs() == g.LVs();
    forall p | p in g'.pvs
      ensures |g'.On({p})| <= |g'.Slots({p})|
    {
      RoomOnPV(g, g', p);
    }
  }

  lemma WithoutIsValid(g: VolumeGroup, gone: set<string>)
    requires g.Valid()
    ensures Without(g, gone).Valid() && WithoutMissing(g, gone).Valid()
  {
    FewerExtents(g, Without(g, gone));
    var g' := WithoutMissing(g, gone);
    forall e | e in g'.place
      ensures g'.place[e] in g'.pvs
    {
      assert e.lv !in g.LVsOn(gone);
    }
    FewerExtents(g, g');
  }

  lemma ExtendKeepsValid(h: Host, g: VolumeGroup, ps: set<string>, g': VolumeGroup)
    requires g.Valid() && ps <= h.sizes.Keys && ps !! g.pvs.Keys && Within(|g.pvs.Keys + ps|, g.maxPV)
    requires g' == g.(pvs := g.pvs + Sized(ps, h.sizes))
    ensures g'.Valid()
  {
    assert Sized(ps, h.sizes).Keys == ps;
    MorePVsKeepValid(g, g', Sized(ps, h.sizes));
  }

  lemma GroupEffectKeepsValid(h: Host, g: VolumeGroup, c: Command, g': VolumeGroup)
    requires g.Valid() && GroupEnabled(h, g, c) && GroupEffect(h, g, c, g')
    requires c.Extend? ==> Elements(c.pvs) !! g.pvs.Keys
    ensures g'.Valid()
  {
    match c {
      case Extend(_, ps) => ExtendKeepsValid(h, g, Elements(ps), g');
      case Move(_, source, targets) => MoveKeepsValid(g, source, Destinations(g, source, targets), g');
      case Reduce(_, ps, _) => WithoutIsValid(g, Elements(ps));
      case RemoveMissing(n, _) => WithoutIsValid(g, h.Missing(n));
      case _ => SameExtents(g, g');
    }
  }

  lemma MoveKeepsValid(g: VolumeGroup, source: string, targets: set<string>, g': VolumeGroup)
    requires g.Valid() && PartlyMoved(g, source, targets, g') && targets <= g.pvs.Keys
    ensures g'.Valid()
  {
    assert g'.LVs() == g.LVs();
    forall p | p in g'.pvs
      ensures |g'.On({p})| <= |g'.Slots({p})|
    {
      assert g'.Slots({p}) == g.Slots({p});
    }
  }

  lemma SameExtents(g: VolumeGroup, g': VolumeGroup)
    requires g.Valid() && g'.pvs == g.pvs && g'.place == g.place
    requires Within(|g.pvs|, g'.maxPV) && Within(|g.LVs()|, g'.maxLV)
    ensures g'.Valid()
  {
    assert g'.LVs() == g.LVs();
    forall p | p in g'.pvs
      ensures |g'.On({p})| <= |g'.Slots({p})|
    {
      assert g'.Slots({p}) == g.Slots({p}) && g'.On({p}) == g.On({p});
    }
  }

  lemma CreatedIsValid(h: Host, o: CreateOptions)
    requires o.maxPV.Some? ==> LimitOk(|Elements(o.pvs)|, o.maxPV.value)
    requires o.maxLV.Some? ==> LimitOk(0, o.maxLV.value)
    requires Elements(o.pvs) <= h.sizes.Keys
    ensures Created(h, o).Valid()
  {
    var g := Created(h, o);
    assert g.pvs.Keys == Elements(o.pvs);
    assert g.LVs() == {};
    forall p | p in g.pvs
      ensures |g.On({p})| <= |g.Slots({p})|
    {
      assert g.On({p}) == {};
    }
  }

  lemma OnlyShrinksOrExtends(h: Host, g: VolumeGroup, c: Command, g': VolumeGroup)
    requires GroupEnabled(h, g, c) && GroupEffect(h, g, c, g')
    ensures g'.pvs.Keys <= g.pvs.Keys + (if c.Extend? then Elements(c.pvs) else {})
  {
  }

  lemma OneGroupChanges(h: Host, h': Host, n: string, more: set<string>)
    requires h.Valid() && n in h'.vgs && h'.vgs == h.vgs[n := h'.vgs[n]]
    requires h'.vgs[n].Valid() && more !! h.InUse()
    requires h'.vgs[n].pvs.Keys <= (if n in h.vgs then h.vgs[n].pvs.Keys else {}) + more
    ensures h'.Valid()
  {
    forall m, p | m in h.vgs && m != n && p in h.vgs[m].pvs
      ensures p !in h'.vgs[n].pvs
    {
      assert p in h.InUse();
      if n in h.vgs {
        assert Apart(h.vgs[m], h.vgs[n]);
      }
    }
    forall m, k | m in h'.vgs && k in h'.vgs && m != k
      ensures Apart(h'.vgs[m], h'.vgs[k])
    {
      if m != n && k != n {
        assert Apart(h.vgs[m], h.vgs[k]);
      }
    }
  }

  lemma ChangeKeepsValid(h: Host, c: Command, h': Host)
    requires h.Valid() && Enabled(h, c) && Effect(h, c, h') && !c.Create? && !c.Remove? && !c.Rename?
    ensures h'.Valid()
  {
    var g, g' := h.vgs[c.vg], h'.vgs[c.vg];
    assert forall p | p in g.pvs :: p in h.InUse();
    GroupEffectKeepsValid(h, g, c, g');
    OnlyShrinksOrExtends(h, g, c, g');
    OneGroupChanges(h, h', c.vg, if c.Extend? then Elements(c.pvs) else {});
  }

  /** No command breaks a group, and no physical volume ever ends up in two groups. */
  lemma EffectKeepsValid(h: Host, c: Command, h': Host)
    requires h.Valid() && Enabled(h, c) && Effect(h, c, h')
    ensures h'.Valid()
  {
    if c.Create? {
      CreatedIsValid(h, c.options);
      OneGroupChanges(h, h', c.vg, Elements(c.options.pvs));
    } else if !c.Remove? && !c.Rename? {
      ChangeKeepsValid(h, c, h');
    }
  }

  /** The commands that may destroy extents are the forced ones. */
  predicate Destructive(c: Command) {
    (c.Remove? || c.Reduce? || c.RemoveMissing?) && c.force
  }

  function ExtentsOf(h: Host, n: string): set<Extent> {
    if n in h.vgs then h.vgs[n].place.Keys else {}
  }

  /** Every other command that lvm2 carries out keeps every extent of every group; an unforced removal finds none. */
  lemma GentleKeepsExtents(h: Host, c: Command, h': Host, n: string)
    requires Enabled(h, c) && Effect(h, c, h')
    requires c.vg != n || (!Destructive(c) && !c.Rename?)
    requires c.Rename? ==> c.to != n
    ensures ExtentsOf(h', n) == ExtentsOf(h, n)
  {
    if c.vg == n && !c.Create? {
      var g := h.vgs[n];
      if c.Reduce? {
        EmptyKeepsExtents(g, Elements(c.pvs));
      } else if c.RemoveMissing? {
        EmptyKeepsExtents(g, h.Missing(n));
      }
    }
  }

  lemma EmptyKeepsExtents(g: VolumeGroup, gone: set<string>)
    requires g.On(gone) == {}
    ensures Without(g, gone).place == g.place && WithoutMissing(g, gone).place == g.place
  {
    forall e | e in g.place
      ensures g.place[e] !in gone
    {
      assert e !in g.On(gone);
    }
    assert g.LVsOn(gone) == {};
  }

  /** An interrupted pvmove may leave some extents where it put them. */
  ghost predicate PartialMove(h: Host, c: Command, h': Host) {
    && c.Move? && c.vg in h.vgs && c.vg in h'.vgs && Enabled(h, c)
    && h' == h.(vgs := h.vgs[c.vg := h'.vgs[c.vg]])
    && PartlyMoved(h.vgs[c.vg], c.source, Destinations(h.vgs[c.vg], c.source, c.targets), h'.vgs[c.vg])
  }

  lemma PartialMoveKeepsValid(h: Host, c: Command, h': Host)
    requires h.Valid() && PartialMove(h, c, h')
    ensures h'.Valid()
  {
    var g, g' := h.vgs[c.vg], h'.vgs[c.vg];
    MoveKeepsValid(g, c.source, Destinations(g, c.source, c.targets), g');
    OneGroupChanges(h, h', c.vg, {});
  }
}
