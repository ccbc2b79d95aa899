/** What no run loses and what no run takes: extents and devices. */
module Conservation {
  import opened Wrappers
  import opened Utils
  import opened Lsblk
  import opened Lvm
  import opened Api
  import opened World
  import opened SyncSpec
  import opened ReconcileSpec
  import opened Fleet
  import Selector

  // ---- extents ----

  function Extents(c: Cluster, node: string, name: string): set<Extent> {
    if node in c.hosts then ExtentsOf(c.hosts[node], name) else {}
  }

  /** Not told to use force. */
  predicate Gentle(o: Object) {
    !o.spec.deviceLoss.ForceRemoveMissing? && !o.spec.deviceRemoval.ForceReduce?
  }

  /** If the resource is being deleted, its grace period had not passed when it was read. */
  predicate Patient(job: Job) {
    job.Job? && job.obj.deletion.Some? ==>
      job.now <= job.obj.deletion.value.timestamp + job.obj.deletion.value.gracePeriodSeconds
  }

  predicate WorksGently(c: Cluster, node: string, name: string) {
    JobAbout(c, node, name) ==> Gentle(c.jobs[node].obj) && Patient(c.jobs[node])
  }

  /** From the `s`-th to the `i`-th state nobody works on the group with force or impatience. */
  predicate AlwaysGentle(cs: seq<Cluster>, s: nat, i: nat, node: string, name: string)
    requires s <= i < |cs|
  {
    && (JobAbout(cs[s], node, name) ==> Gentle(cs[s].jobs[node].obj))
    && (forall j, k | s <= j <= i && k in cs[j].store :: About(cs[j].store[k], node, name) ==> Gentle(cs[j].store[k]))
    && (forall j | s <= j <= i :: JobAbout(cs[j], node, name) ==> Patient(cs[j].jobs[node]))
  }

  lemma GentlyAt(cs: seq<Cluster>, s: nat, i: nat, node: string, name: string)
    requires Run(cs) && s <= i < |cs| && AlwaysGentle(cs, s, i, node, name)
    ensures WorksGently(cs[i], node, name)
  {
    JobWasStored(cs, s, i, node);
  }

  lemma CallKeepsExtents(c: Cluster, node: string, now: int, e: Event, c': Cluster, name: string)
    requires Step(c, node, now, e, c') && WorksGently(c, node, name)
    requires e.action.Lvm? && Enabled(e.seen.host, e.action.command) &&
        Effect(e.seen.host, e.action.command, e.after.host)
    ensures ExtentsOf(e.after.host, name) == ExtentsOf(e.seen.host, name)
  {
    GentleKeepsExtents(e.seen.host, e.action.command, e.after.host, name);
  }

  lemma StepKeepsExtents(c: Cluster, n: string, now: int, e: Event, c': Cluster, node: string, name: string)
    requires Step(c, n, now, e, c') && node in c.hosts && WorksGently(c, node, name)
    ensures node in c'.hosts && Extents(c', node, name) == Extents(c, node, name)
  {
    if n == node {
      assert ExtentsOf(e.seen.host, name) == ExtentsOf(e.before.host, name);
      if e.action.Lvm? && Enabled(e.seen.host, e.action.command) &&
          Effect(e.seen.host, e.action.command, e.after.host) {
        CallKeepsExtents(c, node, now, e, c', name);
      } else {
        assert ExtentsOf(e.after.host, name) == ExtentsOf(e.seen.host, name);
      }
    }
  }

  lemma NextKeepsExtents(cs: seq<Cluster>, s: nat, i: nat, node: string, name: string)
    requires Run(cs) && s < i < |cs| && AlwaysGentle(cs, s, i - 1, node, name) && node in cs[i - 1].hosts
    ensures node in cs[i].hosts && Extents(cs[i], node, name) == Extents(cs[i - 1], node, name)
  {
    GentlyAt(cs, s, i - 1, node, name);
    assert Advances(cs, i);
    var n, now, e :| Step(cs[i - 1], n, now, e, cs[i]);
    StepKeepsExtents(cs[i - 1], n, now, e, cs[i], node, name);
  }

  /**
   * The reconcilers lose extents only to force: by a policy that asks for it, or after a read past the grace period
   * of a deletion. Otherwise every extent is kept, not only while the resource is: by any number of reconciles,
   * wherever they fail or are cut off, whatever devices, edits of resources and other nodes do meanwhile. (Nobody
   * else is taken to make or remove logical volumes: `World.DevicesChange`.)
   */
  lemma {:induction false} NothingIsLost(cs: seq<Cluster>, s: nat, i: nat, node: string, name: string)
    requires Run(cs) && s <= i < |cs| && node in cs[s].hosts && AlwaysGentle(cs, s, i, node, name)
    ensures node in cs[i].hosts && Extents(cs[i], node, name) == Extents(cs[s], node, name)
    decreases i
  {
    if i == s {
    } else {
      NothingIsLost(cs, s, i - 1, node, name);
      NextKeepsExtents(cs, s, i, node, name);
    }
  }

  // ---- devices ----

  function PVsOf(h: Host, name: string): set<string> {
    if name in h.vgs then h.vgs[name].pvs.Keys else {}
  }

  /** At some time the node had the device while its reconciler worked on the resource, which selects it. */
  ghost predicate WasSelected(cs: seq<Cluster>, i: nat, node: string, name: string, p: string)
    requires i < |cs|
  {
    exists l | 0 <= l <= i && cs[l].On(node) && JobAbout(cs[l], node, name) ::
      p in Desired(cs[l].jobs[node].obj.spec, cs[l].hosts[node])
  }

  /** From the `l`-th to the `i`-th state the reconciler of the node has been busy with one reconcile. */
  predicate SameJob(cs: seq<Cluster>, l: nat, i: nat, node: string)
    requires l <= i < |cs|
  {
    node in cs[i].jobs && forall x | l <= x <= i :: node in cs[x].jobs && cs[x].jobs[node] == cs[i].jobs[node]
  }

  /** What the reconcile in progress takes for the devices of its node, the node had when it was looked at. */
  ghost predicate ScanWasSeen(cs: seq<Cluster>, i: nat, node: string)
    requires i < |cs|
  {
    cs[i].On(node) && cs[i].jobs[node].Job? && cs[i].scans[node].Some? ==>
      exists l | 0 <= l <= i && SameJob(cs, l, i, node) && cs[l].On(node) ::
        cs[l].hosts[node].forest == cs[i].scans[node].value
  }

  /** A step leaves the reconcile in progress and its scan alone, or begins anew, or looks at the devices. */
  predicate ScanGoesOn(c: Cluster, c': Cluster, node: string)
    requires c.On(node) && c'.On(node)
  {
    || (c'.jobs[node] == c.jobs[node] && c'.scans[node] == c.scans[node])
    || (c'.jobs[node].Job? ==> c'.scans[node].None?)
    || c'.scans[node] == Some(c'.hosts[node].forest)
  }

  lemma StepScans(c: Cluster, c': Cluster, node: string)
    requires Next(c, c') && c.On(node)
    ensures c'.On(node) && ScanGoesOn(c, c', node)
  {
    var n, now, e :| Step(c, n, now, e, c');
    if n == node {
      CallScans(e);
    }
  }

  lemma CallScans(e: Event)
    requires HappenedAlone(e)
    ensures e.after.scan == e.before.scan || e.action.Get? || e.after.scan == Some(e.after.host.forest)
    ensures e.action.Get? && e.error.None? ==> e.after.scan.None?
  {
  }

  lemma NextScanWasSeen(cs: seq<Cluster>, i: nat, node: string)
    requires Run(cs) && 0 < i < |cs| && ScanWasSeen(cs, i - 1, node) && cs[i - 1].On(node)
    ensures ScanWasSeen(cs, i, node)
  {
    assert Advances(cs, i);
    StepScans(cs[i - 1], cs[i], node);
    ScanStaysSeen(cs, i, node);
  }

  lemma ScanStaysSeen(cs: seq<Cluster>, i: nat, node: string)
    requires 0 < i < |cs| && cs[i - 1].On(node) && cs[i].On(node) && ScanGoesOn(cs[i - 1], cs[i], node)
    requires ScanWasSeen(cs, i - 1, node)
    ensures ScanWasSeen(cs, i, node)
  {
    if cs[i].jobs[node].Job? && cs[i].scans[node].Some? {
      if cs[i].scans[node] == Some(cs[i].hosts[node].forest) {
        assert SameJob(cs, i, i, node);
      } else {
        var l :| 0 <= l <= i - 1 && SameJob(cs, l, i - 1, node) && cs[l].On(node)
                 && cs[l].hosts[node].forest == cs[i - 1].scans[node].value;
        assert SameJob(cs, l, i, node);
      }
    }
  }

  lemma NodesStay(cs: seq<Cluster>, i: nat, node: string)
    requires Run(cs) && 0 < i < |cs| && cs[i].On(node)
    ensures cs[i - 1].On(node)
  {
    RunIsConsistent(cs, i);
    RunIsConsistent(cs, i - 1);
  }

  lemma NoJobYet(c: Cluster, node: string)
    requires Begins(c) && c.On(node)
    ensures c.jobs[node].Idle?
  {
  }

  lemma {:induction false} ScansWereSeen(cs: seq<Cluster>, i: nat, node: string)
    requires Run(cs) && i < |cs|
    ensures ScanWasSeen(cs, i, node)
  {
    if cs[i].On(node) {
      if i == 0 {
        NoJobYet(cs[0], node);
      } else {
        NodesStay(cs, i, node);
        ScansWereSeen(cs, i - 1, node);
        NextScanWasSeen(cs, i, node);
      }
    }
  }

  /** Only vgcreate and vgextend bring devices into a group. */
  lemma CommandGains(h: Host, c: Command, h': Host, name: string, p: string)
    requires Enabled(h, c) && Effect(h, c, h') && !c.Rename?
    requires p in PVsOf(h', name) && p !in PVsOf(h, name)
    ensures c.vg == name
    ensures (c.Create? && p in Elements(c.options.pvs)) || (c.Extend? && p in Elements(c.pvs))
  {
    if c.Create? {
      assert Created(h, c.options).pvs.Keys <= Elements(c.options.pvs);
    } else if c.vg == name && !c.Remove? {
      OnlyShrinksOrExtends(h, h.vgs[name], c, h'.vgs[name]);
    }
  }

  lemma PartialMoveGainsNothing(h: Host, c: Command, h': Host, name: string)
    requires PartialMove(h, c, h')
    ensures PVsOf(h', name) == PVsOf(h, name)
  {
  }

  /** A call takes in only what has been found selected. */
  lemma StepGainsChosen(c: Cluster, node: string, now: int, e: Event, c': Cluster, name: string, p: string)
    requires Step(c, node, now, e, c') && p in PVsOf(c'.hosts[node], name) && p !in PVsOf(c.hosts[node], name)
    ensures JobAbout(c, node, name)
    ensures var choice := Choice(c.jobs[node].obj.spec, c.At(node)); choice.Some? && p in choice.value
  {
    var h, h' := e.seen.host, e.after.host;
    assert PVsOf(h, name) == PVsOf(e.before.host, name);
    if e.action.Lvm? && Enabled(h, e.action.command) && Effect(h, e.action.command, h') {
      CommandGains(h, e.action.command, h', name, p);
    } else if e.action.Lvm? && PartialMove(h, e.action.command, h') {
      PartialMoveGainsNothing(h, e.action.command, h', name);
    }
  }

  lemma NextGainsChosen(c: Cluster, c': Cluster, node: string, name: string, p: string)
    requires Next(c, c') && c.On(node) && node in c'.hosts
    requires p in PVsOf(c'.hosts[node], name) && p !in PVsOf(c.hosts[node], name)
    ensures JobAbout(c, node, name)
    ensures var choice := Choice(c.jobs[node].obj.spec, c.At(node)); choice.Some? && p in choice.value
  {
    var n, now, e :| Step(c, n, now, e, c');
    StepGainsChosen(c, node, now, e, c', name, p);
  }

  lemma ChosenWasSelected(cs: seq<Cluster>, i: nat, node: string, name: string, p: string)
    requires Run(cs) && i < |cs| && cs[i].On(node) && JobAbout(cs[i], node, name)
    requires var choice := Choice(cs[i].jobs[node].obj.spec, cs[i].At(node)); choice.Some? && p in choice.value
    ensures WasSelected(cs, i, node, name, p)
  {
    ScansWereSeen(cs, i, node);
    var l :| 0 <= l <= i && SameJob(cs, l, i, node) && cs[l].On(node)
             && cs[l].hosts[node].forest == cs[i].scans[node].value;
    assert cs[l].jobs[node] == cs[i].jobs[node];
    assert p in Desired(cs[l].jobs[node].obj.spec, cs[l].hosts[node]);
  }

  lemma StillSelected(cs: seq<Cluster>, i: nat, node: string, name: string, p: string)
    requires i + 1 < |cs| && WasSelected(cs, i, node, name, p)
    ensures WasSelected(cs, i + 1, node, name, p)
  {
    var l :| 0 <= l <= i && cs[l].On(node) && JobAbout(cs[l], node, name)
             && p in Desired(cs[l].jobs[node].obj.spec, cs[l].hosts[node]);
  }

  /**
   * No group ever holds a device that was neither in it at first nor found selected by a reconcile of its own resource.
   */
  lemma {:induction false} OnlySelectedDevices(cs: seq<Cluster>, i: nat, node: string, name: string, p: string)
    requires Run(cs) && i < |cs| && node in cs[0].hosts && node in cs[i].hosts && p in PVsOf(cs[i].hosts[node], name)
    ensures p in PVsOf(cs[0].hosts[node], name) || WasSelected(cs, i, node, name, p)
  {
    if i == 0 {
    } else {
      RunIsConsistent(cs, i - 1);
      if p in PVsOf(cs[i - 1].hosts[node], name) {
        OnlySelectedDevices(cs, i - 1, node, name, p);
      } else {
        assert Advances(cs, i);
        NextGainsChosen(cs[i - 1], cs[i], node, name, p);
        ChosenWasSelected(cs, i - 1, node, name, p);
      }
      if WasSelected(cs, i - 1, node, name, p) {
        StillSelected(cs, i - 1, node, name, p);
      }
    }
  }
}
