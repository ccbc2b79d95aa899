/** The synced condition, in every reachable state of any number of nodes, resources, users and failures. */
module Soundness {
  import opened Wrappers
  import opened Utils
  import opened Lvm
  import opened Api
  import opened World
  import opened SyncSpec
  import opened ReconcileSpec
  import opened Fleet
  import opened Finalizers
  import opened Conservation

  /** The resource is kept and its condition says that this very generation is synchronised. */
  predicate Vouches(o: Object) {
    o.deletion.None? && Says(o.conditions, o.generation, true)
  }

  predicate Vouched(store: map<string, Object>, uid: string, spec: Spec) {
    exists k | k in store :: store[k].uid == uid && store[k].spec == spec && Vouches(store[k])
  }

  /** No condition of the resource runs ahead of its generation. */
  predicate Ordered(store: map<string, Object>, uid: string) {
    forall k | k in store && store[k].uid == uid :: UpTo(store[k].conditions, store[k].generation)
  }

  /** What `o` knows of the resource it was read from: it is the newest that any condition speaks of. */
  predicate Knows(store: map<string, Object>, o: Object) {
    && UpTo(o.conditions, o.generation)
    && forall k | k in store && store[k].uid == o.uid ::
         && store[k].generation >= o.generation && (store[k].generation == o.generation ==> store[k].spec == o.spec)
         && UpTo(store[k].conditions, o.generation)
  }

  lemma SaysHas(conditions: seq<Condition>, generation: int, ok: bool)
    requires Says(conditions, generation, ok)
    ensures exists c :: c in conditions && c.kind == SYNCED_ON_NODE && c.observedGeneration == generation
  {
    OfKindElements(conditions, SYNCED_ON_NODE);
    assert OfKind(conditions, SYNCED_ON_NODE)[0] in OfKind(conditions, SYNCED_ON_NODE);
  }

  lemma SaysUpTo(conditions: seq<Condition>, generation: int, ok: bool, latest: int)
    requires Says(conditions, generation, ok) && UpTo(conditions, latest)
    ensures generation <= latest
  {
    SaysHas(conditions, generation, ok);
  }

  // ---- users ----

  lemma UsersDoNotVouch(w: State, w': State, uid: string, spec: Spec)
    requires UsersChange(w, w') && Ordered(w.store, uid)
    ensures Ordered(w'.store, uid)
    ensures Vouched(w'.store, uid, spec) ==> Vouched(w.store, uid, spec)
  {
    forall k | k in w'.store && w'.store[k].uid == uid
      ensures UpTo(w'.store[k].conditions, w'.store[k].generation)
    {
      assert Same(w, w', k) || w'.store[k].conditions == [];
    }
    if Vouched(w'.store, uid, spec) {
      var k :| k in w'.store && w'.store[k].uid == uid && w'.store[k].spec == spec && Vouches(w'.store[k]);
      SaysHas(w'.store[k].conditions, w'.store[k].generation, true);
      assert Same(w, w', k);
      SaysUpTo(w'.store[k].conditions, w'.store[k].generation, true, w.store[k].generation);
      assert w.store[k].spec == spec && Vouches(w.store[k]);
    }
  }

  lemma UsersKeepKnowledge(w: State, w': State, o: Object)
    requires UsersChange(w, w') && o.uid in w.uids && Knows(w.store, o)
    ensures Knows(w'.store, o)
  {
    forall k | k in w'.store && w'.store[k].uid == o.uid
      ensures w'.store[k].generation >= o.generation &&
          (w'.store[k].generation == o.generation ==> w'.store[k].spec == o.spec)
      ensures UpTo(w'.store[k].conditions, o.generation)
    {
      assert Same(w, w', k);
    }
  }

  // ---- calls ----

  predicate StoresStatus(e: Event, uid: string) {
    e.action.UpdateStatus? && e.action.obj.uid == uid
  }

  /** Apart from a status update, calls leave what the store says of the resource as it is. */
  lemma OtherCallsDoNotVouch(e: Event, uid: string, spec: Spec)
    requires Reacts(e.seen, e.action, e.error, e.after) && !StoresStatus(e, uid)
    ensures Vouched(e.after.store, uid, spec) ==> Vouched(e.seen.store, uid, spec)
    ensures Ordered(e.seen.store, uid) ==> Ordered(e.after.store, uid)
  {
    if Vouched(e.after.store, uid, spec) {
      var k :| k in e.after.store && e.after.store[k].uid == uid && e.after.store[k].spec == spec &&
          Vouches(e.after.store[k]);
      assert k in e.seen.store && e.seen.store[k].uid == uid && e.seen.store[k].spec == spec &&
          Vouches(e.seen.store[k]);
    }
  }

  lemma OtherCallsKeepKnowledge(e: Event, o: Object)
    requires Reacts(e.seen, e.action, e.error, e.after) && !StoresStatus(e, o.uid) && Knows(e.seen.store, o)
    ensures Knows(e.after.store, o)
  {
    forall k | k in e.after.store && e.after.store[k].uid == o.uid
      ensures e.after.store[k].generation >= o.generation
      ensures e.after.store[k].generation == o.generation ==> e.after.store[k].spec == o.spec
      ensures UpTo(e.after.store[k].conditions, o.generation)
    {
      assert k in e.seen.store && e.seen.store[k].uid == o.uid;
      assert e.after.store[k].conditions == e.seen.store[k].conditions;
    }
  }

  /** A status update that its own reconciler makes claims nothing that is not so. */
  lemma StatusIsEarned(e: Event, key: string, o: Object, spec: Spec)
    requires Reacts(e.seen, e.action, e.error, e.after) && StoresStatus(e, o.uid) && e.seen.StoreValid()
    requires e.action.key == key && e.action.obj.version == o.version && Earned(o, e.action.obj.conditions, e.seen)
    requires Knows(e.seen.store, o) && Tells(e.seen, key, o) && Ordered(e.seen.store, o.uid)
    ensures Ordered(e.after.store, o.uid) && Knows(e.after.store, o)
    ensures Vouched(e.after.store, o.uid, spec) ==>
              || Vouched(e.seen.store, o.uid, spec)
              || (spec == o.spec && Synced(o, e.seen))
  {
    if e.after != e.seen {
      assert e.seen.store[key].version == o.version;
      assert e.seen.store[key] == o;
      if Vouched(e.after.store, o.uid, spec) {
        var k :| k in e.after.store && e.after.store[k].uid == o.uid && e.after.store[k].spec == spec &&
            Vouches(e.after.store[k]);
        assert k == key;
        if e.action.obj.conditions == o.conditions {
          assert Vouches(e.seen.store[k]);
        }
      }
    }
  }

  /** What a synchronisation is permitted to do to a group that agrees leaves it in agreement. */
  lemma PermittedKeepsAgreement(h: Host, g: VolumeGroup, c: Command, g': VolumeGroup, spec: Spec,
                                choice: Option<set<string>>)
    requires PropertiesAgree(spec, g) && CommandPermitted(spec, choice, g, c)
    requires GroupEffect(h, g, c, g') || (c.Move? && PartlyMoved(g, c.source, Destinations(g, c.source, c.targets), g'))
    ensures PropertiesAgree(spec, g')
  {
  }

  // ---- all reachable states ----

  ghost predicate Deserves(c: Cluster, node: string, name: string, spec: Spec) {
    c.Has(node, name) && PropertiesAgree(spec, c.hosts[node].vgs[name])
  }

  /** The group agrees with every specification that the resource vouches for. */
  ghost predicate Honest(c: Cluster, node: string, uid: string, name: string) {
    && Ordered(c.store, uid)
    && forall spec :: Vouched(c.store, uid, spec) ==> Deserves(c, node, name, spec)
  }

  ghost predicate JobKnows(c: Cluster, node: string, uid: string) {
    c.On(node) && c.jobs[node].Job? && c.jobs[node].obj.uid == uid ==>
      Knows(c.store, c.jobs[node].obj) && Tells(c.At(node), c.jobs[node].key, c.jobs[node].obj)
  }

  /** Whoever works on a resource that vouches for a specification works towards that specification. */
  lemma WorksOnVouched(c: Cluster, o: Object, spec: Spec)
    requires Vouched(c.store, o.uid, spec) && Knows(c.store, o)
    requires o.deletion.Some? ==> Leaving(c.store, c.uids, o.uid)
    ensures o.spec == spec && o.deletion.None?
  {
    var k :| k in c.store && c.store[k].uid == o.uid && c.store[k].spec == spec && Vouches(c.store[k]);
    SaysUpTo(c.store[k].conditions, c.store[k].generation, true, o.generation);
  }

  lemma CallKeepsAgreement(c: Cluster, node: string, now: int, e: Event, c': Cluster, name: string, spec: Spec)
    requires Step(c, node, now, e, c') && c.Has(node, name) && PropertiesAgree(spec, c.hosts[node].vgs[name])
    requires c.jobs[node].Job? && About(c.jobs[node].obj, node, name) ==>
               c.jobs[node].obj.spec == spec && c.jobs[node].obj.deletion.None?
    ensures c'.Has(node, name) && PropertiesAgree(spec, c'.hosts[node].vgs[name])
  {
    assert e.seen.host.vgs == c.hosts[node].vgs;
    if e.after.host.vgs != e.seen.host.vgs && e.action.Lvm? && e.action.command.vg == name {
      var g := e.seen.host.vgs[name];
      assert Permitted(spec, name, e);
      PermittedKeepsAgreement(e.seen.host, g, e.action.command, e.after.host.vgs[name], spec, Choice(spec, e.seen));
    }
  }

  lemma StepKeepsAgreement(c: Cluster, n: string, now: int, e: Event, c': Cluster, node: string, uid: string,
                           name: string, spec: Spec)
    requires Step(c, n, now, e, c') && c.On(node) && JobFits(c, n, node, uid, name)
    requires Honest(c, node, uid, name) && JobKnows(c, node, uid) && Vouched(c.store, uid, spec)
    ensures c'.Has(node, name) && PropertiesAgree(spec, c'.hosts[node].vgs[name])
  {
    if n == node {
      if c.jobs[n].Job? && c.jobs[n].obj.uid == uid {
        WorksOnVouched(c, c.jobs[n].obj, spec);
      }
      CallKeepsAgreement(c, n, now, e, c', name, spec);
    }
  }

  /** One call: whatever is vouched for afterwards was so before, or has just been earned. */
  lemma StepEarns(c: Cluster, n: string, now: int, e: Event, c': Cluster, node: string, uid: string, name: string,
                  spec: Spec)
    requires Step(c, n, now, e, c') && c.On(node) && JobFits(c, n, node, uid, name)
    requires Ordered(c.store, uid) && JobKnows(c, node, uid)
    ensures Ordered(c'.store, uid)
    ensures Vouched(c'.store, uid, spec) ==>
              || Vouched(c.store, uid, spec)
              || (c'.Has(node, name) && PropertiesAgree(spec, c'.hosts[node].vgs[name]))
  {
    UsersDoNotVouch(e.before, e.seen, uid, spec);
    if StoresStatus(e, uid) {
      var o := c.jobs[n].obj;
      UsersKeepKnowledge(e.before, e.seen, o);
      StepHappened(c, n, now, e, c');
      HappenedTells(e, c.jobs[n].key, o);
      StatusIsEarned(e, c.jobs[n].key, o, spec);
    } else {
      OtherCallsDoNotVouch(e, uid, spec);
    }
  }

  lemma StepKeepsVouched(c: Cluster, n: string, now: int, e: Event, c': Cluster, node: string, uid: string,
                         name: string, spec: Spec)
    requires Step(c, n, now, e, c') && c.On(node) && JobFits(c, n, node, uid, name)
    requires Honest(c, node, uid, name) && JobKnows(c, node, uid)
    ensures Ordered(c'.store, uid)
    ensures Vouched(c'.store, uid, spec) ==> Deserves(c', node, name, spec)
  {
    StepEarns(c, n, now, e, c', node, uid, name, spec);
    if Vouched(c.store, uid, spec) {
      StepKeepsAgreement(c, n, now, e, c', node, uid, name, spec);
    }
  }

  lemma StepKeepsHonest(c: Cluster, n: string, now: int, e: Event, c': Cluster, node: string, uid: string,
                        name: string, any: Spec)
    requires Step(c, n, now, e, c') && c.On(node) && JobFits(c, n, node, uid, name)
    requires Honest(c, node, uid, name) && JobKnows(c, node, uid)
    ensures Honest(c', node, uid, name)
  {
    StepKeepsVouched(c, n, now, e, c', node, uid, name, any);
    forall spec
      ensures Vouched(c'.store, uid, spec) ==> Deserves(c', node, name, spec)
    {
      StepKeepsVouched(c, n, now, e, c', node, uid, name, spec);
    }
  }

  lemma ReadKnows(c: Cluster, node: string, now: int, e: Event, c': Cluster, uid: string)
    requires Step(c, node, now, e, c') && e.action.Get? && Ordered(c'.store, uid)
    ensures JobKnows(c', node, uid)
  {
    if c'.jobs[node].Job? && c'.jobs[node].obj.uid == uid {
      var key := e.action.key;
      assert e.seen.StoreValid() && c'.store == e.seen.store;
      assert c'.store[key] == c'.jobs[node].obj;
    }
  }

  lemma StepKeepsKnowledge(c: Cluster, n: string, now: int, e: Event, c': Cluster, node: string, uid: string,
                           name: string)
    requires Step(c, n, now, e, c') && c.On(node) && JobFits(c, n, node, uid, name)
    requires Honest(c, node, uid, name) && JobKnows(c, node, uid) && JobSound(c, c.jobs[node]) &&
        Honest(c', node, uid, name)
    ensures JobKnows(c', node, uid)
  {
    if n == node && e.action.Get? {
      ReadKnows(c, node, now, e, c', uid);
    } else if c.jobs[node].Job? && c.jobs[node].obj.uid == uid {
      var o, key := c.jobs[node].obj, c.jobs[node].key;
      UsersKeepKnowledge(e.before, e.seen, o);
      UsersDoNotVouch(e.before, e.seen, uid, o.spec);
      assert Tells(e.before, key, o);
      StepHappened(c, n, now, e, c');
      HappenedTells(e, key, o);
      if StoresStatus(e, uid) {
        StatusIsEarned(e, key, o, o.spec);
      } else {
        OtherCallsKeepKnowledge(e, o);
      }
    }
  }

  ghost predicate HonestAt(c: Cluster, node: string, uid: string, name: string) {
    Honest(c, node, uid, name) && JobKnows(c, node, uid)
  }

  lemma NextKeepsHonest(c: Cluster, c': Cluster, node: string, uid: string, name: string, any: Spec)
    requires Next(c, c') && c.On(node) && (forall n :: n in c.jobs ==> JobFits(c, n, node, uid, name))
    requires HonestAt(c, node, uid, name)
    ensures HonestAt(c', node, uid, name)
  {
    var n, now, e :| Step(c, n, now, e, c');
    StepKeepsHonest(c, n, now, e, c', node, uid, name, any);
    StepKeepsKnowledge(c, n, now, e, c', node, uid, name);
  }

  lemma UnseenIsHonest(c: Cluster, node: string, uid: string, name: string)
    requires Unseen(c, node, uid)
    ensures HonestAt(c, node, uid, name)
  {
  }

  lemma {:induction false} RunKeepsHonest(cs: seq<Cluster>, b: nat, i: nat, t: nat, key: string)
    requires Run(cs) && b <= i <= t < |cs| && key in cs[t].store && cs[t].store[key].spec.nodeName in cs[b].hosts
    requires Unseen(cs[b], cs[t].store[key].spec.nodeName, cs[t].store[key].uid) && OwnsName(cs, b, i, cs[t].store[key])
    ensures var o := cs[t].store[key];
            HonestAt(cs[i], o.spec.nodeName, o.uid, NameOnNode(o.uid, o.spec))
    decreases i
  {
    var o := cs[t].store[key];
    if i == b {
      UnseenIsHonest(cs[b], o.spec.nodeName, o.uid, NameOnNode(o.uid, o.spec));
    } else {
      RunKeepsHonest(cs, b, i - 1, t, key);
      RunIsConsistent(cs, b);
      RunIsConsistent(cs, i - 1);
      AllJobsFit(cs, b, i - 1, t, key, cs[i - 1]);
      assert Advances(cs, i);
      NextKeepsHonest(cs[i - 1], cs[i], o.spec.nodeName, o.uid, NameOnNode(o.uid, o.spec), o.spec);
    }
  }

  /**
   * Whenever the store says that the present generation of a kept resource is synchronised, its group is on its
   * node and has the tags, limits, policy and activation that the resource asks for. Since the `b`-th state, when no
   * reconciler had seen it yet (`Finalizers.UnbornIsUnseen`: before its birth, say), the name has been its own.
   */
  lemma SyncedIsNeverALie(cs: seq<Cluster>, b: nat, i: nat, key: string)
    requires Run(cs) && b <= i < |cs| && key in cs[i].store && Vouches(cs[i].store[key])
    requires cs[i].store[key].spec.nodeName in cs[b].hosts
    requires Unseen(cs[b], cs[i].store[key].spec.nodeName, cs[i].store[key].uid) && OwnsName(cs, b, i, cs[i].store[key])
    ensures var o := cs[i].store[key];
            && cs[i].Has(o.spec.nodeName, NameOnNode(o.uid, o.spec))
            && PropertiesAgree(o.spec, cs[i].hosts[o.spec.nodeName].vgs[NameOnNode(o.uid, o.spec)])
  {
    var o := cs[i].store[key];
    RunKeepsHonest(cs, b, i, i, key);
    VouchedBy(cs[i].store, key);
  }

  // ---- physical volumes ----

  /** The call that makes a resource vouch finds exactly the selected devices in its group. */
  lemma StepEarnsSelection(c: Cluster, n: string, now: int, e: Event, c': Cluster, node: string, uid: string,
                           name: string, spec: Spec)
    requires Step(c, n, now, e, c') && c.On(node) && JobFits(c, n, node, uid, name)
    requires Ordered(c.store, uid) && JobKnows(c, node, uid)
    requires Vouched(c'.store, uid, spec) && !Vouched(c.store, uid, spec)
    ensures n == node && JobAbout(c, node, name) && c.jobs[node].obj.spec == spec
    ensures node in c'.hosts && Choice(spec, c.At(node)) == Some(PVsOf(c'.hosts[node], name))
  {
    UsersDoNotVouch(e.before, e.seen, uid, spec);
    if StoresStatus(e, uid) {
      var o := c.jobs[n].obj;
      UsersKeepKnowledge(e.before, e.seen, o);
      StepHappened(c, n, now, e, c');
      HappenedTells(e, c.jobs[n].key, o);
      StatusIsEarned(e, c.jobs[n].key, o, spec);
    } else {
      OtherCallsDoNotVouch(e, uid, spec);
    }
  }

  lemma ChoiceIsSelection(cs: seq<Cluster>, i: nat, node: string, spec: Spec, ps: set<string>)
    requires Run(cs) && i < |cs| && cs[i].On(node) && cs[i].jobs[node].Job? && Choice(spec, cs[i].At(node)) == Some(ps)
    ensures exists l | 0 <= l <= i && SameJob(cs, l, i, node) && cs[l].On(node) ::
        ps == Desired(spec, cs[l].hosts[node])
  {
    if spec.selector == [] {
      assert SameJob(cs, i, i, node) && ps == Desired(spec, cs[i].hosts[node]);
    } else {
      ScansWereSeen(cs, i, node);
      var l :| 0 <= l <= i && SameJob(cs, l, i, node) && cs[l].On(node)
               && cs[l].hosts[node].forest == cs[i].scans[node].value;
      assert ps == Desired(spec, cs[l].hosts[node]);
    }
  }

  lemma NextEarnsSelection(c: Cluster, c': Cluster, node: string, uid: string, name: string, spec: Spec)
    requires Next(c, c') && c.On(node) && (forall n :: n in c.jobs ==> JobFits(c, n, node, uid, name))
    requires Ordered(c.store, uid) && JobKnows(c, node, uid)
    requires Vouched(c'.store, uid, spec) && !Vouched(c.store, uid, spec)
    ensures JobAbout(c, node, name) && node in c'.hosts
    ensures Choice(spec, c.At(node)) == Some(PVsOf(c'.hosts[node], name))
  {
    var n, now, e :| Step(c, n, now, e, c');
    StepEarnsSelection(c, n, now, e, c', node, uid, name, spec);
  }

  lemma FreshlySyncedIsChosen(cs: seq<Cluster>, b: nat, i: nat, key: string, node: string, name: string)
    requires Run(cs) && b < i < |cs| && key in cs[i].store && About(cs[i].store[key], node, name) && node in cs[b].hosts
    requires Unseen(cs[b], node, cs[i].store[key].uid) && OwnsName(cs, b, i, cs[i].store[key])
    requires Vouches(cs[i].store[key]) && !Vouched(cs[i - 1].store, cs[i].store[key].uid, cs[i].store[key].spec)
    ensures cs[i - 1].On(node) && node in cs[i].hosts && JobAbout(cs[i - 1], node, name)
    ensures Choice(cs[i].store[key].spec, cs[i - 1].At(node)) == Some(PVsOf(cs[i].hosts[node], name))
  {
    RunIsConsistent(cs, b);
    RunIsConsistent(cs, i - 1);
    RunKeepsHonest(cs, b, i - 1, i, key);
    VouchedBy(cs[i].store, key);
    AllJobsFit(cs, b, i - 1, i, key, cs[i - 1]);
    assert Advances(cs, i);
    NextEarnsSelection(cs[i - 1], cs[i], node, cs[i].store[key].uid, name, cs[i].store[key].spec);
  }

  /**
   * When a resource comes to vouch for its present generation, the volumes of its group are exactly the devices
   * that it selects from what the node had when, during that very reconcile, it was last looked at.
   */
  lemma FreshlySyncedIsSelected(cs: seq<Cluster>, b: nat, i: nat, key: string, node: string, name: string)
    requires Run(cs) && b < i < |cs| && key in cs[i].store && About(cs[i].store[key], node, name) && node in cs[b].hosts
    requires Unseen(cs[b], node, cs[i].store[key].uid) && OwnsName(cs, b, i, cs[i].store[key])
    requires Vouches(cs[i].store[key]) && !Vouched(cs[i - 1].store, cs[i].store[key].uid, cs[i].store[key].spec)
    ensures node in cs[i].hosts && JobAbout(cs[i - 1], node, name)
    ensures exists l | 0 <= l < i && SameJob(cs, l, i - 1, node) && cs[l].On(node) ::
              PVsOf(cs[i].hosts[node], name) == Desired(cs[i].store[key].spec, cs[l].hosts[node])
  {
    FreshlySyncedIsChosen(cs, b, i, key, node, name);
    ChoiceIsSelection(cs, i - 1, node, cs[i].store[key].spec, PVsOf(cs[i].hosts[node], name));
  }

  lemma VouchedBy(store: map<string, Object>, key: string)
    requires key in store && Vouches(store[key])
    ensures Vouched(store, store[key].uid, store[key].spec)
  {
  }
}
