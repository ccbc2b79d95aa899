/** The finalizer: what it guards, and that it guards it in every run. */
module Finalizers {
  import opened Wrappers
  import opened Utils
  import opened Lvm
  import opened Api
  import opened World
  import opened SyncSpec
  import opened ReconcileSpec
  import opened Fleet

  predicate Held(store: map<string, Object>, uid: string) {
    exists k | k in store :: store[k].uid == uid && VOLUME_GROUP_FINALIZER in store[k].finalizers
  }

  /** The resource is being deleted or already gone. */
  predicate Leaving(store: map<string, Object>, uids: set<string>, uid: string) {
    uid in uids && forall k | k in store && store[k].uid == uid :: store[k].deletion.Some?
  }

  lemma StaysLeaving(e: Event, uid: string)
    requires HappenedAlone(e) && Leaving(e.before.store, e.before.uids, uid)
    ensures Leaving(e.after.store, e.after.uids, uid)
  {
    UsersKeepLeaving(e.before, e.seen, uid);
    CallKeepsLeaving(e, uid);
  }

  lemma UsersKeepLeaving(w: State, w': State, uid: string)
    requires UsersChange(w, w') && Leaving(w.store, w.uids, uid)
    ensures Leaving(w'.store, w'.uids, uid)
  {
    forall k | k in w'.store && w'.store[k].uid == uid
      ensures w'.store[k].deletion.Some?
    {
      assert Same(w, w', k);
    }
  }

  lemma CallKeepsLeaving(e: Event, uid: string)
    requires Reacts(e.seen, e.action, e.error, e.after) && Leaving(e.seen.store, e.seen.uids, uid)
    ensures Leaving(e.after.store, e.after.uids, uid)
  {
    forall k | k in e.after.store && e.after.store[k].uid == uid
      ensures e.after.store[k].deletion.Some?
    {
      assert k in e.seen.store && e.seen.store[k].uid == uid;
    }
  }

  predicate Releases(e: Event, uid: string) {
    e.action.Update? && e.action.obj.uid == uid && VOLUME_GROUP_FINALIZER !in e.action.obj.finalizers
  }

  /** Only the release by the resource's own reconciler ends the hold. */
  lemma StaysHeld(e: Event, uid: string)
    requires HappenedAlone(e) && Held(e.before.store, uid)
    requires !Releases(e, uid)
    ensures Held(e.after.store, uid)
  {
    var k :| k in e.before.store && e.before.store[k].uid == uid &&
        VOLUME_GROUP_FINALIZER in e.before.store[k].finalizers;
    assert Same(e.before, e.seen, k);
    assert k in e.seen.store && e.seen.store[k].uid == uid && VOLUME_GROUP_FINALIZER in e.seen.store[k].finalizers;
    assert k in e.after.store && e.after.store[k].uid == uid && VOLUME_GROUP_FINALIZER in e.after.store[k].finalizers;
  }

  ghost predicate JobSound(c: Cluster, job: Job) {
    job.Job? ==> job.obj.uid in c.uids && (job.obj.deletion.Some? ==> Leaving(c.store, c.uids, job.obj.uid))
  }

  lemma NextKeepsSound(c: Cluster, c': Cluster, node: string)
    requires Consistent(c.store, c.uids) && Next(c, c') && node in c.jobs && JobSound(c, c.jobs[node])
    ensures node in c'.jobs && JobSound(c', c'.jobs[node])
  {
    var n, now, e :| Step(c, n, now, e, c');
    StaysSound(c, n, now, e, c', node);
  }

  lemma {:induction false} JobsAreSound(cs: seq<Cluster>, i: nat, node: string)
    requires Run(cs) && i < |cs| && node in cs[i].jobs
    ensures JobSound(cs[i], cs[i].jobs[node])
  {
    if i == 0 {
    } else {
      RunIsConsistent(cs, i);
      RunIsConsistent(cs, i - 1);
      JobsAreSound(cs, i - 1, node);
      assert Advances(cs, i);
      NextKeepsSound(cs[i - 1], cs[i], node);
    }
  }

  lemma StaysSound(c: Cluster, n: string, now: int, e: Event, c': Cluster, node: string)
    requires Consistent(c.store, c.uids) && Step(c, n, now, e, c') && node in c.jobs && JobSound(c, c.jobs[node])
    ensures node in c'.jobs && JobSound(c', c'.jobs[node])
  {
    if n == node && e.action.Get? {
      assert c'.uids == e.after.uids;
    } else if c.jobs[node].Job? && c.jobs[node].obj.deletion.Some? {
      StaysLeaving(e, c.jobs[node].obj.uid);
    }
  }

  /** The resource holds its finalizer, or its group is gone and it is going too. */
  ghost predicate Safe(c: Cluster, node: string, uid: string, name: string) {
    Held(c.store, uid) || (!c.Has(node, name) && Leaving(c.store, c.uids, uid))
  }

  /** The resource's own reconciler has not missed its deletion. */
  ghost predicate Aware(c: Cluster, node: string, uid: string) {
    node in c.jobs && c.jobs[node].Job? && c.jobs[node].obj.uid == uid && !Held(c.store, uid) ==>
      c.jobs[node].obj.deletion.Some?
  }

  /** Work on the resource is known by its node and name, and no other work bears the name. */
  ghost predicate JobFits(c: Cluster, n: string, node: string, uid: string, name: string)
    requires n in c.jobs
  {
    && JobSound(c, c.jobs[n])
    && (Works(c, n) ==> (c.jobs[n].obj.uid == uid <==> About(c.jobs[n].obj, node, name)))
  }

  /** The finalizer is only given up by the resource's own reconciler, in a deletion, with the group gone. */
  lemma ReleaseIsRight(c: Cluster, n: string, now: int, e: Event, c': Cluster, node: string, uid: string, name: string)
    requires Consistent(c.store, c.uids) && Step(c, n, now, e, c') && n in c.jobs && JobFits(c, n, node, uid, name)
    requires Releases(e, uid)
    ensures n == node && c.jobs[n].obj.uid == uid && c.jobs[n].obj.deletion.Some?
    ensures !c'.Has(node, name) && Leaving(c'.store, c'.uids, uid)
  {
    StaysLeaving(e, uid);
  }

  lemma StepKeepsAbsent(c: Cluster, n: string, now: int, e: Event, c': Cluster, node: string, uid: string, name: string)
    requires Step(c, n, now, e, c') && node in c.hosts && JobFits(c, n, node, uid, name)
    requires !c.Has(node, name) && Leaving(c.store, c.uids, uid) && Aware(c, node, uid) && !Held(c.store, uid)
    ensures !c'.Has(node, name) && Leaving(c'.store, c'.uids, uid)
  {
    StaysLeaving(e, uid);
  }

  lemma StepKeepsSafe(c: Cluster, n: string, now: int, e: Event, c': Cluster, node: string, uid: string, name: string)
    requires Consistent(c.store, c.uids) && Step(c, n, now, e, c') && node in c.hosts && JobFits(c, n, node, uid, name)
    requires Safe(c, node, uid, name) && Aware(c, node, uid)
    ensures Safe(c', node, uid, name) && Aware(c', node, uid)
  {
    if !Held(c.store, uid) {
      StepKeepsAbsent(c, n, now, e, c', node, uid, name);
    } else if Releases(e, uid) {
      ReleaseIsRight(c, n, now, e, c', node, uid, name);
    } else {
      StaysHeld(e, uid);
    }
    if n == node && e.action.Get? && c'.jobs[node].Job? && c'.jobs[node].obj.uid == uid && !Held(c'.store, uid) {
      assert c'.store[e.action.key].deletion.Some?;
    }
  }

  lemma JobFitsOwner(cs: seq<Cluster>, s: nat, i: nat, t: nat, key: string)
    requires Run(cs) && s <= i < |cs| && t < |cs| && key in cs[t].store && OwnsName(cs, s, i, cs[t].store[key])
    requires Works(cs[i], cs[t].store[key].spec.nodeName)
    ensures var o := cs[t].store[key];
            Respects(cs[i].jobs[o.spec.nodeName].obj, o)
  {
    JobWasStored(cs, s, i, cs[t].store[key].spec.nodeName);
  }

  lemma JobsFit(cs: seq<Cluster>, s: nat, i: nat, t: nat, key: string, n: string)
    requires Run(cs) && s <= i < |cs| && t < |cs| && key in cs[t].store && n in cs[i].jobs
    requires OwnsName(cs, s, i, cs[t].store[key])
    ensures var o := cs[t].store[key]; JobFits(cs[i], n, o.spec.nodeName, o.uid, NameOnNode(o.uid, o.spec))
  {
    var o := cs[t].store[key];
    JobsAreSound(cs, i, n);
    if Works(cs[i], n) {
      JobWasStored(cs, 0, i, n);
      var obj := cs[i].jobs[n].obj;
      var j, k :| 0 <= j <= i && k in cs[j].store && cs[j].store[k] == obj;
      if obj.uid == o.uid {
        SamePlace(cs, j, k, t, key);
      }
      if n == o.spec.nodeName {
        JobFitsOwner(cs, s, i, t, key);
      }
    }
  }

  lemma NextIsSafe(c: Cluster, c': Cluster, o: Object)
    requires Next(c, c') && o.spec.nodeName in c.hosts && Consistent(c.store, c.uids) && SafeAt(c, o)
    requires forall n :: n in c.jobs ==> JobFits(c, n, o.spec.nodeName, o.uid, NameOnNode(o.uid, o.spec))
    ensures SafeAt(c', o)
  {
    var n, now, e :| Step(c, n, now, e, c');
    StepKeepsSafe(c, n, now, e, c', o.spec.nodeName, o.uid, NameOnNode(o.uid, o.spec));
  }

  lemma AllJobsFit(cs: seq<Cluster>, s: nat, i: nat, t: nat, key: string, c: Cluster)
    requires Run(cs) && s <= i < |cs| && t < |cs| && key in cs[t].store && c == cs[i]
    requires OwnsName(cs, s, i, cs[t].store[key])
    ensures var o := cs[t].store[key];
            forall n :: n in c.jobs ==> JobFits(c, n, o.spec.nodeName, o.uid, NameOnNode(o.uid, o.spec))
  {
    var o := cs[t].store[key];
    forall n | n in c.jobs
      ensures JobFits(c, n, o.spec.nodeName, o.uid, NameOnNode(o.uid, o.spec))
    {
      JobsFit(cs, s, i, t, key, n);
    }
  }

  ghost predicate SafeAt(c: Cluster, o: Object) {
    Safe(c, o.spec.nodeName, o.uid, NameOnNode(o.uid, o.spec)) && Aware(c, o.spec.nodeName, o.uid)
  }

  /**
   * Once the finalizer is stored, the resource holds it until its group is gone from the node and the
   * resource is on its way out; and while the name is its own the group never comes back.
   */
  lemma {:induction false} FinalizerSafety(cs: seq<Cluster>, s: nat, key: string, i: nat)
    requires Run(cs) && s <= i < |cs| && key in cs[s].store
    requires VOLUME_GROUP_FINALIZER in cs[s].store[key].finalizers && cs[s].store[key].spec.nodeName in cs[s].hosts
    requires OwnsName(cs, s, i, cs[s].store[key])
    ensures SafeAt(cs[i], cs[s].store[key])
    decreases i
  {
    if i == s {
      assert Held(cs[s].store, cs[s].store[key].uid);
    } else {
      FinalizerSafety(cs, s, key, i - 1);
      RunIsConsistent(cs, s);
      RunIsConsistent(cs, i - 1);
      AllJobsFit(cs, s, i - 1, s, key, cs[i - 1]);
      assert Advances(cs, i);
      NextIsSafe(cs[i - 1], cs[i], cs[s].store[key]);
    }
  }

  /** A resource whose finalizer was stored never disappears leaving its group behind. */
  lemma NothingIsLeftBehind(cs: seq<Cluster>, s: nat, key: string, i: nat)
    requires Run(cs) && s <= i < |cs| && key in cs[s].store
    requires VOLUME_GROUP_FINALIZER in cs[s].store[key].finalizers && cs[s].store[key].spec.nodeName in cs[s].hosts
    requires OwnsName(cs, s, i, cs[s].store[key])
    requires forall k | k in cs[i].store :: cs[i].store[k].uid != cs[s].store[key].uid
    ensures var o := cs[s].store[key]; !cs[i].Has(o.spec.nodeName, NameOnNode(o.uid, o.spec))
  {
    FinalizerSafety(cs, s, key, i);
  }

  // ---- a claimed group is there ----

  predicate Claimed(o: Object, uid: string) {
    o.uid == uid && VOLUME_GROUP_FINALIZER in o.finalizers && o.deletion.None?
  }

  predicate ClaimedInStore(store: map<string, Object>, uid: string) {
    exists k | k in store :: Claimed(store[k], uid)
  }

  predicate ClaimedByJob(c: Cluster, node: string, uid: string) {
    node in c.jobs && c.jobs[node].Job? && Claimed(c.jobs[node].obj, uid)
  }

  /** The group of a resource that holds its finalizer and is not being deleted exists. */
  predicate ClaimedExists(c: Cluster, node: string, uid: string, name: string) {
    ClaimedInStore(c.store, uid) || ClaimedByJob(c, node, uid) ==> c.Has(node, name)
  }

  lemma UsersDoNotClaim(w: State, w': State, uid: string)
    requires UsersChange(w, w') && ClaimedInStore(w'.store, uid)
    ensures ClaimedInStore(w.store, uid)
  {
    var k :| k in w'.store && Claimed(w'.store[k], uid);
    assert Same(w, w', k);
    assert Claimed(w.store[k], uid);
  }

  /** A claim is made only when the group is there. */
  lemma ClaimNeedsGroup(c: Cluster, n: string, now: int, e: Event, c': Cluster, node: string, uid: string, name: string)
    requires Step(c, n, now, e, c') && node in c.hosts && JobFits(c, n, node, uid, name)
    requires ClaimedInStore(c'.store, uid) && !ClaimedInStore(c.store, uid)
    ensures c.Has(node, name) && !e.action.Lvm?
  {
    if ClaimedInStore(e.seen.store, uid) {
      UsersDoNotClaim(e.before, e.seen, uid);
    }
    var k :| k in e.after.store && Claimed(e.after.store[k], uid);
    assert k in e.seen.store && !Claimed(e.seen.store[k], uid);
    assert e.action == Update(k, e.action.obj);
  }

  /** The group goes only in a deletion of its own resource. */
  lemma RemovalIsOwn(c: Cluster, n: string, now: int, e: Event, c': Cluster, node: string, uid: string, name: string)
    requires Step(c, n, now, e, c') && node in c.hosts && JobFits(c, n, node, uid, name)
    requires c.Has(node, name) && !c'.Has(node, name)
    ensures n == node && c.jobs[n].Job? && c.jobs[n].obj.uid == uid && c.jobs[n].obj.deletion.Some?
    ensures e.action.Lvm?
  {
  }

  lemma StepKeepsClaimed(c: Cluster, n: string, now: int, e: Event, c': Cluster, node: string, uid: string,
                         name: string)
    requires Step(c, n, now, e, c') && c.On(node) && JobFits(c, n, node, uid, name)
    requires ClaimedExists(c, node, uid, name)
    ensures ClaimedExists(c', node, uid, name)
  {
    if c.Has(node, name) && !c'.Has(node, name) {
      RemovalIsOwn(c, n, now, e, c', node, uid, name);
      StaysLeaving(e, uid);
    } else if !c.Has(node, name) {
      if ClaimedInStore(c'.store, uid) {
        ClaimNeedsGroup(c, n, now, e, c', node, uid, name);
      }
    }
  }

  lemma NextKeepsClaimed(c: Cluster, c': Cluster, node: string, uid: string, name: string)
    requires Next(c, c') && c.On(node) && forall n :: n in c.jobs ==> JobFits(c, n, node, uid, name)
    requires ClaimedExists(c, node, uid, name)
    ensures ClaimedExists(c', node, uid, name)
  {
    var n, now, e :| Step(c, n, now, e, c');
    StepKeepsClaimed(c, n, now, e, c', node, uid, name);
  }

  /** No reconciler has had to do with the resource yet; if it exists, it is as users have made it. */
  predicate Unseen(c: Cluster, node: string, uid: string) {
    && (forall k | k in c.store && c.store[k].uid == uid :: Blank(c.store[k]))
    && (node in c.jobs && c.jobs[node].Job? ==> c.jobs[node].obj.uid != uid)
  }

  /** In particular before it is created. */
  lemma UnbornIsUnseen(cs: seq<Cluster>, b: nat, node: string, uid: string)
    requires Run(cs) && b < |cs| && uid !in cs[b].uids
    ensures Unseen(cs[b], node, uid)
  {
    RunIsConsistent(cs, b);
    if node in cs[b].jobs {
      JobsAreSound(cs, b, node);
    }
  }

  lemma UnseenIsUnclaimed(c: Cluster, node: string, uid: string, name: string)
    requires Unseen(c, node, uid)
    ensures ClaimedExists(c, node, uid, name)
  {
  }

  /**
   * From a state in which no reconciler has seen the resource, for instance before its birth: while it claims its
   * group, the group is there, also for whoever is working on it.
   */
  lemma {:induction false} ClaimedGroupExists(cs: seq<Cluster>, b: nat, i: nat, t: nat, key: string)
    requires Run(cs) && b <= i <= t < |cs| && key in cs[t].store && cs[t].store[key].spec.nodeName in cs[b].hosts
    requires Unseen(cs[b], cs[t].store[key].spec.nodeName, cs[t].store[key].uid) && OwnsName(cs, b, i, cs[t].store[key])
    ensures var o := cs[t].store[key]; ClaimedExists(cs[i], o.spec.nodeName, o.uid, NameOnNode(o.uid, o.spec))
    decreases i
  {
    var o := cs[t].store[key];
    if i == b {
      UnseenIsUnclaimed(cs[b], o.spec.nodeName, o.uid, NameOnNode(o.uid, o.spec));
    } else {
      ClaimedGroupExists(cs, b, i - 1, t, key);
      RunIsConsistent(cs, b);
      RunIsConsistent(cs, i - 1);
      AllJobsFit(cs, b, i - 1, t, key, cs[i - 1]);
      assert Advances(cs, i);
      NextKeepsClaimed(cs[i - 1], cs[i], o.spec.nodeName, o.uid, NameOnNode(o.uid, o.spec));
    }
  }

  /** So a reconcile that finds the finalizer finds the group, and does not crash for the lack of a snapshot. */
  lemma MissingGroupIsNeverMet(cs: seq<Cluster>, b: nat, i: nat, key: string, m: Moment)
    requires Run(cs) && b <= i < |cs| && key in cs[i].store && cs[i].On(cs[i].store[key].spec.nodeName)
    requires Unseen(cs[b], cs[i].store[key].spec.nodeName, cs[i].store[key].uid) && OwnsName(cs, b, i, cs[i].store[key])
    requires m.world == cs[i].At(cs[i].store[key].spec.nodeName)
    requires VOLUME_GROUP_FINALIZER in cs[i].store[key].finalizers && cs[i].store[key].deletion.None?
    ensures Crashing(cs[i].store[key], m) <==> SelectorPanics(cs[i].store[key].spec, m.world.host)
  {
    RunIsConsistent(cs, b);
    RunIsConsistent(cs, i);
    ClaimedGroupExists(cs, b, i, i, key);
    assert Claimed(cs[i].store[key], cs[i].store[key].uid);
  }
}
