/** All nodes together: one reconciler per node, one API server, any interleaving of their calls. */
module Fleet {
  import opened Wrappers
  import opened Utils
  import opened Lsblk
  import opened Lvm
  import opened Api
  import opened World
  import opened SyncSpec
  import opened ReconcileSpec

  /** What a reconciler is working on: the resource as it read it. It may be stopped anywhere and start anew. */
  datatype Job = Idle | Job(key: string, now: int, obj: Object)

  /** `scans`: the devices that lsblk has last reported to the reconcile in progress on each node. */
  datatype Cluster = Cluster(
    hosts: map<string, Host>, scans: map<string, Option<seq<BlockDevice>>>, jobs: map<string, Job>,
    store: map<string, Object>, uids: set<string>)
  {
    predicate On(node: string) {
      node in hosts && node in scans && node in jobs
    }

    function At(node: string): State
      requires On(node)
    {
      State(hosts[node], store, uids, scans[node], node)
    }

    ghost predicate Valid() {
      && hosts.Keys == scans.Keys == jobs.Keys && Consistent(store, uids)
      && forall node {:trigger hosts[node].Valid()} | node in hosts :: hosts[node].Valid()
    }

    predicate Has(node: string, name: string) {
      node in hosts && name in hosts[node].vgs
    }
  }

  function NextJob(job: Job, now: int, e: Event): Job {
    match e.action
    case Get(key) => if e.error.None? && key in e.after.store then Job(key, now, e.after.store[key]) else Idle
    case _ => job
  }

  function After(c: Cluster, node: string, now: int, e: Event): Cluster
    requires c.On(node)
  {
    Cluster(c.hosts[node := e.after.host], c.scans[node := e.after.scan], c.jobs[node := NextJob(c.jobs[node], now, e)],
            e.after.store, e.after.uids)
  }

  /** One call by the reconciler of one node. */
  ghost predicate Step(c: Cluster, node: string, now: int, e: Event, c': Cluster) {
    && c.On(node) && e.before == c.At(node) && HappenedAlone(e)
    && (e.action.Get? ||
        (c.jobs[node].Job? && Issued(node, c.jobs[node].key, c.jobs[node].now, c.jobs[node].obj, e)))
    && c' == After(c, node, now, e)
  }

  ghost predicate Next(c: Cluster, c': Cluster) {
    exists node, now, e :: Step(c, node, now, e, c')
  }

  ghost predicate Advances(cs: seq<Cluster>, i: nat)
    requires 0 < i < |cs|
  {
    Next(cs[i - 1], cs[i])
  }

  ghost predicate Begins(c: Cluster) {
    c.Valid() && forall node | node in c.jobs :: c.jobs[node].Idle?
  }

  ghost predicate Run(cs: seq<Cluster>) {
    && |cs| > 0 && Begins(cs[0])
    && (forall i | 0 < i < |cs| :: Advances(cs, i))
  }

  lemma RunGoesOn(past: seq<Cluster>, c': Cluster)
    requires Run(past) && Next(past[|past| - 1], c')
    ensures Run(past + [c'])
  {
    var cs := past + [c'];
    forall i | 0 < i < |cs|
      ensures Advances(cs, i)
    {
      assert i < |past| ==> Advances(past, i);
    }
  }

  predicate About(o: Object, node: string, name: string) {
    o.spec.nodeName == node && NameOnNode(o.uid, o.spec) == name
  }

  // ---- every reachable state is well formed ----

  lemma StepHappened(c: Cluster, node: string, now: int, e: Event, c': Cluster)
    requires Step(c, node, now, e, c')
    ensures Happened(e) && c'.On(node) && c'.At(node) == e.after
  {
    UsersAreOthers(e.before, e.seen);
  }

  lemma StepKeepsValid(c: Cluster, node: string, now: int, e: Event, c': Cluster)
    requires c.Valid() && Step(c, node, now, e, c')
    ensures c'.Valid()
  {
    StepHappened(c, node, now, e, c');
    HappenedKeepsValid(e);
  }

  lemma NextKeepsValid(c: Cluster, c': Cluster)
    requires c.Valid() && Next(c, c')
    ensures c'.Valid() && c'.hosts.Keys == c.hosts.Keys
  {
    var node, now, e :| Step(c, node, now, e, c');
    StepKeepsValid(c, node, now, e, c');
  }

  /** On every node every physical volume is in at most one group, whatever happens in which order. */
  lemma {:induction false} RunKeepsValid(cs: seq<Cluster>, i: nat)
    requires Run(cs) && i < |cs|
    ensures cs[i].Valid() && cs[i].hosts.Keys == cs[0].hosts.Keys
  {
    if i == 0 {
    } else {
      RunKeepsValid(cs, i - 1);
      assert Advances(cs, i);
      NextKeepsValid(cs[i - 1], cs[i]);
    }
  }

  lemma RunIsConsistent(cs: seq<Cluster>, i: nat)
    requires Run(cs) && i < |cs|
    ensures Consistent(cs[i].store, cs[i].uids)
    ensures cs[i].hosts.Keys == cs[i].jobs.Keys == cs[i].scans.Keys == cs[0].hosts.Keys
  {
    RunKeepsValid(cs, i);
  }

  // ---- what a reconciler works on ----

  /** Some state from the `s`-th to the `i`-th had this object in its store. */
  ghost predicate WasStored(cs: seq<Cluster>, s: nat, i: nat, obj: Object)
    requires s <= i < |cs|
  {
    exists j, k | s <= j <= i && k in cs[j].store :: cs[j].store[k] == obj
  }

  ghost predicate JobFrom(cs: seq<Cluster>, s: nat, i: nat, node: string)
    requires s <= i < |cs|
  {
    node in cs[i].jobs && cs[i].jobs[node].Job? ==>
      || (node in cs[s].jobs && cs[s].jobs[node] == cs[i].jobs[node])
      || WasStored(cs, s, i, cs[i].jobs[node].obj)
  }

  lemma NextJobFrom(cs: seq<Cluster>, s: nat, i: nat, node: string)
    requires Run(cs) && s < i < |cs| && JobFrom(cs, s, i - 1, node)
    ensures JobFrom(cs, s, i, node)
  {
    assert Advances(cs, i);
    var n, now, e :| Step(cs[i - 1], n, now, e, cs[i]);
    if n == node && e.action.Get? {
      assert cs[i].jobs[node].Job? ==> e.action.key in cs[i].store;
    }
  }

  /** A reconciler only works on what it has read. */
  lemma {:induction false} JobWasStored(cs: seq<Cluster>, s: nat, i: nat, node: string)
    requires Run(cs) && s <= i < |cs|
    ensures JobFrom(cs, s, i, node)
    decreases i
  {
    if i == s {
    } else {
      JobWasStored(cs, s, i - 1, node);
      NextJobFrom(cs, s, i, node);
    }
  }

  // ---- ownership ----

  predicate SameGroup(c: Cluster, c': Cluster, node: string, name: string) {
    && node in c.hosts && node in c'.hosts
    && c.Has(node, name) == c'.Has(node, name)
    && (c.Has(node, name) ==> c'.hosts[node].vgs[name] == c.hosts[node].vgs[name])
  }

  predicate JobAbout(c: Cluster, node: string, name: string) {
    node in c.jobs && c.jobs[node].Job? && About(c.jobs[node].obj, node, name)
  }

  /** A call changes no group but the one of its own resource. */
  lemma StepKeepsOthers(c: Cluster, node: string, now: int, e: Event, c': Cluster, other: string, name: string)
    requires Step(c, node, now, e, c') && other in c.hosts && !JobAbout(c, other, name)
    ensures SameGroup(c, c', other, name)
  {
  }

  lemma NextKeepsOthers(c: Cluster, c': Cluster, node: string, name: string)
    requires Next(c, c') && node in c.hosts && !JobAbout(c, node, name)
    ensures SameGroup(c, c', node, name)
  {
    var n, now, e :| Step(c, n, now, e, c');
    StepKeepsOthers(c, n, now, e, c', node, name);
  }

  /** From the `s`-th to the `i`-th state no resource asks for that group, and nobody works on one that did. */
  predicate NeverAsked(cs: seq<Cluster>, s: nat, i: nat, node: string, name: string)
    requires s <= i < |cs|
  {
    && !JobAbout(cs[s], node, name)
    && forall j, k | s <= j <= i && k in cs[j].store :: !About(cs[j].store[k], node, name)
  }

  lemma NoJobAbout(cs: seq<Cluster>, s: nat, i: nat, node: string, name: string)
    requires Run(cs) && s <= i < |cs| && NeverAsked(cs, s, i, node, name)
    ensures !JobAbout(cs[i], node, name)
  {
    JobWasStored(cs, s, i, node);
  }

  /**
   * A group that nobody asks for, or asks for any more, stays as it is; if there is none, none appears. So
   * does the old group of a resource whose name on the node has been edited.
   */
  lemma {:induction false} BystandersUntouched(cs: seq<Cluster>, s: nat, i: nat, node: string, name: string)
    requires Run(cs) && s <= i < |cs| && node in cs[s].hosts && NeverAsked(cs, s, i, node, name)
    ensures SameGroup(cs[s], cs[i], node, name)
    decreases i
  {
    if i == s {
    } else {
      BystandersUntouched(cs, s, i - 1, node, name);
      NoJobAbout(cs, s, i - 1, node, name);
      assert Advances(cs, i);
      NextKeepsOthers(cs[i - 1], cs[i], node, name);
    }
  }

  /** Two resources with the same UID are the same resource, and it stays on its node. */
  lemma {:induction false} PlaceIsFixed(cs: seq<Cluster>, j: nat, key: string, i: nat, key': string)
    requires Run(cs) && j <= i < |cs| && key in cs[j].store && key' in cs[i].store
    requires cs[j].store[key].uid == cs[i].store[key'].uid
    ensures cs[i].store[key'].spec.nodeName == cs[j].store[key].spec.nodeName
    decreases i
  {
    if i == j {
      RunIsConsistent(cs, i);
    } else {
      UIDsStay(cs, j, key, i - 1);
      assert Advances(cs, i);
      PlaceKept(cs[i - 1], cs[i], key', cs[j].store[key].uid);
      PlaceIsFixed(cs, j, key, i - 1, key');
    }
  }

  lemma {:induction false} UIDsStay(cs: seq<Cluster>, j: nat, key: string, i: nat)
    requires Run(cs) && j <= i < |cs| && key in cs[j].store
    ensures cs[j].store[key].uid in cs[i].uids
  {
    if i == j {
      RunIsConsistent(cs, i);
    } else {
      UIDsStay(cs, j, key, i - 1);
      assert Advances(cs, i);
      MoreUIDs(cs[i - 1], cs[i]);
    }
  }

  lemma MoreUIDs(c: Cluster, c': Cluster)
    requires Next(c, c')
    ensures c.uids <= c'.uids
  {
  }

  lemma PlaceKept(c: Cluster, c': Cluster, key: string, uid: string)
    requires Next(c, c') && uid in c.uids && key in c'.store && c'.store[key].uid == uid
    ensures key in c.store && c.store[key].uid == uid
    ensures c'.store[key].spec.nodeName == c.store[key].spec.nodeName
  {
    var node, now, e :| Step(c, node, now, e, c');
    CallKeepsPlace(e, key, uid);
  }

  lemma CallKeepsPlace(e: Event, key: string, uid: string)
    requires HappenedAlone(e) && uid in e.before.uids && key in e.after.store && e.after.store[key].uid == uid
    ensures key in e.before.store && e.before.store[key].uid == uid
    ensures e.after.store[key].spec.nodeName == e.before.store[key].spec.nodeName
  {
    assert key in e.seen.store && e.seen.store[key].uid == uid && e.seen.store[key].spec == e.after.store[key].spec;
    assert Same(e.before, e.seen, key);
  }

  // ---- names ----

  /** The reconciler of the node works on a resource of the node. */
  predicate Works(c: Cluster, node: string) {
    node in c.jobs && c.jobs[node].Job? && c.jobs[node].obj.spec.nodeName == node
  }

  /** `x` is `o` under its name, or another resource that does not ask for `o`'s group. */
  predicate Respects(x: Object, o: Object) {
    if x.uid == o.uid then NameOnNode(x.uid, x.spec) == NameOnNode(o.uid, o.spec)
    else !About(x, o.spec.nodeName, NameOnNode(o.uid, o.spec))
  }

  /**
   * From the `s`-th to the `i`-th state the resource keeps its name and no other on its node asks for it. The name
   * may have belonged to others before, and may again afterwards.
   */
  predicate OwnsName(cs: seq<Cluster>, s: nat, i: nat, o: Object)
    requires s <= i < |cs|
  {
    && (Works(cs[s], o.spec.nodeName) ==> Respects(cs[s].jobs[o.spec.nodeName].obj, o))
    && forall j, k | s <= j <= i && k in cs[j].store :: Respects(cs[j].store[k], o)
  }

  /** Equal UIDs are one resource, and so it stays on its node. */
  lemma SamePlace(cs: seq<Cluster>, j: nat, key: string, i: nat, key': string)
    requires Run(cs) && j < |cs| && i < |cs| && key in cs[j].store && key' in cs[i].store
    requires cs[j].store[key].uid == cs[i].store[key'].uid
    ensures cs[i].store[key'].spec.nodeName == cs[j].store[key].spec.nodeName
  {
    if j <= i {
      PlaceIsFixed(cs, j, key, i, key');
    } else {
      PlaceIsFixed(cs, i, key', j, key);
    }
  }

  /** No other resource on `elsewhere` asks for the name meanwhile. */
  predicate NotAskedElsewhere(cs: seq<Cluster>, s: nat, i: nat, o: Object, elsewhere: string)
    requires s <= i < |cs|
  {
    && !JobAbout(cs[s], elsewhere, NameOnNode(o.uid, o.spec))
    && forall j, k | s <= j <= i && k in cs[j].store ::
         cs[j].store[k].uid != o.uid ==> !About(cs[j].store[k], elsewhere, NameOnNode(o.uid, o.spec))
  }

  /** The group of a resource is made, changed and removed on the node of that resource and nowhere else. */
  lemma OnlyOnItsNode(cs: seq<Cluster>, s: nat, i: nat, t: nat, key: string, elsewhere: string)
    requires Run(cs) && s <= i < |cs| && t < |cs| && key in cs[t].store && elsewhere in cs[s].hosts
    requires cs[t].store[key].spec.nodeName != elsewhere
    requires NotAskedElsewhere(cs, s, i, cs[t].store[key], elsewhere)
    ensures SameGroup(cs[s], cs[i], elsewhere, NameOnNode(cs[t].store[key].uid, cs[t].store[key].spec))
  {
    var o := cs[t].store[key];
    var name := NameOnNode(o.uid, o.spec);
    forall j, k | s <= j <= i && k in cs[j].store
      ensures !About(cs[j].store[k], elsewhere, name)
    {
      if cs[j].store[k].uid == o.uid {
        SamePlace(cs, j, k, t, key);
      }
    }
    BystandersUntouched(cs, s, i, elsewhere, name);
  }
}
