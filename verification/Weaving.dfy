/** The calls of one reconcile with those of all other nodes in between. */
module Weaving {
  import opened Wrappers
  import opened Lvm
  import opened Api
  import opened World
  import opened SyncSpec
  import opened ReconcileSpec
  import opened Fleet

  /** A step of another node, or the next call of the reconcile. */
  datatype Turn = Other(node: string, now: int, event: Event) | Own(event: Event)

  /** `now` is when the reconcile of `node` began. */
  ghost predicate Taken(c: Cluster, node: string, now: int, turn: Turn, c': Cluster) {
    match turn
    case Other(n, t, e) => n != node && Step(c, n, t, e, c')
    case Own(e) => c.On(node) && e.before == c.At(node) && HappenedAlone(e) && c' == After(c, node, now, e)
  }

  ghost predicate TakenAt(cs: seq<Cluster>, node: string, now: int, turns: seq<Turn>, i: nat)
    requires |cs| == |turns| + 1 && i < |turns|
  {
    Taken(cs[i], node, now, turns[i], cs[i + 1])
  }

  ghost predicate Woven(cs: seq<Cluster>, node: string, now: int, turns: seq<Turn>) {
    |cs| == |turns| + 1 && forall i | 0 <= i < |turns| :: TakenAt(cs, node, now, turns, i)
  }

  /** The calls of the reconcile as the cluster sees them. */
  function OwnEvents(turns: seq<Turn>): seq<Event> {
    if turns == [] then []
    else
      var last := turns[|turns| - 1];
      OwnEvents(turns[..|turns| - 1]) + (if last.Own? then [last.event] else [])
  }

  /** Where the reconcile stands after its last call, whatever others have done since. */
  function LastSeen(w: State, events: seq<Event>): State {
    if events == [] then w else events[|events| - 1].after
  }

  /** The same calls as the reconcile sees them: what others did since the last one is part of the next. */
  function Viewed(w: State, events: seq<Event>): (viewed: seq<Event>)
    ensures |viewed| == |events| && LastSeen(w, viewed) == LastSeen(w, events)
  {
    if events == [] then []
    else
      var k := |events| - 1;
      Viewed(w, events[..k]) + [events[k].(before := LastSeen(w, events[..k]))]
  }

  // ---- what other nodes do is a disturbance ----

  /** Whoever works on a resource knows its node. */
  predicate Placed(c: Cluster) {
    forall n | n in c.jobs && c.jobs[n].Job? ::
      && c.jobs[n].obj.uid in c.uids
      && forall k | k in c.store && c.store[k].uid == c.jobs[n].obj.uid ::
           c.store[k].spec.nodeName == c.jobs[n].obj.spec.nodeName
  }

  lemma RunIsPlaced(cs: seq<Cluster>, i: nat)
    requires Run(cs) && i < |cs|
    ensures Placed(cs[i])
  {
    forall n | n in cs[i].jobs && cs[i].jobs[n].Job?
      ensures cs[i].jobs[n].obj.uid in cs[i].uids
      ensures forall k | k in cs[i].store && cs[i].store[k].uid == cs[i].jobs[n].obj.uid ::
                cs[i].store[k].spec.nodeName == cs[i].jobs[n].obj.spec.nodeName
    {
      JobWasStored(cs, 0, i, n);
      var j, key :| 0 <= j <= i && key in cs[j].store && cs[j].store[key] == cs[i].jobs[n].obj;
      UIDsStay(cs, j, key, i);
      forall k | k in cs[i].store && cs[i].store[k].uid == cs[i].jobs[n].obj.uid
        ensures cs[i].store[k].spec.nodeName == cs[i].jobs[n].obj.spec.nodeName
      {
        PlaceIsFixed(cs, j, key, i, k);
      }
    }
  }

  /** A call stores at most one object, one of the caller's node. */
  ghost predicate StoresOnly(e: Event, n: string) {
    e.action.Update? || e.action.UpdateStatus? ==>
      e.after.store == e.seen.store || (e.action.key in e.seen.store && e.seen.store[e.action.key].spec.nodeName == n)
  }

  lemma OwnObjectOnly(c: Cluster, n: string, now: int, e: Event, c': Cluster)
    requires Step(c, n, now, e, c') && Placed(c)
    ensures StoresOnly(e, n)
  {
    if (e.action.Update? || e.action.UpdateStatus?) && e.after.store != e.seen.store {
      var o, key := c.jobs[n].obj, e.action.key;
      assert e.seen.store[key].uid == o.uid;
      assert Same(e.before, e.seen, key);
    }
  }

  /** The state of one node with another store. */
  function With(w: State, other: State): State {
    w.(store := other.store, uids := other.uids)
  }

  lemma UsersDisturb(w: State, e: Event)
    requires HappenedAlone(e) && w.store == e.before.store && w.uids == e.before.uids
    ensures Disturbed(w, With(w, e.seen))
  {
    assert UsersChange(w, With(w, e.seen));
    UsersAreOthers(w, With(w, e.seen));
  }

  lemma OneObjectChanged(w: State, store: map<string, Object>, key: string)
    requires w.StoreValid() && key in w.store && !Mine(w, w.store[key])
    requires store == w.store - {key} ||
        (key in store && store == w.store[key := store[key]] && Drifts(w.store[key], store[key]))
    ensures OthersChange(w, w.(store := store))
  {
    var w' := w.(store := store);
    forall k | k in w.store
      ensures if !Same(w, w', k) then Mine(w, w.store[k]) ==> VOLUME_GROUP_FINALIZER !in w.store[k].finalizers
              else if Mine(w, w.store[k]) then Evolves(w.store[k], w'.store[k])
              else Drifts(w.store[k], w'.store[k])
    {
      assert k != key ==> k in w'.store && w'.store[k] == w.store[k];
    }
  }

  lemma CallDisturbs(w: State, e: Event, n: string)
    requires Reacts(e.seen, e.action, e.error, e.after) && StoresOnly(e, n) && n != w.node
    requires w.store == e.seen.store && w.uids == e.seen.uids && w.StoreValid()
    ensures Disturbed(w, With(w, e.after))
  {
    if e.after.store != e.seen.store {
      OneObjectChanged(w, e.after.store, e.action.key);
    }
  }

  /** Another node's reconciler changes nothing but its own resources. */
  lemma OtherIsDisturbance(c: Cluster, n: string, now: int, e: Event, c': Cluster, node: string)
    requires Step(c, n, now, e, c') && n != node && c.On(node) && Placed(c) && Consistent(c.store, c.uids)
    ensures c'.On(node) && Disturbed(c.At(node), c'.At(node)) && c'.jobs[node] == c.jobs[node]
  {
    var w := c.At(node);
    OwnObjectOnly(c, n, now, e, c');
    UsersDisturb(w, e);
    CallDisturbs(With(w, e.seen), e, n);
    OthersTransitive(w, With(w, e.seen), With(w, e.after));
    assert c'.At(node) == With(w, e.after);
  }

  // ---- the reconcile's own calls ----

  function JobOf(key: string, now: int, events: seq<Event>): Job {
    match Fetched(key, events)
    case None => Idle
    case Some(o) => Job(key, now, o)
  }

  lemma JobGoesOn(node: string, key: string, now: int, events: seq<Event>, job: Job)
    requires events != [] && Reconciling(node, key, now, events)
    requires |events| > 1 ==> job == JobOf(key, now, events[..|events| - 1])
    ensures var e := events[|events| - 1];
            && NextJob(job, now, e) == JobOf(key, now, events)
            && (e.action.Get? || (job.Job? && Issued(node, job.key, job.now, job.obj, e)))
  {
    var k := |events| - 1;
    if k > 0 {
      assert events[1..][k - 1] == events[k];
      assert events[k] in events[1..];
      assert events[..k][0] == events[0];
      assert Fetched(key, events[..k]) == Fetched(key, events);
      assert Issued(node, key, now, Fetched(key, events).value, events[k]);
    }
  }

  /** The same calls, but for what was there before others changed it. */
  predicate AlikeCalls(a: seq<Event>, b: seq<Event>) {
    |a| == |b| && forall i | 0 <= i < |a| :: b[i] == a[i].(before := b[i].before)
  }

  /** What a reconcile may do next does not depend on who has changed the store in between. */
  lemma AlikeReconcile(node: string, key: string, now: int, a: seq<Event>, b: seq<Event>)
    requires AlikeCalls(a, b) && Reconciling(node, key, now, a)
    ensures Reconciling(node, key, now, b)
  {
    if a == [] {
    } else {
      assert Fetched(key, b) == Fetched(key, a);
      forall e | e in b[1..]
        ensures Fetched(key, b).Some? && Issued(node, key, now, Fetched(key, b).value, e)
      {
        var i :| 0 < i < |b| && b[i] == e;
        assert a[i] in a[1..];
        assert Issued(node, key, now, Fetched(key, a).value, a[i]);
      }
    }
  }

  lemma ViewedAlike(w: State, events: seq<Event>)
    ensures AlikeCalls(events, Viewed(w, events)) && AlikeCalls(Viewed(w, events), events)
  {
    forall i | 0 <= i < |events|
      ensures Viewed(w, events)[i] == events[i].(before := Viewed(w, events)[i].before)
    {
      ViewedEvent(w, events, i);
    }
  }

  lemma {:induction false} ViewedEvent(w: State, events: seq<Event>, i: nat)
    requires i < |events|
    ensures Viewed(w, events)[i] == events[i].(before := Viewed(w, events)[i].before)
    decreases |events|
  {
    var k := |events| - 1;
    if i == k {
    } else {
      ViewedEvent(w, events[..k], i);
    }
  }

  /** Where a weaving stands: it has been a run, and to the reconcile its calls are a history of their own. */
  ghost predicate Standing(past: seq<Cluster>, c: Cluster, node: string, key: string, now: int, w: State,
                           events: seq<Event>) {
    && Run(past) && past[|past| - 1] == c && c.On(node)
    && Chain(Viewed(w, events), w, LastSeen(w, events))
    && LastSeen(w, events).StoreValid() && Disturbed(LastSeen(w, events), c.At(node))
    && (events != [] ==> c.jobs[node] == JobOf(key, now, events))
  }

  lemma OtherGoesOn(past: seq<Cluster>, c: Cluster, node: string, key: string, now: int, w: State, events: seq<Event>,
                    n: string, t: int, e: Event, c': Cluster)
    requires Standing(past, c, node, key, now, w, events) && Step(c, n, t, e, c') && n != node
    ensures Standing(past + [c'], c', node, key, now, w, events)
  {
    RunIsPlaced(past, |past| - 1);
    RunIsConsistent(past, |past| - 1);
    OtherIsDisturbance(c, n, t, e, c', node);
    OthersTransitive(LastSeen(w, events), c.At(node), c'.At(node));
    RunGoesOn(past, c');
  }

  lemma ViewGoesOn(w: State, events: seq<Event>, e: Event)
    requires Chain(Viewed(w, events), w, LastSeen(w, events)) && LastSeen(w, events).StoreValid()
    requires Disturbed(LastSeen(w, events), e.before) && HappenedAlone(e)
    ensures Chain(Viewed(w, events + [e]), w, e.after)
  {
    var last := LastSeen(w, events);
    UsersAreOthers(e.before, e.seen);
    OthersTransitive(last, e.before, e.seen);
    assert (events + [e])[..|events|] == events;
    var viewed := Viewed(w, events + [e]);
    assert viewed == Viewed(w, events) + [e.(before := last)];
    assert viewed[..|viewed| - 1] == Viewed(w, events);
  }

  lemma OwnIsStep(c: Cluster, node: string, key: string, now: int, events: seq<Event>, e: Event, c': Cluster)
    requires Taken(c, node, now, Own(e), c') && Reconciling(node, key, now, events + [e])
    requires events != [] ==> c.jobs[node] == JobOf(key, now, events)
    ensures Step(c, node, now, e, c') && c'.jobs[node] == JobOf(key, now, events + [e])
  {
    assert (events + [e])[..|events|] == events;
    JobGoesOn(node, key, now, events + [e], c.jobs[node]);
  }

  lemma OwnGoesOn(past: seq<Cluster>, c: Cluster, node: string, key: string, now: int, w: State, events: seq<Event>,
                  e: Event, c': Cluster)
    requires Standing(past, c, node, key, now, w, events) && Taken(c, node, now, Own(e), c')
    requires Reconciling(node, key, now, events + [e])
    ensures Standing(past + [c'], c', node, key, now, w, events + [e])
  {
    OwnIsStep(c, node, key, now, events, e, c');
    StepHappened(c, node, now, e, c');
    RunGoesOn(past, c');
    RunIsConsistent(past + [c'], |past|);
    ViewGoesOn(w, events, e);
    NoDisturbance(e.after);
  }

  function EventsOf(turn: Turn): seq<Event> {
    if turn.Own? then [turn.event] else []
  }

  lemma TurnGoesOn(past: seq<Cluster>, c: Cluster, node: string, key: string, now: int, w: State, events: seq<Event>,
                   turn: Turn, c': Cluster)
    requires Standing(past, c, node, key, now, w, events) && Taken(c, node, now, turn, c')
    requires Reconciling(node, key, now, events + EventsOf(turn))
    ensures Standing(past + [c'], c', node, key, now, w, events + EventsOf(turn))
  {
    match turn {
      case Other(n, t, e) =>
        assert events + [] == events;
        OtherGoesOn(past, c, node, key, now, w, events, n, t, e, c');
      case Own(e) => OwnGoesOn(past, c, node, key, now, w, events, e, c');
    }
  }

  lemma OwnPrefix(node: string, key: string, now: int, turns: seq<Turn>)
    requires turns != [] && Reconciling(node, key, now, OwnEvents(turns))
    ensures var k := |turns| - 1;
            && OwnEvents(turns) == OwnEvents(turns[..k]) + EventsOf(turns[k])
            && Reconciling(node, key, now, OwnEvents(turns[..k]))
  {
    CutAfter(node, key, now, OwnEvents(turns[..|turns| - 1]), EventsOf(turns[|turns| - 1]));
  }

  lemma CutAfter(node: string, key: string, now: int, events: seq<Event>, more: seq<Event>)
    requires Reconciling(node, key, now, events + more)
    ensures Reconciling(node, key, now, events)
  {
    assert (events + more)[..|events|] == events;
    CutOff(node, key, now, events + more, |events|);
  }

  lemma WovenPrefix(cs: seq<Cluster>, node: string, now: int, turns: seq<Turn>)
    requires Woven(cs, node, now, turns) && turns != []
    ensures var k := |turns| - 1;
            Woven(cs[..k + 1], node, now, turns[..k]) && Taken(cs[k], node, now, turns[k], cs[k + 1])
  {
    var k := |turns| - 1;
    assert TakenAt(cs, node, now, turns, k);
    var shorter, earlier := cs[..k + 1], turns[..k];
    forall i | 0 <= i < k
      ensures TakenAt(shorter, node, now, earlier, i)
    {
      assert TakenAt(cs, node, now, turns, i);
    }
  }

  lemma WeavingBegins(past: seq<Cluster>, c: Cluster, node: string, key: string, now: int)
    requires Run(past) && past[|past| - 1] == c && c.On(node)
    ensures Standing(past, c, node, key, now, c.At(node), [])
  {
    RunIsConsistent(past, |past| - 1);
    NoDisturbance(c.At(node));
  }

  lemma {:induction false} WeavingStands(past: seq<Cluster>, cs: seq<Cluster>, node: string, key: string, now: int,
                                         turns: seq<Turn>)
    requires Woven(cs, node, now, turns) && Reconciling(node, key, now, OwnEvents(turns))
    requires Run(past) && past[|past| - 1] == cs[0] && cs[0].On(node)
    ensures Standing(past + cs[1..], cs[|turns|], node, key, now, cs[0].At(node), OwnEvents(turns))
    decreases |turns|
  {
    var w := cs[0].At(node);
    if turns == [] {
      assert past + cs[1..] == past;
      WeavingBegins(past, cs[0], node, key, now);
    } else {
      var k := |turns| - 1;
      var shorter := cs[..k + 1];
      WovenPrefix(cs, node, now, turns);
      OwnPrefix(node, key, now, turns);
      WeavingStands(past, shorter, node, key, now, turns[..k]);
      assert past + cs[1..] == past + shorter[1..] + [cs[k + 1]];
      TurnGoesOn(past + shorter[1..], cs[k], node, key, now, w, OwnEvents(turns[..k]), turns[k], cs[k + 1]);
    }
  }

  /**
   * The calls that `Reconcile` is proved to make, as it sees them, with any steps of other nodes and any edits of
   * users in between, are a run. And what it sees is a history of its environment as `Reconcile` knows it: other
   * nodes are nothing but a disturbance.
   */
  lemma ReconcileIsARun(past: seq<Cluster>, cs: seq<Cluster>, node: string, key: string, now: int, turns: seq<Turn>)
    requires Woven(cs, node, now, turns) && Run(past) && past[|past| - 1] == cs[0] && cs[0].On(node)
    requires Reconciling(node, key, now, Viewed(cs[0].At(node), OwnEvents(turns)))
    ensures Run(past + cs[1..]) && cs[|turns|].On(node)
    ensures var w, events := cs[0].At(node), OwnEvents(turns);
            && Chain(Viewed(w, events), w, LastSeen(w, events))
            && Disturbed(LastSeen(w, events), cs[|turns|].At(node))
  {
    var w, events := cs[0].At(node), OwnEvents(turns);
    ViewedAlike(w, events);
    AlikeReconcile(node, key, now, Viewed(w, events), events);
    WeavingStands(past, cs, node, key, now, turns);
  }
}
