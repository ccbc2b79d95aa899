/** One node's host together with the API server, every action taken on them and what others may change meanwhile. */
module World {
  import opened Wrappers
  import opened Utils
  import opened Lsblk
  import opened Lvm
  import opened Api

  /** Every object has a UID of its own, one of those the API server has handed out. */
  predicate Consistent(store: map<string, Object>, uids: set<string>) {
    && (forall k | k in store :: store[k].uid in uids)
    && (forall j, k | j in store && k in store && j != k :: store[j].uid != store[k].uid)
  }

  /**
   * What the reconciler of `node` has to do with. `uids`: every UID the API server has handed out so far.
   * `scan`: the devices that lsblk has last reported to the reconcile in progress, if it has been asked.
   */
  datatype State = State(
    host: Host, store: map<string, Object>, uids: set<string>, scan: Option<seq<BlockDevice>>, node: string)
  {
    predicate StoreValid() {
      Consistent(store, uids)
    }

    ghost predicate Valid() {
      host.Valid() && StoreValid()
    }
  }

  datatype Action =
    | Lvm(command: Command)
    | RunLsblk(columns: seq<string>)
    | Get(key: string)
    | Update(key: string, obj: Object)
    | UpdateStatus(key: string, obj: Object)

  predicate Repairs(a: Action) {
    a.Lvm? && a.command.RemoveMissing?
  }

  /** `Interrupted`: killed by a deadline or cut off; the action may have happened all the same. */
  datatype Error = MissingPVs | NotFound | Refused | Interrupted

  // ---- actions ----

  predicate Current(w: State, key: string, obj: Object) {
    key in w.store && w.store[key].uid == obj.uid && w.store[key].version == obj.version
  }

  predicate Possible(w: State, a: Action) {
    match a
    case Lvm(c) => Enabled(w.host, c)
    case RunLsblk(_) => true
    case Get(key) => key in w.store
    case Update(key, obj) => Current(w, key, obj)
    case UpdateStatus(key, obj) => Current(w, key, obj)
  }

  /** An object that is being deleted disappears with its last finalizer. */
  function Updated(store: map<string, Object>, key: string, obj: Object): map<string, Object>
    requires key in store
  {
    if store[key].deletion.Some? && obj.finalizers == [] then store - {key}
    else store[key := store[key].(finalizers := obj.finalizers, version := store[key].version + 1)]
  }

  ghost predicate Does(w: State, a: Action, w': State) {
    match a
    case Lvm(c) => w' == w.(host := w'.host) && Effect(w.host, c, w'.host)
    case Update(key, obj) => key in w.store && w' == w.(store := Updated(w.store, key, obj))
    case UpdateStatus(key, obj) =>
      && key in w.store
      && w' == w.(store := w.store[key := w.store[key].(
           conditions := obj.conditions, status := obj.status, version := w.store[key].version + 1)])
    case RunLsblk(_) => w' == w.(scan := Some(w.host.forest))
    case Get(_) => w' == w.(scan := None)
  }

  predicate Absent(w: State, a: Action) {
    match a
    case Lvm(c) => !c.Create? && c.vg !in w.host.vgs
    case RunLsblk(_) => false
    case _ => a.key !in w.store
  }

  predicate LacksPVs(w: State, a: Action) {
    a.Lvm? && !Query(a.command) && w.host.Missing(a.command.vg) != {}
  }

  ghost predicate Reacts(w: State, a: Action, err: Option<Error>, w': State) {
    match err
    case None => Possible(w, a) && Does(w, a, w')
    case Some(MissingPVs) => w' == w && LacksPVs(w, a)
    case Some(NotFound) => w' == w && Absent(w, a)
    case Some(Refused) => w' == w
    case Some(Interrupted) =>
      || w' == w
      || (Possible(w, a) && Does(w, a, w'))
      || (a.Lvm? && w' == w.(host := w'.host) && PartialMove(w.host, a.command, w'.host))
  }

  /** The error a cooperating host gives. */
  function Diagnosis(w: State, a: Action): Error {
    if Absent(w, a) then NotFound else if LacksPVs(w, a) then MissingPVs else Refused
  }

  // ---- what happens outside the controller ----

  /**
   * The object may be edited, but its node stays, deletion is final, a new specification has a new
   * generation, and conditions and our finalizer are ours alone.
   */
  predicate Evolves(o: Object, o': Object) {
    || o' == o
    || (&& Drifts(o, o')
        && (o.deletion.Some? ==> o'.deletion == o.deletion)
        && o'.generation >= o.generation && (o'.spec != o.spec ==> o'.generation > o.generation)
        && o'.conditions == o.conditions
        && (VOLUME_GROUP_FINALIZER in o.finalizers <==> VOLUME_GROUP_FINALIZER in o'.finalizers))
  }

  /** Any change at all, apart from the node. */
  predicate Drifts(o: Object, o': Object) {
    o' == o || (o'.version > o.version && o'.uid == o.uid && o'.spec.nodeName == o.spec.nodeName)
  }

  predicate Same(w: State, w': State, key: string) {
    key in w.store && key in w'.store && w.store[key].uid == w'.store[key].uid
  }

  /** No object holds its finalizer or has a condition before its own reconciler has seen to it. */
  predicate Blank(o: Object) {
    VOLUME_GROUP_FINALIZER !in o.finalizers && o.conditions == []
  }

  predicate UsersChange(w: State, w': State) {
    && w.uids <= w'.uids && w'.StoreValid()
    && (forall k | k in w.store ::
          if Same(w, w', k) then Evolves(w.store[k], w'.store[k])
          else VOLUME_GROUP_FINALIZER !in w.store[k].finalizers)
    && (forall k | k in w'.store && !Same(w, w', k) :: w'.store[k].uid !in w.uids && Blank(w'.store[k]))
  }

  /** Users and the reconcilers of other nodes: these do with their own objects as they like. */
  predicate OthersChange(w: State, w': State) {
    && w.uids <= w'.uids && w'.StoreValid()
    && (forall k | k in w.store ::
          if !Same(w, w', k) then Mine(w, w.store[k]) ==> VOLUME_GROUP_FINALIZER !in w.store[k].finalizers
          else if Mine(w, w.store[k]) then Evolves(w.store[k], w'.store[k])
          else Drifts(w.store[k], w'.store[k]))
    && (forall k | k in w'.store && !Same(w, w', k) ::
          w'.store[k].uid !in w.uids && (Mine(w, w'.store[k]) ==> Blank(w'.store[k])))
  }

  predicate Mine(w: State, o: Object) {
    o.spec.nodeName == w.node
  }

  /** Devices come and go; the volume groups' metadata is changed by nobody else. */
  predicate DevicesChange(h: Host, h': Host) {
    h' == h.(lost := h'.lost, sizes := h'.sizes, forest := h'.forest)
  }

  predicate Disturbed(w: State, w': State) {
    && DevicesChange(w.host, w'.host) && OthersChange(w, w')
    && w'.scan == w.scan && w'.node == w.node
  }

  /** Nobody but users and devices has interfered. */
  predicate DisturbedByUsers(w: State, w': State) {
    && DevicesChange(w.host, w'.host) && UsersChange(w, w')
    && w'.scan == w.scan && w'.node == w.node
  }

  lemma UsersAreOthers(w: State, w': State)
    requires DisturbedByUsers(w, w')
    ensures Disturbed(w, w')
  {
  }

  lemma NoDisturbance(w: State)
    requires w.StoreValid()
    ensures DisturbedByUsers(w, w) && Disturbed(w, w)
  {
  }

  lemma OthersKeepObject(w: State, w': State, w'': State, k: string)
    requires OthersChange(w, w') && OthersChange(w', w'') && w'.node == w.node && w.StoreValid() && k in w.store
    ensures Same(w, w'', k) ==> Same(w, w', k) && Same(w', w'', k)
    ensures if !Same(w, w'', k) then Mine(w, w.store[k]) ==> VOLUME_GROUP_FINALIZER !in w.store[k].finalizers
            else if Mine(w, w.store[k]) then Evolves(w.store[k], w''.store[k])
            else Drifts(w.store[k], w''.store[k])
  {
    if Same(w, w', k) && Same(w', w'', k) {
      assert Mine(w', w'.store[k]) == Mine(w, w.store[k]);
    }
  }

  lemma OthersTransitive(w: State, w': State, w'': State)
    requires Disturbed(w, w') && Disturbed(w', w'') && w.StoreValid()
    ensures Disturbed(w, w'')
  {
    forall k | k in w.store
      ensures Same(w, w'', k) ==> Same(w, w', k) && Same(w', w'', k)
      ensures if !Same(w, w'', k) then Mine(w, w.store[k]) ==> VOLUME_GROUP_FINALIZER !in w.store[k].finalizers
              else if Mine(w, w.store[k]) then Evolves(w.store[k], w''.store[k])
              else Drifts(w.store[k], w''.store[k])
    {
      OthersKeepObject(w, w', w'', k);
    }
    forall k | k in w''.store && !Same(w, w'', k)
      ensures w''.store[k].uid !in w.uids && (Mine(w, w''.store[k]) ==> Blank(w''.store[k]))
    {
      if Same(w', w'', k) {
        assert !Same(w, w', k);
        assert Drifts(w'.store[k], w''.store[k]);
      }
    }
  }

  // ---- events and runs ----

  /** `seen` is the world the action met, after outside changes since `before`. */
  datatype Event = Event(before: State, seen: State, action: Action, error: Option<Error>, after: State)

  ghost predicate Happened(e: Event) {
    Disturbed(e.before, e.seen) && Reacts(e.seen, e.action, e.error, e.after)
  }

  /** The same without interference from other nodes' reconcilers. */
  ghost predicate HappenedAlone(e: Event) {
    DisturbedByUsers(e.before, e.seen) && Reacts(e.seen, e.action, e.error, e.after)
  }

  /** A gapless history that leads from `w` to `w'`. */
  ghost predicate Chain(events: seq<Event>, w: State, w': State)
    decreases |events|
  {
    if events == [] then w == w'
    else
      var last := events[|events| - 1];
      last.after == w' && Happened(last) && Chain(events[..|events| - 1], w, last.before)
  }

  lemma {:induction false} ChainAppend(a: seq<Event>, b: seq<Event>, w0: State, w1: State, w2: State)
    requires Chain(a, w0, w1) && Chain(b, w1, w2)
    ensures Chain(a + b, w0, w2)
    decreases |b|
  {
    if b == [] {
      assert a + b == a;
    } else {
      var k := |b| - 1;
      assert (a + b)[..|a + b| - 1] == a + b[..k];
      ChainAppend(a, b[..k], w0, w1, b[k].before);
    }
  }

  /** The world at some point of a history, with the changes devices may still undergo and the events so far. */
  datatype Moment = Moment(world: State, disruptions: nat, reliable: bool, events: seq<Event>)

  function Since(m: Moment, m': Moment): seq<Event> {
    if |m.events| <= |m'.events| then m'.events[|m.events|..] else []
  }

  /** One call was made between two moments. */
  ghost predicate Stepped(m: Moment, a: Action, err: Option<Error>, m': Moment) {
    && |m'.events| == |m.events| + 1 && m'.events[..|m.events|] == m.events
    && var e := m'.events[|m.events|];
       && e == Event(m.world, e.seen, a, err, m'.world)
       && Happened(e)
       && m'.disruptions <= m.disruptions
       && (m'.disruptions == m.disruptions ==> e.seen.host == m.world.host)
       && m'.reliable == m.reliable
       && (m.reliable ==> if Possible(e.seen, a) then err.None? else err == Some(Diagnosis(e.seen, a)))
  }

  /** The second moment continues the history of the first. */
  ghost predicate Continues(m: Moment, m': Moment) {
    && |m.events| <= |m'.events| && m'.events[..|m.events|] == m.events
    && Chain(Since(m, m'), m.world, m'.world)
    && m'.disruptions <= m.disruptions && m'.reliable == m.reliable
  }

  lemma StepContinues(m: Moment, a: Action, err: Option<Error>, m': Moment)
    requires Stepped(m, a, err, m')
    ensures Continues(m, m') && Since(m, m') == [m'.events[|m.events|]]
  {
    var e := m'.events[|m.events|];
    assert Since(m, m') == [e];
    assert [e][..0] == [];
    assert Chain([], m.world, e.before);
  }

  lemma ContinuesTransitive(a: Moment, b: Moment, c: Moment)
    requires Continues(a, b) && Continues(b, c)
    ensures Continues(a, c) && Since(a, c) == Since(a, b) + Since(b, c)
  {
    assert c.events[..|a.events|] == c.events[..|b.events|][..|a.events|];
    assert Since(a, c) == Since(a, b) + Since(b, c);
    ChainAppend(Since(a, b), Since(b, c), a.world, b.world, c.world);
  }

  lemma DoesKeepsValid(w: State, a: Action, w': State)
    requires w.Valid() && Possible(w, a) && Does(w, a, w')
    ensures w'.Valid()
  {
    if a.Lvm? {
      EffectKeepsValid(w.host, a.command, w'.host);
    }
  }

  lemma HappenedKeepsValid(e: Event)
    requires e.before.Valid() && Happened(e)
    ensures e.seen.Valid() && e.after.Valid()
  {
    assert e.seen.host.vgs == e.before.host.vgs;
    assert e.seen.Valid();
    if Possible(e.seen, e.action) && Does(e.seen, e.action, e.after) {
      DoesKeepsValid(e.seen, e.action, e.after);
    } else if e.after != e.seen {
      PartialMoveKeepsValid(e.seen.host, e.action.command, e.after.host);
    }
  }

  // ---- versions ----

  /** If the object of that UID still has the version it was read at, it still is what was read. */
  ghost predicate Tells(w: State, key: string, o: Object) {
    && o.uid in w.uids
    && (key in w.store && w.store[key].uid == o.uid ==> w.store[key].version > o.version || w.store[key] == o)
  }

  lemma HappenedTells(e: Event, key: string, o: Object)
    requires Happened(e) && Tells(e.before, key, o)
    ensures Tells(e.seen, key, o) && Tells(e.after, key, o)
  {
    OthersTell(e.before, e.seen, key, o);
    ActionTells(e, key, o);
  }

  lemma OthersTell(w: State, w': State, key: string, o: Object)
    requires OthersChange(w, w') && Tells(w, key, o)
    ensures Tells(w', key, o)
  {
  }

  lemma ActionTells(e: Event, key: string, o: Object)
    requires Reacts(e.seen, e.action, e.error, e.after) && Tells(e.seen, key, o)
    ensures Tells(e.after, key, o)
  {
  }

  lemma {:induction false} ChainTells(events: seq<Event>, w: State, w': State, key: string, o: Object)
    requires Chain(events, w, w') && Tells(w, key, o)
    ensures Tells(w', key, o)
    decreases |events|
  {
    if events == [] {
    } else {
      var last := events[|events| - 1];
      ChainTells(events[..|events| - 1], w, last.before, key, o);
      HappenedTells(last, key, o);
    }
  }
}
