/** What the steps of a reconcile return: nil, joined errors, or a panic, and how these come from the calls made. */
module Outcomes {
  import opened Wrappers
  import opened Lvm
  import opened World
  import Selector

  datatype Failure = Call(error: Error) | Selection(reason: Selector.SelectError)

  /** `Panicked`: a Go run-time panic unwound the call. */
  datatype Outcome = Ok | Failed(errors: seq<Failure>) | Panicked

  /** How a reconcile ends: `Erred` and `Crashed` are tried again with back-off, `Requeue` at once. */
  datatype Reply = Done | Requeue | RequeueAfter | Erred(errors: seq<Failure>) | Crashed

  function Joined(a: Outcome, b: Outcome): Outcome {
    if a.Panicked? || b.Panicked? then Panicked
    else if a.Ok? then b
    else if b.Ok? then a
    else Failed(a.errors + b.errors)
  }

  function FromCall(err: Option<Error>): Outcome {
    if err.None? then Ok else Failed([Call(err.value)])
  }

  function FailuresOf(err: Option<Error>): seq<Failure> {
    if err.None? then [] else [Call(err.value)]
  }

  lemma JoinedWithCall(o: Outcome, err: Option<Error>)
    requires !o.Panicked?
    ensures var j := Joined(o, FromCall(err));
            !j.Panicked? && (j.Ok? <==> o.Ok? && err.None?) && ErrorsIn(j) == ErrorsIn(o) + FailuresOf(err)
  {
  }

  /** Some error of the joined ones is lvm2's missing-volume error. */
  predicate Complains(o: Outcome) {
    o.Failed? && Call(MissingPVs) in o.errors
  }

  function ErrorsIn(o: Outcome): seq<Failure> {
    if o.Failed? then o.errors else []
  }

  // ---- outcomes and calls ----

  ghost predicate AllWell(events: seq<Event>) {
    forall e | e in events :: e.error.None?
  }

  ghost predicate FailedWith(events: seq<Event>, x: Error) {
    exists e | e in events :: e.error == Some(x)
  }

  /** The calls were made up to the first that failed, and its error is what is returned. */
  ghost predicate Relays(o: Outcome, events: seq<Event>) {
    if o.Ok? then AllWell(events)
    else
      && o.Failed? && events != []
      && AllWell(events[..|events| - 1]) && events[|events| - 1].error.Some?
      && o.errors == [Call(events[|events| - 1].error.value)]
  }

  lemma CallRelays(err: Option<Error>, e: Event)
    requires e.error == err
    ensures Relays(FromCall(err), [e])
  {
    assert [e][..0] == [];
  }

  lemma RelaysOn(o: Outcome, a: seq<Event>, b: seq<Event>)
    requires AllWell(a) && Relays(o, b)
    ensures Relays(o, a + b)
  {
    if !o.Ok? {
      assert (a + b)[..|a + b| - 1] == a + b[..|b| - 1];
    }
  }

  lemma RelaysFailures(o: Outcome, events: seq<Event>)
    requires Relays(o, events)
    ensures Accounted(o, events, None)
  {
    if o.Failed? {
      var last := events[|events| - 1];
      assert last in events;
      assert forall e | e in events :: e in events[..|events| - 1] || e == last;
    }
  }

  /** lsblk was asked and did not answer. */
  ghost predicate LookFailed(events: seq<Event>) {
    exists e | e in events :: e.action.RunLsblk? && e.error.Some?
  }

  /** The errors are exactly those of these calls and of the selector, on what lsblk has answered. */
  ghost predicate Accounted(o: Outcome, events: seq<Event>, fault: Option<Selector.SelectError>) {
    !o.Panicked? ==>
      && (forall x :: Call(x) in ErrorsIn(o) <==> FailedWith(events, x))
      && (forall f :: Selection(f) in ErrorsIn(o) ==> fault == Some(f))
      && (fault.Some? && !LookFailed(events) ==> Selection(fault.value) in ErrorsIn(o))
      && (o.Failed? ==> o.errors != [])
  }

  lemma AccountedOutcome(o: Outcome, events: seq<Event>, fault: Option<Selector.SelectError>)
    requires Accounted(o, events, fault) && !o.Panicked?
    ensures o.Ok? <==> AllWell(events) && fault.None?
    ensures Complains(o) <==> FailedWith(events, MissingPVs)
  {
    if o.Failed? {
      var f := o.errors[0];
      assert f == (if f.Call? then Call(f.error) else Selection(f.reason)) && f in ErrorsIn(o);
    } else {
      forall e | e in events
        ensures e.error.None?
      {
        assert e.error.Some? ==> FailedWith(events, e.error.value);
      }
    }
  }

  lemma AccountedTogether(before: Outcome, a: seq<Event>, fault: Option<Selector.SelectError>, more: Outcome,
                          b: seq<Event>, fault': Option<Selector.SelectError>)
    requires Accounted(before, a, fault) && Accounted(more, b, fault') && !before.Panicked?
    requires fault.None? || fault'.None?
    ensures Accounted(Joined(before, more), a + b, if fault.Some? then fault else fault')
  {
    if !more.Panicked? {
      assert forall e :: e in a + b <==> e in a || e in b;
      assert forall x :: FailedWith(a + b, x) <==> FailedWith(a, x) || FailedWith(b, x);
      assert LookFailed(a + b) <==> LookFailed(a) || LookFailed(b);
      assert forall f :: f in ErrorsIn(Joined(before, more)) <==> f in ErrorsIn(before) || f in ErrorsIn(more);
    }
  }

  /** No call failed between two moments. */
  ghost predicate Smooth(m: Moment, m': Moment) {
    AllWell(Since(m, m'))
  }

  ghost predicate Relayed(o: Outcome, m: Moment, m': Moment) {
    Relays(o, Since(m, m'))
  }

  lemma NothingRelayed(m: Moment)
    ensures Smooth(m, m) && Relayed(Ok, m, m)
  {
    assert Since(m, m) == [];
  }

  lemma SmoothIsRelayed(m: Moment, m': Moment)
    ensures Smooth(m, m') <==> Relayed(Ok, m, m')
  {
  }

  lemma RelayedOn(o: Outcome, m0: Moment, m: Moment, m': Moment)
    requires Continues(m0, m) && Continues(m, m') && Smooth(m0, m) && Relayed(o, m, m')
    ensures Relayed(o, m0, m')
  {
    ContinuesTransitive(m0, m, m');
    RelaysOn(o, Since(m0, m), Since(m, m'));
  }

  lemma StepRelayed(m: Moment, a: Action, err: Option<Error>, m': Moment)
    requires Stepped(m, a, err, m')
    ensures Relayed(FromCall(err), m, m')
  {
    StepContinues(m, a, err, m');
    CallRelays(err, m'.events[|m.events|]);
  }

  // ---- repairs ----

  /** A repair of device loss succeeded later on. */
  ghost predicate RepairedAfter(events: seq<Event>, i: int) {
    exists j | i < j < |events| && 0 <= j :: Repairs(events[j].action) && events[j].error.None?
  }

  /** No call has failed since the last successful repair, or at all. */
  ghost predicate Clean(events: seq<Event>) {
    forall i | 0 <= i < |events| && events[i].error.Some? :: RepairedAfter(events, i)
  }

  /** A repair was tried later on. */
  ghost predicate TriedAfter(events: seq<Event>, i: int) {
    exists j | i < j < |events| && 0 <= j :: Repairs(events[j].action)
  }

  /** Each missing-volume error was answered with a repair. */
  ghost predicate LossMet(events: seq<Event>) {
    forall i | 0 <= i < |events| && events[i].error == Some(MissingPVs) && !Repairs(events[i].action) ::
      TriedAfter(events, i)
  }

  ghost predicate MetBefore(events: seq<Event>, j: int) {
    exists i | 0 <= i < j && i < |events| :: events[i].error == Some(MissingPVs)
  }

  /** No repair without a missing-volume error before it. */
  ghost predicate Provoked(events: seq<Event>) {
    forall j | 0 <= j < |events| && Repairs(events[j].action) :: MetBefore(events, j)
  }

  /** A stretch without repairs that met loss, then a repair that fails. */
  lemma RepairIsLast(a: seq<Event>, e: Event)
    requires Repairs(e.action) && e.error.Some? && FailedWith(a, MissingPVs)
    requires forall x | x in a :: !Repairs(x.action)
    ensures !Clean(a + [e]) && LossMet(a + [e]) && Provoked(a + [e])
    ensures EndsInRepair(a + [e]) && forall fault :: LastErrors(FromCall(e.error), a + [e], fault)
  {
    var all := a + [e];
    assert all[|a|] == e && !RepairedAfter(all, |a|);
    forall i | 0 <= i < |a|
      ensures TriedAfter(all, i)
    {
      assert Repairs(all[|a|].action);
    }
    ProvokedAgain(a, e, []);
    assert a + [e] + [] == all;
  }

  lemma ProvokedAgain(a: seq<Event>, e: Event, b: seq<Event>)
    requires FailedWith(a, MissingPVs) && Provoked(b) && forall x | x in a :: !Repairs(x.action)
    ensures Provoked(a + [e] + b)
  {
    var all := a + [e] + b;
    var x :| x in a && x.error == Some(MissingPVs);
    var i :| 0 <= i < |a| && a[i] == x;
    assert all[i] == x;
    forall j | 0 <= j < |a|
      ensures !Repairs(all[j].action)
    {
      assert all[j] == a[j];
    }
    assert forall j | |a| <= j < |all| :: MetBefore(all, j);
  }

  /** The calls since the last successful repair, or all if there was none. */
  ghost predicate LastPass(events: seq<Event>, k: int) {
    && 0 <= k <= |events|
    && (k == 0 || (Repairs(events[k - 1].action) && events[k - 1].error.None?))
    && forall e | e in events[k..] :: !Repairs(e.action)
  }

  /** The last call was a repair, and it failed. */
  ghost predicate EndsInRepair(events: seq<Event>) {
    events != [] && Repairs(events[|events| - 1].action) && events[|events| - 1].error.Some?
  }

  /** What is returned is a repair that failed, or all that went wrong since the last that did not. */
  ghost predicate LastErrors(o: Outcome, events: seq<Event>, fault: Option<Selector.SelectError>) {
    o.Failed? ==>
      if EndsInRepair(events) then o.errors == FailuresOf(events[|events| - 1].error)
      else exists k :: LastPass(events, k) && Accounted(o, events[k..], fault)
  }

  lemma OnlyPass(o: Outcome, events: seq<Event>, fault: Option<Selector.SelectError>)
    requires Accounted(o, events, fault) && forall e | e in events :: !Repairs(e.action)
    ensures LastErrors(o, events, fault)
  {
    assert events[0..] == events;
    assert LastPass(events, 0);
    assert events != [] ==> events[|events| - 1] in events;
  }

  /** A stretch without repairs, and what it has come to. */
  lemma WithoutRepair(o: Outcome, events: seq<Event>, fault: Option<Selector.SelectError>)
    requires Accounted(o, events, fault) && !o.Panicked? && forall e | e in events :: !Repairs(e.action)
    ensures (o.Ok? <==> Clean(events) && fault.None?) && LastErrors(o, events, fault)
    ensures !EndsInRepair(events) && Provoked(events) && (!Complains(o) ==> LossMet(events))
  {
    CleanWithoutRepair(events);
    AccountedOutcome(o, events, fault);
    OnlyPass(o, events, fault);
    assert events != [] ==> events[|events| - 1] in events;
  }

  lemma LastErrorsAfterRepair(o: Outcome, a: seq<Event>, e: Event, b: seq<Event>,
                              fault: Option<Selector.SelectError>)
    requires Repairs(e.action) && e.error.None? && LastErrors(o, b, fault)
    ensures LastErrors(o, a + [e] + b, fault) && EndsInRepair(a + [e] + b) == EndsInRepair(b)
  {
    var all := a + [e] + b;
    assert all[|a|] == e && (b != [] ==> all[|all| - 1] == b[|b| - 1]);
    if o.Failed? && !EndsInRepair(b) {
      var k :| LastPass(b, k) && Accounted(o, b[k..], fault);
      assert all[|a| + 1 + k..] == b[k..];
      assert LastPass(all, |a| + 1 + k);
    }
  }

  lemma CleanWithoutRepair(events: seq<Event>)
    requires forall e | e in events :: !Repairs(e.action)
    ensures Clean(events) <==> AllWell(events)
  {
    if Clean(events) {
      forall i | 0 <= i < |events|
        ensures events[i].error.None?
      {
        assert !RepairedAfter(events, i);
      }
    }
  }

  lemma CleanAfterRepair(a: seq<Event>, e: Event, b: seq<Event>)
    requires Repairs(e.action) && e.error.None?
    ensures Clean(a + [e] + b) <==> Clean(b)
  {
    var all := a + [e] + b;
    assert all[|a|] == e && forall i | 0 <= i < |b| :: all[|a| + 1 + i] == b[i];
    forall i | 0 <= i < |b|
      ensures RepairedAfter(all, |a| + 1 + i) <==> RepairedAfter(b, i)
    {
      if j :| |a| + 1 + i < j < |all| && 0 <= j && Repairs(all[j].action) && all[j].error.None? {
        assert b[j - |a| - 1] == all[j];
      }
      if j :| i < j < |b| && 0 <= j && Repairs(b[j].action) && b[j].error.None? {
        assert all[|a| + 1 + j] == b[j];
      }
    }
    forall i | 0 <= i < |a|
      ensures RepairedAfter(all, i)
    {
      assert Repairs(all[|a|].action);
    }
  }

  lemma LossMetAfterRepair(a: seq<Event>, e: Event, b: seq<Event>)
    requires Repairs(e.action) && LossMet(b)
    ensures LossMet(a + [e] + b)
  {
    var all := a + [e] + b;
    assert all[|a|] == e;
    forall i | 0 <= i < |all| && all[i].error == Some(MissingPVs) && !Repairs(all[i].action)
      ensures TriedAfter(all, i)
    {
      if i > |a| {
        var k := i - |a| - 1;
        assert b[k] == all[i] && TriedAfter(b, k);
        var j :| k < j < |b| && 0 <= j && Repairs(b[j].action);
        assert all[|a| + 1 + j] == b[j];
      }
    }
  }

  // ---- joining ----

  /** The errors of all parts, one after the other. */
  function AllErrors(parts: seq<Outcome>): seq<Failure> {
    if parts == [] then [] else AllErrors(parts[..|parts| - 1]) + ErrorsIn(parts[|parts| - 1])
  }

  /** `o` is what the parts come to: nil if all are, a panic if one is, and otherwise every error of every part. */
  ghost predicate JoinOf(o: Outcome, parts: seq<Outcome>) {
    && (o.Panicked? <==> exists p | p in parts :: p.Panicked?)
    && (o.Ok? <==> forall p | p in parts :: p.Ok?)
    && (o.Failed? ==> o.errors == AllErrors(parts))
  }

  lemma {:induction false} AllOkNoErrors(parts: seq<Outcome>)
    requires forall p | p in parts :: p.Ok?
    ensures AllErrors(parts) == []
  {
    if parts == [] {
    } else {
      assert parts[|parts| - 1] in parts;
      assert forall p | p in parts[..|parts| - 1] :: p in parts;
      AllOkNoErrors(parts[..|parts| - 1]);
    }
  }

  lemma JoinedIsJoin(o: Outcome, parts: seq<Outcome>, more: Outcome)
    requires JoinOf(o, parts) && !o.Panicked?
    ensures JoinOf(Joined(o, more), parts + [more])
  {
    var all := parts + [more];
    assert all[..|all| - 1] == parts && all[|all| - 1] == more;
    assert forall p :: p in all <==> p in parts || p == more;
    assert ErrorsIn(o) == AllErrors(parts) by {
      if o.Ok? {
        AllOkNoErrors(parts);
      }
    }
  }
}
