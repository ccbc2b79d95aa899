/** Moving extents off several physical volumes, one pvmove after the other. */
module Moving {
  import opened Utils
  import opened Lvm

  lemma OnSplit(g: VolumeGroup, a: set<string>, b: set<string>)
    requires a !! b
    ensures |g.On(a + b)| == |g.On(a)| + |g.On(b)|
    ensures |g.Slots(a + b)| == |g.Slots(a)| + |g.Slots(b)|
  {
    assert g.On(a + b) == g.On(a) + g.On(b);
    assert g.On(a) !! g.On(b);
    assert g.Slots(a + b) == g.Slots(a) + g.Slots(b);
    assert g.Slots(a) !! g.Slots(b);
  }

  lemma {:induction false} AllFull(g: VolumeGroup, targets: set<string>)
    requires forall t | t in targets :: |g.On({t})| >= |g.Slots({t})|
    ensures |g.On(targets)| >= |g.Slots(targets)|
  {
    if targets == {} {
      assert g.Slots({}) == {};
    } else {
      var t :| t in targets;
      assert targets == {t} + (targets - {t});
      OnSplit(g, {t}, targets - {t});
      AllFull(g, targets - {t});
    }
  }

  lemma {:induction false} NoneOverfull(g: VolumeGroup, targets: set<string>)
    requires forall t | t in targets :: |g.On({t})| <= |g.Slots({t})|
    ensures |g.On(targets)| <= |g.Slots(targets)|
  {
    if targets == {} {
      assert g.On({}) == {};
    } else {
      var t :| t in targets;
      assert targets == {t} + (targets - {t});
      OnSplit(g, {t}, targets - {t});
      NoneOverfull(g, targets - {t});
    }
  }

  lemma MoveOne(g: VolumeGroup, e: Extent, target: string)
    requires e in g.place && g.place[e] != target
    ensures var g' := g.(place := g.place[e := target]);
            && g'.On({target}) == g.On({target}) + {e}
            && g'.On({g.place[e]}) == g.On({g.place[e]}) - {e}
            && forall p | p != target && p != g.place[e] :: g'.On({p}) == g.On({p})
  {
  }

  /** One extent goes to a destination with room; the rest still fits. */
  lemma MoveOneFits(g: VolumeGroup, source: string, targets: set<string>, e: Extent, target: string)
    requires e in g.place && g.place[e] == source && target in targets && source !in targets
    requires g.Fits({source}, targets)
    ensures g.(place := g.place[e := target]).Fits({source}, targets)
  {
    var g' := g.(place := g.place[e := target]);
    MoveOne(g, e, target);
    assert g'.On(targets) == g.On(targets) + {e};
    assert g'.Slots(targets) == g.Slots(targets);
  }

  lemma FreeTarget(g: VolumeGroup, source: string, targets: set<string>)
    requires g.Fits({source}, targets) && g.On({source}) != {}
    ensures exists t :: t in targets && |g.On({t})| < |g.Slots({t})|
  {
    if forall t | t in targets :: |g.On({t})| >= |g.Slots({t})| {
      AllFull(g, targets);
    }
  }

  lemma MoveOnePartly(g: VolumeGroup, source: string, targets: set<string>, was: VolumeGroup, e: Extent, t: string)
    requires PartlyMoved(g, source, targets, was) && source !in targets && targets <= g.pvs.Keys
    requires e in was.place && was.place[e] == source
    requires t in targets && |was.On({t})| < |was.Slots({t})|
    ensures PartlyMoved(g, source, targets, was.(place := was.place[e := t]))
  {
    var g' := was.(place := was.place[e := t]);
    MoveOne(was, e, t);
    forall p | p in g.pvs
      ensures |g'.On({p})| <= |g.Slots({p})|
    {
      assert was.Slots({p}) == g.Slots({p});
      SubsetSize(was.On({source}) - {e}, was.On({source}));
    }
    forall x | x in g.place
      ensures g'.place[x] == g.place[x] || (g.place[x] == source && g'.place[x] in targets)
    {
    }
  }

  lemma MovedNothing(g: VolumeGroup, source: string, targets: set<string>)
    requires g.Valid()
    ensures PartlyMoved(g, source, targets, g)
  {
  }

  lemma ExtentRelocated(g: VolumeGroup, source: string, targets: set<string>, was: VolumeGroup, e: Extent, t: string)
    requires PartlyMoved(g, source, targets, was) && source !in targets && targets <= g.pvs.Keys
    requires was.Fits({source}, targets) && e in was.On({source})
    requires t in targets && |was.On({t})| < |was.Slots({t})|
    ensures var g' := was.(place := was.place[e := t]);
            && PartlyMoved(g, source, targets, g')
            && g'.On({source}) == was.On({source}) - {e}
            && g'.Fits({source}, targets)
  {
    MoveOne(was, e, t);
    MoveOneFits(was, source, targets, e, t);
    MoveOnePartly(g, source, targets, was, e, t);
  }

  lemma NoneLeft(g: VolumeGroup, source: string, targets: set<string>, g': VolumeGroup)
    requires PartlyMoved(g, source, targets, g') && g'.On({source}) == {}
    ensures Moved(g, source, targets, g')
  {
    forall e | e in g'.place
      ensures g'.place[e] != source
    {
      assert e !in g'.On({source});
    }
  }

  /** A capacity-only pvmove: extents go to any destination with room until the source is empty. */
  method Relocate(g: VolumeGroup, source: string, targets: set<string>) returns (g': VolumeGroup)
    requires g.Valid() && source !in targets && targets <= g.pvs.Keys && g.Fits({source}, targets)
    ensures Moved(g, source, targets, g')
  {
    g' := g;
    var rest := g.On({source});
    MovedNothing(g, source, targets);
    while rest != {}
      invariant PartlyMoved(g, source, targets, g')
      invariant rest == g'.On({source})
      invariant g'.Fits({source}, targets)
      decreases |rest|
    {
      var e :| e in rest;
      FreeTarget(g', source, targets);
      var target :| target in targets && |g'.On({target})| < |g'.Slots({target})|;
      ExtentRelocated(g, source, targets, g', e, target);
      g' := g'.(place := g'.place[e := target]);
      rest := rest - {e};
    }
    NoneLeft(g, source, targets, g');
  }

  lemma MovedTo(g: VolumeGroup, source: string, targets: set<string>, g': VolumeGroup)
    requires Moved(g, source, targets, g') && source !in targets
    ensures g'.On(targets) == g.On(targets) + g.On({source})
  {
    forall e | e in g.place
      ensures g'.place[e] in targets <==> g.place[e] in targets || g.place[e] == source
    {
      assert g'.place[e] in g'.place.Values;
    }
  }

  /** What one successful pvmove does to the room that the remaining ones need. */
  lemma MoveKeepsFit(g: VolumeGroup, source: string, rest: set<string>, targets: set<string>, g': VolumeGroup)
    requires Moved(g, source, targets, g')
    requires source !in rest && source !in targets && rest !! targets
    ensures g.Fits({source} + rest, targets) <==> g'.Fits(rest, targets)
    ensures g'.On(rest) == g.On(rest)
  {
    assert g'.On(rest) == g.On(rest);
    MovedTo(g, source, targets, g');
    OnSplitSizes(g, source, rest, targets);
    assert g'.Slots(targets) == g.Slots(targets);
  }

  lemma OnSplitSizes(g: VolumeGroup, source: string, rest: set<string>, targets: set<string>)
    requires source !in rest && source !in targets
    ensures |g.On({source} + rest)| == |g.On({source})| + |g.On(rest)|
    ensures |g.On(targets) + g.On({source})| == |g.On(targets)| + |g.On({source})|
  {
    OnSplit(g, {source}, rest);
    assert g.On(targets) !! g.On({source});
  }

  predicate Distinct(s: seq<string>) {
    forall i, j | 0 <= i < j < |s| :: s[i] != s[j]
  }

  /** The groups met by the move loop while it empties `sources` one by one. */
  ghost predicate MoveRun(gs: seq<VolumeGroup>, sources: seq<string>, targets: set<string>)
    decreases |gs|
  {
    && 0 < |gs| <= |sources| + 1
    && (|gs| > 1 ==>
          var k := |gs| - 1;
          MoveRun(gs[..k], sources, targets) && MoveStep(gs[k - 1], sources[k - 1], targets, gs[k]))
  }

  ghost predicate MoveStep(g: VolumeGroup, source: string, targets: set<string>, g': VolumeGroup) {
    g.Fits({source}, targets) && Moved(g, source, targets, g')
  }

  ghost predicate Hops(e: Extent, g: VolumeGroup, g': VolumeGroup) {
    e in g.place && e in g'.place && g.place[e] != g'.place[e]
  }

  /** What is on the sources from the `i`-th on fits on the targets. */
  predicate RestFits(g: VolumeGroup, sources: seq<string>, i: nat, targets: set<string>)
    requires i <= |sources|
  {
    g.Fits(Elements(sources[i..]), targets)
  }

  lemma StepKeepsFit(g: VolumeGroup, sources: seq<string>, i: nat, targets: set<string>, g': VolumeGroup)
    requires i < |sources| && Distinct(sources) && Elements(sources) !! targets
    requires Moved(g, sources[i], targets, g')
    ensures RestFits(g, sources, i, targets) <==> RestFits(g', sources, i + 1, targets)
  {
    var rest := Elements(sources[i + 1..]);
    assert sources[i] in Elements(sources);
    assert Elements(sources[i..]) == {sources[i]} + rest;
    assert sources[i] !in rest;
    MoveKeepsFit(g, sources[i], rest, targets, g');
  }

  lemma LastStep(gs: seq<VolumeGroup>, sources: seq<string>, targets: set<string>)
    requires MoveRun(gs, sources, targets) && |gs| > 1
    ensures var k := |gs| - 1;
            MoveRun(gs[..k], sources, targets) && Moved(gs[k - 1], sources[k - 1], targets, gs[k])
  {
  }

  /** Each move takes from the room on the targets what it no longer needs there. */
  lemma {:induction false} RunKeepsFit(gs: seq<VolumeGroup>, sources: seq<string>, targets: set<string>)
    requires MoveRun(gs, sources, targets) && Distinct(sources) && Elements(sources) !! targets
    ensures RestFits(gs[0], sources, 0, targets) <==> RestFits(gs[|gs| - 1], sources, |gs| - 1, targets)
    decreases |gs|
  {
    if |gs| == 1 {
    } else {
      var k := |gs| - 1;
      var shorter := gs[..k];
      LastStep(gs, sources, targets);
      RunKeepsFit(shorter, sources, targets);
      assert shorter[0] == gs[0] && shorter[|shorter| - 1] == gs[k - 1];
      StepKeepsFit(gs[k - 1], sources, k - 1, targets, gs[k]);
    }
  }

  lemma StepHop(g: VolumeGroup, source: string, targets: set<string>, g': VolumeGroup, e: Extent)
    requires MoveStep(g, source, targets, g')
    ensures g'.place.Keys == g.place.Keys
    ensures e in g.place ==> g'.place[e] != source
    ensures e in g.place && g'.place[e] != g.place[e] ==> g.place[e] == source && g'.place[e] in targets
  {
    if e in g.place {
      assert g'.place[e] in g'.place.Values;
    }
  }

  lemma {:induction false} RunKeepsPVs(gs: seq<VolumeGroup>, sources: seq<string>, targets: set<string>)
    requires MoveRun(gs, sources, targets)
    ensures gs[|gs| - 1].pvs == gs[0].pvs
    decreases |gs|
  {
    if |gs| == 1 {
    } else {
      var k := |gs| - 1;
      RunKeepsPVs(gs[..k], sources, targets);
      assert MoveStep(gs[k - 1], sources[k - 1], targets, gs[k]);
    }
  }

  lemma StepOverfillsNone(g: VolumeGroup, source: string, targets: set<string>, g': VolumeGroup, t: string)
    requires MoveStep(g, source, targets, g') && t in g.pvs
    ensures |g'.On({t})| <= |g'.Slots({t})|
  {
    assert g'.Slots({t}) == g.Slots({t});
  }

  predicate Bearable(g: VolumeGroup, p: string) {
    p in g.pvs && |g.On({p})| <= |g.Slots({p})|
  }

  lemma RunOverfillsNone(gs: seq<VolumeGroup>, sources: seq<string>, targets: set<string>, t: string)
    requires MoveRun(gs, sources, targets) && Bearable(gs[0], t)
    ensures |gs[|gs| - 1].On({t})| <= |gs[|gs| - 1].Slots({t})|
  {
    if |gs| > 1 {
      var k := |gs| - 1;
      RunKeepsPVs(gs[..k], sources, targets);
      StepOverfillsNone(gs[k - 1], sources[k - 1], targets, gs[k], t);
    }
  }

  lemma NextFits(g: VolumeGroup, sources: seq<string>, i: nat, targets: set<string>)
    requires i < |sources| && RestFits(g, sources, i, targets)
    ensures g.Fits({sources[i]}, targets)
  {
    SubsetSize(g.On({sources[i]}), g.On(Elements(sources[i..])));
  }

  lemma NothingFits(g: VolumeGroup, sources: seq<string>, targets: set<string>)
    requires forall t | t in targets :: |g.On({t})| <= |g.Slots({t})|
    ensures RestFits(g, sources, |sources|, targets)
  {
    assert Elements(sources[|sources|..]) == {};
    assert g.On({}) == {};
    NoneOverfull(g, targets);
  }

  /**
   * Whatever order the sources come in and wherever the host puts the extents: if everything fits in
   * total, no move is ever refused, and if the loop gets through, everything did fit.
   */
  lemma MoveLoopSucceedsIffFits(gs: seq<VolumeGroup>, sources: seq<string>, targets: set<string>)
    requires MoveRun(gs, sources, targets) && forall t | t in targets :: Bearable(gs[0], t)
    requires Distinct(sources) && Elements(sources) !! targets
    ensures gs[0].Fits(Elements(sources), targets) && |gs| <= |sources| ==>
              gs[|gs| - 1].Fits({sources[|gs| - 1]}, targets)
    ensures |gs| == |sources| + 1 ==> gs[0].Fits(Elements(sources), targets)
  {
    RunKeepsFit(gs, sources, targets);
    assert sources[0..] == sources;
    var last, i := gs[|gs| - 1], |gs| - 1;
    if i == |sources| {
      forall t | t in targets
        ensures |last.On({t})| <= |last.Slots({t})|
      {
        RunOverfillsNone(gs, sources, targets, t);
      }
      NothingFits(last, sources, targets);
    } else if RestFits(last, sources, i, targets) {
      NextFits(last, sources, i, targets);
    }
  }

  lemma {:induction false} ExtentStays(gs: seq<VolumeGroup>, sources: seq<string>, targets: set<string>, e: Extent)
    requires MoveRun(gs, sources, targets) && e in gs[0].place
    ensures forall i | 0 <= i < |gs| :: e in gs[i].place
    decreases |gs|
  {
    if |gs| == 1 {
    } else {
      var k := |gs| - 1;
      ExtentStays(gs[..k], sources, targets, e);
      assert e in gs[..k][k - 1].place;
      StepHop(gs[k - 1], sources[k - 1], targets, gs[k], e);
    }
  }

  /** After the loop no source holds anything: an extent is where it was, or has gone from a source to a target. */
  lemma {:induction false} SourcesAreEmptied(gs: seq<VolumeGroup>, sources: seq<string>, targets: set<string>,
                                             e: Extent)
    requires MoveRun(gs, sources, targets) && Elements(sources) !! targets
    requires e in gs[0].place && e in gs[|gs| - 1].place
    ensures gs[|gs| - 1].place[e] !in sources[..|gs| - 1]
    ensures gs[|gs| - 1].place[e] == gs[0].place[e] || (gs[0].place[e] in sources && gs[|gs| - 1].place[e] in targets)
    decreases |gs|
  {
    if |gs| == 1 {
    } else {
      var k := |gs| - 1;
      ExtentStays(gs[..k], sources, targets, e);
      assert e in gs[..k][k - 1].place;
      SourcesAreEmptied(gs[..k], sources, targets, e);
      StepHop(gs[k - 1], sources[k - 1], targets, gs[k], e);
      assert sources[..k] == sources[..k - 1] + [sources[k - 1]];
      assert sources[k - 1] in Elements(sources);
      assert forall p | p in sources[..k] :: p in Elements(sources);
    }
  }

  lemma RunEmpties(gs: seq<VolumeGroup>, sources: seq<string>, targets: set<string>)
    requires MoveRun(gs, sources, targets) && |gs| == |sources| + 1 && Elements(sources) !! targets
    ensures gs[|gs| - 1].On(Elements(sources)) == {}
  {
    var last := gs[|gs| - 1];
    RunKeepsExtents(gs, sources, targets);
    forall e | e in last.place
      ensures last.place[e] !in sources
    {
      assert e in gs[0].place.Keys;
      SourcesAreEmptied(gs, sources, targets, e);
      assert sources[..|sources|] == sources;
    }
  }

  /** Moves that all succeeded but perhaps the last, which may have stopped anywhere. */
  ghost predicate CutRun(gs: seq<VolumeGroup>, sources: seq<string>, targets: set<string>) {
    && 0 < |gs| <= |sources| + 1
    && (|gs| > 1 ==>
          var k := |gs| - 1;
          MoveRun(gs[..k], sources, targets) && PartlyMoved(gs[k - 1], sources[k - 1], targets, gs[k]))
  }

  lemma RunIsCutRun(gs: seq<VolumeGroup>, sources: seq<string>, targets: set<string>)
    requires MoveRun(gs, sources, targets)
    ensures CutRun(gs, sources, targets)
  {
    if |gs| == 1 {
    } else {
      LastStep(gs, sources, targets);
    }
  }

  /** However the loop ends: an extent is where it was, or has gone from a source to a target. */
  lemma CutRunHops(gs: seq<VolumeGroup>, sources: seq<string>, targets: set<string>, e: Extent)
    requires CutRun(gs, sources, targets) && Elements(sources) !! targets && e in gs[0].place
    ensures var last := gs[|gs| - 1];
            && e in last.place
            && (last.place[e] == gs[0].place[e] || (gs[0].place[e] in sources && last.place[e] in targets))
  {
    if |gs| == 1 {
    } else {
      var k := |gs| - 1;
      var run := gs[..k];
      ExtentStays(run, sources, targets, e);
      assert run[0] == gs[0] && run[k - 1] == gs[k - 1];
      SourcesAreEmptied(run, sources, targets, e);
      assert sources[k - 1] in Elements(sources);
    }
  }

  lemma StepOfRun(gs: seq<VolumeGroup>, sources: seq<string>, targets: set<string>, j: nat, g: VolumeGroup,
                  g': VolumeGroup)
    requires CutRun(gs, sources, targets) && j + 1 < |gs| && g == gs[j] && g' == gs[j + 1]
    ensures MoveRun(gs[..j + 1], sources, targets) && PartlyMoved(g, sources[j], targets, g')
  {
    var k := |gs| - 1;
    var run := gs[..k];
    PrefixOfRun(run, sources, targets, j + 1);
    assert run[..j + 1] == gs[..j + 1];
    if j + 1 < k {
      PrefixOfRun(run, sources, targets, j + 2);
      LastStep(run[..j + 2], sources, targets);
      assert run[..j + 2][j] == g && run[..j + 2][j + 1] == g';
    }
  }

  lemma NotYetMoved(gs: seq<VolumeGroup>, sources: seq<string>, targets: set<string>, e: Extent, i: nat, j: nat)
    requires j < |sources| && |gs| == j + 1 && MoveRun(gs, sources, targets) && Elements(sources) !! targets
    requires e in gs[j].place && gs[j].place[e] == sources[j]
    requires i < j
    ensures !Hops(e, gs[i], gs[i + 1])
  {
    EarlierUntouched(gs, sources, targets, e);
  }

  /** No extent is moved twice, even if the last move was cut off. */
  lemma EachExtentMovesOnce(gs: seq<VolumeGroup>, sources: seq<string>, targets: set<string>, e: Extent, i: nat, j: nat)
    requires CutRun(gs, sources, targets) && Elements(sources) !! targets
    requires i < j < |gs| - 1 && Hops(e, gs[i], gs[i + 1])
    ensures !Hops(e, gs[j], gs[j + 1])
  {
    var g, g' := gs[j], gs[j + 1];
    StepOfRun(gs, sources, targets, j, g, g');
    if Hops(e, g, g') {
      var run := gs[..j + 1];
      NotYetMoved(run, sources, targets, e, i, j);
    }
  }

  lemma {:induction false} PrefixOfRun(gs: seq<VolumeGroup>, sources: seq<string>, targets: set<string>, n: nat)
    requires MoveRun(gs, sources, targets) && 0 < n <= |gs|
    ensures MoveRun(gs[..n], sources, targets)
    decreases |gs|
  {
    if n < |gs| {
      PrefixOfRun(gs[..|gs| - 1], sources, targets, n);
      assert gs[..|gs| - 1][..n] == gs[..n];
    } else {
      assert gs[..n] == gs;
    }
  }

  /** An extent that is still on a source has not been moved so far. */
  lemma {:induction false} EarlierUntouched(gs: seq<VolumeGroup>, sources: seq<string>, targets: set<string>, e: Extent)
    requires MoveRun(gs, sources, targets) && Elements(sources) !! targets
    requires e in gs[|gs| - 1].place && gs[|gs| - 1].place[e] in sources
    ensures forall i | 0 <= i < |gs| :: e in gs[i].place && gs[i].place[e] == gs[|gs| - 1].place[e]
    decreases |gs|
  {
    if |gs| == 1 {
    } else {
      var k := |gs| - 1;
      assert gs[k].place[e] in Elements(sources);
      StepHop(gs[k - 1], sources[k - 1], targets, gs[k], e);
      EarlierUntouched(gs[..k], sources, targets, e);
    }
  }

  /** Nothing is lost on the way. */
  lemma {:induction false} RunKeepsExtents(gs: seq<VolumeGroup>, sources: seq<string>, targets: set<string>)
    requires MoveRun(gs, sources, targets)
    ensures gs[|gs| - 1].place.Keys == gs[0].place.Keys
    decreases |gs|
  {
    if |gs| == 1 {
    } else {
      var k := |gs| - 1;
      RunKeepsExtents(gs[..k], sources, targets);
      assert MoveStep(gs[k - 1], sources[k - 1], targets, gs[k]);
    }
  }
}
