/** The physical volume selector, after `internal/selector/selector.go`. */
module Selector {
  import opened Wrappers
  import opened Utils
  import opened Lsblk
  import opened Sorting

  datatype Operator = In | Exists | DoesNotExist | Gt | Unknown

  /** `quantity` is the first value read as a resource quantity, if it is one. */
  datatype Requirement = Requirement(key: string, operator: Operator, values: seq<string>, quantity: Option<real>)

  datatype Term = Term(matchLSBLK: seq<Requirement>)

  type PhysicalVolumeSelector = seq<Term>

  /** `Panic`: a failed type assertion in GetString, or Values[0] of an empty list. */
  datatype SelectError = NotAQuantity | NoSuchColumn | MissingPath | Panic

  // ---- what a selector means ----

  /** What evaluating the requirement on this device fails with, if it does. */
  function Fault(dev: Columns, r: Requirement): Option<SelectError> {
    match r.operator
    case In => if r.values != [] && GetString(dev, r.key).NotAString? then Some(Panic) else None
    case Gt =>
      if r.values == [] then Some(Panic)
      else if r.quantity.None? then Some(NotAQuantity)
      else if Get(dev, r.key).None? then Some(NoSuchColumn)
      else None
    case _ => None
  }

  predicate Faulty(dev: Columns, r: Requirement) {
    Fault(dev, r).Some?
  }

  predicate Holds(dev: Columns, r: Requirement) {
    match r.operator
    case Exists => Get(dev, r.key).Some?
    case DoesNotExist => Get(dev, r.key).None?
    case In =>
      !GetString(dev, r.key).NotAString?
      && (if GetString(dev, r.key).Found? then GetString(dev, r.key).s else "") in r.values
    case Gt =>
      && Get(dev, r.key).Some? && r.quantity.Some?
      && (if Get(dev, r.key).value.Int? then Get(dev, r.key).value.n else 0) as real > r.quantity.value
    case Unknown => false
  }

  predicate Matches(dev: Columns, term: Term) {
    forall r | r in term.matchLSBLK :: Holds(dev, r)
  }

  predicate TermFaulty(dev: Columns, term: Term) {
    || (exists r | r in term.matchLSBLK :: Faulty(dev, r))
    || (Matches(dev, term) && !GetString(dev, COLUMN_PATH).Found?)
  }

  /** Some device cannot be evaluated against some term. */
  predicate Aborts(selector: PhysicalVolumeSelector, devices: seq<Columns>) {
    exists term, dev | term in selector && dev in devices :: TermFaulty(dev, term)
  }

  /** The fault that comes first in the order of evaluation. */
  function FirstOfRequirements(dev: Columns, rs: seq<Requirement>): Option<SelectError> {
    if rs == [] then None
    else if Faulty(dev, rs[0]) then Fault(dev, rs[0])
    else FirstOfRequirements(dev, rs[1..])
  }

  function PathFault(dev: Columns): Option<SelectError> {
    match GetString(dev, COLUMN_PATH)
    case Absent => Some(MissingPath)
    case NotAString => Some(Panic)
    case Found(_) => None
  }

  function TermFault(dev: Columns, term: Term): Option<SelectError> {
    var fault := FirstOfRequirements(dev, term.matchLSBLK);
    if fault.Some? then fault else if Matches(dev, term) then PathFault(dev) else None
  }

  function FirstOfDevices(term: Term, devices: seq<Columns>): Option<SelectError> {
    if devices == [] then None
    else if TermFault(devices[0], term).Some? then TermFault(devices[0], term)
    else FirstOfDevices(term, devices[1..])
  }

  /** What the whole evaluation ends with: nothing, an error, or a panic. */
  function FirstFault(selector: PhysicalVolumeSelector, devices: seq<Columns>): Option<SelectError> {
    if selector == [] then None
    else if FirstOfDevices(selector[0], devices).Some? then FirstOfDevices(selector[0], devices)
    else FirstFault(selector[1..], devices)
  }

  predicate Selects(selector: PhysicalVolumeSelector, dev: Columns) {
    exists term | term in selector :: Matches(dev, term)
  }

  /** The paths of all devices that fulfil every requirement of some term. */
  function Paths(selector: PhysicalVolumeSelector, devices: seq<Columns>): set<string> {
    set dev | dev in devices && Selects(selector, dev) && GetString(dev, COLUMN_PATH).Found?
      :: GetString(dev, COLUMN_PATH).s
  }

  ghost predicate IsSelection(selector: PhysicalVolumeSelector, devices: seq<Columns>, paths: seq<string>) {
    StrictlyIncreasing(paths) && Elements(paths) == Paths(selector, devices)
  }

  // ---- the evaluation loops ----

  function ErrorOf<T>(r: Result<T, SelectError>): Option<SelectError> {
    if r.Failure? then Some(r.error) else None
  }

  method MatchesLSBLKRequirement(dev: Columns, requirement: Requirement) returns (r: Result<bool, SelectError>)
    ensures Fault(dev, requirement) == ErrorOf(r)
    ensures r.Success? ==> (r.value <==> Holds(dev, requirement))
  {
    var matches := false;
    match requirement.operator {
      case Exists =>
        if Get(dev, requirement.key).Some? {
          matches := true;
        }
      case DoesNotExist =>
        if Get(dev, requirement.key).None? {
          matches := true;
        }
      case In =>
        for i := 0 to |requirement.values|
          invariant i > 0 ==> !GetString(dev, requirement.key).NotAString?
          invariant !matches
          invariant (if GetString(dev, requirement.key).Found? then GetString(dev, requirement.key).s else "")
                    !in requirement.values[..i]
        {
          var read := GetString(dev, requirement.key);
          if read.NotAString? {
            return Failure(Panic);
          }
          var val := if read.Found? then read.s else "";
          if requirement.values[i] == val {
            matches := true;
            break;
          }
        }
      case Gt =>
        if requirement.values == [] {
          return Failure(Panic);
        }
        if requirement.quantity.None? {
          return Failure(NotAQuantity);
        }
        var intFromLSBLK := 0;
        match Get(dev, requirement.key) {
          case Some(Int(n)) => intFromLSBLK := n;
          case Some(_) =>
          case None => return Failure(NoSuchColumn);
        }
        if intFromLSBLK as real > requirement.quantity.value {
          matches := true;
        }
      case Unknown =>
    }
    r := Success(matches);
  }

  function Count(dev: Columns, rs: seq<Requirement>): nat {
    if rs == [] then 0 else (if Holds(dev, rs[|rs| - 1]) then 1 else 0) + Count(dev, rs[..|rs| - 1])
  }

  lemma {:induction false} CountIsFull(dev: Columns, rs: seq<Requirement>)
    ensures Count(dev, rs) <= |rs|
    ensures Count(dev, rs) == |rs| <==> forall r | r in rs :: Holds(dev, r)
  {
    if rs == [] {
    } else {
      var init, last := rs[..|rs| - 1], rs[|rs| - 1];
      CountIsFull(dev, init);
      assert rs == init + [last];
      assert forall r :: r in rs <==> r in init || r == last;
    }
  }

  /** One term against one device: the requirement loop with its counter, then the path. */
  method EvaluateTerm(dev: Columns, term: Term) returns (r: Result<Option<string>, SelectError>)
    ensures TermFault(dev, term) == ErrorOf(r)
    ensures r.Success? ==> (r.value.Some? <==> Matches(dev, term))
    ensures r.Success? && r.value.Some? ==> GetString(dev, COLUMN_PATH) == Found(r.value.value)
  {
    var matches := 0;
    for i := 0 to |term.matchLSBLK|
      invariant matches == Count(dev, term.matchLSBLK[..i])
      invariant FirstOfRequirements(dev, term.matchLSBLK) == FirstOfRequirements(dev, term.matchLSBLK[i..])
    {
      var m := MatchesLSBLKRequirement(dev, term.matchLSBLK[i]);
      if m.Failure? {
        return Failure(m.error);
      }
      assert term.matchLSBLK[..i + 1][..i] == term.matchLSBLK[..i];
      if m.value {
        matches := matches + 1;
      }
    }
    assert term.matchLSBLK[..|term.matchLSBLK|] == term.matchLSBLK;
    CountIsFull(dev, term.matchLSBLK);
    if matches == |term.matchLSBLK| {
      match GetString(dev, COLUMN_PATH) {
        case NotAString => return Failure(Panic);
        case Absent => return Failure(MissingPath);
        case Found(kname) => return Success(Some(kname));
      }
    }
    r := Success(None);
  }

  /** One term against all devices; `selected` grows by the paths of those that match. */
  method SelectForTerm(term: Term, devices: seq<Columns>, before: seq<string>)
    returns (r: Result<seq<string>, SelectError>)
    ensures FirstOfDevices(term, devices) == ErrorOf(r)
    ensures r.Success? ==> Elements(r.value) == Elements(before) + Paths([term], devices)
  {
    var selected := before;
    for i := 0 to |devices|
      invariant FirstOfDevices(term, devices) == FirstOfDevices(term, devices[i..])
      invariant Elements(selected) == Elements(before) + Paths([term], devices[..i])
    {
      var dev := devices[i];
      assert devices[..i + 1] == devices[..i] + [dev];
      var found := EvaluateTerm(dev, term);
      if found.Failure? {
        return Failure(found.error);
      }
      PathsSnoc(term, devices[..i], dev);
      if found.value.Some? {
        ElementsSnoc(selected, found.value.value);
        selected := selected + [found.value.value];
      }
    }
    assert devices[..|devices|] == devices;
    r := Success(selected);
  }

  lemma ElementsSnoc(s: seq<string>, x: string)
    ensures Elements(s + [x]) == Elements(s) + {x}
  {
  }

  /** All terms against all devices, then sorting and dropping duplicates. */
  method SelectDevices(selector: PhysicalVolumeSelector, devices: seq<Columns>)
    returns (r: Result<seq<string>, SelectError>)
    ensures FirstFault(selector, devices) == ErrorOf(r)
    ensures r.Failure? <==> Aborts(selector, devices)
    ensures r.Success? ==> IsSelection(selector, devices, r.value)
  {
    AbortsIffFault(selector, devices);
    var selected: seq<string> := [];
    for i := 0 to |selector|
      invariant FirstFault(selector, devices) == FirstFault(selector[i..], devices)
      invariant Elements(selected) == Paths(selector[..i], devices)
    {
      var term := selector[i];
      assert selector[..i + 1] == selector[..i] + [term];
      PathsUnion(selector[..i], [term], devices);
      var more := SelectForTerm(term, devices, selected);
      if more.Failure? {
        return Failure(more.error);
      }
      selected := more.value;
    }
    assert selector[..|selector|] == selector;
    SortSorts(selected);
    CompactSorted(Sort(selected));
    r := Success(Compact(Sort(selected)));
  }

  // ---- errors and panics ----

  lemma {:induction false} RequirementsFault(dev: Columns, rs: seq<Requirement>)
    ensures FirstOfRequirements(dev, rs).Some? <==> exists r | r in rs :: Faulty(dev, r)
  {
    if rs == [] {
    } else {
      RequirementsFault(dev, rs[1..]);
      assert forall r :: r in rs <==> r == rs[0] || r in rs[1..];
    }
  }

  lemma TermFaultIff(dev: Columns, term: Term)
    ensures TermFault(dev, term).Some? <==> TermFaulty(dev, term)
  {
    RequirementsFault(dev, term.matchLSBLK);
  }

  lemma {:induction false} DevicesFault(term: Term, devices: seq<Columns>)
    ensures FirstOfDevices(term, devices).Some? <==> exists dev | dev in devices :: TermFaulty(dev, term)
  {
    if devices == [] {
    } else {
      TermFaultIff(devices[0], term);
      DevicesFault(term, devices[1..]);
      if dev :| dev in devices && TermFaulty(dev, term) {
        assert dev == devices[0] || dev in devices[1..];
      }
    }
  }

  /** Evaluation is aborted exactly if something somewhere cannot be evaluated. */
  lemma {:induction false} AbortsIffFault(selector: PhysicalVolumeSelector, devices: seq<Columns>)
    ensures FirstFault(selector, devices).Some? <==> Aborts(selector, devices)
  {
    if selector == [] {
    } else {
      DevicesFault(selector[0], devices);
      AbortsIffFault(selector[1..], devices);
      assert forall term :: term in selector <==> term == selector[0] || term in selector[1..];
    }
  }

  predicate PanicFaulty(dev: Columns, term: Term) {
    || (exists r | r in term.matchLSBLK :: Fault(dev, r) == Some(Panic))
    || (Matches(dev, term) && GetString(dev, COLUMN_PATH).NotAString?)
  }

  predicate ErrorFaulty(dev: Columns, term: Term) {
    || (exists r | r in term.matchLSBLK :: Faulty(dev, r) && Fault(dev, r) != Some(Panic))
    || (Matches(dev, term) && GetString(dev, COLUMN_PATH).Absent?)
  }

  /** Some pair makes the evaluation panic, if it is reached. */
  predicate Panics(selector: PhysicalVolumeSelector, devices: seq<Columns>) {
    exists term, dev | term in selector && dev in devices :: PanicFaulty(dev, term)
  }

  /** Some pair makes it return an error, if it is reached. */
  predicate Errs(selector: PhysicalVolumeSelector, devices: seq<Columns>) {
    exists term, dev | term in selector && dev in devices :: ErrorFaulty(dev, term)
  }

  lemma {:induction false} RequirementPanic(dev: Columns, rs: seq<Requirement>)
    ensures FirstOfRequirements(dev, rs) == Some(Panic) ==> exists r | r in rs :: Fault(dev, r) == Some(Panic)
    ensures FirstOfRequirements(dev, rs).Some? && FirstOfRequirements(dev, rs) != Some(Panic) ==>
              exists r | r in rs :: Faulty(dev, r) && Fault(dev, r) != Some(Panic)
  {
    if rs == [] {
    } else {
      RequirementPanic(dev, rs[1..]);
      assert forall r | r in rs[1..] :: r in rs;
    }
  }

  lemma TermPanic(dev: Columns, term: Term)
    ensures TermFault(dev, term) == Some(Panic) ==> PanicFaulty(dev, term)
    ensures TermFault(dev, term).Some? && TermFault(dev, term) != Some(Panic) ==> ErrorFaulty(dev, term)
  {
    RequirementPanic(dev, term.matchLSBLK);
  }

  lemma {:induction false} DevicePanic(term: Term, devices: seq<Columns>)
    ensures FirstOfDevices(term, devices) == Some(Panic) ==> exists dev | dev in devices :: PanicFaulty(dev, term)
    ensures FirstOfDevices(term, devices).Some? && FirstOfDevices(term, devices) != Some(Panic) ==>
              exists dev | dev in devices :: ErrorFaulty(dev, term)
  {
    if devices == [] {
    } else {
      TermPanic(devices[0], term);
      DevicePanic(term, devices[1..]);
      assert forall dev | dev in devices[1..] :: dev in devices;
    }
  }

  /** Whatever the order: a panic needs a panicking pair, and an error one that errs. */
  lemma {:induction false} PanicsOrErrs(selector: PhysicalVolumeSelector, devices: seq<Columns>)
    ensures FirstFault(selector, devices) == Some(Panic) ==> Panics(selector, devices)
    ensures FirstFault(selector, devices).Some? && FirstFault(selector, devices) != Some(Panic) ==>
        Errs(selector, devices)
  {
    if selector == [] {
    } else {
      DevicePanic(selector[0], devices);
      PanicsOrErrs(selector[1..], devices);
      assert forall term | term in selector[1..] :: term in selector;
    }
  }

  /** If nothing errs, evaluation panics exactly if some pair does. */
  lemma PanicsIff(selector: PhysicalVolumeSelector, devices: seq<Columns>)
    requires !Errs(selector, devices)
    ensures FirstFault(selector, devices) == Some(Panic) <==> Panics(selector, devices)
  {
    PanicsOrErrs(selector, devices);
    AbortsIffFault(selector, devices);
    if Panics(selector, devices) {
      var term, dev :| term in selector && dev in devices && PanicFaulty(dev, term);
      assert TermFaulty(dev, term);
    }
  }

  lemma PathsSnoc(term: Term, devices: seq<Columns>, dev: Columns)
    ensures Paths([term], devices + [dev]) ==
            Paths([term], devices) +
            (if Matches(dev, term) && GetString(dev, COLUMN_PATH).Found? then {GetString(dev, COLUMN_PATH).s} else {})
  {
    assert Selects([term], dev) <==> Matches(dev, term) by {
      assert term in [term];
    }
  }

  // ---- algebra ----

  lemma PathsUnion(a: PhysicalVolumeSelector, b: PhysicalVolumeSelector, devices: seq<Columns>)
    ensures Paths(a + b, devices) == Paths(a, devices) + Paths(b, devices)
  {
    forall dev: Columns
      ensures Selects(a + b, dev) <==> Selects(a, dev) || Selects(b, dev)
    {
      if Selects(a, dev) {
        var t :| t in a && Matches(dev, t);
        assert t in a + b;
      }
      if Selects(b, dev) {
        var t :| t in b && Matches(dev, t);
        assert t in a + b;
      }
    }
  }

  lemma AbortsUnion(a: PhysicalVolumeSelector, b: PhysicalVolumeSelector, devices: seq<Columns>)
    ensures Aborts(a + b, devices) <==> Aborts(a, devices) || Aborts(b, devices)
  {
    if Aborts(a, devices) {
      var t, d :| t in a && d in devices && TermFaulty(d, t);
      assert t in a + b;
    }
    if Aborts(b, devices) {
      var t, d :| t in b && d in devices && TermFaulty(d, t);
      assert t in a + b;
    }
  }

  /** Concatenated selectors abort exactly if one of them does, and otherwise select the sorted union. */
  lemma ConcatSelectsUnion(a: PhysicalVolumeSelector, b: PhysicalVolumeSelector, devices: seq<Columns>,
                           pa: seq<string>, pb: seq<string>, pab: seq<string>)
    requires IsSelection(a, devices, pa) && IsSelection(b, devices, pb)
    requires IsSelection(a + b, devices, pab)
    ensures Aborts(a + b, devices) <==> Aborts(a, devices) || Aborts(b, devices)
    ensures pab == Compact(Sort(pa + pb))
  {
    AbortsUnion(a, b, devices);
    PathsUnion(a, b, devices);
    SortSorts(pa + pb);
    CompactSorted(Sort(pa + pb));
    assert Elements(pa + pb) == Elements(pa) + Elements(pb);
    IncreasingUnique(pab, Compact(Sort(pa + pb)));
  }

  /** The terms as sets of requirements. */
  function Conjunctions(selector: PhysicalVolumeSelector): set<set<Requirement>> {
    set term | term in selector :: Elements(term.matchLSBLK)
  }

  lemma SameRequirementsSameTerm(t: Term, u: Term, dev: Columns)
    requires Elements(t.matchLSBLK) == Elements(u.matchLSBLK)
    ensures Matches(dev, t) == Matches(dev, u)
    ensures TermFaulty(dev, t) == TermFaulty(dev, u)
  {
    assert forall r :: r in t.matchLSBLK <==> r in Elements(t.matchLSBLK);
    assert forall r :: r in u.matchLSBLK <==> r in Elements(u.matchLSBLK);
  }

  lemma SameAborts(a: PhysicalVolumeSelector, b: PhysicalVolumeSelector, d: seq<Columns>, e: seq<Columns>)
    requires Conjunctions(a) == Conjunctions(b) && Elements(d) == Elements(e)
    ensures Aborts(a, d) ==> Aborts(b, e)
  {
    if Aborts(a, d) {
      var t, dev :| t in a && dev in d && TermFaulty(dev, t);
      assert Elements(t.matchLSBLK) in Conjunctions(b);
      var u :| u in b && Elements(t.matchLSBLK) == Elements(u.matchLSBLK);
      SameRequirementsSameTerm(t, u, dev);
      assert dev in Elements(d) && u in b;
    }
  }

  lemma SameSelects(a: PhysicalVolumeSelector, b: PhysicalVolumeSelector, dev: Columns)
    requires Conjunctions(a) == Conjunctions(b) && Selects(a, dev)
    ensures Selects(b, dev)
  {
    var t :| t in a && Matches(dev, t);
    assert Elements(t.matchLSBLK) in Conjunctions(b);
    var u :| u in b && Elements(t.matchLSBLK) == Elements(u.matchLSBLK);
    SameRequirementsSameTerm(t, u, dev);
  }

  lemma SamePaths(a: PhysicalVolumeSelector, b: PhysicalVolumeSelector, d: seq<Columns>, e: seq<Columns>)
    requires Conjunctions(a) == Conjunctions(b) && Elements(d) == Elements(e)
    ensures Paths(a, d) <= Paths(b, e)
  {
    forall p | p in Paths(a, d)
      ensures p in Paths(b, e)
    {
      var dev :| dev in d && Selects(a, dev) && GetString(dev, COLUMN_PATH) == Found(p);
      SameSelects(a, b, dev);
      assert dev in Elements(d);
    }
  }

  /** Neither the order nor the repetition of terms, requirements or devices matters. */
  lemma OrderIrrelevant(a: PhysicalVolumeSelector, b: PhysicalVolumeSelector, d: seq<Columns>, e: seq<Columns>,
                        pa: seq<string>, pb: seq<string>)
    requires Conjunctions(a) == Conjunctions(b) && Elements(d) == Elements(e)
    ensures Aborts(a, d) <==> Aborts(b, e)
    ensures IsSelection(a, d, pa) && IsSelection(b, e, pb) ==> pa == pb
  {
    SameAborts(a, b, d, e);
    SameAborts(b, a, e, d);
    SamePaths(a, b, d, e);
    SamePaths(b, a, e, d);
    if IsSelection(a, d, pa) && IsSelection(b, e, pb) {
      IncreasingUnique(pa, pb);
    }
  }

  // ---- the meaning in terms of the columns themselves ----

  function Alone(r: Requirement): PhysicalVolumeSelector {
    [Term([r])]
  }

  lemma AloneSelects(r: Requirement, dev: Columns)
    ensures Selects(Alone(r), dev) <==> Holds(dev, r)
  {
    var term := Alone(r)[0];
    assert term in Alone(r) && r in term.matchLSBLK;
  }

  lemma PathIsText(dev: Columns)
    ensures GetString(dev, COLUMN_PATH).Found? <==> "path" in dev && dev["path"].Text?
    ensures GetString(dev, COLUMN_PATH).Found? ==> GetString(dev, COLUMN_PATH).s == dev["path"].s
  {
    KeysOfPathAndType();
  }

  /** A selector of one requirement, on devices that have a path. */
  lemma AloneSelectsPaths(r: Requirement, devices: seq<Columns>)
    ensures Paths(Alone(r), devices) ==
            set dev: Columns | dev in devices && "path" in dev && dev["path"].Text? && Holds(dev, r) :: dev["path"].s
  {
    forall dev: Columns
      ensures Selects(Alone(r), dev) <==> Holds(dev, r)
      ensures GetString(dev, COLUMN_PATH).Found? <==> "path" in dev && dev["path"].Text?
      ensures GetString(dev, COLUMN_PATH).Found? ==> GetString(dev, COLUMN_PATH).s == dev["path"].s
    {
      AloneSelects(r, dev);
      PathIsText(dev);
    }
  }

  /** `Exists` takes the devices that have the column, `DoesNotExist` those that do not. */
  lemma ExistsSelects(key: string, values: seq<string>, quantity: Option<real>, devices: seq<Columns>)
    ensures Paths(Alone(Requirement(key, Exists, values, quantity)), devices) ==
            set dev: Columns | dev in devices && "path" in dev && dev["path"].Text? && Key(key) in dev
              :: dev["path"].s
    ensures Paths(Alone(Requirement(key, DoesNotExist, values, quantity)), devices) ==
            set dev: Columns | dev in devices && "path" in dev && dev["path"].Text? && Key(key) !in dev
              :: dev["path"].s
  {
    AloneSelectsPaths(Requirement(key, Exists, values, quantity), devices);
    AloneSelectsPaths(Requirement(key, DoesNotExist, values, quantity), devices);
  }

  /** `In` takes the devices whose column is one of these texts; a column that is not there counts as the empty text. */
  lemma InSelects(key: string, values: seq<string>, quantity: Option<real>, devices: seq<Columns>)
    ensures Paths(Alone(Requirement(key, In, values, quantity)), devices) ==
            set dev: Columns | dev in devices && "path" in dev && dev["path"].Text?
              && (if Key(key) in dev then dev[Key(key)].Text? && dev[Key(key)].s in values else "" in values)
              :: dev["path"].s
  {
    AloneSelectsPaths(Requirement(key, In, values, quantity), devices);
  }

  /** `Gt` takes the devices whose column exceeds the bound; a column that is no `int` counts as 0. */
  lemma GtSelects(key: string, values: seq<string>, quantity: Option<real>, devices: seq<Columns>)
    ensures Paths(Alone(Requirement(key, Gt, values, quantity)), devices) ==
            set dev: Columns | dev in devices && "path" in dev && dev["path"].Text? && Key(key) in dev
              && quantity.Some?
              && (if dev[Key(key)].Int? then dev[Key(key)].n as real else 0.0) > quantity.value
              :: dev["path"].s
  {
    AloneSelectsPaths(Requirement(key, Gt, values, quantity), devices);
  }

  /** An operator that is not known takes none. */
  lemma UnknownSelectsNone(key: string, values: seq<string>, quantity: Option<real>, devices: seq<Columns>)
    ensures Paths(Alone(Requirement(key, Unknown, values, quantity)), devices) == {}
  {
    AloneSelectsPaths(Requirement(key, Unknown, values, quantity), devices);
  }

  /** What a requirement on its own fails with on one device, and what a device without a usable path does. */
  lemma AloneFails(r: Requirement, dev: Columns)
    ensures FirstFault(Alone(r), [dev]) ==
            if r.operator == In && r.values != [] && Key(r.key) in dev && !dev[Key(r.key)].Text? then Some(Panic)
            else if r.operator == Gt && r.values == [] then Some(Panic)
            else if r.operator == Gt && r.quantity.None? then Some(NotAQuantity)
            else if r.operator == Gt && Key(r.key) !in dev then Some(NoSuchColumn)
            else if !Holds(dev, r) then None
            else if "path" !in dev then Some(MissingPath)
            else if !dev["path"].Text? then Some(Panic)
            else None
  {
    KeysOfPathAndType();
    assert FirstOfRequirements(dev, [r]) == Fault(dev, r);
    assert Matches(dev, Term([r])) <==> Holds(dev, r) by {
      assert r in [r];
    }
    assert FirstOfDevices(Term([r]), [dev]) == TermFault(dev, Term([r]));
  }

  /** The first of two faults. */
  function Earlier(a: Option<SelectError>, b: Option<SelectError>): Option<SelectError> {
    if a.Some? then a else b
  }

  /** Terms are taken in order, each against all devices. */
  lemma {:induction false} TermsFailInOrder(a: PhysicalVolumeSelector, b: PhysicalVolumeSelector, devices: seq<Columns>)
    ensures FirstFault(a + b, devices) == Earlier(FirstFault(a, devices), FirstFault(b, devices))
  {
    if a == [] {
      assert a + b == b;
    } else {
      assert (a + b)[1..] == a[1..] + b;
      TermsFailInOrder(a[1..], b, devices);
    }
  }

  /** For one term the devices are taken in order. */
  lemma {:induction false} DevicesFailInOrder(term: Term, d: seq<Columns>, e: seq<Columns>)
    ensures FirstFault([term], d + e) == Earlier(FirstFault([term], d), FirstFault([term], e))
  {
    if d == [] {
      assert d + e == e;
      assert FirstFault([term], d) == None;
    } else {
      assert (d + e)[1..] == d[1..] + e;
      DevicesFailInOrder(term, d[1..], e);
    }
  }

  /** For one device the requirements are taken in order, and the path comes last. */
  lemma {:induction false} RequirementsFailInOrder(a: seq<Requirement>, b: seq<Requirement>, dev: Columns)
    ensures FirstOfRequirements(dev, a + b) == Earlier(FirstOfRequirements(dev, a), FirstOfRequirements(dev, b))
    ensures FirstFault([Term(a + b)], [dev]) ==
            Earlier(Earlier(FirstOfRequirements(dev, a), FirstOfRequirements(dev, b)),
                    if Matches(dev, Term(a + b)) then PathFault(dev) else None)
  {
    if a == [] {
      assert a + b == b;
    } else {
      assert (a + b)[1..] == a[1..] + b;
      RequirementsFailInOrder(a[1..], b, dev);
    }
    assert FirstOfDevices(Term(a + b), [dev]) == TermFault(dev, Term(a + b));
  }

  /** A term selects what all its requirements select. */
  lemma TermIntersects(a: seq<Requirement>, b: seq<Requirement>, dev: Columns)
    ensures Paths([Term(a + b)], [dev]) == Paths([Term(a)], [dev]) * Paths([Term(b)], [dev])
  {
    assert forall r :: r in a + b <==> r in a || r in b;
    PathsSnoc(Term(a + b), [], dev);
    PathsSnoc(Term(a), [], dev);
    PathsSnoc(Term(b), [], dev);
    assert [] + [dev] == [dev];
  }

  // ---- the columns asked of lsblk ----

  ghost predicate References(selector: PhysicalVolumeSelector, column: string) {
    exists term | term in selector :: TermReferences(term, column)
  }

  ghost predicate TermReferences(term: Term, column: string) {
    exists r | r in term.matchLSBLK :: r.key == column
  }

  /** What lsblk is asked for: the paths and every column that is referred to, in order and once. */
  ghost predicate IsRequest(selector: PhysicalVolumeSelector, columns: seq<string>) {
    StrictlyIncreasing(columns) && forall c :: c in columns <==> c == "PATH" || References(selector, c)
  }

  method RequestedColumns(selector: PhysicalVolumeSelector) returns (columns: seq<string>)
    ensures IsRequest(selector, columns)
  {
    columns := [COLUMN_PATH];
    for i := 0 to |selector|
      invariant forall c :: c in columns <==> c == COLUMN_PATH || References(selector[..i], c)
    {
      var term := selector[i];
      assert selector[..i + 1] == selector[..i] + [term];
      ghost var before := columns;
      for j := 0 to |term.matchLSBLK|
        invariant forall c :: c in columns <==> c in before || exists r | r in term.matchLSBLK[..j] :: r.key == c
      {
        assert term.matchLSBLK[..j + 1] == term.matchLSBLK[..j] + [term.matchLSBLK[j]];
        columns := columns + [term.matchLSBLK[j].key];
      }
      assert term.matchLSBLK[..|term.matchLSBLK|] == term.matchLSBLK;
      forall c
        ensures References(selector[..i + 1], c) <==> References(selector[..i], c) || TermReferences(term, c)
      {
        if References(selector[..i], c) {
          var t :| t in selector[..i] && TermReferences(t, c);
          assert t in selector[..i + 1];
        }
        if TermReferences(term, c) {
          assert term in selector[..i + 1];
        }
      }
    }
    assert selector[..|selector|] == selector;
    SortSorts(columns);
    CompactSorted(Sort(columns));
    ghost var all := Elements(columns);
    columns := Compact(Sort(columns));
    assert forall c :: c in columns <==> c in Elements(columns);
  }

  ghost predicate Covers(keys: set<string>, selector: PhysicalVolumeSelector) {
    && Key(COLUMN_PATH) in keys
    && forall term, r | term in selector && r in term.matchLSBLK :: Key(r.key) in keys
  }

  /** The requested columns cover the selector. */
  lemma RequestedCover(selector: PhysicalVolumeSelector, columns: seq<string>)
    requires IsRequest(selector, columns)
    ensures Covers(Keys(columns), selector)
  {
    forall term, r | term in selector && r in term.matchLSBLK
      ensures Key(r.key) in Keys(columns)
    {
      assert TermReferences(term, r.key);
      assert r.key in columns;
    }
    assert COLUMN_PATH in columns;
  }

  /** No term of the selector tells the two devices apart. */
  ghost predicate Alike(selector: PhysicalVolumeSelector, x: Columns, y: Columns) {
    && GetString(x, COLUMN_PATH) == GetString(y, COLUMN_PATH)
    && forall term | term in selector :: Matches(x, term) == Matches(y, term) &&
        TermFault(x, term) == TermFault(y, term)
  }

  lemma RestrictedAlike(selector: PhysicalVolumeSelector, dev: Columns, keys: set<string>)
    requires Covers(keys, selector)
    ensures Alike(selector, dev, Restrict(dev, keys))
  {
    var cut := Restrict(dev, keys);
    assert Get(cut, COLUMN_PATH) == Get(dev, COLUMN_PATH);
    forall term | term in selector
      ensures Matches(dev, term) == Matches(cut, term) && TermFault(dev, term) == TermFault(cut, term)
    {
      forall r | r in term.matchLSBLK
        ensures Holds(cut, r) == Holds(dev, r) && Fault(cut, r) == Fault(dev, r)
      {
        assert Get(cut, r.key) == Get(dev, r.key);
      }
      SameRequirementsFault(dev, cut, term.matchLSBLK);
    }
  }

  lemma {:induction false} SameRequirementsFault(x: Columns, y: Columns, rs: seq<Requirement>)
    requires forall r | r in rs :: Fault(x, r) == Fault(y, r)
    ensures FirstOfRequirements(x, rs) == FirstOfRequirements(y, rs)
  {
    if rs == [] {
    } else {
      assert forall r | r in rs[1..] :: r in rs;
      SameRequirementsFault(x, y, rs[1..]);
    }
  }

  lemma {:induction false} SameDevicesFault(term: Term, d: seq<Columns>, e: seq<Columns>)
    requires |d| == |e| && forall i | 0 <= i < |d| :: TermFault(d[i], term) == TermFault(e[i], term)
    ensures FirstOfDevices(term, d) == FirstOfDevices(term, e)
  {
    if d == [] {
    } else {
      assert TermFault(d[0], term) == TermFault(e[0], term);
      SameDevicesFault(term, d[1..], e[1..]);
    }
  }

  lemma {:induction false} AlikeFault(selector: PhysicalVolumeSelector, d: seq<Columns>, e: seq<Columns>)
    requires |d| == |e| && forall i | 0 <= i < |d| :: Alike(selector, d[i], e[i])
    ensures FirstFault(selector, d) == FirstFault(selector, e)
  {
    if selector == [] {
    } else {
      SameDevicesFault(selector[0], d, e);
      forall i | 0 <= i < |d|
        ensures Alike(selector[1..], d[i], e[i])
      {
        assert Alike(selector, d[i], e[i]);
      }
      AlikeFault(selector[1..], d, e);
    }
  }

  lemma AlikeSelects(selector: PhysicalVolumeSelector, x: Columns, y: Columns)
    requires Alike(selector, x, y) && Selects(selector, x)
    ensures Selects(selector, y)
  {
    var t :| t in selector && Matches(x, t);
  }

  lemma AlikeOneWay(selector: PhysicalVolumeSelector, d: seq<Columns>, e: seq<Columns>)
    requires |d| == |e| && forall i | 0 <= i < |d| :: Alike(selector, d[i], e[i])
    ensures Paths(selector, d) <= Paths(selector, e)
  {
    forall p | p in Paths(selector, d)
      ensures p in Paths(selector, e)
    {
      var dev :| dev in d && Selects(selector, dev) && GetString(dev, COLUMN_PATH) == Found(p);
      var i :| 0 <= i < |d| && d[i] == dev;
      AlikeSelects(selector, d[i], e[i]);
      assert e[i] in e;
    }
  }

  /** Devices cut down to columns that cover the selector select the same paths and fail alike. */
  lemma ProjectionSafe(selector: PhysicalVolumeSelector, forest: seq<BlockDevice>, keys: set<string>)
    requires Covers(keys, selector)
    ensures FirstFault(selector, Flatten(Project(forest, keys))) == FirstFault(selector, Flatten(forest))
    ensures Aborts(selector, Flatten(Project(forest, keys))) <==> Aborts(selector, Flatten(forest))
    ensures Paths(selector, Flatten(Project(forest, keys))) == Paths(selector, Flatten(forest))
  {
    var full, cut := Flatten(forest), Flatten(Project(forest, keys));
    FlattenProject(forest, keys);
    forall i | 0 <= i < |full|
      ensures Alike(selector, full[i], cut[i]) && Alike(selector, cut[i], full[i])
    {
      RestrictedAlike(selector, full[i], keys);
      assert cut[i] == Restrict(full[i], keys);
    }
    AlikeOneWay(selector, full, cut);
    AlikeOneWay(selector, cut, full);
    AlikeFault(selector, full, cut);
    AbortsIffFault(selector, full);
    AbortsIffFault(selector, cut);
  }

  // ---- where the documentation promises something else ----

  /** A term without requirements takes every device, although it is documented to match none. */
  lemma EmptyTermTakesAll(rest: PhysicalVolumeSelector, devices: seq<Columns>, dev: Columns)
    requires dev in devices && !Aborts([Term([])] + rest, devices)
    ensures GetString(dev, COLUMN_PATH).Found?
    ensures GetString(dev, COLUMN_PATH).s in Paths([Term([])] + rest, devices)
  {
    var selector := [Term([])] + rest;
    assert selector[0] in selector && Matches(dev, selector[0]);
    assert Selects(selector, dev);
    assert !TermFaulty(dev, selector[0]);
  }

  predicate Decoded(dev: Columns) {
    forall k | k in dev :: !dev[k].Int?
  }

  /** On decoded JSON no number is ever an int, so Gt holds exactly for a negative bound on a present column. */
  lemma GtOnDecodedJson(dev: Columns, r: Requirement)
    requires Decoded(dev) && r.operator == Gt && !Faulty(dev, r)
    ensures Holds(dev, r) <==> r.quantity.value < 0.0
  {
  }

  // ---- the three ways to panic ----

  /** `In` reads a column that is not a string. */
  lemma InOnNumberPanics(key: string, value: string, dev: Columns)
    requires Get(dev, key).Some? && !Get(dev, key).value.Text?
    ensures FirstFault([Term([Requirement(key, In, [value], None)])], [dev]) == Some(Panic)
  {
    var r := Requirement(key, In, [value], None);
    assert FirstOfRequirements(dev, [r]) == Some(Panic);
  }

  /** `Gt` looks for its bound in an empty list, which the resource definition does not forbid. */
  lemma GtWithoutValuesPanics(key: string, dev: Columns)
    ensures FirstFault([Term([Requirement(key, Gt, [], None)])], [dev]) == Some(Panic)
  {
    var r := Requirement(key, Gt, [], None);
    assert FirstOfRequirements(dev, [r]) == Some(Panic);
  }

  /** A device is taken whose path is not a string. */
  lemma PathOfOtherTypePanics(dev: Columns)
    requires GetString(dev, COLUMN_PATH).NotAString?
    ensures FirstFault([Term([])], [dev]) == Some(Panic)
  {
    assert Matches(dev, Term([]));
    assert TermFault(dev, Term([])) == Some(Panic);
  }
}
