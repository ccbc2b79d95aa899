/** `ToSnakeCase` of `internal/utils/utils.go`: two regular-expression passes, then lowering. */
module SnakeCase {
  import opened Wrappers

  predicate Upper(c: char) { 'A' <= c <= 'Z' }

  predicate Lower(c: char) { 'a' <= c <= 'z' }

  predicate LowerOrDigit(c: char) { Lower(c) || '0' <= c <= '9' }

  function LowerChar(c: char): char {
    if Upper(c) then ((c as int) + 32) as char else c
  }

  function ToLower(s: string): string {
    if s == [] then [] else [LowerChar(s[0])] + ToLower(s[1..])
  }

  /** Replaces every leftmost, non-overlapping match of `(.)([A-Z][a-z]+)` by `${1}_${2}`; `.` is no newline. */
  function FirstCapPass(s: string): string
    decreases |s|, 1
  {
    if |s| >= 3 && s[0] != '\n' && Upper(s[1]) && Lower(s[2]) then
      [s[0], '_', s[1]] + GreedyTail(s[2..])
    else if s == [] then []
    else [s[0]] + FirstCapPass(s[1..])
  }

  /** Inside a match: `[a-z]+` consumes as many letters as it can, then scanning resumes. */
  function GreedyTail(s: string): string
    decreases |s|, 2
  {
    if s != [] && Lower(s[0]) then [s[0]] + GreedyTail(s[1..]) else FirstCapPass(s)
  }

  /** Replaces every leftmost, non-overlapping match of `([a-z0-9])([A-Z])` by `${1}_${2}`. */
  function AllCapPass(s: string): string {
    if |s| >= 2 && LowerOrDigit(s[0]) && Upper(s[1]) then
      [s[0], '_', s[1]] + AllCapPass(s[2..])
    else if s == [] then []
    else [s[0]] + AllCapPass(s[1..])
  }

  function ToSnakeCase(str: string): string {
    ToLower(AllCapPass(FirstCapPass(str)))
  }

  // ---- the pointwise reading of both passes ----

  /** An underscore belongs between `before` and the head of `s`. */
  predicate Boundary(before: Option<char>, s: string) {
    && before.Some? && s != [] && Upper(s[0])
    && (LowerOrDigit(before.value) || (before.value != '\n' && |s| >= 2 && Lower(s[1])))
  }

  /** Looks at each character together with its two neighbours; no scanning state. */
  function Pointwise(before: Option<char>, s: string): string
    decreases |s|
  {
    if s == [] then []
    else (if Boundary(before, s) then "_" else "") + [LowerChar(s[0])] + Pointwise(Some(s[0]), s[1..])
  }

  /** The second pass and the lowering, pointwise. */
  function AfterLower(before: Option<char>, s: string): string
    decreases |s|
  {
    if s == [] then [] else Mark(before, s[0]) + [LowerChar(s[0])] + AfterLower(Some(s[0]), s[1..])
  }

  function Mark(before: Option<char>, c: char): string {
    if before.Some? && LowerOrDigit(before.value) && Upper(c) then "_" else ""
  }

  lemma AfterLowerCons(before: Option<char>, c: char, s: string)
    ensures AfterLower(before, [c] + s) == Mark(before, c) + [LowerChar(c)] + AfterLower(Some(c), s)
  {
    assert ([c] + s)[1..] == s;
  }

  lemma ToLowerCons(c: char, s: string)
    ensures ToLower([c] + s) == [LowerChar(c)] + ToLower(s)
  {
    assert ([c] + s)[1..] == s;
  }

  lemma AllCapMatch(s: string)
    requires |s| >= 2 && LowerOrDigit(s[0]) && Upper(s[1])
    ensures ToLower(AllCapPass(s)) == [LowerChar(s[0])] + ("_" + ([LowerChar(s[1])] + ToLower(AllCapPass(s[2..]))))
  {
    var rest := AllCapPass(s[2..]);
    assert AllCapPass(s) == [s[0]] + (['_'] + ([s[1]] + rest));
    ToLowerCons(s[0], ['_'] + ([s[1]] + rest));
    ToLowerCons('_', [s[1]] + rest);
    ToLowerCons(s[1], rest);
  }

  lemma AfterLowerMatch(before: Option<char>, s: string)
    requires |s| >= 2 && LowerOrDigit(s[0]) && Upper(s[1])
    ensures AfterLower(before, s) == [LowerChar(s[0])] + ("_" + ([LowerChar(s[1])] + AfterLower(Some(s[1]), s[2..])))
  {
    assert s == [s[0]] + ([s[1]] + s[2..]);
    AfterLowerCons(before, s[0], [s[1]] + s[2..]);
    AfterLowerCons(Some(s[0]), s[1], s[2..]);
  }

  lemma {:induction false} AllCapIsPointwise(before: Option<char>, s: string)
    requires before.None? || s == [] || !(LowerOrDigit(before.value) && Upper(s[0]))
    ensures ToLower(AllCapPass(s)) == AfterLower(before, s)
    decreases |s|
  {
    if s == [] {
    } else {
      if |s| >= 2 && LowerOrDigit(s[0]) && Upper(s[1]) {
        AllCapIsPointwise(Some(s[1]), s[2..]);
        AllCapMatch(s);
        AfterLowerMatch(before, s);
      } else {
        AllCapIsPointwise(Some(s[0]), s[1..]);
        ToLowerCons(s[0], AllCapPass(s[1..]));
      }
    }
  }

  lemma ScanMatch(before: Option<char>, c: char, d: char, tail: string)
    requires Upper(d)
    ensures AfterLower(before, [c, '_', d] + tail)
         == Mark(before, c) + [LowerChar(c)] + ("_" + ([LowerChar(d)] + AfterLower(Some(d), tail)))
  {
    assert [c, '_', d] + tail == [c] + (['_'] + ([d] + tail));
    AfterLowerCons(before, c, ['_'] + ([d] + tail));
    AfterLowerCons(Some(c), '_', [d] + tail);
    AfterLowerCons(Some('_'), d, tail);
  }

  /** The head of `s` cannot be split by the first pass once the scanner has moved past `before`. */
  lemma {:induction false} ScanIsPointwise(before: Option<char>, s: string)
    ensures AfterLower(before, FirstCapPass(s)) ==
            if s == [] then []
            else Mark(before, s[0]) + [LowerChar(s[0])] + Pointwise(Some(s[0]), s[1..])
    decreases |s|, 1
  {
    if |s| >= 3 && s[0] != '\n' && Upper(s[1]) && Lower(s[2]) {
      TailIsPointwise(s[1], s[2..]);
      ScanMatch(before, s[0], s[1], GreedyTail(s[2..]));
      assert s[1..] == [s[1]] + s[2..];
      assert Boundary(Some(s[0]), s[1..]);
      PointwiseCons(Some(s[0]), s[1], s[2..]);
    } else if s != [] {
      ScanIsPointwise(Some(s[0]), s[1..]);
      AfterLowerCons(before, s[0], FirstCapPass(s[1..]));
    }
  }

  lemma {:induction false} TailIsPointwise(before: char, s: string)
    requires Lower(before) || (s != [] && Lower(s[0]))
    ensures AfterLower(Some(before), GreedyTail(s)) == Pointwise(Some(before), s)
    decreases |s|, 2
  {
    if s != [] && Lower(s[0]) {
      TailIsPointwise(s[0], s[1..]);
      AfterLowerCons(Some(before), s[0], GreedyTail(s[1..]));
    } else {
      ScanIsPointwise(Some(before), s);
    }
  }

  /** The two scanning passes together are one stateless look at each character and its neighbours. */
  lemma ToSnakeCaseIsPointwise(s: string)
    ensures ToSnakeCase(s) == Pointwise(None, s)
  {
    AllCapIsPointwise(None, FirstCapPass(s));
    ScanIsPointwise(None, s);
  }

  // ---- consequences ----

  predicate NoUpper(s: string) {
    forall i | 0 <= i < |s| :: !Upper(s[i])
  }

  lemma {:induction false} PointwiseLowers(before: Option<char>, s: string)
    ensures NoUpper(Pointwise(before, s))
    decreases |s|
  {
    if s == [] {
    } else {
      PointwiseLowers(Some(s[0]), s[1..]);
    }
  }

  lemma {:induction false} PointwiseKeeps(before: Option<char>, s: string)
    requires NoUpper(s)
    ensures Pointwise(before, s) == s
    decreases |s|
  {
    if s == [] {
    } else {
      PointwiseKeeps(Some(s[0]), s[1..]);
    }
  }

  /** A text is its own snake case exactly when it holds no capital letter. */
  lemma FixpointIffNoUpper(s: string)
    ensures ToSnakeCase(s) == s <==> NoUpper(s)
  {
    ToSnakeCaseIsPointwise(s);
    PointwiseLowers(None, s);
    if NoUpper(s) {
      PointwiseKeeps(None, s);
    }
  }

  lemma Idempotent(s: string)
    ensures ToSnakeCase(ToSnakeCase(s)) == ToSnakeCase(s)
  {
    ToSnakeCaseIsPointwise(s);
    PointwiseLowers(None, s);
    FixpointIffNoUpper(ToSnakeCase(s));
  }

  /** Removing what `Pointwise` inserted and ignoring case gives back the text. */
  ghost predicate OnlyUnderscoresAdded(s: string, t: string) {
    if s == [] then t == []
    else
      || (t != [] && t[0] == LowerChar(s[0]) && OnlyUnderscoresAdded(s[1..], t[1..]))
      || (|t| >= 2 && t[0] == '_' && Upper(s[0]) && t[1] == LowerChar(s[0]) && OnlyUnderscoresAdded(s[1..], t[2..]))
  }

  lemma {:induction false} PointwiseOnlyAddsUnderscores(before: Option<char>, s: string)
    ensures OnlyUnderscoresAdded(s, Pointwise(before, s))
    decreases |s|
  {
    if s == [] {
    } else {
      PointwiseOnlyAddsUnderscores(Some(s[0]), s[1..]);
      var rest := Pointwise(Some(s[0]), s[1..]);
      var t := Pointwise(before, s);
      if Boundary(before, s) {
        assert t == ['_', LowerChar(s[0])] + rest;
        assert t[2..] == rest;
      } else {
        assert t == [LowerChar(s[0])] + rest;
        assert t[1..] == rest;
      }
    }
  }

  lemma SnakeCaseOnlyAddsUnderscores(s: string)
    ensures OnlyUnderscoresAdded(s, ToSnakeCase(s))
  {
    ToSnakeCaseIsPointwise(s);
    PointwiseOnlyAddsUnderscores(None, s);
  }

  // ---- where the underscores are ----

  /** `d` is `c`, lowered. */
  ghost predicate LoweredTo(c: char, d: char) {
    if 'A' <= c <= 'Z' then d as int == c as int + 32 else d == c
  }

  /**
   * Where both expressions leave an underscore before `s[i]`: a capital after a small letter or a digit, or after
   * anything but a line break if a small letter follows.
   */
  ghost predicate SplitBefore(s: string, i: nat) {
    && 0 < i < |s| && 'A' <= s[i] <= 'Z'
    && (|| 'a' <= s[i - 1] <= 'z' || '0' <= s[i - 1] <= '9'
        || (s[i - 1] != '\n' && i + 1 < |s| && 'a' <= s[i + 1] <= 'z'))
  }

  /**
   * `t` is `s` from the `i`-th character on, lowered, with an underscore before a character exactly where `s` is
   * split: `at` says where in `t` the characters are.
   */
  ghost predicate SplitAt(s: string, i: nat, t: string, at: seq<nat>) {
    && i <= |s| && |at| == |s| - i + 1
    && at[|s| - i] == |t|
    && at[0] == (if SplitBefore(s, i) then 1 else 0)
    && (forall k | 0 <= k < |s| - i :: LandsAt(s, i + k, t, at[k], at[k + 1]))
  }

  /** Character `i` of `s` is lowered at `here` in `t`, the next character is at `next`. */
  ghost predicate LandsAt(s: string, i: nat, t: string, here: nat, next: nat) {
    && i < |s| && here < |t| && LoweredTo(s[i], t[here])
    && (SplitBefore(s, i) ==> here > 0 && t[here - 1] == '_')
    && next == here + if SplitBefore(s, i + 1) then 2 else 1
  }

  function Before(s: string, i: nat): Option<char>
    requires i <= |s|
  {
    if i == 0 then None else Some(s[i - 1])
  }

  lemma {:induction false} PointwiseSplits(s: string, i: nat) returns (at: seq<nat>)
    requires i <= |s|
    ensures SplitAt(s, i, Pointwise(Before(s, i), s[i..]), at)
    decreases |s| - i
  {
    if i == |s| {
      at := [0];
    } else {
      var later := PointwiseSplits(s, i + 1);
      var lead := if SplitBefore(s, i) then "_" else "";
      assert s[i..] == [s[i]] + s[i + 1..];
      PointwiseCons(Before(s, i), s[i], s[i + 1..]);
      at := OneMore(s, i, lead, Pointwise(Some(s[i]), s[i + 1..]), later);
    }
  }

  lemma OneMore(s: string, i: nat, lead: string, rest: string, later: seq<nat>) returns (at: seq<nat>)
    requires i < |s| && SplitAt(s, i + 1, rest, later) && lead == if SplitBefore(s, i) then "_" else ""
    ensures SplitAt(s, i, lead + ([LowerChar(s[i])] + rest), at)
  {
    var t := lead + ([LowerChar(s[i])] + rest);
    at := [|lead|] + seq(|later|, k requires 0 <= k < |later| => later[k] + |lead| + 1);
    forall k | 0 <= k < |s| - i
      ensures LandsAt(s, i + k, t, at[k], at[k + 1])
    {
      if k > 0 {
        assert LandsAt(s, i + 1 + (k - 1), rest, later[k - 1], later[k]);
        assert t[at[k]] == rest[later[k - 1]];
      }
    }
  }

  /** The whole of what both passes and the lowering do, character by character. */
  lemma ToSnakeCaseSplits(s: string) returns (at: seq<nat>)
    ensures SplitAt(s, 0, ToSnakeCase(s), at)
  {
    ToSnakeCaseIsPointwise(s);
    at := PointwiseSplits(s, 0);
    assert s[0..] == s;
  }

  lemma {:induction false} ToLowerLowers(s: string)
    ensures |ToLower(s)| == |s| && forall i | 0 <= i < |s| :: LoweredTo(s[i], ToLower(s)[i])
  {
    if s == [] {
    } else {
      ToLowerLowers(s[1..]);
    }
  }

  // ---- round trip with camel case ----

  predicate Word(w: string) {
    w != [] && forall i | 0 <= i < |w| :: Lower(w[i])
  }

  predicate Words(ws: seq<string>) {
    forall i | 0 <= i < |ws| :: Word(ws[i])
  }

  function UpperChar(c: char): char {
    if Lower(c) then ((c as int) - 32) as char else c
  }

  function Camel(ws: seq<string>): string
    requires Words(ws)
  {
    if ws == [] then [] else [UpperChar(ws[0][0])] + ws[0][1..] + Camel(ws[1..])
  }

  function Join(ws: seq<string>): string {
    if ws == [] then [] else if |ws| == 1 then ws[0] else ws[0] + "_" + Join(ws[1..])
  }

  function Underscored(ws: seq<string>): string {
    if ws == [] then [] else "_" + ws[0] + Underscored(ws[1..])
  }

  lemma {:induction false} JoinUnderscored(ws: seq<string>)
    requires ws != []
    ensures Join(ws) == ws[0] + Underscored(ws[1..])
  {
    if |ws| > 1 {
      JoinUnderscored(ws[1..]);
      assert ws[0] + "_" + (ws[1..][0] + Underscored(ws[1..][1..]))
          == ws[0] + ("_" + ws[1..][0] + Underscored(ws[1..][1..]));
    } else {
      assert ws[0] + [] == ws[0];
    }
  }

  ghost predicate NoTwoLettersInARow(ws: seq<string>) {
    forall i | 0 <= i < |ws| - 1 :: |ws[i]| >= 2 || |ws[i + 1]| >= 2
  }

  lemma PointwiseCons(before: Option<char>, c: char, s: string)
    ensures Pointwise(before, [c] + s) ==
            (if Boundary(before, [c] + s) then "_" else "") + ([LowerChar(c)] + Pointwise(Some(c), s))
  {
    assert ([c] + s)[1..] == s;
  }

  lemma {:induction false} PointwiseLowerRun(before: char, run: string, rest: string)
    requires forall i | 0 <= i < |run| :: Lower(run[i])
    ensures Pointwise(Some(before), run + rest) ==
            run + Pointwise(Some(if run == [] then before else run[|run| - 1]), rest)
    decreases |run|
  {
    if run == [] {
      assert run + rest == rest;
    } else {
      var c, tail := run[0], run[1..];
      assert run + rest == [c] + (tail + rest) && run == [c] + tail;
      PointwiseCons(Some(before), c, tail + rest);
      PointwiseLowerRun(c, tail, rest);
    }
  }

  /** The last character of a capitalised word: a capital exactly if the word has one letter. */
  function LastOf(w: string): char
    requires Word(w)
  {
    if |w| == 1 then UpperChar(w[0]) else w[|w| - 1]
  }

  lemma PointwiseWord(before: Option<char>, ws: seq<string>)
    requires Words(ws) && ws != []
    ensures Pointwise(before, Camel(ws)) ==
            (if Boundary(before, Camel(ws)) then "_" else "")
            + (ws[0] + Pointwise(Some(LastOf(ws[0])), Camel(ws[1..])))
  {
    var head, run, rest := UpperChar(ws[0][0]), ws[0][1..], Camel(ws[1..]);
    assert Camel(ws) == [head] + (run + rest);
    PointwiseCons(before, head, run + rest);
    PointwiseLowerRun(head, run, rest);
    HeadAndRun(ws[0], Pointwise(Some(LastOf(ws[0])), rest));
  }

  lemma HeadAndRun(w: string, tail: string)
    requires Word(w)
    ensures [LowerChar(UpperChar(w[0]))] + (w[1..] + tail) == w + tail
    ensures LastOf(w) == if w[1..] == [] then UpperChar(w[0]) else w[1..][|w[1..]| - 1]
  {
    assert LowerChar(UpperChar(w[0])) == w[0];
    assert w == [w[0]] + w[1..];
  }

  lemma BoundaryAtWord(before: char, ws: seq<string>)
    requires Words(ws) && ws != []
    requires Upper(before) || Lower(before)
    ensures Boundary(Some(before), Camel(ws)) <==> Lower(before) || |ws[0]| >= 2
  {
    var w, rest := ws[0], Camel(ws[1..]);
    var s := Camel(ws);
    assert s == [UpperChar(w[0])] + (w[1..] + rest);
    if |w| >= 2 {
      assert s[1] == w[1];
    } else if |s| >= 2 {
      assert s[1] == rest[0] == UpperChar(ws[1..][0][0]);
    }
  }

  /** The words that follow one whose last character was `before`. */
  lemma {:induction false} CamelTail(before: char, ws: seq<string>)
    requires Words(ws)
    requires Upper(before) || Lower(before)
    ensures Pointwise(Some(before), Camel(ws)) == Underscored(ws)
       <==> (ws != [] ==> Lower(before) || |ws[0]| >= 2) && NoTwoLettersInARow(ws)
    decreases |ws|
  {
    if ws == [] {
    } else {
      var w := ws[0];
      var tail := Pointwise(Some(LastOf(w)), Camel(ws[1..]));
      PointwiseWord(Some(before), ws);
      BoundaryAtWord(before, ws);
      CamelTail(LastOf(w), ws[1..]);
      SameSuffix(w, tail, Underscored(ws[1..]));
      NoTwoLettersTail(ws);
      assert Underscored(ws) == "_" + (w + Underscored(ws[1..]));
      if Lower(before) || |w| >= 2 {
        SameSuffix("_", w + tail, w + Underscored(ws[1..]));
      } else {
        assert Pointwise(Some(before), Camel(ws)) == w + tail;
        assert (w + tail)[0] == w[0] && Underscored(ws)[0] == '_';
      }
    }
  }

  lemma NoTwoLettersTail(ws: seq<string>)
    requires Words(ws) && ws != []
    ensures NoTwoLettersInARow(ws) <==>
            (|ws| > 1 ==> Lower(LastOf(ws[0])) || |ws[1]| >= 2) && NoTwoLettersInARow(ws[1..])
  {
    if NoTwoLettersInARow(ws[1..]) {
      forall i | 0 < i < |ws| - 1
        ensures |ws[i]| >= 2 || |ws[i + 1]| >= 2
      {
        assert ws[1..][i - 1] == ws[i] && ws[1..][i] == ws[i + 1];
      }
    }
  }

  lemma SameSuffix(a: string, b: string, c: string)
    ensures a + b == a + c <==> b == c
  {
    if a + b == a + c {
      assert (a + b)[|a|..] == b && (a + c)[|a|..] == c;
    }
  }

  /** Camel case is undone exactly when no two one-letter words stand side by side. */
  lemma RoundTrip(ws: seq<string>)
    requires Words(ws)
    ensures ToSnakeCase(Camel(ws)) == Join(ws) <==> NoTwoLettersInARow(ws)
  {
    ToSnakeCaseIsPointwise(Camel(ws));
    if ws != [] {
      var tail := Pointwise(Some(LastOf(ws[0])), Camel(ws[1..]));
      PointwiseWord(None, ws);
      CamelTail(LastOf(ws[0]), ws[1..]);
      NoTwoLettersTail(ws);
      JoinUnderscored(ws);
      assert Pointwise(None, Camel(ws)) == ws[0] + tail;
      SameSuffix(ws[0], tail, Underscored(ws[1..]));
    }
  }

  lemma TwoOrMoreLettersRoundTrip(ws: seq<string>)
    requires Words(ws) && forall i | 0 <= i < |ws| :: |ws[i]| >= 2
    ensures ToSnakeCase(Camel(ws)) == Join(ws)
  {
    RoundTrip(ws);
  }
}
