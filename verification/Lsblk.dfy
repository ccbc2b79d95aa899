/** Block devices as `lsblk --json` reports them, after `internal/lsblk/lsblk.go`. */
module Lsblk {
  import opened Wrappers
  import SnakeCase

  /** A decoded column value. JSON numbers decode to `Float`; `Int` is a Go `int` put there by other means. */
  datatype Value = Null | Bool(b: bool) | Int(n: int) | Float(x: real) | Text(s: string) | Other

  type Columns = map<string, Value>

  datatype BlockDevice = BlockDevice(columns: Columns, children: seq<BlockDevice>)

  /** Reading a column as a string: the type assertion panics on a value that is no string. */
  datatype StringRead = Absent | Found(s: string) | NotAString

  const COLUMN_PATH := "PATH"

  function Key(column: string): string {
    SnakeCase.ToLower(column)
  }

  /** Two of the keys under which lsblk reports its columns. */
  lemma KeysOfPathAndType()
    ensures Key("PATH") == "path" && Key("TYPE") == "type"
  {
    SnakeCase.ToLowerLowers("PATH");
    SnakeCase.ToLowerLowers("TYPE");
  }

  function Get(dev: Columns, column: string): Option<Value> {
    if Key(column) in dev then Some(dev[Key(column)]) else None
  }

  function GetString(dev: Columns, column: string): StringRead {
    match Get(dev, column)
    case None => Absent
    case Some(Text(s)) => Found(s)
    case Some(_) => NotAString
  }

  /** Each device followed by everything below it. */
  function Flatten(devices: seq<BlockDevice>): seq<Columns>
    decreases devices
  {
    if devices == [] then []
    else [devices[0].columns] + Flatten(devices[0].children) + Flatten(devices[1..])
  }

  lemma {:induction false} FlattenAppend(a: seq<BlockDevice>, b: seq<BlockDevice>)
    ensures Flatten(a + b) == Flatten(a) + Flatten(b)
  {
    if a == [] {
      assert a + b == b;
    } else {
      FlattenAppend(a[1..], b);
      assert (a + b)[1..] == a[1..] + b && (a + b)[0] == a[0];
      Associative([a[0].columns] + Flatten(a[0].children), Flatten(a[1..]), Flatten(b));
    }
  }

  lemma Associative<T>(x: seq<T>, y: seq<T>, z: seq<T>)
    ensures (x + y) + z == x + (y + z)
  {
  }

  method RecursiveBlockDevices(devices: seq<BlockDevice>) returns (devicesWithChildren: seq<Columns>)
    ensures devicesWithChildren == Flatten(devices)
    decreases devices
  {
    devicesWithChildren := [];
    for i := 0 to |devices|
      invariant devicesWithChildren == Flatten(devices[..i])
    {
      var dev := devices[i];
      devicesWithChildren := devicesWithChildren + [dev.columns];
      var below := RecursiveBlockDevices(dev.children);
      devicesWithChildren := devicesWithChildren + below;
      assert devices[..i + 1] == devices[..i] + [dev];
      FlattenAppend(devices[..i], [dev]);
      assert Flatten([dev]) == [dev.columns] + below;
    }
    assert devices[..|devices|] == devices;
  }

  /** `at` leads to a node: an index at the top level, then an index at each level of children. */
  ghost predicate IsNode(devices: seq<BlockDevice>, at: seq<nat>, node: Columns)
    decreases |at|
  {
    && at != [] && at[0] < |devices|
    && (if |at| == 1 then devices[at[0]].columns == node
        else IsNode(devices[at[0]].children, at[1..], node))
  }

  lemma {:induction false} NodeIsFlattened(devices: seq<BlockDevice>, at: seq<nat>, node: Columns)
    requires IsNode(devices, at, node)
    ensures node in Flatten(devices)
    decreases |at|, |devices|
  {
    if at[0] > 0 {
      assert devices[1..][at[0] - 1] == devices[at[0]];
      var shifted := [at[0] - 1] + at[1..];
      assert shifted[1..] == at[1..];
      NodeIsFlattened(devices[1..], shifted, node);
    } else if |at| > 1 {
      NodeIsFlattened(devices[0].children, at[1..], node);
    }
  }

  lemma {:induction false} FlattenedIsNode(devices: seq<BlockDevice>, node: Columns) returns (at: seq<nat>)
    requires node in Flatten(devices)
    ensures IsNode(devices, at, node)
    decreases devices
  {
    if node == devices[0].columns {
      at := [0];
    } else if node in Flatten(devices[0].children) {
      var below := FlattenedIsNode(devices[0].children, node);
      at := [0] + below;
      assert at[1..] == below;
    } else {
      var later := FlattenedIsNode(devices[1..], node);
      at := [later[0] + 1] + later[1..];
      assert at[1..] == later[1..];
      assert devices[1..][later[0]] == devices[at[0]];
    }
  }

  /** The node is found somewhere in the forest. */
  ghost predicate Occurs(devices: seq<BlockDevice>, node: Columns) {
    exists at: seq<nat> :: IsNode(devices, at, node)
  }

  lemma FlattenHoldsEveryNode(devices: seq<BlockDevice>, node: Columns)
    ensures node in Flatten(devices) <==> Occurs(devices, node)
  {
    if node in Flatten(devices) {
      var at := FlattenedIsNode(devices, node);
    }
    if Occurs(devices, node) {
      var at: seq<nat> :| IsNode(devices, at, node);
      NodeIsFlattened(devices, at, node);
    }
  }

  // ---- in which order ----

  /** The first place leads up to the second, or branches off earlier. */
  ghost predicate Precedes(a: seq<nat>, b: seq<nat>) {
    a < b || exists k | 0 <= k < |a| && k < |b| :: a[..k] == b[..k] && a[k] < b[k]
  }

  /** `ats` are the places of the forest, each once and in order, with the nodes found there. */
  ghost predicate Enumerates(devices: seq<BlockDevice>, ats: seq<seq<nat>>, nodes: seq<Columns>) {
    && |ats| == |nodes|
    && (forall i | 0 <= i < |ats| :: IsNode(devices, ats[i], nodes[i]))
    && (forall i, j | 0 <= i < j < |ats| :: Precedes(ats[i], ats[j]))
  }

  /** The same places one level further down, below the first device. */
  function Below(ats: seq<seq<nat>>): (down: seq<seq<nat>>)
    ensures |down| == |ats| && forall i | 0 <= i < |ats| :: down[i] == [0] + ats[i]
  {
    seq(|ats|, i requires 0 <= i < |ats| => [0] + ats[i])
  }

  /** The same places with one more device in front. */
  function Shifted(ats: seq<seq<nat>>): (right: seq<seq<nat>>)
    requires forall i | 0 <= i < |ats| :: ats[i] != []
    ensures |right| == |ats| && forall i | 0 <= i < |ats| :: right[i] == [ats[i][0] + 1] + ats[i][1..]
  {
    seq(|ats|, i requires 0 <= i < |ats| => [ats[i][0] + 1] + ats[i][1..])
  }

  lemma BelowPrecedes(a: seq<nat>, b: seq<nat>)
    requires Precedes(a, b)
    ensures Precedes([0] + a, [0] + b)
  {
    if !(a < b) {
      var k :| 0 <= k < |a| && k < |b| && a[..k] == b[..k] && a[k] < b[k];
      var c, d := [0] + a, [0] + b;
      assert c[..k + 1] == [0] + a[..k] && d[..k + 1] == [0] + b[..k];
      assert c[k + 1] == a[k] && d[k + 1] == b[k];
    }
  }

  lemma ShiftedPrecedes(a: seq<nat>, b: seq<nat>)
    requires a != [] && b != [] && Precedes(a, b)
    ensures Precedes([a[0] + 1] + a[1..], [b[0] + 1] + b[1..])
  {
    var c, d := [a[0] + 1] + a[1..], [b[0] + 1] + b[1..];
    if a < b {
      assert c < d;
    } else {
      var k :| 0 <= k < |a| && k < |b| && a[..k] == b[..k] && a[k] < b[k];
      if k == 0 {
        assert c[..0] == d[..0];
      } else {
        assert a[0] == a[..k][0] == b[..k][0] == b[0];
        assert a[1..k] == a[..k][1..] == b[..k][1..] == b[1..k];
        assert c[..k] == [a[0] + 1] + a[1..k] && d[..k] == [b[0] + 1] + b[1..k];
        assert c[k] == a[k] && d[k] == b[k];
      }
    }
  }

  lemma FirstPrecedes(a: seq<nat>, b: seq<nat>)
    requires a != [] && b != [] && a[0] < b[0]
    ensures Precedes(a, b)
  {
    assert a[..0] == b[..0];
  }

  /** One enumeration after the other. */
  lemma EnumeratesOn(devices: seq<BlockDevice>, a: seq<seq<nat>>, m: seq<Columns>, b: seq<seq<nat>>, n: seq<Columns>)
    requires Enumerates(devices, a, m) && Enumerates(devices, b, n)
    requires forall i, j | 0 <= i < |a| && 0 <= j < |b| :: Precedes(a[i], b[j])
    ensures Enumerates(devices, a + b, m + n)
  {
  }

  lemma EnumeratesBelow(devices: seq<BlockDevice>, ats: seq<seq<nat>>)
    requires devices != [] && Enumerates(devices[0].children, ats, Flatten(devices[0].children))
    ensures Enumerates(devices, Below(ats), Flatten(devices[0].children))
    ensures forall i | 0 <= i < |ats| :: Precedes([0], Below(ats)[i])
  {
    forall i | 0 <= i < |ats|
      ensures IsNode(devices, Below(ats)[i], Flatten(devices[0].children)[i]) && Precedes([0], Below(ats)[i])
    {
      assert IsNode(devices[0].children, ats[i], Flatten(devices[0].children)[i]);
      assert Below(ats)[i][1..] == ats[i];
      assert [0] < [0] + ats[i];
    }
    forall i, j | 0 <= i < j < |ats|
      ensures Precedes(Below(ats)[i], Below(ats)[j])
    {
      BelowPrecedes(ats[i], ats[j]);
    }
  }

  lemma EnumeratesShifted(devices: seq<BlockDevice>, ats: seq<seq<nat>>)
    requires devices != [] && Enumerates(devices[1..], ats, Flatten(devices[1..]))
    ensures forall i | 0 <= i < |ats| :: ats[i] != []
    ensures Enumerates(devices, Shifted(ats), Flatten(devices[1..]))
  {
    forall i | 0 <= i < |ats|
      ensures ats[i] != [] && IsNode(devices, [ats[i][0] + 1] + ats[i][1..], Flatten(devices[1..])[i])
    {
      assert IsNode(devices[1..], ats[i], Flatten(devices[1..])[i]);
      assert ([ats[i][0] + 1] + ats[i][1..])[1..] == ats[i][1..];
      assert devices[1..][ats[i][0]] == devices[ats[i][0] + 1];
    }
    forall i, j | 0 <= i < j < |ats|
      ensures Precedes(Shifted(ats)[i], Shifted(ats)[j])
    {
      ShiftedPrecedes(ats[i], ats[j]);
    }
  }

  /** The flat list goes through all places of the forest in order, a device before what is below it. */
  lemma {:induction false} FlattenInOrder(devices: seq<BlockDevice>) returns (ats: seq<seq<nat>>)
    ensures Enumerates(devices, ats, Flatten(devices))
    decreases devices
  {
    if devices == [] {
      ats := [];
    } else {
      var below := FlattenInOrder(devices[0].children);
      var later := FlattenInOrder(devices[1..]);
      EnumeratesBelow(devices, below);
      EnumeratesOn(devices, [[0]], [devices[0].columns], Below(below), Flatten(devices[0].children));
      EnumeratesShifted(devices, later);
      var first, second := [[0]] + Below(below), Shifted(later);
      forall i, j | 0 <= i < |first| && 0 <= j < |second|
        ensures Precedes(first[i], second[j])
      {
        FirstPrecedes(first[i], second[j]);
      }
      EnumeratesOn(devices, first, [devices[0].columns] + Flatten(devices[0].children), second, Flatten(devices[1..]));
      ats := first + second;
    }
  }

  // ---- what lsblk answers when only some columns are requested ----

  function Keys(columns: seq<string>): set<string> {
    set c | c in columns :: Key(c)
  }

  function Restrict(dev: Columns, keys: set<string>): Columns {
    map k | k in dev && k in keys :: dev[k]
  }

  function Project(devices: seq<BlockDevice>, keys: set<string>): seq<BlockDevice>
    decreases devices
  {
    if devices == [] then []
    else [BlockDevice(Restrict(devices[0].columns, keys), Project(devices[0].children, keys))]
         + Project(devices[1..], keys)
  }

  lemma {:induction false} FlattenProject(devices: seq<BlockDevice>, keys: set<string>)
    ensures |Flatten(Project(devices, keys))| == |Flatten(devices)|
    ensures forall i | 0 <= i < |Flatten(devices)| ::
              Flatten(Project(devices, keys))[i] == Restrict(Flatten(devices)[i], keys)
    decreases devices
  {
    if devices == [] {
    } else {
      FlattenProject(devices[0].children, keys);
      FlattenProject(devices[1..], keys);
      var head := BlockDevice(Restrict(devices[0].columns, keys), Project(devices[0].children, keys));
      assert Project(devices, keys)[0] == head;
      assert Project(devices, keys)[1..] == Project(devices[1..], keys);
    }
  }
}
