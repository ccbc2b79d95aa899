/** The VolumeGroup resource: `api/v1alpha1/volumegroup_types.go` and the status condition helpers. */
module Api {
  import opened Wrappers
  import Selector

  datatype DeviceLossPolicy = FailOnLoss | RemoveMissing | ForceRemoveMissing | OtherLossPolicy

  datatype DeviceRemovalPolicy = MoveAndReduce | Reduce | ForceReduce | OtherRemovalPolicy

  datatype Spec = Spec(
    nodeName: string, nameOnNode: Option<string>, selector: Selector.PhysicalVolumeSelector, tags: seq<string>,
    maxPV: Option<int>, maxLV: Option<int>, policy: Option<string>, autoActivation: Option<bool>,
    deviceLoss: DeviceLossPolicy, deviceRemoval: DeviceRemovalPolicy)

  datatype Condition = Condition(kind: string, status: bool, reason: string, observedGeneration: int)

  datatype Deletion = Deletion(timestamp: int, gracePeriodSeconds: int)

  datatype Status = Status(name: string, tags: set<string>, pvs: seq<string>, maxPV: int, maxLV: int)

  datatype Object = Object(
    uid: string, version: nat, generation: int, spec: Spec, deletion: Option<Deletion>,
    finalizers: seq<string>, conditions: seq<Condition>, status: Status)

  const VOLUME_GROUP_FINALIZER := "topolvm.io/volumegroup-removal-on-node"

  /** The name of the volume group on its node: the one asked for, or the UID. */
  function NameOnNode(uid: string, spec: Spec): string {
    if spec.nameOnNode.None? then uid else spec.nameOnNode.value
  }

  // ---- conditions ----

  const SYNCED_ON_NODE := "VolumeGroupSyncedOnNode"
  const REASON_SYNCED := "VolumeGroupSynced"
  const REASON_SYNC_FAILED := "VolumeGroupSyncFailed"
  const REASON_SYNC_PENDING := "VolumeGroupSyncPending"

  /** Replaces the first condition of the same type, or appends. */
  function SetStatusCondition(conditions: seq<Condition>, c: Condition): seq<Condition> {
    if conditions == [] then [c]
    else if conditions[0].kind == c.kind then [c] + conditions[1..]
    else [conditions[0]] + SetStatusCondition(conditions[1..], c)
  }

  /** The first condition of the type is replaced where it is. */
  lemma {:induction false} SetReplaces(conditions: seq<Condition>, c: Condition, i: nat)
    requires i < |conditions| && conditions[i].kind == c.kind
    requires forall j | 0 <= j < i :: conditions[j].kind != c.kind
    ensures SetStatusCondition(conditions, c) == conditions[i := c]
  {
    if i > 0 {
      SetReplaces(conditions[1..], c, i - 1);
    }
  }

  /** If there is none, the new one comes last. */
  lemma {:induction false} SetAppends(conditions: seq<Condition>, c: Condition)
    requires forall j | 0 <= j < |conditions| :: conditions[j].kind != c.kind
    ensures SetStatusCondition(conditions, c) == conditions + [c]
  {
    if conditions == [] {
    } else {
      SetAppends(conditions[1..], c);
    }
  }

  function OfKind(conditions: seq<Condition>, kind: string): seq<Condition> {
    if conditions == [] then []
    else (if conditions[0].kind == kind then [conditions[0]] else []) + OfKind(conditions[1..], kind)
  }

  function Others(conditions: seq<Condition>, kind: string): seq<Condition> {
    if conditions == [] then []
    else (if conditions[0].kind != kind then [conditions[0]] else []) + Others(conditions[1..], kind)
  }

  lemma {:induction false} SetKeepsOthers(conditions: seq<Condition>, c: Condition)
    ensures Others(SetStatusCondition(conditions, c), c.kind) == Others(conditions, c.kind)
  {
    if conditions == [] {
    } else if conditions[0].kind != c.kind {
      SetKeepsOthers(conditions[1..], c);
      assert SetStatusCondition(conditions, c)[1..] == SetStatusCondition(conditions[1..], c);
    } else {
      assert SetStatusCondition(conditions, c)[1..] == conditions[1..];
    }
  }

  /** With at most one condition of its type at entry, the one just set is the only one left. */
  lemma {:induction false} SetLeavesOne(conditions: seq<Condition>, c: Condition)
    requires |OfKind(conditions, c.kind)| <= 1
    ensures OfKind(SetStatusCondition(conditions, c), c.kind) == [c]
  {
    if conditions == [] {
    } else {
      if conditions[0].kind != c.kind {
        SetLeavesOne(conditions[1..], c);
        assert SetStatusCondition(conditions, c)[1..] == SetStatusCondition(conditions[1..], c);
      } else {
        assert SetStatusCondition(conditions, c)[1..] == conditions[1..];
        assert |OfKind(conditions[1..], c.kind)| == 0;
      }
    }
  }

  /** Exactly one condition of the synced type, at this generation, True exactly if `ok`. */
  predicate Says(conditions: seq<Condition>, generation: int, ok: bool) {
    var synced := OfKind(conditions, SYNCED_ON_NODE);
    |synced| == 1 && synced[0].observedGeneration == generation && synced[0].status == ok
  }

  /** The reasons that go with True and with False. */
  predicate Apt(status: bool, reason: string) {
    if status then reason == "VolumeGroupSynced"
    else reason == "VolumeGroupSyncFailed" || reason == "VolumeGroupSyncPending"
  }

  lemma {:induction false} SetKeepsCount(conditions: seq<Condition>, c: Condition)
    requires |OfKind(conditions, c.kind)| > 0
    ensures |OfKind(SetStatusCondition(conditions, c), c.kind)| == |OfKind(conditions, c.kind)|
  {
    if conditions[0].kind != c.kind {
      SetKeepsCount(conditions[1..], c);
      assert SetStatusCondition(conditions, c)[1..] == SetStatusCondition(conditions[1..], c);
    } else {
      assert SetStatusCondition(conditions, c)[1..] == conditions[1..];
    }
  }

  lemma {:induction false} SetAddsOnly(conditions: seq<Condition>, c: Condition)
    ensures forall x | x in SetStatusCondition(conditions, c) :: x in conditions || x == c
  {
    if conditions == [] {
    } else if conditions[0].kind != c.kind {
      SetAddsOnly(conditions[1..], c);
    }
  }

  /** No synced condition is about a later generation than `generation`. */
  predicate UpTo(conditions: seq<Condition>, generation: int) {
    forall c | c in conditions :: c.kind == SYNCED_ON_NODE ==> c.observedGeneration <= generation
  }

  lemma {:induction false} OfKindElements(conditions: seq<Condition>, kind: string)
    ensures forall c :: c in OfKind(conditions, kind) <==> c in conditions && c.kind == kind
  {
    if conditions == [] {
    } else {
      OfKindElements(conditions[1..], kind);
    }
  }

  /** The synced condition was set and every other condition was left alone. */
  predicate ConditionSet(before: seq<Condition>, after: seq<Condition>, generation: int, ok: bool) {
    && Others(after, SYNCED_ON_NODE) == Others(before, SYNCED_ON_NODE)
    && (|OfKind(before, SYNCED_ON_NODE)| <= 1 ==>
          Says(after, generation, ok) && Apt(ok, OfKind(after, SYNCED_ON_NODE)[0].reason))
    && (|OfKind(before, SYNCED_ON_NODE)| > 1 ==> |OfKind(after, SYNCED_ON_NODE)| > 1)
    && (UpTo(before, generation) ==> UpTo(after, generation))
  }

  lemma ConditionSetAgain(a: seq<Condition>, b: seq<Condition>, c: seq<Condition>, generation: int, ok: bool, ok': bool)
    requires ConditionSet(a, b, generation, ok) && ConditionSet(b, c, generation, ok')
    ensures ConditionSet(a, c, generation, ok')
  {
    if |OfKind(a, SYNCED_ON_NODE)| <= 1 {
      assert Says(b, generation, ok);
    }
  }

  lemma {:induction false} SetSetsCondition(conditions: seq<Condition>, c: Condition)
    requires c.kind == SYNCED_ON_NODE && Apt(c.status, c.reason)
    ensures ConditionSet(conditions, SetStatusCondition(conditions, c), c.observedGeneration, c.status)
  {
    SetKeepsOthers(conditions, c);
    SetAddsOnly(conditions, c);
    if |OfKind(conditions, SYNCED_ON_NODE)| <= 1 {
      SetLeavesOne(conditions, c);
    } else {
      SetKeepsCount(conditions, c);
    }
  }
}
