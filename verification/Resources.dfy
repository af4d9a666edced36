/** The Breakglass custom resource and the RBAC objects made for it. */
module Resources {
  import opened Options
  import opened Schedules

  // ----- Spec -----

  datatype CronField = NoCron | BadCron | Every(cron: Cron)

  datatype ScheduleSpec = ScheduleSpec(start: Time, duration: Duration, cron: CronField, maxActivations: Option<int>)

  datatype Policy = Policy(namespace: string, rules: seq<string>)

  datatype Spec = Spec(
    subjects: seq<string>,
    policy: seq<Policy>,
    clusterRoles: seq<string>,
    approvalRequired: bool,
    schedule: ScheduleSpec)

  // ----- Status -----

  datatype ConditionType =
    | NoCondition | Pending | Approved | Denied | Active | Expired | Revoked | Failed
    | RecurringPending | RecurringActive

  datatype Reason =
    | NewResource | WaitingForApproval | AccessExpired | RBACCreationFailed | RevokeFailed
    | RecurringScheduled | RecurringActivated | RecurringWaiting | RecurringInvalidSchedule
    | LimitReached

  datatype Condition = Condition(kind: ConditionType, reason: Reason)

  datatype Status = Status(
    grantedAt: Option<Time>,
    expiresAt: Option<Time>,
    conditions: seq<Condition>,
    approvedBy: string,
    created: seq<Name>,
    nextAt: Option<Time>,
    count: int)

  const EMPTY_STATUS := Status(None, None, [], "", [], None, 0)

  /** `meta.SetStatusCondition`: overwrite the entry of the same type, or append. */
  function SetCondition(conditions: seq<Condition>, c: Condition): seq<Condition> {
    if conditions == [] then [c]
    else if conditions[0].kind == c.kind then [c] + conditions[1..]
    else [conditions[0]] + SetCondition(conditions[1..], c)
  }

  function WithCondition(st: Status, kind: ConditionType, reason: Reason): Status {
    st.(conditions := SetCondition(st.conditions, Condition(kind, reason)))
  }

  /** The condition types, in order of first appearance. */
  function Kinds(conditions: seq<Condition>): (kinds: seq<ConditionType>)
    ensures |kinds| == |conditions|
    ensures forall i | 0 <= i < |kinds| :: kinds[i] == conditions[i].kind
  {
    seq(|conditions|, i requires 0 <= i < |conditions| => conditions[i].kind)
  }

  /** The type of the last entry: what the reconciler dispatches on. */
  function CurrentCondition(conditions: seq<Condition>): ConditionType {
    if conditions == [] then NoCondition else conditions[|conditions| - 1].kind
  }

  /** Setting a condition never reorders the types: it keeps the list or appends one new type. */
  lemma {:induction false} SetConditionKinds(conditions: seq<Condition>, c: Condition)
    ensures Kinds(SetCondition(conditions, c)) ==
            if c.kind in Kinds(conditions) then Kinds(conditions) else Kinds(conditions) + [c.kind]
  {
    var result := SetCondition(conditions, c);
    if conditions != [] && conditions[0].kind != c.kind {
      SetConditionKinds(conditions[1..], c);
      assert Kinds(conditions) == [conditions[0].kind] + Kinds(conditions[1..]);
      assert Kinds(result) == [conditions[0].kind] + Kinds(SetCondition(conditions[1..], c));
    }
  }

  // ----- Identity, names and labels -----

  /** An object UID; the operator uses its first eight characters. */
  type Uid = s: string | 8 <= |s| witness "00000000"

  type Short = s: string | |s| == 8 witness "00000000"

  datatype Identity = Identity(name: string, namespace: string, uid: Uid)

  function ShortUid(id: Identity): Short {
    id.uid[..8]
  }

  /** Names the operator builds, by shape; `Other` is any name of a different shape. */
  datatype Name =
    | ClusterRoleBindingName(uid: Short, clusterRole: string)
    | RoleName(uid: Short, index: nat)
    | RoleBindingName(uid: Short, index: nat)
    | Other(text: string)

  type Labels = map<string, string>

  function LabelsOf(id: Identity): Labels {
    map[
      "breakglass/name" := id.name,
      "breakglass/namespace" := id.namespace,
      "breakglass/uid" := id.uid,
      "breakglass-uid" := id.uid
    ]
  }

  /** `client.MatchingLabels`: the object carries every selected label. */
  predicate Matches(selector: Labels, labels: Labels) {
    forall k | k in selector :: k in labels && labels[k] == selector[k]
  }

  /** An object that carries the labels of a breakglass with another UID, and any more, is not selected. */
  lemma OtherLabelsDoNotMatch(a: Identity, b: Identity, labels: Labels)
    requires a.uid != b.uid && Matches(LabelsOf(b), labels)
    ensures !Matches(LabelsOf(a), labels)
  {
    assert "breakglass-uid" in LabelsOf(a) && "breakglass-uid" in LabelsOf(b);
  }

  // ----- RBAC objects -----

  datatype Kind = ClusterRoleBindings | Roles | RoleBindings

  datatype Key = Key(kind: Kind, namespace: string, name: Name)

  datatype RbacObject =
    | ClusterRoleBinding(labels: Labels, subjects: seq<string>, clusterRole: string)
    | Role(labels: Labels, rules: seq<string>)
    | RoleBinding(labels: Labels, subjects: seq<string>, role: Name)

  type Objects = map<Key, RbacObject>

  /** The stored custom resource. */
  datatype Resource = Resource(id: Identity, spec: Spec, status: Status, finalizer: bool, deleting: bool)

  /** A copy of the resource in a reconciler's memory, which handlers update in place. */
  class Breakglass {
    const id: Identity
    var spec: Spec
    var status: Status
    var finalizer: bool
    var deleting: bool

    constructor (r: Resource)
      ensures Snapshot() == r
    {
      id, spec, status, finalizer, deleting := r.id, r.spec, r.status, r.finalizer, r.deleting;
    }

    function Snapshot(): Resource
      reads this
    {
      Resource(id, spec, status, finalizer, deleting)
    }

    /** Writes one condition into the status. */
    method Mark(kind: ConditionType, reason: Reason)
      modifies this`status
      ensures status == WithCondition(old(status), kind, reason)
    {
      var i := 0;
      ghost var before := status.conditions;
      while i < |status.conditions| && status.conditions[i].kind != kind
        invariant 0 <= i <= |before| && status == old(status)
        invariant SetCondition(before, Condition(kind, reason)) ==
                  before[..i] + SetCondition(before[i..], Condition(kind, reason))
      {
        i := i + 1;
      }
      if i < |status.conditions| {
        status := status.(conditions := status.conditions[i := Condition(kind, reason)]);
      } else {
        status := status.(conditions := status.conditions + [Condition(kind, reason)]);
      }
    }
  }

  /** The keys of the objects labelled for a breakglass. */
  function Own(id: Identity, objects: Objects): set<Key> {
    set k | k in objects && Matches(LabelsOf(id), objects[k].labels)
  }

  // ----- Rendering of names -----

  function Decimal(n: nat): (text: string)
    ensures |text| > 0
  {
    if n < 10 then [Digit(n)] else Decimal(n / 10) + [Digit(n % 10)]
  }

  function Digit(d: nat): char
    requires d < 10
  {
    '0' + d as char
  }

  /** The name as the operator formats it. */
  function Render(name: Name): string {
    match name
    case ClusterRoleBindingName(uid, clusterRole) => "breakglass-" + uid + "-clusterrolebinding-" + clusterRole
    case RoleName(uid, index) => "breakglass-" + uid + "-role-" + Decimal(index)
    case RoleBindingName(uid, index) => "breakglass-" + uid + "-rolebinding-" + Decimal(index)
    case Other(text) => text
  }

  lemma {:induction false} DecimalInjective(m: nat, n: nat)
    requires Decimal(m) == Decimal(n)
    ensures m == n
    decreases m
  {
    var s, t := Decimal(m), Decimal(n);
    assert s[|s| - 1] == Digit(m % 10) && t[|t| - 1] == Digit(n % 10);
    if m >= 10 && n >= 10 {
      assert s[..|s| - 1] == Decimal(m / 10) && t[..|t| - 1] == Decimal(n / 10);
      DecimalInjective(m / 10, n / 10);
    }
  }

  /** What `Render` puts after the prefix and the UID. */
  function Tail(name: Name): string {
    match name
    case ClusterRoleBindingName(_, clusterRole) => "-clusterrolebinding-" + clusterRole
    case RoleName(_, index) => "-role-" + Decimal(index)
    case RoleBindingName(_, index) => "-rolebinding-" + Decimal(index)
    case Other(_) => ""
  }

  lemma RenderSplits(name: Name)
    requires !name.Other?
    ensures Render(name)[11..19] == name.uid && Render(name)[19..] == Tail(name)
  {
    assert Render(name) == "breakglass-" + name.uid + Tail(name);
  }

  /** Two operator-made names that format to the same string are the same name. */
  lemma RenderInjective(a: Name, b: Name)
    requires !a.Other? && !b.Other? && Render(a) == Render(b)
    ensures a == b
  {
    RenderSplits(a);
    RenderSplits(b);
    var s, t := Tail(a), Tail(b);
    assert a.ClusterRoleBindingName? ==> s[1] == 'c';
    assert a.RoleName? ==> s[1] == 'r' && s[5] == '-';
    assert a.RoleBindingName? ==> s[1] == 'r' && s[5] == 'b';
    assert b.ClusterRoleBindingName? ==> t[1] == 'c';
    assert b.RoleName? ==> t[1] == 'r' && t[5] == '-';
    assert b.RoleBindingName? ==> t[1] == 'r' && t[5] == 'b';
    match a
    case ClusterRoleBindingName(_, x) =>
      assert s[20..] == x && t[20..] == b.clusterRole;
    case RoleName(_, i) =>
      assert s[6..] == Decimal(i) && t[6..] == Decimal(b.index);
      DecimalInjective(i, b.index);
    case RoleBindingName(_, i) =>
      assert s[13..] == Decimal(i) && t[13..] == Decimal(b.index);
      DecimalInjective(i, b.index);
  }
}
