/** The RBAC operator: creating the objects of a grant, and deleting them again. */
module Rbac {
  import opened Options
  import opened Resources
  import opened Api

  // ----- What a grant should leave behind -----

  /** The object a breakglass wants at a key, if any. */
  function Wanted(id: Identity, spec: Spec, key: Key): Option<RbacObject> {
    match key
    case Key(ClusterRoleBindings, ns, ClusterRoleBindingName(uid, role)) =>
      if ns == "" && uid == ShortUid(id) && role in spec.clusterRoles
      then Some(ClusterRoleBinding(LabelsOf(id), spec.subjects, role)) else None
    case Key(Roles, ns, RoleName(uid, i)) =>
      if uid == ShortUid(id) && i < |spec.policy| && ns == spec.policy[i].namespace
      then Some(Role(LabelsOf(id), spec.policy[i].rules)) else None
    case Key(RoleBindings, ns, RoleBindingName(uid, i)) =>
      if uid == ShortUid(id) && i < |spec.policy| && ns == spec.policy[i].namespace
      then Some(RoleBinding(LabelsOf(id), spec.subjects, RoleName(uid, i))) else None
    case _ => None
  }

  /** Where the object with a recorded name lives. */
  function KeyFor(spec: Spec, name: Name): Key {
    match name
    case RoleName(_, i) => Key(Roles, if i < |spec.policy| then spec.policy[i].namespace else "", name)
    case RoleBindingName(_, i) => Key(RoleBindings, if i < |spec.policy| then spec.policy[i].namespace else "", name)
    case _ => Key(ClusterRoleBindings, "", name)
  }

  /**
   * Nobody else's object holds a wanted key or carries this breakglass's labels, and every
   * object that does is exactly the wanted one.
   */
  ghost predicate Clean(id: Identity, spec: Spec, objects: Objects) {
    forall k | k in objects ::
      Matches(LabelsOf(id), objects[k].labels) || Wanted(id, spec, k).Some? ==> Wanted(id, spec, k) == Some(objects[k])
  }

  /** The labelled objects are exactly the wanted ones. */
  ghost predicate Complete(id: Identity, spec: Spec, objects: Objects) {
    forall k :: if k in Own(id, objects) then Wanted(id, spec, k) == Some(objects[k]) else Wanted(id, spec, k).None?
  }

  /** Every recorded name belongs to a wanted object that is in the cluster. */
  ghost predicate RecordsHold(id: Identity, spec: Spec, created: seq<Name>, objects: Objects) {
    forall n | n in created :: Wanted(id, spec, KeyFor(spec, n)).Some? && KeyFor(spec, n) in objects
  }

  /** Every labelled RoleBinding refers to a Role in its own namespace that is there. */
  ghost predicate NoDangling(id: Identity, objects: Objects) {
    forall k | k in objects && objects[k].RoleBinding? && Matches(LabelsOf(id), objects[k].labels) ::
      Key(Roles, k.namespace, objects[k].role) in objects
  }

  // ----- Granting -----

  /** One create call. */
  datatype Item = Item(key: Key, obj: RbacObject)

  function ClusterRoleItem(id: Identity, spec: Spec, role: string): Item {
    Item(Key(ClusterRoleBindings, "", ClusterRoleBindingName(ShortUid(id), role)),
         ClusterRoleBinding(LabelsOf(id), spec.subjects, role))
  }

  function RoleItem(id: Identity, p: Policy, i: nat): Item {
    Item(Key(Roles, p.namespace, RoleName(ShortUid(id), i)), Role(LabelsOf(id), p.rules))
  }

  function RoleBindingItem(id: Identity, spec: Spec, p: Policy, i: nat): Item {
    Item(Key(RoleBindings, p.namespace, RoleBindingName(ShortUid(id), i)),
         RoleBinding(LabelsOf(id), spec.subjects, RoleName(ShortUid(id), i)))
  }

  /** The creates for the first `n` cluster roles, skipping recorded names. */
  function ClusterRolePlan(id: Identity, spec: Spec, created: seq<Name>, n: nat): seq<Item>
    requires n <= |spec.clusterRoles|
  {
    if n == 0 then []
    else
      var item := ClusterRoleItem(id, spec, spec.clusterRoles[n - 1]);
      ClusterRolePlan(id, spec, created, n - 1) + if item.key.name in created then [] else [item]
  }

  /** The creates for the first `n` policies: a Role, then its RoleBinding, unless both are recorded. */
  function PolicyPlan(id: Identity, spec: Spec, created: seq<Name>, n: nat): seq<Item>
    requires n <= |spec.policy|
  {
    if n == 0 then []
    else
      var role := RoleItem(id, spec.policy[n - 1], n - 1);
      var binding := RoleBindingItem(id, spec, spec.policy[n - 1], n - 1);
      PolicyPlan(id, spec, created, n - 1) +
      if role.key.name in created && binding.key.name in created then [] else [role, binding]
  }

  /** All the creates of one grant, in order. */
  function Plan(bg: Resource): seq<Item> {
    ClusterRolePlan(bg.id, bg.spec, bg.status.created, |bg.spec.clusterRoles|) +
    PolicyPlan(bg.id, bg.spec, bg.status.created, |bg.spec.policy|)
  }

  function Place(objects: Objects, item: Item): Objects {
    if item.key in objects then objects else objects[item.key := item.obj]
  }

  /** Runs creates in order; an existing object is left as it is. */
  function Build(objects: Objects, items: seq<Item>): Objects {
    if items == [] then objects
    else Place(Build(objects, items[..|items| - 1]), items[|items| - 1])
  }

  function Names(items: seq<Item>): (names: seq<Name>)
    ensures |names| == |items| && forall i | 0 <= i < |items| :: names[i] == items[i].key.name
  {
    seq(|items|, i requires 0 <= i < |items| => items[i].key.name)
  }

  /** How far the creates of a grant get, and the error that stops them before the end. */
  datatype Effort = Effort(made: nat, fault: ApiError)

  datatype Granted = Granted(cluster: Cluster, status: Status, err: Option<RbacError>)

  /** `GrantAccess`: the creates, then the record of the created names. */
  function GrantAccess(c: Cluster, bg: Resource, effort: Effort, index: Option<ApiError>): Granted {
    var plan := Plan(bg);
    if effort.made < |plan| then
      Granted(c.(objects := Build(c.objects, plan[..effort.made])), bg.status, Some(Classified(effort.fault)))
    else
      var built := c.(objects := Build(c.objects, plan));
      if plan == [] then Granted(built, bg.status, None)
      else
        var st := bg.status.(created := bg.status.created + Names(plan));
        var e := WriteAnswer(built, index);
        Granted(WriteStatus(built, st, index), st, if e.Some? then Some(Classified(e.value)) else None)
  }

  // ----- Cleaning up -----

  ghost predicate NoneLeft(id: Identity, kind: Kind, objects: Objects) {
    forall k | k in objects && k.kind == kind :: !Matches(LabelsOf(id), objects[k].labels)
  }

  ghost predicate Lost(kind: Kind, before: Objects, after: Objects) {
    exists k | k in before :: k.kind == kind && k !in after
  }

  /** Nothing is added or changed, and only labelled objects go. */
  ghost predicate OnlyOwnRemoved(id: Identity, before: Objects, after: Objects) {
    && (forall k | k in after :: k in before && after[k] == before[k])
    && (forall k | k in before :: k in after || Matches(LabelsOf(id), before[k].labels))
  }

  /**
   * Every way a cleanup can end: RoleBindings go before Roles, Roles before ClusterRoleBindings,
   * success leaves nothing, and a permanent error is never a "not found".
   */
  ghost predicate Swept(id: Identity, before: Objects, after: Objects, err: Option<RbacError>) {
    && OnlyOwnRemoved(id, before, after)
    && (Lost(Roles, before, after) ==> NoneLeft(id, RoleBindings, after))
    && (Lost(ClusterRoleBindings, before, after) ==> NoneLeft(id, RoleBindings, after) && NoneLeft(id, Roles, after))
    && (err.None? ==> Own(id, after) == {})
    && (err.Some? ==> err.value.retryable || err.value.cause != NotFound)
  }

  /** The cleanup no fault disturbs: it removes every labelled object. */
  function Erased(id: Identity, objects: Objects): Objects {
    objects - Own(id, objects)
  }

  /** How a create loop over a plan ended: `made` creates done, and the error that stopped it, if any. */
  ghost predicate Ran(plan: seq<Item>, before: Objects, after: Objects, names: seq<Name>, err: Option<RbacError>, made: nat) {
    && made <= |plan|
    && after == Build(before, plan[..made])
    && (err.None? ==> made == |plan| && names == Names(plan))
    && (err.Some? ==> made < |plan| && Unexpected(err.value))
  }

  /** The operator's error for a create that failed: never that the object is there already. */
  predicate Unexpected(e: RbacError) {
    e == Classified(e.cause) && e.cause != AlreadyExists
  }

  // ----- The operator, calling the API -----

  class Operator {
    const client: ApiServer

    constructor (client: ApiServer)
      ensures this.client == client
    {
      this.client := client;
    }

    method CreateResource(item: Item) returns (err: Option<RbacError>)
      modifies client`objects, client`answers
      ensures Accounted(old(client.answers), client.answers, err)
      ensures err.None? ==> client.objects == Place(old(client.objects), item)
      ensures err.Some? ==> client.objects == old(client.objects) && Unexpected(err.value)
      ensures err.Some? ==> |client.answers| > 0 && client.answers[|client.answers| - 1].call == Creating
    {
      var e := client.Create(item.key, item.obj);
      if e.None? || e.value.AlreadyExists? {
        return None;
      }
      assert client.answers[..|client.answers| - 1] == old(client.answers);
      return Some(Classified(e.value));
    }

    method CreateClusterRoleBindings(id: Identity, spec: Spec, created: seq<Name>)
      returns (names: seq<Name>, err: Option<RbacError>, ghost made: nat)
      modifies client`objects, client`answers
      ensures Accounted(old(client.answers), client.answers, err)
      ensures err.Some? ==> |client.answers| > 0 && client.answers[|client.answers| - 1].call == Creating
      ensures Ran(ClusterRolePlan(id, spec, created, |spec.clusterRoles|), old(client.objects), client.objects, names, err, made)
    {
      hide Smooth, Accounted, Ran, Unexpected, RoleItem, RoleBindingItem, ClusterRoleItem, Place, Build;
      names, made, err := [], 0, None;
      ghost var start, told := client.objects, client.answers;
      NothingAsked(told);
      RanNothing(start);
      for i := 0 to |spec.clusterRoles|
        invariant Smooth(told, client.answers)
        invariant Ran(ClusterRolePlan(id, spec, created, i), start, client.objects, names, err, made) && err.None?
      {
        var item := ClusterRoleItem(id, spec, spec.clusterRoles[i]);
        ghost var done := ClusterRolePlan(id, spec, created, i);
        assert done + [] == done;
        if item.key.name !in created {
          ghost var reached, heard := client.objects, client.answers;
          err := CreateResource(item);
          AccountedThen(told, heard, client.answers, err);
          if err.Some? {
            ClusterRolePlanPrefix(id, spec, created, i + 1, |spec.clusterRoles|);
            RanStopped(done, [item], ClusterRolePlan(id, spec, created, |spec.clusterRoles|),
                       start, reached, names, made, err);
            return;
          }
          RanOn(done, item, start, reached, names, made);
          names, made := names + [item.key.name], made + 1;
        }
      }
      SmoothIsAccounted(told, client.answers);
    }

    method CreatePolicyResources(id: Identity, spec: Spec, created: seq<Name>)
      returns (names: seq<Name>, err: Option<RbacError>, ghost made: nat)
      modifies client`objects, client`answers
      ensures Accounted(old(client.answers), client.answers, err)
      ensures err.Some? ==> |client.answers| > 0 && client.answers[|client.answers| - 1].call == Creating
      ensures Ran(PolicyPlan(id, spec, created, |spec.policy|), old(client.objects), client.objects, names, err, made)
    {
      hide Smooth, Accounted, Ran, Unexpected, RoleItem, RoleBindingItem, ClusterRoleItem, Place, Build;
      names, made, err := [], 0, None;
      ghost var start, told := client.objects, client.answers;
      NothingAsked(told);
      RanNothing(start);
      for i := 0 to |spec.policy|
        invariant Smooth(told, client.answers)
        invariant Ran(PolicyPlan(id, spec, created, i), start, client.objects, names, err, made) && err.None?
      {
        var role := RoleItem(id, spec.policy[i], i);
        var binding := RoleBindingItem(id, spec, spec.policy[i], i);
        ghost var done, reached := PolicyPlan(id, spec, created, i), client.objects;
        ghost var heard := client.answers;
        assert done + [] == done;
        if role.key.name in created && binding.key.name in created {
          continue;
        }
        PolicyPlanPrefix(id, spec, created, i + 1, |spec.policy|);
        err := CreateResource(role);
        AccountedThen(told, heard, client.answers, err);
        if err.Some? {
          RanStopped(done, [role, binding], PolicyPlan(id, spec, created, |spec.policy|),
                     start, reached, names, made, err);
          return;
        }
        RanOn(done, role, start, reached, names, made);
        names, made, reached, heard := names + [role.key.name], made + 1, client.objects, client.answers;
        assert done + [role] + [binding] == done + [role, binding];
        err := CreateResource(binding);
        AccountedThen(told, heard, client.answers, err);
        if err.Some? {
          RanStopped(done + [role], [binding], PolicyPlan(id, spec, created, |spec.policy|),
                     start, reached, names, made, err);
          return;
        }
        RanOn(done + [role], binding, start, reached, names, made);
        names, made := names + [binding.key.name], made + 1;
      }
      SmoothIsAccounted(told, client.answers);
    }

    /** The creates, then the record of the names; `effort` and `index` say how they were answered. */
    method Grant(bg: Breakglass)
      returns (err: Option<RbacError>, ghost effort: Effort, ghost index: Option<ApiError>)
      modifies client`objects, client`stored, client`answers, bg`status
      ensures effort.made <= |Plan(old(bg.Snapshot()))|
      ensures Granted(client.State(), bg.status, err) ==
              GrantAccess(old(client.State()), old(bg.Snapshot()), effort, index)
      ensures old(client.answers) <= client.answers
      ensures effort == AllMade(old(bg.Snapshot())) || Stopped(effort, old(client.answers), client.answers)
      ensures index.Some? ==> Told(Answer(UpdatingStatus, index), old(client.answers), client.answers) && index != Some(NotFound)
    {
      hide Accounted, Smooth, Told, Stopped, ClusterRolePlan, PolicyPlan, Build, Faulty;
      ghost var before, r := client.State(), bg.Snapshot();
      ghost var told := client.answers;
      ghost var part1 := ClusterRolePlan(r.id, r.spec, r.status.created, |r.spec.clusterRoles|);
      ghost var part2 := PolicyPlan(r.id, r.spec, r.status.created, |r.spec.policy|);
      index := None;
      var names: seq<Name>;
      ghost var made1: nat;
      names, err, made1 := CreateClusterRoleBindings(bg.id, bg.spec, bg.status.created);
      effort := Effort(made1, if err.Some? then err.value.cause else Transient);
      if err.Some? {
        StoppedCreating(effort, told, client.answers, err);
        assert Plan(r)[..made1] == part1[..made1];
        return;
      }
      AccountedIsSmooth(told, client.answers);
      ghost var middle, heard := client.objects, client.answers;
      var more: seq<Name>;
      ghost var made2: nat;
      more, err, made2 := CreatePolicyResources(bg.id, bg.spec, bg.status.created);
      AccountedThen(told, heard, client.answers, err);
      effort := Effort(|part1| + made2, if err.Some? then err.value.cause else Transient);
      RanBoth(part1, part2, before.objects, middle, client.objects, names, more, err, made2);
      if err.Some? {
        StoppedCreating(effort, told, client.answers, err);
        return;
      }
      names := names + more;
      if |names| > 0 {
        bg.status := bg.status.(created := bg.status.created + names);
        ghost var built := client.State();
        var e;
        e, index := client.UpdateStatus(bg);
        if e.Some? {
          err := Some(Classified(e.value));
        }
        LastTold(told, client.answers);
      }
    }

    /** One of the three delete loops: lists the labelled objects of a kind and deletes them in turn. */
    method DeleteKind(kind: Kind, id: Identity) returns (err: Option<RbacError>)
      modifies client`objects, client`answers
      ensures Accounted(old(client.answers), client.answers, err)
      ensures OnlyOwnRemoved(id, old(client.objects), client.objects)
      ensures forall k | k in old(client.objects) && k !in client.objects :: k.kind == kind
      ensures err.None? ==> NoneLeft(id, kind, client.objects)
      ensures err.Some? ==> err.value.retryable || err.value.cause != NotFound
    {
      ghost var told := client.answers;
      var items, e := client.List(kind, LabelsOf(id));
      if e.Some? {
        assert client.answers[..|client.answers| - 1] == told;
        return Some(RbacError(true, e.value));
      }
      ghost var before := client.objects;
      for i := 0 to |items|
        invariant Smooth(told, client.answers)
        invariant OnlyOwnRemoved(id, before, client.objects)
        invariant forall k | k in before && k !in client.objects :: k in items[..i]
        invariant forall j | 0 <= j < i :: items[j] !in client.objects
      {
        ghost var heard := client.answers;
        e := client.Delete(items[i]);
        assert client.answers[..|client.answers| - 1] == heard;
        if e.Some? && e.value != NotFound {
          return Some(Classified(e.value));
        }
      }
      return None;
    }

    method CleanupResources(id: Identity) returns (err: Option<RbacError>)
      modifies client`objects, client`answers
      ensures Accounted(old(client.answers), client.answers, err)
      ensures Swept(id, old(client.objects), client.objects, err)
    {
      ghost var told := client.answers;
      err := DeleteKind(RoleBindings, id);
      if err.Some? {
        return;
      }
      ghost var heard := client.answers;
      err := DeleteKind(Roles, id);
      AccountedThen(told, heard, client.answers, err);
      if err.Some? {
        return;
      }
      heard := client.answers;
      err := DeleteKind(ClusterRoleBindings, id);
      AccountedThen(told, heard, client.answers, err);
      if err.Some? {
        return;
      }
      forall k | k in client.objects
        ensures !Matches(LabelsOf(id), client.objects[k].labels)
      {
        assert k.kind == RoleBindings || k.kind == Roles || k.kind == ClusterRoleBindings;
      }
    }
  }

  // ----- Facts about answers -----

  /** The creates all went through. */
  function AllMade(bg: Resource): Effort {
    Effort(|Plan(bg)|, Transient)
  }

  /** A create was answered with the error that stopped the grant. */
  ghost predicate Stopped(effort: Effort, before: seq<Answer>, after: seq<Answer>) {
    effort.fault != AlreadyExists && Told(Answer(Creating, Some(effort.fault)), before, after)
  }

  lemma LastTold(before: seq<Answer>, after: seq<Answer>)
    requires before < after
    ensures Told(after[|after| - 1], before, after)
  {
  }

  lemma StoppedCreating(effort: Effort, before: seq<Answer>, after: seq<Answer>, err: Option<RbacError>)
    requires Accounted(before, after, err) && err.Some? && effort.fault == err.value.cause && Unexpected(err.value)
    requires |after| > 0 && after[|after| - 1].call == Creating
    ensures Stopped(effort, before, after) && before <= after
  {
    assert after[|after| - 1] == Answer(Creating, Some(effort.fault));
  }

  /** No call, no fault. */
  lemma NothingAsked(answers: seq<Answer>)
    ensures Smooth(answers, answers) && Accounted(answers, answers, None)
  {
  }

  lemma AccountedIsSmooth(before: seq<Answer>, after: seq<Answer>)
    requires Accounted(before, after, None)
    ensures Smooth(before, after) && before <= after
  {
  }

  lemma SmoothIsAccounted(before: seq<Answer>, after: seq<Answer>)
    requires Smooth(before, after)
    ensures Accounted(before, after, None)
  {
  }

  /** An operation after a smooth beginning. */
  lemma AccountedThen(before: seq<Answer>, middle: seq<Answer>, after: seq<Answer>, err: Option<RbacError>)
    requires Smooth(before, middle) && Accounted(middle, after, err)
    ensures Accounted(before, after, err) && before <= after
    ensures err.None? ==> Smooth(before, after)
  {
    if err.Some? {
      var rest := after[..|after| - 1];
      assert middle <= rest && before <= rest;
    }
  }

  // ----- Facts about plans -----

  lemma {:induction false} ClusterRolePlanPrefix(id: Identity, spec: Spec, created: seq<Name>, i: nat, n: nat)
    requires i <= n <= |spec.clusterRoles|
    ensures var p, q := ClusterRolePlan(id, spec, created, i), ClusterRolePlan(id, spec, created, n);
            p <= q
  {
    if i < n {
      ClusterRolePlanPrefix(id, spec, created, i, n - 1);
    }
  }

  lemma {:induction false} PolicyPlanPrefix(id: Identity, spec: Spec, created: seq<Name>, i: nat, n: nat)
    requires i <= n <= |spec.policy|
    ensures var p, q := PolicyPlan(id, spec, created, i), PolicyPlan(id, spec, created, n);
            p <= q
  {
    if i < n {
      PolicyPlanPrefix(id, spec, created, i, n - 1);
    }
  }

  lemma BuildOne(objects: Objects, items: seq<Item>, item: Item)
    ensures Build(objects, items + [item]) == Place(Build(objects, items), item)
  {
    assert (items + [item])[..|items|] == items;
  }

  lemma {:induction false} BuildConcat(objects: Objects, a: seq<Item>, b: seq<Item>)
    ensures Build(objects, a + b) == Build(Build(objects, a), b)
  {
    if b == [] {
      assert a + b == a;
    } else {
      var last := b[|b| - 1];
      BuildConcat(objects, a, b[..|b| - 1]);
      assert a + b == (a + b[..|b| - 1]) + [last];
      BuildOne(objects, a + b[..|b| - 1], last);
    }
  }

  lemma RanNothing(objects: Objects)
    ensures Ran([], objects, objects, [], None, 0)
  {
  }

  /** A create loop goes on past a successful create. */
  lemma RanOn(done: seq<Item>, item: Item, before: Objects, reached: Objects, names: seq<Name>, made: nat)
    requires Ran(done, before, reached, names, None, made)
    ensures Ran(done + [item], before, Place(reached, item), names + [item.key.name], None, made + 1)
  {
    assert done[..made] == done && (done + [item])[..made + 1] == done + [item];
    BuildOne(before, done, item);
  }

  /** A create loop stops at a failed create. */
  lemma RanStopped(done: seq<Item>, next: seq<Item>, plan: seq<Item>,
                   before: Objects, reached: Objects, names: seq<Name>, made: nat, err: Option<RbacError>)
    requires Ran(done, before, reached, names, None, made) && next != [] && done + next <= plan
    requires err.Some? && Unexpected(err.value)
    ensures Ran(plan, before, reached, names, err, made)
  {
    assert plan[..made] == done[..made];
  }

  /** Two create loops in a row run the concatenated plan. */
  lemma RanBoth(a: seq<Item>, b: seq<Item>, before: Objects, middle: Objects, after: Objects,
                names: seq<Name>, more: seq<Name>, err: Option<RbacError>, made: nat)
    requires Ran(a, before, middle, names, None, |a|)
    requires Ran(b, middle, after, more, err, made)
    ensures after == Build(before, (a + b)[..|a| + made])
    ensures err.None? ==> names + more == Names(a + b) && (a + b)[..|a| + made] == a + b
  {
    assert a[..|a|] == a && (a + b)[..|a| + made] == a + b[..made];
    BuildConcat(before, a, b[..made]);
  }
}
