/** What grants and cleanups promise, at every point where they may stop. */
module RbacProofs {
  import opened Options
  import opened Resources
  import opened Api
  import opened Rbac

  // ----- The plan of a grant -----

  /** An item creates the wanted object, under its recorded name's key. */
  predicate Sound(id: Identity, spec: Spec, item: Item) {
    Wanted(id, spec, item.key) == Some(item.obj) && KeyFor(spec, item.key.name) == item.key
  }

  lemma {:induction false} ClusterRolePlanSound(id: Identity, spec: Spec, created: seq<Name>, n: nat)
    requires n <= |spec.clusterRoles|
    ensures forall item | item in ClusterRolePlan(id, spec, created, n) ::
              Sound(id, spec, item) && item.obj.ClusterRoleBinding?
    ensures forall i | 0 <= i < n ::
              var item := ClusterRoleItem(id, spec, spec.clusterRoles[i]);
              item.key.name in created || item in ClusterRolePlan(id, spec, created, n)
  {
    if n > 0 {
      ClusterRolePlanSound(id, spec, created, n - 1);
    }
  }

  lemma {:induction false} PolicyPlanSound(id: Identity, spec: Spec, created: seq<Name>, n: nat)
    requires n <= |spec.policy|
    ensures forall item | item in PolicyPlan(id, spec, created, n) :: Sound(id, spec, item)
    ensures forall i | 0 <= i < n ::
              var role, binding := RoleItem(id, spec.policy[i], i), RoleBindingItem(id, spec, spec.policy[i], i);
              var plan := PolicyPlan(id, spec, created, n);
              (role.key.name in created && binding.key.name in created) || (role in plan && binding in plan)
  {
    if n > 0 {
      PolicyPlanSound(id, spec, created, n - 1);
    }
  }

  /** Of the status, only the recorded names matter to a plan. */
  lemma PlanIgnoresRest(a: Resource, b: Resource)
    requires a.id == b.id && a.spec == b.spec && a.status.created == b.status.created
    ensures Plan(a) == Plan(b)
  {
  }

  /** The schedule does not matter to a plan. */
  lemma SamePlan(a: Resource, b: Resource)
    requires a.id == b.id && a.spec == b.spec.(schedule := a.spec.schedule) && a.status.created == b.status.created
    ensures Plan(a) == Plan(b)
  {
    ClusterRolesPlanned(a.id, a.spec, b.spec, a.status.created, |a.spec.clusterRoles|);
    PoliciesPlanned(a.id, a.spec, b.spec, a.status.created, |a.spec.policy|);
  }

  lemma {:induction false} ClusterRolesPlanned(id: Identity, s: Spec, t: Spec, created: seq<Name>, n: nat)
    requires s == t.(schedule := s.schedule) && n <= |s.clusterRoles|
    ensures ClusterRolePlan(id, s, created, n) == ClusterRolePlan(id, t, created, n)
  {
    if n > 0 {
      ClusterRolesPlanned(id, s, t, created, n - 1);
    }
  }

  lemma {:induction false} PoliciesPlanned(id: Identity, s: Spec, t: Spec, created: seq<Name>, n: nat)
    requires s == t.(schedule := s.schedule) && n <= |s.policy|
    ensures PolicyPlan(id, s, created, n) == PolicyPlan(id, t, created, n)
  {
    if n > 0 {
      PoliciesPlanned(id, s, t, created, n - 1);
    }
  }

  /** A RoleBinding is created right after the Role it refers to. */
  ghost predicate RolesFirst(plan: seq<Item>) {
    forall j | 0 <= j < |plan| && plan[j].obj.RoleBinding? ::
      0 < j && plan[j - 1].key == Key(Roles, plan[j].key.namespace, plan[j].obj.role)
  }

  lemma {:induction false} PolicyPlanRolesFirst(id: Identity, spec: Spec, created: seq<Name>, n: nat)
    requires n <= |spec.policy|
    ensures RolesFirst(PolicyPlan(id, spec, created, n))
  {
    if n > 0 {
      PolicyPlanRolesFirst(id, spec, created, n - 1);
    }
  }

  lemma PlanFacts(bg: Resource)
    ensures forall item | item in Plan(bg) :: Sound(bg.id, bg.spec, item)
    ensures RolesFirst(Plan(bg))
    ensures forall k | Wanted(bg.id, bg.spec, k).Some? ::
              k.name in bg.status.created || exists item | item in Plan(bg) :: item.key == k
  {
    var id, spec, created := bg.id, bg.spec, bg.status.created;
    ClusterRolePlanSound(id, spec, created, |spec.clusterRoles|);
    PolicyPlanSound(id, spec, created, |spec.policy|);
    PolicyPlanRolesFirst(id, spec, created, |spec.policy|);
    PlanCovers(bg);
  }

  lemma PlanCovers(bg: Resource)
    ensures forall k | Wanted(bg.id, bg.spec, k).Some? ::
              k.name in bg.status.created || exists item | item in Plan(bg) :: item.key == k
  {
    var id, spec, created := bg.id, bg.spec, bg.status.created;
    ClusterRolePlanSound(id, spec, created, |spec.clusterRoles|);
    PolicyPlanSound(id, spec, created, |spec.policy|);
    forall k | Wanted(id, spec, k).Some? && k.name !in created
      ensures exists item | item in Plan(bg) :: item.key == k
    {
      match k.name
      case ClusterRoleBindingName(_, role) =>
        var i :| 0 <= i < |spec.clusterRoles| && spec.clusterRoles[i] == role;
        assert ClusterRoleItem(id, spec, spec.clusterRoles[i]).key == k;
      case RoleName(_, i) =>
        assert RoleItem(id, spec.policy[i], i).key == k;
      case RoleBindingName(_, i) =>
        assert RoleBindingItem(id, spec, spec.policy[i], i).key == k;
    }
  }

  // ----- Building -----

  /** Building keeps what is there and adds exactly the items' keys. */
  lemma {:induction false} BuildContents(id: Identity, spec: Spec, objects: Objects, items: seq<Item>)
    requires forall item | item in items :: Sound(id, spec, item)
    ensures var built := Build(objects, items);
            && (forall k | k in objects :: k in built && built[k] == objects[k])
            && (forall item | item in items :: item.key in built)
            && (forall k | k in built && k !in objects :: Wanted(id, spec, k) == Some(built[k]))
  {
    if items != [] {
      var n := |items| - 1;
      BuildContents(id, spec, objects, items[..n]);
      assert Sound(id, spec, items[n]);
      assert forall item | item in items :: item in items[..n] || item == items[n];
    }
  }

  /** However far a grant gets, no RoleBinding is left without its Role. */
  lemma {:induction false} BuildKeepsNoDangling(id: Identity, objects: Objects, plan: seq<Item>, made: nat)
    requires made <= |plan| && RolesFirst(plan) && NoDangling(id, objects)
    ensures NoDangling(id, Build(objects, plan[..made]))
    ensures made > 0 ==> plan[made - 1].key in Build(objects, plan[..made])
  {
    if made > 0 {
      BuildKeepsNoDangling(id, objects, plan, made - 1);
      assert plan[..made][..made - 1] == plan[..made - 1];
    }
  }

  /** However far a grant gets, the wanted objects are the only labelled ones. */
  lemma GrantKeepsClean(c: Cluster, bg: Resource, effort: Effort, index: Option<ApiError>)
    requires Clean(bg.id, bg.spec, c.objects)
    ensures var objects := GrantAccess(c, bg, effort, index).cluster.objects;
            && Clean(bg.id, bg.spec, objects)
            && (forall k | k in c.objects :: k in objects && objects[k] == c.objects[k])
  {
    PlanFacts(bg);
    var done := if effort.made < |Plan(bg)| then Plan(bg)[..effort.made] else Plan(bg);
    assert forall item | item in done :: item in Plan(bg);
    BuildContents(bg.id, bg.spec, c.objects, done);
  }

  lemma GrantKeepsNoDangling(c: Cluster, bg: Resource, effort: Effort, index: Option<ApiError>)
    requires NoDangling(bg.id, c.objects)
    ensures NoDangling(bg.id, GrantAccess(c, bg, effort, index).cluster.objects)
  {
    PlanFacts(bg);
    var plan := Plan(bg);
    BuildKeepsNoDangling(bg.id, c.objects, plan, if effort.made < |plan| then effort.made else |plan|);
    assert plan[..|plan|] == plan;
  }

  /** The names of a finished plan are names of wanted objects that exist. */
  lemma GrantKeepsRecords(c: Cluster, bg: Resource, effort: Effort, index: Option<ApiError>)
    requires RecordsHold(bg.id, bg.spec, bg.status.created, c.objects)
    ensures var g := GrantAccess(c, bg, effort, index);
            && RecordsHold(bg.id, bg.spec, bg.status.created, g.cluster.objects)
            && RecordsHold(bg.id, bg.spec, g.status.created, g.cluster.objects)
  {
    hide Wanted, KeyFor, Plan, Build, Sound;
    PlanFacts(bg);
    var plan := Plan(bg);
    var done := if effort.made < |plan| then plan[..effort.made] else plan;
    assert forall item | item in done :: item in plan;
    BuildContents(bg.id, bg.spec, c.objects, done);
    var g := GrantAccess(c, bg, effort, index);
    forall n | n in g.status.created
      ensures Wanted(bg.id, bg.spec, KeyFor(bg.spec, n)).Some? && KeyFor(bg.spec, n) in g.cluster.objects
    {
      if n !in bg.status.created {
        assert g.status.created == bg.status.created + Names(plan);
        var j :| 0 <= j < |plan| && Names(plan)[j] == n;
        SoundKey(bg.id, bg.spec, plan[j]);
      }
    }
  }

  lemma SoundKey(id: Identity, spec: Spec, item: Item)
    requires Sound(id, spec, item)
    ensures Wanted(id, spec, KeyFor(spec, item.key.name)).Some? && KeyFor(spec, item.key.name) == item.key
  {
  }

  /** A successful grant has recorded every wanted name, and forgets none. */
  lemma GrantRecordsAll(c: Cluster, bg: Resource, effort: Effort, index: Option<ApiError>)
    requires GrantAccess(c, bg, effort, index).err.None?
    ensures var g := GrantAccess(c, bg, effort, index);
            && bg.status.created <= g.status.created
            && forall k | Wanted(bg.id, bg.spec, k).Some? :: k.name in g.status.created
  {
    hide Wanted, Plan, Build, Sound;
    PlanFacts(bg);
    var g, plan := GrantAccess(c, bg, effort, index), Plan(bg);
    forall k | Wanted(bg.id, bg.spec, k).Some? && k.name !in bg.status.created
      ensures k.name in g.status.created
    {
      var item :| item in plan && item.key == k;
      var j :| 0 <= j < |plan| && plan[j] == item;
      assert Names(plan)[j] == k.name;
    }
  }

  /** Skipping recorded names is sound: a successful grant leaves exactly the wanted objects. */
  lemma GrantCompletes(c: Cluster, bg: Resource, effort: Effort, index: Option<ApiError>)
    requires Clean(bg.id, bg.spec, c.objects)
    requires RecordsHold(bg.id, bg.spec, bg.status.created, c.objects)
    requires GrantAccess(c, bg, effort, index).err.None?
    ensures Complete(bg.id, bg.spec, GrantAccess(c, bg, effort, index).cluster.objects)
  {
    GrantKeepsClean(c, bg, effort, index);
    var objects := GrantAccess(c, bg, effort, index).cluster.objects;
    AllWantedBuilt(bg, c.objects);
    assert objects == Build(c.objects, Plan(bg));
    CleanIsComplete(bg.id, bg.spec, objects);
  }

  /**
   * With any recorded names, a successful grant leaves exactly the wanted objects if and only if
   * each wanted object it does not set out to create is there already.
   */
  lemma GrantCompletesExactly(c: Cluster, bg: Resource, effort: Effort, index: Option<ApiError>)
    requires Clean(bg.id, bg.spec, c.objects)
    requires GrantAccess(c, bg, effort, index).err.None?
    ensures Complete(bg.id, bg.spec, GrantAccess(c, bg, effort, index).cluster.objects) <==>
            forall k | Wanted(bg.id, bg.spec, k).Some? :: k in c.objects || exists item | item in Plan(bg) :: item.key == k
  {
    hide Wanted, Plan;
    PlanFacts(bg);
    GrantKeepsClean(c, bg, effort, index);
    var objects := GrantAccess(c, bg, effort, index).cluster.objects;
    assert objects == Build(c.objects, Plan(bg));
    BuildContents(bg.id, bg.spec, c.objects, Plan(bg));
    BuildOnly(c.objects, Plan(bg));
    if forall k | Wanted(bg.id, bg.spec, k).Some? :: k in objects {
      CleanIsComplete(bg.id, bg.spec, objects);
    }
  }

  /** Building adds no other keys. */
  lemma {:induction false} BuildOnly(objects: Objects, items: seq<Item>)
    ensures forall k | k in Build(objects, items) :: k in objects || exists item | item in items :: item.key == k
  {
    if items != [] {
      var n := |items| - 1;
      BuildOnly(objects, items[..n]);
      assert forall item | item in items[..n] :: item in items;
      assert items[n] in items;
    }
  }

  /** Once all its names are recorded, a grant sets out to create nothing. */
  lemma {:induction false} RecordedClusterRolesSkipped(id: Identity, spec: Spec, created: seq<Name>, n: nat)
    requires n <= |spec.clusterRoles|
    requires forall i | 0 <= i < n :: ClusterRoleItem(id, spec, spec.clusterRoles[i]).key.name in created
    ensures ClusterRolePlan(id, spec, created, n) == []
  {
    if n > 0 {
      RecordedClusterRolesSkipped(id, spec, created, n - 1);
      assert ClusterRoleItem(id, spec, spec.clusterRoles[n - 1]).key.name in created;
    }
  }

  lemma {:induction false} RecordedPoliciesSkipped(id: Identity, spec: Spec, created: seq<Name>, n: nat)
    requires n <= |spec.policy|
    requires forall i | 0 <= i < n ::
               && RoleItem(id, spec.policy[i], i).key.name in created
               && RoleBindingItem(id, spec, spec.policy[i], i).key.name in created
    ensures PolicyPlan(id, spec, created, n) == []
  {
    if n > 0 {
      RecordedPoliciesSkipped(id, spec, created, n - 1);
      assert RoleItem(id, spec.policy[n - 1], n - 1).key.name in created;
    }
  }

  /** A grant that recorded all of its first plan leaves nothing for the next one to create. */
  lemma RecordedPlanIsDone(first: Resource, next: Resource)
    requires first.id == next.id && first.spec == next.spec && first.status.created == []
    requires next.status.created == Names(Plan(first))
    ensures Plan(next) == []
  {
    hide Wanted, KeyFor;
    var id, spec, created := first.id, first.spec, next.status.created;
    ClusterRolePlanSound(id, spec, [], |spec.clusterRoles|);
    PolicyPlanSound(id, spec, [], |spec.policy|);
    var plan := Plan(first);
    assert forall item | item in plan :: item.key.name in created by {
      forall item | item in plan
        ensures item.key.name in created
      {
        var j :| 0 <= j < |plan| && plan[j] == item;
        assert Names(plan)[j] == item.key.name;
      }
    }
    forall i | 0 <= i < |spec.clusterRoles|
      ensures ClusterRoleItem(id, spec, spec.clusterRoles[i]).key.name in created
    {
      assert ClusterRoleItem(id, spec, spec.clusterRoles[i]) in plan;
    }
    forall i | 0 <= i < |spec.policy|
      ensures RoleItem(id, spec.policy[i], i).key.name in created
      ensures RoleBindingItem(id, spec, spec.policy[i], i).key.name in created
    {
      assert RoleItem(id, spec.policy[i], i) in plan && RoleBindingItem(id, spec, spec.policy[i], i) in plan;
    }
    RecordedClusterRolesSkipped(id, spec, created, |spec.clusterRoles|);
    RecordedPoliciesSkipped(id, spec, created, |spec.policy|);
  }

  lemma AllWantedBuilt(bg: Resource, objects: Objects)
    requires RecordsHold(bg.id, bg.spec, bg.status.created, objects)
    ensures forall k | Wanted(bg.id, bg.spec, k).Some? :: k in Build(objects, Plan(bg))
  {
    hide Wanted, KeyFor, Plan, Build, Sound;
    PlanFacts(bg);
    BuildContents(bg.id, bg.spec, objects, Plan(bg));
    forall k | Wanted(bg.id, bg.spec, k).Some?
      ensures k in Build(objects, Plan(bg))
    {
      WantedAtKey(bg.id, bg.spec, k);
    }
  }

  lemma WantedAtKey(id: Identity, spec: Spec, k: Key)
    requires Wanted(id, spec, k).Some?
    ensures KeyFor(spec, k.name) == k
  {
  }

  lemma CleanIsComplete(id: Identity, spec: Spec, objects: Objects)
    requires Clean(id, spec, objects)
    requires forall k | Wanted(id, spec, k).Some? :: k in objects
    ensures Complete(id, spec, objects)
  {
    WantedCarryLabels(id, spec);
  }

  lemma WantedCarryLabels(id: Identity, spec: Spec)
    ensures forall k | Wanted(id, spec, k).Some? :: Matches(LabelsOf(id), Wanted(id, spec, k).value.labels)
  {
    assert Matches(LabelsOf(id), LabelsOf(id));
  }

  /** One call of `GrantAccess` on the stored resource: where the creates stop, how the record update answers. */
  datatype Try = Try(effort: Effort, index: Option<ApiError>)

  /** The cluster after a series of attempts, each starting from what is stored. */
  function Retried(c: Cluster, tries: seq<Try>): Cluster {
    if tries == [] then c
    else
      var before := Retried(c, tries[..|tries| - 1]);
      var t := tries[|tries| - 1];
      GrantAccess(before, before.stored, t.effort, t.index).cluster
  }

  /** Any number of partly failed attempts followed by a success leave exactly the wanted objects. */
  lemma {:induction false} RetriedGrantCompletes(c: Cluster, tries: seq<Try>, last: Try)
    requires Clean(c.stored.id, c.stored.spec, c.objects)
    requires RecordsHold(c.stored.id, c.stored.spec, c.stored.status.created, c.objects)
    ensures var r := Retried(c, tries);
            && r.stored.id == c.stored.id && r.stored.spec == c.stored.spec
            && Clean(r.stored.id, r.stored.spec, r.objects)
            && RecordsHold(r.stored.id, r.stored.spec, r.stored.status.created, r.objects)
            && var g := GrantAccess(r, r.stored, last.effort, last.index);
               g.err.None? ==> Complete(c.stored.id, c.stored.spec, g.cluster.objects)
  {
    hide Clean, RecordsHold, Complete;
    if tries != [] {
      var t := tries[|tries| - 1];
      RetriedGrantCompletes(c, tries[..|tries| - 1], t);
      var before := Retried(c, tries[..|tries| - 1]);
      GrantKeepsClean(before, before.stored, t.effort, t.index);
      GrantKeepsRecords(before, before.stored, t.effort, t.index);
      RecordsSurvive(before, t);
    }
    var r := Retried(c, tries);
    if GrantAccess(r, r.stored, last.effort, last.index).err.None? {
      GrantCompletes(r, r.stored, last.effort, last.index);
    }
  }

  /** Whether or not the record update of an attempt is stored, the stored record holds. */
  lemma RecordsSurvive(c: Cluster, t: Try)
    requires Clean(c.stored.id, c.stored.spec, c.objects)
    requires RecordsHold(c.stored.id, c.stored.spec, c.stored.status.created, c.objects)
    ensures var after := GrantAccess(c, c.stored, t.effort, t.index).cluster;
            RecordsHold(c.stored.id, c.stored.spec, after.stored.status.created, after.objects)
  {
    GrantKeepsClean(c, c.stored, t.effort, t.index);
    GrantKeepsRecords(c, c.stored, t.effort, t.index);
  }

  // ----- Cleaning up -----

  /** Wherever a cleanup stops, it has removed objects only, and kept the ownership of names. */
  lemma SweepKeepsClean(id: Identity, spec: Spec, before: Objects, after: Objects, err: Option<RbacError>)
    requires Swept(id, before, after, err)
    ensures Own(id, after) <= Own(id, before)
    ensures Clean(id, spec, before) ==> Clean(id, spec, after)
  {
  }

  /** Wherever a cleanup stops, it has left no RoleBinding without its Role. */
  lemma SweepKeepsNoDangling(id: Identity, spec: Spec, before: Objects, after: Objects, err: Option<RbacError>)
    requires Swept(id, before, after, err)
    requires Clean(id, spec, before) && NoDangling(id, before)
    ensures NoDangling(id, after)
  {
    forall k | k in after && after[k].RoleBinding? && Matches(LabelsOf(id), after[k].labels)
      ensures Key(Roles, k.namespace, after[k].role) in after
    {
      WantedKind(id, spec, before, k);
      var role := Key(Roles, k.namespace, after[k].role);
      assert role in before;
      assert role !in after ==> Lost(Roles, before, after);
    }
  }

  lemma WantedKind(id: Identity, spec: Spec, objects: Objects, k: Key)
    requires Clean(id, spec, objects) && k in objects && Matches(LabelsOf(id), objects[k].labels)
    ensures objects[k].RoleBinding? <==> k.kind == RoleBindings
  {
    assert Wanted(id, spec, k) == Some(objects[k]);
  }

  /** Cleaning up for one breakglass leaves every other breakglass's objects alone, even when it fails. */
  lemma SweepSparesOthers(id: Identity, other: Identity, before: Objects, after: Objects, err: Option<RbacError>)
    requires Swept(id, before, after, err)
    requires id.uid != other.uid
    ensures Own(other, after) == Own(other, before)
    ensures forall k | k in Own(other, before) :: after[k] == before[k]
  {
    forall k | k in Own(other, before)
      ensures k in after && after[k] == before[k]
    {
      OtherLabelsDoNotMatch(id, other, before[k].labels);
    }
  }

  /** After a successful cleanup a second one changes nothing, whatever it answers. */
  lemma SweepTwice(id: Identity, before: Objects, after: Objects, again: Objects, err: Option<RbacError>)
    requires Swept(id, before, after, None) && Swept(id, after, again, err)
    ensures again == after
  {
    forall k | k in after
      ensures k in again && again[k] == after[k]
    {
      assert k !in Own(id, after);
    }
  }

  lemma ErasedIsSwept(id: Identity, objects: Objects)
    ensures Swept(id, objects, Erased(id, objects), None)
    ensures Own(id, Erased(id, objects)) == {}
  {
  }

  /** A cleanup that got somewhere leaves as much to erase as there was. */
  lemma ErasedAfter(id: Identity, before: Objects, after: Objects)
    requires OnlyOwnRemoved(id, before, after)
    ensures Erased(id, after) == Erased(id, before)
  {
    forall k | k in Erased(id, before)
      ensures k in after
    {
      assert k !in Own(id, before);
    }
  }

  /** A successful cleanup has only one result. */
  lemma SweptIsErased(id: Identity, before: Objects, after: Objects)
    requires Swept(id, before, after, None)
    ensures after == Erased(id, before)
  {
    forall k | k in before && k !in after
      ensures k in Own(id, before)
    {
    }
    forall k | k in after
      ensures k !in Own(id, before)
    {
      assert k !in Own(id, after);
    }
  }
}
