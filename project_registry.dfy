/**
 * The consistency of ProjectProxy's registries, and the registry each of its operations
 * leaves behind.  A Registry is the part of a ProjectProxy's state that the invariant is
 * about; each operation's effect on it is a function here, and a lemma beside each
 * function shows that it keeps a consistent registry consistent.
 */
module ProjectRegistry {
  import opened Common
  import opened ProjectObjects

  // ---------------------------------------------------------------- the invariant

  /** The model list has no duplicates, and the hashes by instance and by UUID index exactly its elements. */
  ghost predicate ModelRegistry(list: seq<ModelProxy>, byInstance: map<Model, ModelProxy>, byUuid: map<Uuid, ModelProxy>) {
    && Distinct(list)
    && (forall m :: m in list ==>
          m.data in byInstance && byInstance[m.data] == m && m.uuid in byUuid && byUuid[m.uuid] == m)
    && (forall k :: k in byInstance ==> byInstance[k].data == k && byInstance[k] in list)
    && (forall u :: u in byUuid ==> byUuid[u].uuid == u && byUuid[u] in list)
  }

  /**
   * A motion proxy is registered when it has an undo stack.  The hashes by instance and by
   * UUID index exactly the registered proxies, no two registered proxies share a stack, and
   * the motion list holds registered proxies without duplicates.
   */
  ghost predicate MotionRegistry(list: seq<MotionProxy>, stacks: map<MotionProxy, UndoStack>,
                                 byInstance: map<Motion, MotionProxy>, byUuid: map<Uuid, MotionProxy>) {
    && Distinct(list)
    && (forall p :: p in list ==> p in stacks)
    && (forall p :: p in stacks ==>
          stacks[p] == p.undoStack && p.data in byInstance && byInstance[p.data] == p
          && p.uuid in byUuid && byUuid[p.uuid] == p)
    && (forall k :: k in byInstance ==> byInstance[k].data == k && byInstance[k] in stacks)
    && (forall u :: u in byUuid ==> byUuid[u].uuid == u && byUuid[u] in stacks)
    && (forall p, q :: p in stacks && q in stacks && p != q ==> p.undoStack != q.undoStack)
  }

  /** Every model with a child motion is listed, its child motion is registered, and that motion's parent model is the model. */
  ghost predicate ChildLinks(children: map<ModelProxy, MotionProxy>, parents: map<Motion, Model>,
                             models: seq<ModelProxy>, stacks: map<MotionProxy, UndoStack>) {
    forall m :: m in children ==>
      m in models && children[m] in stacks && children[m].data in parents && parents[children[m].data] == m.data
  }

  /** Appending an unregistered model and indexing it keeps the model registry consistent. */
  lemma ModelRegistryAdd(list: seq<ModelProxy>, byInstance: map<Model, ModelProxy>, byUuid: map<Uuid, ModelProxy>,
                         m: ModelProxy)
    requires ModelRegistry(list, byInstance, byUuid)
    requires m.data !in byInstance && m.uuid !in byUuid
    ensures m !in list
    ensures ModelRegistry(list + [m], byInstance[m.data := m], byUuid[m.uuid := m])
  {
    DistinctAppend(list, m);
  }

  /** Removing a listed model from the list and from both hashes keeps the model registry consistent. */
  lemma ModelRegistryRemove(list: seq<ModelProxy>, byInstance: map<Model, ModelProxy>, byUuid: map<Uuid, ModelProxy>,
                            m: ModelProxy)
    requires ModelRegistry(list, byInstance, byUuid) && m in list
    ensures forall n :: n in RemoveFirst(list, m) ==> n in list && n != m
    ensures forall n :: n in list && n != m ==> n in RemoveFirst(list, m)
    ensures ModelRegistry(RemoveFirst(list, m), byInstance - {m.data}, byUuid - {m.uuid})
  {
    RemoveFirstOfDistinct<ModelProxy>(list, m);
    var rest, restByInstance, restByUuid := RemoveFirst<ModelProxy>(list, m), byInstance - {m.data}, byUuid - {m.uuid};
    forall n: ModelProxy | n in rest
      ensures n.data in restByInstance && restByInstance[n.data] == n && n.uuid in restByUuid && restByUuid[n.uuid] == n
    {
      assert n in list && n != m;
    }
    forall k | k in restByInstance ensures restByInstance[k].data == k && restByInstance[k] in rest {
      assert byInstance[k] in list;
    }
    forall u | u in restByUuid ensures restByUuid[u].uuid == u && restByUuid[u] in rest {
      assert byUuid[u] in list;
    }
  }

  /** Appending a fresh proxy with a stack of its own and indexing it keeps the motion registry consistent. */
  lemma MotionRegistryAdd(list: seq<MotionProxy>, stacks: map<MotionProxy, UndoStack>,
                          byInstance: map<Motion, MotionProxy>, byUuid: map<Uuid, MotionProxy>, p: MotionProxy)
    requires MotionRegistry(list, stacks, byInstance, byUuid)
    requires p !in stacks && p.data !in byInstance && p.uuid !in byUuid
    requires forall q :: q in stacks ==> q.undoStack != p.undoStack
    ensures MotionRegistry(list + [p], stacks[p := p.undoStack], byInstance[p.data := p], byUuid[p.uuid := p])
  {
    DistinctAppend(list, p);
  }

  /** Unregistering a registered proxy everywhere keeps the motion registry consistent. */
  lemma MotionRegistryRemove(list: seq<MotionProxy>, stacks: map<MotionProxy, UndoStack>,
                             byInstance: map<Motion, MotionProxy>, byUuid: map<Uuid, MotionProxy>, p: MotionProxy)
    requires MotionRegistry(list, stacks, byInstance, byUuid) && p in stacks
    ensures forall q :: q in RemoveFirst(list, p) ==> q in list && q != p
    ensures forall q :: q in list && q != p ==> q in RemoveFirst(list, p)
    ensures MotionRegistry(RemoveFirst(list, p), stacks - {p}, byInstance - {p.data}, byUuid - {p.uuid})
  {
    RemoveFirstOfDistinct<MotionProxy>(list, p);
    var rest, restStacks := RemoveFirst<MotionProxy>(list, p), stacks - {p};
    var restByInstance, restByUuid := byInstance - {p.data}, byUuid - {p.uuid};
    forall q: MotionProxy | q in rest ensures q in restStacks {
      assert q in list && q != p;
    }
    forall q | q in restStacks
      ensures restStacks[q] == q.undoStack
      ensures q.data in restByInstance && restByInstance[q.data] == q
      ensures q.uuid in restByUuid && restByUuid[q.uuid] == q
    {
      assert q in stacks && q != p;
    }
    forall k | k in restByInstance ensures restByInstance[k].data == k && restByInstance[k] in restStacks {
      assert byInstance[k] in stacks;
    }
    forall u | u in restByUuid ensures restByUuid[u].uuid == u && restByUuid[u] in restStacks {
      assert byUuid[u] in stacks;
    }
  }

  /**
   * Unregistering a motion, and unlinking it from the parent model it resolves to, keeps
   * every other child link: no other model has it as child motion.
   */
  lemma ChildLinksWithoutMotion(children: map<ModelProxy, MotionProxy>, parents: map<Motion, Model>,
                                models: seq<ModelProxy>, modelByInstance: map<Model, ModelProxy>,
                                stacks: map<MotionProxy, UndoStack>, motionByInstance: map<Motion, MotionProxy>,
                                p: MotionProxy, parent: ModelProxy?)
    requires ChildLinks(children, parents, models, stacks)
    requires forall m :: m in models ==> m.data in modelByInstance && modelByInstance[m.data] == m
    requires forall q :: q in stacks ==> q.data in motionByInstance && motionByInstance[q.data] == q
    requires p in stacks
    requires parent == if p.data in parents && parents[p.data] in modelByInstance then modelByInstance[parents[p.data]] else null
    ensures ChildLinks(if parent == null then children else children - {parent},
                       if parent == null then parents else parents - {p.data}, models, stacks - {p})
  {
  }

  /** Registering another motion keeps every child link. */
  lemma ChildLinksWithMotion(children: map<ModelProxy, MotionProxy>, parents: map<Motion, Model>,
                             models: seq<ModelProxy>, stacks: map<MotionProxy, UndoStack>, p: MotionProxy, s: UndoStack)
    requires ChildLinks(children, parents, models, stacks)
    ensures ChildLinks(children, parents, models, stacks[p := s])
  {
  }

  /** Removing a model without a child motion from the list keeps every child link. */
  lemma ChildLinksWithoutModel(children: map<ModelProxy, MotionProxy>, parents: map<Motion, Model>,
                               models: seq<ModelProxy>, stacks: map<MotionProxy, UndoStack>, m: ModelProxy)
    requires ChildLinks(children, parents, models, stacks) && Distinct(models) && m !in children
    ensures ChildLinks(children, parents, RemoveFirst(models, m), stacks)
  {
    RemoveFirstOfDistinct<ModelProxy>(models, m);
  }

  /** Linking a listed model to a registered motion that has no parent yet keeps every other child link. */
  lemma ChildLinksWithModel(children: map<ModelProxy, MotionProxy>, parents: map<Motion, Model>,
                            models: seq<ModelProxy>, stacks: map<MotionProxy, UndoStack>, m: ModelProxy, p: MotionProxy)
    requires ChildLinks(children, parents, models, stacks)
    requires m in models && p in stacks && p.data !in parents
    ensures ChildLinks(children[m := p], parents[p.data := m.data], models, stacks)
  {
    forall n | n in children ensures children[n].data != p.data {
    }
  }

  // ---------------------------------------------------------------- registry states

  /**
   * The model and motion registries, the child links (ModelProxy::childMotion and
   * IMotion::parentModelRef) and the selection: current model, current motion and the
   * undo group's active stack.
   */
  datatype Registry = Registry(
    models: seq<ModelProxy>, modelByInstance: map<Model, ModelProxy>, modelByUuid: map<Uuid, ModelProxy>,
    motions: seq<MotionProxy>, stacks: map<MotionProxy, UndoStack>,
    motionByInstance: map<Motion, MotionProxy>, motionByUuid: map<Uuid, MotionProxy>,
    children: map<ModelProxy, MotionProxy>, parents: map<Motion, Model>,
    currentModel: ModelProxy?, currentMotion: MotionProxy?, activeStack: UndoStack?)

  /**
   * The registries are consistent, child links hold, the current model and motion are
   * listed (or null), and the active undo stack is the current motion's.
   */
  ghost predicate Consistent(r: Registry) {
    && ModelRegistry(r.models, r.modelByInstance, r.modelByUuid)
    && MotionRegistry(r.motions, r.stacks, r.motionByInstance, r.motionByUuid)
    && ChildLinks(r.children, r.parents, r.models, r.stacks)
    && (r.currentModel == null || r.currentModel in r.models)
    && (r.currentMotion == null || r.currentMotion in r.motions)
    && r.activeStack == (if r.currentMotion == null then null else r.currentMotion.undoStack)
  }

  /** The registry with nothing in it. */
  function EmptyRegistry(): Registry {
    Registry([], map[], map[], [], map[], map[], map[], map[], map[], null, null, null)
  }

  /** m_motion2UndoStacks.value: the motion's undo stack, or null. */
  function StackIn(r: Registry, p: MotionProxy?): (s: UndoStack?)
    ensures s == null <==> p == null || p !in r.stacks
    ensures s != null ==> s == r.stacks[p]
  {
    if p != null && p in r.stacks then r.stacks[p] else null
  }

  /** ModelProxy::childMotion: the model's child motion, or null. */
  function ChildOf(r: Registry, m: ModelProxy): (c: MotionProxy?)
    ensures c == null <==> m !in r.children
    ensures c != null ==> c == r.children[m]
  {
    if m in r.children then r.children[m] else null
  }

  /** MotionProxy::parentModel: the proxy its parent model instance resolves to, or null. */
  function ParentOf(r: Registry, p: MotionProxy): (m: ModelProxy?)
    ensures m == null <==> p.data !in r.parents || r.parents[p.data] !in r.modelByInstance
    ensures m != null ==> m == r.modelByInstance[r.parents[p.data]]
  {
    if p.data in r.parents && r.parents[p.data] in r.modelByInstance then r.modelByInstance[r.parents[p.data]] else null
  }

  /** setCurrentModel */
  function SelectModel(r: Registry, m: ModelProxy?): (d: Registry)
    ensures d.currentModel == m
    ensures d.models == r.models && d.motions == r.motions && d.children == r.children && d.currentMotion == r.currentMotion
  {
    r.(currentModel := m)
  }

  /** setCurrentMotion: a different motion becomes current and its stack (or none) active. */
  function SelectMotion(r: Registry, p: MotionProxy?): (d: Registry)
    ensures d.currentMotion == p
    ensures d.activeStack == if p == r.currentMotion then r.activeStack else StackIn(r, p)
    ensures d.models == r.models && d.motions == r.motions && d.children == r.children && d.currentModel == r.currentModel
  {
    if p == r.currentMotion then r else r.(currentMotion := p, activeStack := StackIn(r, p))
  }

  /** createMotionProxy: `p` is appended to the list and registered by proxy, instance and UUID. */
  function WithMotion(r: Registry, p: MotionProxy): (d: Registry)
    ensures d.motions == r.motions + [p] && StackIn(d, p) == p.undoStack
    ensures p.data in d.motionByInstance && d.motionByInstance[p.data] == p
    ensures p.uuid in d.motionByUuid && d.motionByUuid[p.uuid] == p
    ensures d.models == r.models && d.children == r.children && d.currentMotion == r.currentMotion
  {
    r.(motions := r.motions + [p], stacks := r.stacks[p := p.undoStack],
       motionByInstance := r.motionByInstance[p.data := p], motionByUuid := r.motionByUuid[p.uuid := p])
  }

  /**
   * deleteMotion: `p` stops being current, its stack stops being active, the model it
   * resolves to loses it as child (and it loses its parent), and it leaves the list and
   * every hash.
   */
  function WithoutMotion(r: Registry, p: MotionProxy): (d: Registry)
    ensures StackIn(d, p) == null && p.data !in d.motionByInstance && p.uuid !in d.motionByUuid
    ensures p in r.motions ==> |d.motions| == |r.motions| - 1
    ensures d.currentMotion != p && (StackIn(r, p) != null ==> d.activeStack != StackIn(r, p))
    ensures ParentOf(r, p) != null ==> ParentOf(r, p) !in d.children
    ensures d.models == r.models && d.currentModel == r.currentModel
  {
    var parent := ParentOf(r, p);
    var stack := StackIn(r, p);
    r.(motions := RemoveFirst(r.motions, p), stacks := r.stacks - {p},
       motionByInstance := r.motionByInstance - {p.data}, motionByUuid := r.motionByUuid - {p.uuid},
       children := if parent == null then r.children else r.children - {parent},
       parents := if parent == null then r.parents else r.parents - {p.data},
       currentMotion := if r.currentMotion == p then null else r.currentMotion,
       activeStack := if r.currentMotion == p || (stack != null && r.activeStack == stack) then null else r.activeStack)
  }

  /** The steps of deleteMotion, in the source's order: stop being current, ... */
  function Deselected(r: Registry, p: MotionProxy): (d: Registry)
    ensures d.currentMotion != p
    ensures r.currentMotion == p ==> d == r.(currentMotion := null, activeStack := null)
    ensures r.currentMotion != p ==> d == r
  {
    if r.currentMotion == p then SelectMotion(r, null) else r
  }

  /** ... forget the parent model (when there is one), ... */
  function Unlinked(r: Registry, parent: ModelProxy?, d: Motion): (u: Registry)
    ensures parent != null ==> parent !in u.children && d !in u.parents
    ensures parent != null ==> u.children == r.children - {parent} && u.parents == r.parents - {d}
    ensures u.(children := r.children, parents := r.parents) == r
  {
    if parent == null then r else r.(children := r.children - {parent}, parents := r.parents - {d})
  }

  /** ... leave the undo group, which drops an active stack, ... */
  function StackDropped(r: Registry, stack: UndoStack?): (d: Registry)
    ensures stack != null ==> d.activeStack != stack
    ensures d.activeStack == null || d.activeStack == r.activeStack
    ensures d.(activeStack := r.activeStack) == r
  {
    if stack != null && r.activeStack == stack then r.(activeStack := null) else r
  }

  /** ... and leave the list and the three hashes. */
  function Unregistered(r: Registry, p: MotionProxy): (d: Registry)
    ensures p !in d.stacks && p.data !in d.motionByInstance && p.uuid !in d.motionByUuid
    ensures p in r.motions ==> |d.motions| == |r.motions| - 1
    ensures p !in r.motions ==> d.motions == r.motions
    ensures d.(motions := r.motions, stacks := r.stacks, motionByInstance := r.motionByInstance, motionByUuid := r.motionByUuid) == r
  {
    r.(motions := RemoveFirst(r.motions, p), stacks := r.stacks - {p},
       motionByInstance := r.motionByInstance - {p.data}, motionByUuid := r.motionByUuid - {p.uuid})
  }

  /** Performing the four steps of deleteMotion one after the other is WithoutMotion. */
  lemma WithoutMotionSteps(r: Registry, p: MotionProxy)
    ensures WithoutMotion(r, p) ==
      Unregistered(StackDropped(Unlinked(Deselected(r, p), ParentOf(r, p), p.data), StackIn(r, p)), p)
  {
  }

  /** The model part of addModel: `m` is appended to the list and registered by instance and UUID. */
  function WithModel(r: Registry, m: ModelProxy): (d: Registry)
    ensures d.models == r.models + [m]
    ensures m.data in d.modelByInstance && d.modelByInstance[m.data] == m && m.uuid in d.modelByUuid && d.modelByUuid[m.uuid] == m
    ensures d.motions == r.motions && d.children == r.children && d.currentModel == r.currentModel
  {
    r.(models := r.models + [m], modelByInstance := r.modelByInstance[m.data := m],
       modelByUuid := r.modelByUuid[m.uuid := m])
  }

  /** ModelProxy::setChildMotion together with the motion's parent model reference. */
  function WithChild(r: Registry, m: ModelProxy, p: MotionProxy): (d: Registry)
    ensures ChildOf(d, m) == p && p.data in d.parents && d.parents[p.data] == m.data
    ensures d.models == r.models && d.motions == r.motions && d.stacks == r.stacks && d.currentModel == r.currentModel
  {
    r.(children := r.children[m := p], parents := r.parents[p.data := m.data])
  }

  /** addModel: `m` is registered, selected when asked, and `child` becomes its new child motion. */
  function AfterAddModel(r: Registry, m: ModelProxy, selected: bool, child: MotionProxy): (d: Registry)
    ensures d.models == r.models + [m] && d.motions == r.motions + [child]
    ensures ChildOf(d, m) == child && StackIn(d, child) == child.undoStack
    ensures d.currentModel == if selected then m else r.currentModel
  {
    var added := WithModel(r, m);
    var chosen := if selected then SelectModel(added, m) else added;
    WithChild(WithMotion(chosen, child), m, child)
  }

  /** The list part of deleteModel: `m` leaves the list and both hashes. */
  function WithoutModel(r: Registry, m: ModelProxy): (d: Registry)
    ensures m.data !in d.modelByInstance && m.uuid !in d.modelByUuid
    ensures m in r.models ==> |d.models| == |r.models| - 1
    ensures d.modelByInstance.Keys <= r.modelByInstance.Keys
    ensures d.motions == r.motions && d.children == r.children && d.currentModel == r.currentModel
  {
    r.(models := RemoveFirst(r.models, m), modelByInstance := r.modelByInstance - {m.data},
       modelByUuid := r.modelByUuid - {m.uuid})
  }

  /**
   * deleteModel: nothing happens unless `m`'s instance is registered; otherwise `m` stops
   * being current, its child motion is deleted, and `m` leaves the list and both hashes.
   */
  function AfterDeleteModel(r: Registry, m: ModelProxy): (d: Registry)
    ensures m.data !in d.modelByInstance && d.modelByInstance.Keys <= r.modelByInstance.Keys
    ensures m.data !in r.modelByInstance ==> d == r
    ensures m.data in r.modelByInstance ==> d.currentModel == if r.currentModel == m then null else r.currentModel
    ensures r.currentMotion == null ==> d.currentMotion == null
    ensures r.activeStack == null ==> d.activeStack == null
  {
    if m.data !in r.modelByInstance then r
    else
      var deselected := if r.currentModel == m then SelectModel(r, null) else r;
      var child := ChildOf(deselected, m);
      var unlinked := if child != null && child.uuid in deselected.motionByUuid then WithoutMotion(deselected, child)
                      else deselected;
      WithoutModel(unlinked, m)
  }

  /** The child motion deleteModel deletes along with `m`: its child, when that is registered by UUID. */
  function DeletedChild(r: Registry, m: ModelProxy): (c: MotionProxy?)
    ensures c != null ==> c == ChildOf(r, m) && c.uuid in r.motionByUuid
    ensures c == null <==> ChildOf(r, m) == null || ChildOf(r, m).uuid !in r.motionByUuid
  {
    var child := ChildOf(r, m);
    if child != null && child.uuid in r.motionByUuid then child else null
  }

  /**
   * deleteModel of a registered model in the order the source performs it: the selection
   * changes first, which leaves the child motion to delete and its stack as they were; then
   * the child motion and the model go.
   */
  lemma DeleteModelSteps(r: Registry, m: ModelProxy)
    requires m.data in r.modelByInstance
    ensures var d := SelectModel(r, if r.currentModel == m then null else r.currentModel);
      var c := DeletedChild(r, m);
      && DeletedChild(d, m) == c
      && StackIn(d, c) == StackIn(r, c)
      && AfterDeleteModel(r, m) == WithoutModel(if c == null then d else WithoutMotion(d, c), m)
      && DeletedChildData(r, m) == (if c == null then {} else {c.data})
  {
    if r.currentModel != m {
      assert SelectModel(r, r.currentModel) == r;
    }
  }

  /** deleteModel applied to each model of `ms` in turn. */
  function AfterDeleteModels(r: Registry, ms: seq<ModelProxy>): (d: Registry)
    ensures forall m :: m in ms ==> m.data !in d.modelByInstance
    ensures d.modelByInstance.Keys <= r.modelByInstance.Keys
    ensures r.currentModel == null ==> d.currentModel == null
    ensures r.currentMotion == null ==> d.currentMotion == null
    ensures r.activeStack == null ==> d.activeStack == null
  {
    if ms == [] then r
    else
      assert forall m :: m in ms ==> m in ms[..|ms| - 1] || m == ms[|ms| - 1];
      AfterDeleteModel(AfterDeleteModels(r, ms[..|ms| - 1]), ms[|ms| - 1])
  }

  /** Whether each deleteModel of the loop over `ms` finds its model registered when its turn comes. */
  function DeletionsFound(r: Registry, ms: seq<ModelProxy>): (found: seq<bool>)
    ensures |found| == |ms|
  {
    if ms == [] then []
    else
      var n := |ms| - 1;
      DeletionsFound(r, ms[..n]) + [ms[n].data in AfterDeleteModels(r, ms[..n]).modelByInstance]
  }

  /** The i-th deleteModel finds its model exactly when the deletions before it have left the model registered. */
  lemma {:induction false} DeletionFoundAt(r: Registry, ms: seq<ModelProxy>, i: nat)
    requires i < |ms|
    ensures DeletionsFound(r, ms)[i] <==> ms[i].data in AfterDeleteModels(r, ms[..i]).modelByInstance
  {
    var n := |ms| - 1;
    if i < n {
      DeletionFoundAt(r, ms[..n], i);
      assert ms[..n][..i] == ms[..i];
    } else {
      assert ms[..i] == ms[..n];
    }
  }

  /** The motion instance deleteModel(m) takes out of the project: its deleted child's, if it deletes one. */
  function DeletedChildData(r: Registry, m: ModelProxy): (gone: set<Motion>)
    ensures |gone| <= 1
    ensures gone != {} <==> m.data in r.modelByInstance && DeletedChild(r, m) != null
  {
    var child := DeletedChild(r, m);
    if m.data in r.modelByInstance && child != null then {child.data} else {}
  }

  /** The motion instances of the child motions the loop of deleteModel calls over `ms` deletes. */
  function DeletedChildMotions(r: Registry, ms: seq<ModelProxy>): set<Motion> {
    if ms == [] then {}
    else
      var n := |ms| - 1;
      DeletedChildMotions(r, ms[..n]) + DeletedChildData(AfterDeleteModels(r, ms[..n]), ms[n])
  }

  /** One more deleteModel: the outcomes and the deleted child motions grow by that call's. */
  lemma DeletionStep(r: Registry, ms: seq<ModelProxy>, i: nat)
    requires i < |ms|
    ensures var before := AfterDeleteModels(r, ms[..i]);
      && AfterDeleteModels(r, ms[..i + 1]) == AfterDeleteModel(before, ms[i])
      && DeletionsFound(r, ms[..i + 1]) == DeletionsFound(r, ms[..i]) + [ms[i].data in before.modelByInstance]
      && DeletedChildMotions(r, ms[..i + 1]) == DeletedChildMotions(r, ms[..i]) + DeletedChildData(before, ms[i])
  {
    assert ms[..i + 1][..i] == ms[..i];
  }

  /**
   * release: nothing is selected, every model of the list is deleted in list order, and
   * both lists are cleared.
   */
  function Released(r: Registry): (d: Registry)
    ensures d.models == [] && d.motions == [] && d.currentModel == null && d.currentMotion == null && d.activeStack == null
    ensures forall m :: m in r.models ==> m.data !in d.modelByInstance
    ensures d.modelByInstance.Keys <= r.modelByInstance.Keys
  {
    var reset := r.(currentModel := null, currentMotion := null, activeStack := null);
    AfterDeleteModels(reset, r.models).(models := [], motions := [])
  }

  // ---------------------------------------------------------------- each operation keeps the invariant

  /** A new ProjectProxy's registry is consistent. */
  lemma EmptyIsConsistent()
    ensures Consistent(EmptyRegistry())
  {
  }

  /** Selecting a listed model, or none, keeps the registry consistent. */
  lemma ModelSelected(r: Registry, m: ModelProxy?)
    requires Consistent(r) && (m == null || m in r.models)
    ensures Consistent(SelectModel(r, m))
  {
  }

  /** Selecting a listed motion, or none, keeps the registry consistent: the active stack follows the motion. */
  lemma MotionSelected(r: Registry, p: MotionProxy?)
    requires Consistent(r) && (p == null || p in r.motions)
    ensures Consistent(SelectMotion(r, p))
  {
  }

  /** Registering a proxy whose motion, UUID and undo stack are all new keeps the registry consistent. */
  lemma MotionAdded(r: Registry, p: MotionProxy)
    requires Consistent(r)
    requires p !in r.stacks && p.data !in r.motionByInstance && p.uuid !in r.motionByUuid
    requires forall q :: q in r.stacks ==> q.undoStack != p.undoStack
    ensures Consistent(WithMotion(r, p))
  {
    MotionRegistryAdd(r.motions, r.stacks, r.motionByInstance, r.motionByUuid, p);
    ChildLinksWithMotion(r.children, r.parents, r.models, r.stacks, p, p.undoStack);
  }

  /** Deleting a registered motion keeps the registry consistent, and the motion is gone from it. */
  lemma MotionRemoved(r: Registry, p: MotionProxy)
    requires Consistent(r) && p in r.stacks
    ensures Consistent(WithoutMotion(r, p))
    ensures p !in WithoutMotion(r, p).motions && p !in WithoutMotion(r, p).stacks
  {
    MotionRegistryRemove(r.motions, r.stacks, r.motionByInstance, r.motionByUuid, p);
    ChildLinksWithoutMotion(r.children, r.parents, r.models, r.modelByInstance, r.stacks, r.motionByInstance,
                            p, ParentOf(r, p));
    if r.currentMotion != null && r.currentMotion != p {
      assert r.currentMotion in r.stacks;
    }
  }

  /** Linking a listed model to a registered motion that has no parent keeps the registry consistent. */
  lemma ChildLinked(r: Registry, m: ModelProxy, p: MotionProxy)
    requires Consistent(r)
    requires m in r.models && p in r.stacks && p.data !in r.parents
    ensures Consistent(WithChild(r, m, p))
  {
    ChildLinksWithModel(r.children, r.parents, r.models, r.stacks, m, p);
  }

  /**
   * Adding a model whose instance and UUID are new, with a child motion whose proxy,
   * instance, UUID and undo stack are all new, keeps the registry consistent; the model is
   * listed and its child motion is registered with the model as parent.
   */
  lemma ModelAdded(r: Registry, m: ModelProxy, selected: bool, child: MotionProxy)
    requires Consistent(r)
    requires m.data !in r.modelByInstance && m.uuid !in r.modelByUuid
    requires child !in r.stacks && child.data !in r.motionByInstance && child.uuid !in r.motionByUuid
    requires child.data !in r.parents
    requires forall q :: q in r.stacks ==> q.undoStack != child.undoStack
    ensures Consistent(AfterAddModel(r, m, selected, child))
  {
    ModelRegistryAdd(r.models, r.modelByInstance, r.modelByUuid, m);
    var added := WithModel(r, m);
    assert Consistent(added);
    var chosen := if selected then SelectModel(added, m) else added;
    assert Consistent(chosen);
    MotionAdded(chosen, child);
    ChildLinked(WithMotion(chosen, child), m, child);
    assert AfterAddModel(r, m, selected, child) == WithChild(WithMotion(chosen, child), m, child);
  }

  /** After addModel the model is listed and registered, and its child motion is the new motion, whose parent it is. */
  lemma AddedModelIsLinked(r: Registry, m: ModelProxy, selected: bool, child: MotionProxy)
    ensures var d := AfterAddModel(r, m, selected, child);
      && m in d.models && m.data in d.modelByInstance && d.modelByInstance[m.data] == m
      && ChildOf(d, m) == child && ParentOf(d, child) == m
      && (selected ==> d.currentModel == m)
  {
  }

  /** Deleting a listed model that is neither current nor linked to a child motion keeps the registry consistent. */
  lemma ModelRemoved(r: Registry, m: ModelProxy)
    requires Consistent(r)
    requires m in r.models && m !in r.children && r.currentModel != m
    ensures Consistent(WithoutModel(r, m))
    ensures m !in WithoutModel(r, m).models
  {
    ModelRegistryRemove(r.models, r.modelByInstance, r.modelByUuid, m);
    ChildLinksWithoutModel(r.children, r.parents, r.models, r.stacks, m);
  }

  /** Deleting the child motion of a listed model that is not current, then the model, keeps the registry consistent. */
  lemma ModelAndChildRemoved(r: Registry, m: ModelProxy, child: MotionProxy)
    requires Consistent(r) && m in r.models && r.currentModel != m && ChildOf(r, m) == child
    ensures Consistent(WithoutModel(WithoutMotion(r, child), m))
  {
    assert r.modelByInstance[m.data] == m;
    assert child in r.stacks && child.uuid in r.motionByUuid;
    assert ParentOf(r, child) == m;
    MotionRemoved(r, child);
    ModelRemoved(WithoutMotion(r, child), m);
  }

  /** Deleting a listed model keeps the registry consistent. */
  lemma ModelDeleted(r: Registry, m: ModelProxy)
    requires Consistent(r) && m in r.models
    ensures Consistent(AfterDeleteModel(r, m))
  {
    assert r.modelByInstance[m.data] == m;
    var deselected := if r.currentModel == m then SelectModel(r, null) else r;
    ModelSelected(r, if r.currentModel == m then null else r.currentModel);
    var child := ChildOf(deselected, m);
    if child != null {
      ModelAndChildRemoved(deselected, m, child);
      assert AfterDeleteModel(r, m) == WithoutModel(WithoutMotion(deselected, child), m);
    } else {
      ModelRemoved(deselected, m);
      assert AfterDeleteModel(r, m) == WithoutModel(deselected, m);
    }
  }

  /** The model is registered under its own instance, and its child motion, if any, is registered with the model as parent. */
  ghost predicate ChildResolves(r: Registry, m: ModelProxy) {
    && m.data in r.modelByInstance && r.modelByInstance[m.data] == m
    && (m in r.children ==>
          && r.children[m] in r.stacks && r.children[m].uuid in r.motionByUuid
          && r.children[m].data in r.parents && r.parents[r.children[m].data] == m.data)
  }

  /** In a consistent registry every listed model's child resolves to it. */
  lemma ListedChildResolves(r: Registry, m: ModelProxy)
    requires Consistent(r) && m in r.models
    ensures ChildResolves(r, m)
  {
  }

  /** Deleting a model drops its own child link and no other. */
  lemma DeletedModelChildren(r: Registry, m: ModelProxy)
    requires ChildResolves(r, m)
    ensures AfterDeleteModel(r, m).children == r.children - {m}
  {
    var deselected := if r.currentModel == m then SelectModel(r, null) else r;
    assert deselected.children == r.children && deselected.motionByUuid == r.motionByUuid;
    assert deselected.parents == r.parents && deselected.modelByInstance == r.modelByInstance;
    if m in r.children {
      var child := r.children[m];
      assert ChildOf(deselected, m) == child && ParentOf(deselected, child) == m;
      var unlinked := WithoutMotion(deselected, child);
      assert unlinked.children == r.children - {m};
      assert AfterDeleteModel(r, m).children == WithoutModel(unlinked, m).children;
    } else {
      assert AfterDeleteModel(r, m).children == WithoutModel(deselected, m).children;
    }
  }

  /** Deleting a model unregisters its child motion's stack and no other. */
  lemma DeletedModelStacks(r: Registry, m: ModelProxy)
    requires ChildResolves(r, m)
    ensures AfterDeleteModel(r, m).stacks == if m in r.children then r.stacks - {r.children[m]} else r.stacks
  {
    var deselected := if r.currentModel == m then SelectModel(r, null) else r;
    assert deselected.stacks == r.stacks && deselected.children == r.children;
    assert deselected.motionByUuid == r.motionByUuid;
    if m in r.children {
      var child := r.children[m];
      assert ChildOf(deselected, m) == child;
      var unlinked := WithoutMotion(deselected, child);
      assert unlinked.stacks == r.stacks - {child};
      assert AfterDeleteModel(r, m).stacks == WithoutModel(unlinked, m).stacks;
    } else {
      assert AfterDeleteModel(r, m).stacks == WithoutModel(deselected, m).stacks;
    }
  }

  /**
   * Deleting a model takes its first occurrence out of the list and clears the selection of
   * it; a registry with no current motion keeps none.
   */
  lemma DeletedModelSelection(r: Registry, m: ModelProxy)
    requires ChildResolves(r, m)
    ensures AfterDeleteModel(r, m).models == RemoveFirst(r.models, m)
    ensures AfterDeleteModel(r, m).currentModel == if r.currentModel == m then null else r.currentModel
    ensures r.currentMotion == null ==> AfterDeleteModel(r, m).currentMotion == null
  {
    var deselected := if r.currentModel == m then SelectModel(r, null) else r;
    assert deselected.models == r.models && deselected.children == r.children;
    assert deselected.currentModel == if r.currentModel == m then null else r.currentModel;
    if m in r.children {
      var unlinked := WithoutMotion(deselected, r.children[m]);
      assert unlinked.models == r.models && unlinked.currentModel == deselected.currentModel;
      assert AfterDeleteModel(r, m) == WithoutModel(unlinked, m);
    } else {
      assert AfterDeleteModel(r, m) == WithoutModel(deselected, m);
    }
  }

  /**
   * Deleting, in order, the models at the front of the list keeps the registry
   * consistent, leaves the rest of the list, and unregisters each deleted model's child
   * motion.
   */
  lemma {:induction false} ModelsDeleted(r: Registry, ms: seq<ModelProxy>, rest: seq<ModelProxy>)
    requires Consistent(r) && r.models == ms + rest
    ensures var d := AfterDeleteModels(r, ms);
      && Consistent(d)
      && d.models == rest
      && d.stacks.Keys <= r.stacks.Keys
      && d.currentModel == (if r.currentModel in ms then null else r.currentModel)
      && (r.currentMotion == null ==> d.currentMotion == null)
      && (forall m :: m in ms && m in r.children ==> r.children[m] !in d.stacks)
      && (forall n :: n in d.children ==> n in r.children && d.children[n] == r.children[n])
      && (forall n :: n in r.children && n !in ms ==> n in d.children)
  {
    if ms != [] {
      var n := |ms| - 1;
      var init, last := ms[..n], ms[n];
      assert ms == init + [last];
      assert r.models == init + ([last] + rest);
      DistinctParts(init, [last] + rest);
      ModelsDeleted(r, init, [last] + rest);
      var before := AfterDeleteModels(r, init);
      ModelDeleted(before, last);
      ListedChildResolves(before, last);
      DeletedModelChildren(before, last);
      DeletedModelStacks(before, last);
      DeletedModelSelection(before, last);
      var d := AfterDeleteModels(r, ms);
      assert d == AfterDeleteModel(before, last);
      assert RemoveFirst([last] + rest, last) == rest;
      forall m | m in ms && m in r.children ensures r.children[m] !in d.stacks {
        if m == last {
          assert last in before.children;
        } else {
          assert m in init;
          assert r.children[m] !in before.stacks;
        }
      }
      forall k | k in r.children && k !in ms ensures k in d.children {
        assert k in before.children;
      }
    }
  }

  /**
   * After deleting, in order, models at the front of the list, the next model is still
   * registered and the child motion its deletion removes is the child it had at the start.
   */
  lemma NextDeletion(r: Registry, init: seq<ModelProxy>, last: ModelProxy, rest: seq<ModelProxy>)
    requires Consistent(r) && r.models == init + ([last] + rest)
    ensures var before := AfterDeleteModels(r, init);
      && last.data in before.modelByInstance
      && DeletedChild(before, last) == ChildOf(r, last)
  {
    DistinctParts(init, [last] + rest);
    ModelsDeleted(r, init, [last] + rest);
    var before := AfterDeleteModels(r, init);
    assert last in before.models;
    if last in r.children {
      assert last in before.children;
    }
  }

  /** Deleting, in order, models at the front of the list finds every one of them registered. */
  lemma {:induction false} ListedModelsAreFound(r: Registry, ms: seq<ModelProxy>, rest: seq<ModelProxy>)
    requires Consistent(r) && r.models == ms + rest
    ensures false !in DeletionsFound(r, ms)
  {
    if ms != [] {
      var n := |ms| - 1;
      var init, last := ms[..n], ms[n];
      assert ms == init + [last];
      assert r.models == init + ([last] + rest);
      ListedModelsAreFound(r, init, [last] + rest);
      NextDeletion(r, init, last, rest);
    }
  }

  /** The child motions of the prefix models, as a set of motion instances. */
  ghost function ChildrenOf(r: Registry, ms: seq<ModelProxy>): set<Motion> {
    set m | m in ms && m in r.children :: r.children[m].data
  }

  /** The children of a list with one more model are those of the list and that model's child. */
  lemma ChildrenOfAppend(r: Registry, init: seq<ModelProxy>, last: ModelProxy)
    ensures ChildrenOf(r, init + [last]) == ChildrenOf(r, init) + (if last in r.children then {r.children[last].data} else {})
  {
  }

  /**
   * Deleting, in order, models at the front of the list deletes exactly the child motions
   * those models have.
   */
  lemma {:induction false} ChildMotionsOfDeleted(r: Registry, ms: seq<ModelProxy>, rest: seq<ModelProxy>)
    requires Consistent(r) && r.models == ms + rest
    ensures DeletedChildMotions(r, ms) == ChildrenOf(r, ms)
  {
    if ms != [] {
      var n := |ms| - 1;
      var init, last := ms[..n], ms[n];
      assert ms == init + [last];
      assert r.models == init + ([last] + rest);
      ChildMotionsOfDeleted(r, init, [last] + rest);
      NextDeletion(r, init, last, rest);
      ChildrenOfAppend(r, init, last);
    }
  }

  /**
   * release's loop over a consistent registry, after the reset: every deleteModel finds
   * its model, and the child motions deleted are exactly those of the models.
   */
  lemma ReleaseDeletesEveryChild(r: Registry)
    requires Consistent(r)
    ensures var reset := r.(currentModel := null, currentMotion := null, activeStack := null);
      && false !in DeletionsFound(reset, r.models)
      && DeletedChildMotions(reset, r.models) == set m | m in r.children :: r.children[m].data
  {
    var reset := r.(currentModel := null, currentMotion := null, activeStack := null);
    ResetIsConsistent(r);
    assert r.models == r.models + [];
    ListedModelsAreFound(reset, r.models, []);
    ChildMotionsOfDeleted(reset, r.models, []);
    ChildrenAreListed(r);
  }

  /** Clearing the selection keeps a registry consistent. */
  lemma ResetIsConsistent(r: Registry)
    requires Consistent(r)
    ensures Consistent(r.(currentModel := null, currentMotion := null, activeStack := null))
  {
  }

  /** Only listed models have child motions, so the children of the list are all the children. */
  lemma ChildrenAreListed(r: Registry)
    requires ChildLinks(r.children, r.parents, r.models, r.stacks)
    ensures ChildrenOf(r, r.models) == set m | m in r.children :: r.children[m].data
  {
  }

  /**
   * release leaves a consistent, empty registry: no model, no listed motion, nothing
   * selected or active, no child link, and no model's child motion still registered.
   */
  lemma ReleasedIsEmpty(r: Registry)
    requires Consistent(r)
    ensures var d := Released(r);
      && Consistent(d)
      && d.models == [] && d.motions == [] && d.modelByInstance == map[] && d.modelByUuid == map[]
      && d.children == map[] && d.currentModel == null && d.currentMotion == null && d.activeStack == null
      && d.stacks.Keys <= r.stacks.Keys
      && (forall m :: m in r.children ==> r.children[m] !in d.stacks)
  {
    var reset := r.(currentModel := null, currentMotion := null, activeStack := null);
    ModelsDeleted(reset, r.models, []);
    assert r.models + [] == r.models;
    var d := AfterDeleteModels(reset, r.models);
    assert d.modelByInstance == map[];
    assert d.modelByUuid == map[];
    assert d.children == map[];
    forall m | m in r.children ensures r.children[m] !in d.stacks {
      assert m in r.models;
    }
    EmptiedIsConsistent(d);
    assert Released(r) == d.(models := [], motions := []);
  }

  /** A consistent registry with no model and nothing selected stays consistent when its lists are cleared. */
  lemma EmptiedIsConsistent(d: Registry)
    requires Consistent(d) && d.models == [] && d.currentMotion == null && d.children == map[]
    ensures Consistent(d.(models := [], motions := []))
  {
  }

  // ---------------------------------------------------------------- deleting undoes adding

  /** What a consistent registry knows about a model proxy whose instance and UUID it has never seen. */
  ghost predicate UnseenModel(r: Registry, m: ModelProxy) {
    m !in r.models && m.data !in r.modelByInstance && m.uuid !in r.modelByUuid && m !in r.children && r.currentModel != m
  }

  /** What a consistent registry knows about a motion proxy whose instance, UUID and undo stack it has never seen. */
  ghost predicate UnseenMotion(r: Registry, p: MotionProxy) {
    && p !in r.motions && p !in r.stacks && p.data !in r.motionByInstance && p.uuid !in r.motionByUuid
    && p.data !in r.parents && r.currentMotion != p && r.activeStack != p.undoStack
  }

  lemma NewModelIsUnseen(r: Registry, m: ModelProxy)
    requires Consistent(r)
    requires m.data !in r.modelByInstance && m.uuid !in r.modelByUuid
    ensures UnseenModel(r, m)
  {
    assert m !in r.models;
  }

  lemma NewMotionIsUnseen(r: Registry, p: MotionProxy)
    requires Consistent(r)
    requires p !in r.stacks && p.data !in r.motionByInstance && p.uuid !in r.motionByUuid && p.data !in r.parents
    requires forall q :: q in r.stacks ==> q.undoStack != p.undoStack
    ensures UnseenMotion(r, p)
  {
    assert p !in r.motions;
  }

  /** Unregistering a motion proxy undoes registering it, when the registry had not seen it. */
  lemma UnseenMotionAddThenRemove(r: Registry, p: MotionProxy)
    requires UnseenMotion(r, p)
    ensures WithoutMotion(WithMotion(r, p), p) == r
  {
    RemoveFirstOfAppended(r.motions, p);
    MapAddThenRemove(r.stacks, p, p.undoStack);
    MapAddThenRemove(r.motionByInstance, p.data, p);
    MapAddThenRemove(r.motionByUuid, p.uuid, p);
  }

  /** deleteMotion of a motion proxy just created by createMotionProxy gives the registry back. */
  lemma MotionAddThenRemove(r: Registry, p: MotionProxy)
    requires Consistent(r)
    requires p !in r.stacks && p.data !in r.motionByInstance && p.uuid !in r.motionByUuid && p.data !in r.parents
    requires forall q :: q in r.stacks ==> q.undoStack != p.undoStack
    ensures WithoutMotion(WithMotion(r, p), p) == r
  {
    NewMotionIsUnseen(r, p);
    UnseenMotionAddThenRemove(r, p);
  }

  /** Deleting a child motion undoes creating it and linking it to a registered model without a child motion. */
  lemma UnseenChildAddThenRemove(r: Registry, m: ModelProxy, p: MotionProxy)
    requires UnseenMotion(r, p)
    requires m !in r.children && m.data in r.modelByInstance && r.modelByInstance[m.data] == m
    ensures WithoutMotion(WithChild(WithMotion(r, p), m, p), p) == r
  {
    var linked := WithChild(WithMotion(r, p), m, p);
    assert ParentOf(linked, p) == m;
    RemoveFirstOfAppended(r.motions, p);
    MapAddThenRemove(r.children, m, p);
    MapAddThenRemove(r.parents, p.data, m.data);
    MapAddThenRemove(r.stacks, p, p.undoStack);
    MapAddThenRemove(r.motionByInstance, p.data, p);
    MapAddThenRemove(r.motionByUuid, p.uuid, p);
  }

  /** Unregistering a model proxy undoes registering it, when the registry had not seen it. */
  lemma UnseenModelAddThenRemove(r: Registry, m: ModelProxy)
    requires UnseenModel(r, m)
    ensures WithoutModel(WithModel(r, m), m) == r
  {
    RemoveFirstOfAppended(r.models, m);
    MapAddThenRemove(r.modelByInstance, m.data, m);
    MapAddThenRemove(r.modelByUuid, m.uuid, m);
  }

  /** deleteModel undoes addModel on a registry that has seen neither the model nor its new child motion. */
  lemma UnseenModelAddThenDelete(r: Registry, m: ModelProxy, selected: bool, child: MotionProxy)
    requires UnseenModel(r, m) && UnseenMotion(r, child)
    ensures AfterDeleteModel(AfterAddModel(r, m, selected, child), m) == if selected then r.(currentModel := null) else r
  {
    var a := AfterAddModel(r, m, selected, child);
    var base := if selected then r.(currentModel := null) else r;
    var added := WithModel(base, m);
    var deselected := if a.currentModel == m then SelectModel(a, null) else a;
    assert deselected == WithChild(WithMotion(added, child), m, child);
    assert ChildOf(deselected, m) == child && child.uuid in deselected.motionByUuid;
    UnseenChildAddThenRemove(added, m, child);
    UnseenModelAddThenRemove(base, m);
    assert AfterDeleteModel(a, m) == WithoutModel(WithoutMotion(deselected, child), m);
  }

  /**
   * deleteModel of a model just added by addModel gives the registry back, except that a
   * model added as the current one leaves no model current.
   */
  lemma ModelAddThenDelete(r: Registry, m: ModelProxy, selected: bool, child: MotionProxy)
    requires Consistent(r)
    requires m.data !in r.modelByInstance && m.uuid !in r.modelByUuid
    requires child !in r.stacks && child.data !in r.motionByInstance && child.uuid !in r.motionByUuid
    requires child.data !in r.parents
    requires forall q :: q in r.stacks ==> q.undoStack != child.undoStack
    ensures AfterDeleteModel(AfterAddModel(r, m, selected, child), m) == if selected then r.(currentModel := null) else r
  {
    NewModelIsUnseen(r, m);
    NewMotionIsUnseen(r, child);
    UnseenModelAddThenDelete(r, m, selected, child);
  }
}
