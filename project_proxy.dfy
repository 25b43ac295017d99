/**
 * VPVM's ProjectProxy: the registry of the project's models and motions that the QML user
 * interface works with.  It keeps the list of model proxies and two hashes onto it (by
 * model instance and by UUID), the same for motion proxies plus the undo stack of each
 * motion, the current model and motion, the list of parent-binding candidates, and the
 * current time index.
 *
 * Model, motion and undo-stack objects are identities.  QUuid::createUuid is a parameter,
 * and the links a ModelProxy or MotionProxy keeps to other objects (its child motion, its
 * parent-binding model, a motion's parent model) are hashes of the registry here, because
 * ModelProxy and MotionProxy themselves are not part of this model.
 */
module Project {
  import opened Common
  import opened Util
  import opened ProjectObjects
  import opened ProjectRegistry

  /** An entry of availableParentBindingModels or availableParentBindingBones. */
  datatype BindingEntry = NullLabel | ModelEntry(model: ModelProxy) | BoneEntry(bone: BoneRefObject)

  /** ProjectProxy::LanguageType: the default language or another one. */
  datatype LanguageType = DefaultLanguage | OtherLanguage(code: nat)

  /** The message deleteModel leaves in errorString when it has nothing to delete. */
  const ModelNotFoundMessage := "Current model is not set or not found."

  // ---------------------------------------------------------------- parent-binding candidates

  /** Taking the keys B and then the keys C away from a map is taking both away. */
  lemma MapMinusUnion<K, V>(a: map<K, V>, b: set<K>, c: set<K>)
    ensures a - b - c == a - (b + c)
  {
  }

  /** Every model of the list except the current one, in list order. */
  function OtherModels(models: seq<ModelProxy>, current: ModelProxy?): (r: seq<BindingEntry>)
    ensures |r| <= |models|
    ensures forall i :: 0 <= i < |r| ==> r[i].ModelEntry? && r[i].model in models && r[i].model != current
  {
    if models == [] then []
    else
      var n := |models| - 1;
      OtherModels(models[..n], current) + (if models[n] != current then [ModelEntry(models[n])] else [])
  }

  /** availableParentBindingModels: the null label, then every model except the current one. */
  function ParentModelCandidates(models: seq<ModelProxy>, current: ModelProxy?): (r: seq<BindingEntry>)
    ensures |r| >= 1 && r[0] == NullLabel
  {
    [NullLabel] + OtherModels(models, current)
  }

  /** The bones of a model as binding entries, in order. */
  function BoneEntries(bones: seq<BoneRefObject>): (r: seq<BindingEntry>)
    ensures |r| == |bones|
    ensures forall i :: 0 <= i < |bones| ==> r[i] == BoneEntry(bones[i])
  {
    if bones == [] then [] else BoneEntries(bones[..|bones| - 1]) + [BoneEntry(bones[|bones| - 1])]
  }

  /** availableParentBindingBones for the model `current`: the null label, then the bones of its parent-binding model. */
  function BoneCandidates(bindings: map<ModelProxy, ModelProxy>, current: ModelProxy?): (r: seq<BindingEntry>)
    ensures |r| >= 1 && r[0] == NullLabel
    ensures current == null || current !in bindings ==> r == [NullLabel]
    ensures current != null && current in bindings ==> |r| == |bindings[current].bones| + 1
  {
    [NullLabel] + (if current != null && current in bindings then BoneEntries(bindings[current].bones) else [])
  }

  /** A model is a candidate exactly when it is in the list and is not the current model; the null label is not repeated. */
  lemma {:induction false} OtherModelsMembers(models: seq<ModelProxy>, current: ModelProxy?)
    ensures forall e :: e in OtherModels(models, current) <==> e.ModelEntry? && e.model in models && e.model != current
  {
    if models != [] {
      var n := |models| - 1;
      OtherModelsMembers(models[..n], current);
      assert models == models[..n] + [models[n]];
    }
  }

  /** With no current model in the list, the candidates are all models in list order. */
  lemma {:induction false} OtherModelsOfUnlistedCurrent(models: seq<ModelProxy>, current: ModelProxy?)
    requires current !in models
    ensures |OtherModels(models, current)| == |models|
    ensures forall i :: 0 <= i < |models| ==> OtherModels(models, current)[i] == ModelEntry(models[i])
  {
    if models != [] {
      var n := |models| - 1;
      assert current !in models[..n] by {
        assert forall i :: 0 <= i < n ==> models[..n][i] == models[i];
      }
      OtherModelsOfUnlistedCurrent(models[..n], current);
      var before := OtherModels(models[..n], current);
      var r := OtherModels(models, current);
      assert r == before + [ModelEntry(models[n])];
      forall i | 0 <= i < |models|
        ensures r[i] == ModelEntry(models[i])
      {
        if i < n {
          assert r[i] == before[i] && models[..n][i] == models[i];
        }
      }
    }
  }

  /**
   * With the current model at position k of a list without duplicates, the candidates are
   * the models before it followed by the models after it.
   */
  lemma {:induction false} OtherModelsSkipCurrent(models: seq<ModelProxy>, current: ModelProxy, k: nat)
    requires Distinct(models) && k < |models| && models[k] == current
    ensures |OtherModels(models, current)| == |models| - 1
    ensures forall i :: 0 <= i < k ==> OtherModels(models, current)[i] == ModelEntry(models[i])
    ensures forall i :: k <= i < |models| - 1 ==> OtherModels(models, current)[i] == ModelEntry(models[i + 1])
  {
    var n := |models| - 1;
    var prefix := models[..n];
    assert forall i :: 0 <= i < n ==> prefix[i] == models[i];
    assert models == prefix + [models[n]];
    DistinctAppend(prefix, models[n]);
    if k == n {
      OtherModelsOfUnlistedCurrent(prefix, current);
      assert OtherModels(models, current) == OtherModels(prefix, current) + [];
    } else {
      assert prefix[k] == current;
      OtherModelsSkipCurrent(prefix, current, k);
      var r := OtherModels(models, current);
      var before := OtherModels(prefix, current);
      assert r == before + [ModelEntry(models[n])];
      assert |r| == |before| + 1;
      forall i | 0 <= i < k ensures r[i] == ModelEntry(models[i]) {
        assert r[i] == before[i] == ModelEntry(prefix[i]);
      }
      forall i | k <= i < n ensures r[i] == ModelEntry(models[i + 1]) {
        if i < n - 1 {
          assert r[i] == before[i] == ModelEntry(prefix[i + 1]);
        }
      }
    }
  }

  // ---------------------------------------------------------------- bone reset

  /** ProjectProxy::ResetBoneType */
  datatype ResetBoneType =
    | TranslationAxisX | TranslationAxisY | TranslationAxisZ | TranslationAxisXYZ
    | Orientation | AllTranslationAndOrientation

  /** A bone's local translation and orientation. */
  datatype Pose = Pose(translation: QVector3D, orientation: QQuaternion)

  /** The pose resetBone gives a bone: the parts the reset type names come from the origin pose. */
  function ResetPose(current: Pose, origin: Pose, t: ResetBoneType): (r: Pose)
    ensures r.translation.x == if t in {TranslationAxisX, TranslationAxisXYZ, AllTranslationAndOrientation}
                               then origin.translation.x else current.translation.x
    ensures r.translation.y == if t in {TranslationAxisY, TranslationAxisXYZ, AllTranslationAndOrientation}
                               then origin.translation.y else current.translation.y
    ensures r.translation.z == if t in {TranslationAxisZ, TranslationAxisXYZ, AllTranslationAndOrientation}
                               then origin.translation.z else current.translation.z
    ensures r.orientation == if t in {Orientation, AllTranslationAndOrientation}
                             then origin.orientation else current.orientation
  {
    match t
    case TranslationAxisX => current.(translation := current.translation.(x := origin.translation.x))
    case TranslationAxisY => current.(translation := current.translation.(y := origin.translation.y))
    case TranslationAxisZ => current.(translation := current.translation.(z := origin.translation.z))
    case TranslationAxisXYZ => current.(translation := origin.translation)
    case Orientation => current.(orientation := origin.orientation)
    case AllTranslationAndOrientation => origin
  }

  /** A second reset of the same kind changes nothing. */
  lemma ResetIsIdempotent(current: Pose, origin: Pose, t: ResetBoneType)
    ensures ResetPose(ResetPose(current, origin, t), origin, t) == ResetPose(current, origin, t)
  {
  }

  /** Resetting X, then Y, then Z is resetting the whole translation; adding the orientation is resetting everything. */
  lemma ResetAxesCompose(current: Pose, origin: Pose)
    ensures ResetPose(ResetPose(ResetPose(current, origin, TranslationAxisX), origin, TranslationAxisY), origin, TranslationAxisZ)
            == ResetPose(current, origin, TranslationAxisXYZ)
    ensures ResetPose(ResetPose(current, origin, TranslationAxisXYZ), origin, Orientation)
            == ResetPose(current, origin, AllTranslationAndOrientation)
  {
  }

  /** static_cast<qint64> of a time index: truncation toward zero. */
  function TruncateTime(x: real): (r: int)
    ensures x >= 0.0 ==> 0 <= r && r as real <= x < r as real + 1.0
    ensures x < 0.0 ==> r <= 0 && r as real - 1.0 < x <= r as real
  {
    if x >= 0.0 then x.Floor else -((-x).Floor)
  }

  /** One call of MotionProxy::updateKeyframe: the bone's pose recorded at a time index in a motion. */
  datatype KeyframeUpdate = KeyframeUpdate(motion: MotionProxy, bone: BoneRefObject, timeIndex: int, pose: Pose)

  // ---------------------------------------------------------------- time arithmetic

  /** vpvl2's Scene::defaultFPS. */
  const DefaultFPS := 30.0

  /** ProjectProxy::differenceTimeIndex: the time left after `value`; 0 without a project. */
  function DifferenceTimeIndex(duration: Option<real>, value: real): (r: real)
    ensures r >= 0.0
    ensures duration.None? ==> r == 0.0
    ensures duration.Some? && value <= 0.0 ==> r == if duration.value > 0.0 then duration.value else 0.0
    ensures duration.Some? && 0.0 <= value <= duration.value ==> r == duration.value - value
    ensures duration.Some? && value >= duration.value ==> r == 0.0
  {
    match duration
    case None => 0.0
    case Some(d) =>
      var start := if value > 0.0 then value else 0.0;
      if d - start > 0.0 then d - start else 0.0
  }

  /** ProjectProxy::durationTimeIndex: the project's duration, never negative. */
  function DurationTimeIndex(duration: Option<real>): (r: real)
    ensures duration.None? ==> r == 0.0
    ensures duration.Some? ==> r == if duration.value > 0.0 then duration.value else 0.0
  {
    DifferenceTimeIndex(duration, 0.0)
  }

  /** The time left never exceeds the duration, and it shrinks as the time index grows. */
  lemma DifferenceIsBoundedAndAntitone(duration: Option<real>, a: real, b: real)
    requires a <= b
    ensures 0.0 <= DifferenceTimeIndex(duration, b) <= DifferenceTimeIndex(duration, a) <= DurationTimeIndex(duration)
  {
  }

  /** ProjectProxy::secondsFromTimeIndex */
  function SecondsFromTimeIndex(value: real): (r: real)
    ensures r * DefaultFPS == value
  {
    value / DefaultFPS
  }

  /** ProjectProxy::millisecondsFromTimeIndex: as written, the time index times the frame rate. */
  function MillisecondsFromTimeIndex(value: real): (r: real)
    ensures SecondsFromTimeIndex(r) == value
  {
    value * DefaultFPS
  }

  /** ProjectProxy::differenceDuration and durationMilliseconds. */
  function DifferenceDuration(duration: Option<real>, value: real): (r: real)
    ensures r >= 0.0
    ensures SecondsFromTimeIndex(r) == DifferenceTimeIndex(duration, value)
  {
    MillisecondsFromTimeIndex(DifferenceTimeIndex(duration, value))
  }

  /** qFuzzyCompare for doubles: |p - q| * 10^12 <= min(|p|, |q|). */
  predicate FuzzyCompare(p: real, q: real): (r: bool)
    ensures r ==> (p == 0.0 <==> q == 0.0) && (p > 0.0 <==> q > 0.0)
  {
    var ap := if p >= 0.0 then p else -p;
    var aq := if q >= 0.0 then q else -q;
    var d := if p - q >= 0.0 then p - q else q - p;
    d * 1_000_000_000_000.0 <= (if ap <= aq then ap else aq)
  }

  /** A time index compares fuzzily equal to itself, and to 0 only when it is 0: seeking away from 0 always seeks. */
  lemma FuzzyCompareFacts(p: real)
    ensures FuzzyCompare(p, p)
    ensures FuzzyCompare(0.0, p) <==> p == 0.0
  {
  }

  /** The comparison does not depend on the order of its arguments. */
  lemma FuzzyCompareIsSymmetric(p: real, q: real)
    ensures FuzzyCompare(p, q) <==> FuzzyCompare(q, p)
  {
  }

  // ---------------------------------------------------------------- the registry

  /** The undo stacks a nullable stack stands for. */
  function StackSet(stack: UndoStack?): set<UndoStack> {
    if stack == null then {} else {stack}
  }

  class ProjectProxy {
    /** m_modelProxies */
    var modelProxies: seq<ModelProxy>
    /** m_instance2ModelProxyRefs */
    var instance2ModelProxy: map<Model, ModelProxy>
    /** m_uuid2ModelProxyRefs */
    var uuid2ModelProxy: map<Uuid, ModelProxy>
    /** m_motionProxies */
    var motionProxies: seq<MotionProxy>
    /** m_motion2UndoStacks */
    var motion2UndoStack: map<MotionProxy, UndoStack>
    /** m_instance2MotionProxyRefs */
    var instance2MotionProxy: map<Motion, MotionProxy>
    /** m_uuid2MotionProxyRefs */
    var uuid2MotionProxy: map<Uuid, MotionProxy>
    /** ModelProxy::childMotion of each model proxy that has one. */
    var childMotion: map<ModelProxy, MotionProxy>
    /** IMotion::parentModelRef of each motion instance that has one. */
    var parentModelRef: map<Motion, Model>
    /** ModelProxy::parentBindingModel of each model proxy that has one. */
    var parentBinding: map<ModelProxy, ModelProxy>
    /** The stacks of m_undoGroup and its active stack. */
    var undoStacks: set<UndoStack>
    var activeStack: UndoStack?
    /** The motions the XMLProject holds, with the UUID each was added under. */
    var projectMotions: map<Motion, Uuid>
    /** The XMLProject's dirty flag and global settings. */
    var dirty: bool
    var globalSettings: map<string, string>
    /** m_currentModelRef, m_currentMotionRef, m_currentTimeIndex, m_title, m_language, m_errorString */
    var currentModel: ModelProxy?
    var currentMotion: MotionProxy?
    var currentTimeIndex: real
    var title: string
    var language: LanguageType
    var errorString: string
    /** m_parentModelProxyRefs and m_parentModelBoneRefs */
    var parentModelCandidates: seq<BindingEntry>
    var parentBoneCandidates: seq<BindingEntry>

    constructor ()
      ensures Valid()
      ensures State() == EmptyRegistry()
      ensures parentBinding == map[] && undoStacks == {} && projectMotions == map[] && !dirty
      ensures currentTimeIndex == 0.0 && language == DefaultLanguage && title == "" && errorString == ""
      ensures parentModelCandidates == [] && parentBoneCandidates == [] && globalSettings == map[]
    {
      modelProxies := [];
      instance2ModelProxy := map[];
      uuid2ModelProxy := map[];
      motionProxies := [];
      motion2UndoStack := map[];
      instance2MotionProxy := map[];
      uuid2MotionProxy := map[];
      childMotion := map[];
      parentModelRef := map[];
      parentBinding := map[];
      undoStacks := {};
      activeStack := null;
      projectMotions := map[];
      dirty := false;
      globalSettings := map[];
      currentModel := null;
      currentMotion := null;
      currentTimeIndex := 0.0;
      title := "";
      language := DefaultLanguage;
      errorString := "";
      parentModelCandidates := [];
      parentBoneCandidates := [];
      EmptyIsConsistent();
    }

    /** The registry part of this object's state. */
    function State(): Registry
      reads this`modelProxies, this`instance2ModelProxy, this`uuid2ModelProxy, this`motionProxies
      reads this`motion2UndoStack, this`instance2MotionProxy, this`uuid2MotionProxy, this`childMotion
      reads this`parentModelRef, this`currentModel, this`currentMotion, this`activeStack
    {
      Registry(modelProxies, instance2ModelProxy, uuid2ModelProxy, motionProxies, motion2UndoStack,
               instance2MotionProxy, uuid2MotionProxy, childMotion, parentModelRef,
               currentModel, currentMotion, activeStack)
    }

    /** The registry is consistent. */
    ghost predicate Valid()
      reads this
    {
      Consistent(State())
    }

    /** The candidate lists are those updateParentBindingModel builds for `current` over the model list `models`. */
    predicate CandidatesFor(models: seq<ModelProxy>, current: ModelProxy?)
      reads this`parentModelCandidates, this`parentBoneCandidates, this`parentBinding
    {
      parentModelCandidates == ParentModelCandidates(models, current) && parentBoneCandidates == BoneCandidates(parentBinding, current)
    }

    /** ProjectProxy::findModel: the proxy registered under the UUID, or null. */
    function FindModel(uuid: Uuid): (r: ModelProxy?)
      reads this
      ensures r == null <==> uuid !in uuid2ModelProxy
      ensures r != null ==> uuid2ModelProxy[uuid] == r
      ensures Valid() && r != null ==> r in modelProxies && r.uuid == uuid
    {
      if uuid in uuid2ModelProxy then uuid2ModelProxy[uuid] else null
    }

    /** ProjectProxy::findMotion: the proxy registered under the UUID, or null. */
    function FindMotion(uuid: Uuid): (r: MotionProxy?)
      reads this
      ensures r == null <==> uuid !in uuid2MotionProxy
      ensures r != null ==> uuid2MotionProxy[uuid] == r
      ensures Valid() && r != null ==> r in motion2UndoStack && r.uuid == uuid
    {
      if uuid in uuid2MotionProxy then uuid2MotionProxy[uuid] else null
    }

    /** ProjectProxy::resolveModelProxy: the proxy of a model instance, or null. */
    function ResolveModelProxy(value: Model?): (r: ModelProxy?)
      reads this
      ensures r == null <==> value == null || value !in instance2ModelProxy
      ensures r != null ==> instance2ModelProxy[value] == r
      ensures Valid() && r != null ==> r in modelProxies && r.data == value
    {
      if value != null && value in instance2ModelProxy then instance2ModelProxy[value] else null
    }

    /** ProjectProxy::resolveMotionProxy: the proxy of a motion instance, or null. */
    function ResolveMotionProxy(value: Motion?): (r: MotionProxy?)
      reads this
      ensures r == null <==> value == null || value !in instance2MotionProxy
      ensures r != null ==> instance2MotionProxy[value] == r
      ensures Valid() && r != null ==> r in motion2UndoStack && r.data == value
    {
      if value != null && value in instance2MotionProxy then instance2MotionProxy[value] else null
    }

    /** ProjectProxy::setDirty */
    method SetDirty(value: bool)
      modifies this`dirty
      ensures dirty == value
    {
      if dirty != value {
        dirty := value;
      }
    }

    /** ProjectProxy::setTitle: the title and the project's "title" setting change only for a different title. */
    method SetTitle(value: string)
      modifies this`title, this`globalSettings
      ensures title == value
      ensures globalSettings == if value == old(title) then old(globalSettings) else old(globalSettings)["title" := value]
    {
      if value != title {
        globalSettings := globalSettings["title" := value];
        title := value;
      }
    }

    /** ProjectProxy::setErrorString */
    method SetErrorString(value: string)
      modifies this`errorString
      ensures errorString == value
    {
      if errorString != value {
        errorString := value;
      }
    }

    /**
     * ProjectProxy::setLanguage as written: it assigns the parameter instead of the member,
     * so the language never changes although languageChanged is emitted for a different one.
     */
    method SetLanguageAsWritten(value: LanguageType) returns (languageChanged: bool)
      ensures languageChanged <==> value != language
    {
      languageChanged := false;
      var v := value;
      if v != language {
        v := language;
        languageChanged := true;
      }
    }

    /** setLanguage as evidently intended: the member takes the new value, and the signal fires on a change. */
    method SetLanguage(value: LanguageType) returns (languageChanged: bool)
      modifies this`language
      ensures language == value
      ensures languageChanged <==> value != old(language)
    {
      languageChanged := false;
      if value != language {
        language := value;
        languageChanged := true;
      }
    }

    /**
     * ProjectProxy::updateParentBindingModel, run whenever the current model changes: the
     * model candidates are the null label and every other model, the bone candidates the
     * null label and the bones of the current model's parent-binding model.
     */
    method UpdateParentBindingModel()
      modifies this`parentModelCandidates, this`parentBoneCandidates
      ensures parentModelCandidates == ParentModelCandidates(modelProxies, currentModel)
      ensures parentBoneCandidates == BoneCandidates(parentBinding, currentModel)
    {
      var candidates := [NullLabel];
      for i := 0 to |modelProxies|
        invariant candidates == [NullLabel] + OtherModels(modelProxies[..i], currentModel)
      {
        if modelProxies[i] != currentModel {
          candidates := candidates + [ModelEntry(modelProxies[i])];
        }
        assert modelProxies[..i + 1][..i] == modelProxies[..i];
      }
      assert modelProxies[..|modelProxies|] == modelProxies;
      parentModelCandidates := candidates;
      var bones := [NullLabel];
      if currentModel != null && currentModel in parentBinding {
        var parent := parentBinding[currentModel];
        for i := 0 to |parent.bones|
          invariant bones == [NullLabel] + BoneEntries(parent.bones[..i])
        {
          bones := bones + [BoneEntry(parent.bones[i])];
          assert parent.bones[..i + 1][..i] == parent.bones[..i];
        }
        assert parent.bones[..|parent.bones|] == parent.bones;
      }
      parentBoneCandidates := bones;
    }

    /**
     * ProjectProxy::setCurrentModel: a different model becomes current and the candidate
     * lists are rebuilt for it (currentModelChanged is connected to updateParentBindingModel).
     */
    method SetCurrentModel(value: ModelProxy?)
      modifies this`currentModel, this`parentModelCandidates, this`parentBoneCandidates
      ensures State() == SelectModel(old(State()), value)
      ensures value != old(currentModel) ==> CandidatesFor(modelProxies, value)
      ensures value == old(currentModel) ==>
        parentModelCandidates == old(parentModelCandidates) && parentBoneCandidates == old(parentBoneCandidates)
    {
      if value != currentModel {
        currentModel := value;
        UpdateParentBindingModel();
      }
    }

    /** ProjectProxy::setCurrentMotion: a different motion becomes current and its undo stack (or none) active. */
    method SetCurrentMotion(value: MotionProxy?)
      modifies this`currentMotion, this`activeStack
      ensures State() == SelectMotion(old(State()), value)
    {
      if value != currentMotion {
        activeStack := StackIn(State(), value);
        currentMotion := value;
      }
    }

    /**
     * ProjectProxy::createMotionProxy.  A null or already registered motion gives null and
     * changes nothing.  Otherwise a fresh proxy with a fresh undo stack is appended to the
     * list and registered by proxy, instance and UUID, its stack joins the undo group, and
     * the project records the motion and becomes dirty.
     */
    method CreateMotionProxy(motion: Motion?, uuid: Uuid, fileUrl: string) returns (proxy: MotionProxy?)
      modifies this`dirty, this`undoStacks, this`projectMotions, this`motionProxies, this`motion2UndoStack
      modifies this`instance2MotionProxy, this`uuid2MotionProxy
      ensures proxy == null <==> motion == null || motion in old(instance2MotionProxy)
      ensures proxy == null ==> unchanged(this)
      ensures proxy != null ==>
        fresh(proxy) && fresh(proxy.undoStack) && proxy.data == motion && proxy.uuid == uuid && proxy.fileUrl == fileUrl
      ensures proxy != null ==>
        && State() == WithMotion(old(State()), proxy)
        && undoStacks == old(undoStacks) + {proxy.undoStack}
        && projectMotions == old(projectMotions)[motion := uuid]
        && dirty
    {
      proxy := null;
      if motion != null && ResolveMotionProxy(motion) == null {
        var undoStack := new UndoStack();
        var created := new MotionProxy(motion, uuid, fileUrl, undoStack);
        SetDirty(true);
        undoStacks := undoStacks + {undoStack};
        projectMotions := projectMotions[motion := uuid];
        RegisterMotion(created);
        proxy := created;
      }
    }

    /** The registration part of createMotionProxy: the list, the undo-stack hash and both hashes gain the proxy. */
    method RegisterMotion(created: MotionProxy)
      modifies this`motionProxies, this`motion2UndoStack, this`instance2MotionProxy, this`uuid2MotionProxy
      ensures State() == WithMotion(old(State()), created)
    {
      motionProxies, motion2UndoStack := motionProxies + [created], motion2UndoStack[created := created.undoStack];
      instance2MotionProxy, uuid2MotionProxy := instance2MotionProxy[created.data := created], uuid2MotionProxy[created.uuid := created];
    }

    /**
     * ProjectProxy::deleteMotion.  Nothing happens unless the proxy's UUID is registered.
     * Otherwise the motion stops being current, the parent model it resolves to loses it as
     * child motion, its undo stack leaves the undo group (and stops being active), and it
     * is removed from the undo-stack hash, the list, both hashes and the project.
     */
    method DeleteMotion(value: MotionProxy?)
      modifies this`currentMotion, this`activeStack, this`childMotion, this`parentModelRef, this`undoStacks
      modifies this`motion2UndoStack, this`motionProxies, this`instance2MotionProxy, this`uuid2MotionProxy
      modifies this`projectMotions
      ensures value == null || value.uuid !in old(uuid2MotionProxy) ==> unchanged(this) && State() == old(State())
      ensures value != null && value.uuid in old(uuid2MotionProxy) ==>
        && State() == WithoutMotion(old(State()), value)
        && undoStacks == old(undoStacks) - StackSet(old(StackIn(State(), value)))
        && projectMotions == old(projectMotions) - {value.data}
    {
      if value != null && value.uuid in uuid2MotionProxy {
        ghost var before := State();
        var parent := ParentOf(State(), value);
        var stack := StackIn(State(), value);
        ghost var stacks, motions := undoStacks, projectMotions;
        DeselectMotion(value);
        UnlinkChild(parent, value.data);
        assert undoStacks == stacks && projectMotions == motions;
        RemoveStack(stack);
        assert projectMotions == motions;
        UnregisterMotion(value);
        RemoveProjectMotion(value.data);
        WithoutMotionSteps(before, value);
      }
    }

    /** The first step of deleteMotion: a current motion is replaced by none. */
    method DeselectMotion(value: MotionProxy)
      modifies this`currentMotion, this`activeStack
      ensures State() == Deselected(old(State()), value)
    {
      if currentMotion == value {
        SetCurrentMotion(null);
      }
    }

    /** QUndoGroup::removeStack: the stack leaves the group, and is no longer active if it was. */
    method RemoveStack(stack: UndoStack?)
      modifies this`undoStacks, this`activeStack
      ensures undoStacks == old(undoStacks) - StackSet(stack)
      ensures State() == StackDropped(old(State()), stack)
    {
      if stack != null {
        undoStacks := undoStacks - {stack};
        if activeStack == stack {
          activeStack := null;
        }
      }
    }

    /** ModelProxy::setChildMotion(0) and IMotion::setParentModelRef(0): the model and the motion forget each other. */
    method UnlinkChild(parent: ModelProxy?, motion: Motion)
      modifies this`childMotion, this`parentModelRef
      ensures State() == Unlinked(old(State()), parent, motion)
    {
      if parent != null {
        childMotion, parentModelRef := childMotion - {parent}, parentModelRef - {motion};
      }
    }

    /** XMLProject::removeMotion */
    method RemoveProjectMotion(motion: Motion)
      modifies this`projectMotions
      ensures projectMotions == old(projectMotions) - {motion}
    {
      projectMotions := projectMotions - {motion};
    }

    /** The unregistration part of deleteMotion: the proxy leaves the undo-stack hash, the list and both hashes. */
    method UnregisterMotion(removed: MotionProxy)
      modifies this`motionProxies, this`motion2UndoStack, this`instance2MotionProxy, this`uuid2MotionProxy
      ensures State() == Unregistered(old(State()), removed)
    {
      motionProxies, motion2UndoStack := RemoveFirst(motionProxies, removed), motion2UndoStack - {removed};
      instance2MotionProxy, uuid2MotionProxy := instance2MotionProxy - {removed.data}, uuid2MotionProxy - {removed.uuid};
    }
  
    /** The registration part of addModel: the proxy is appended to the list and registered by instance and UUID. */
    method RegisterModel(value: ModelProxy)
      modifies this`modelProxies, this`instance2ModelProxy, this`uuid2ModelProxy
      ensures State() == WithModel(old(State()), value)
    {
      modelProxies := modelProxies + [value];
      instance2ModelProxy, uuid2ModelProxy := instance2ModelProxy[value.data := value], uuid2ModelProxy[value.uuid := value];
    }

    /** ModelProxy::setChildMotion, with the motion created for the model as its parent model reference. */
    method LinkChild(model: ModelProxy, child: MotionProxy)
      modifies this`childMotion, this`parentModelRef
      ensures State() == WithChild(old(State()), model, child)
    {
      childMotion, parentModelRef := childMotion[model := child], parentModelRef[child.data := model.data];
    }

    /** The first part of addModel: the proxy is registered, made current when `selected`, and the project becomes dirty. */
    method RegisterAndSelectModel(value: ModelProxy, selected: bool)
      modifies this`modelProxies, this`instance2ModelProxy, this`uuid2ModelProxy, this`currentModel
      modifies this`parentModelCandidates, this`parentBoneCandidates, this`dirty
      ensures State() == if selected then SelectModel(WithModel(old(State()), value), value) else WithModel(old(State()), value)
      ensures dirty
      ensures selected && value != old(currentModel) ==> CandidatesFor(old(modelProxies) + [value], value)
      ensures !(selected && value != old(currentModel)) ==>
        parentModelCandidates == old(parentModelCandidates) && parentBoneCandidates == old(parentBoneCandidates)
    {
      RegisterModel(value);
      if selected {
        SetCurrentModel(value);
      }
      SetDirty(true);
    }

    /**
     * The last part of addModel: a fresh initial motion for the model, under the UUID `uuid`
     * and with no file, is created and becomes the model's child motion.
     */
    method CreateChildMotion(model: ModelProxy, uuid: Uuid) returns (child: MotionProxy)
      modifies this`dirty, this`undoStacks, this`projectMotions, this`motionProxies, this`motion2UndoStack
      modifies this`instance2MotionProxy, this`uuid2MotionProxy, this`childMotion, this`parentModelRef
      ensures State() == WithChild(WithMotion(old(State()), child), model, child)
      ensures fresh(child) && fresh(child.data) && fresh(child.undoStack)
      ensures child.uuid == uuid && child.fileUrl == ""
      ensures undoStacks == old(undoStacks) + {child.undoStack} && projectMotions == old(projectMotions)[child.data := uuid]
      ensures dirty
    {
      var motion := new Motion();
      var created := CreateMotionProxy(motion, uuid, "");
      assert created != null;
      child := created;
      LinkChild(model, child);
    }

    /**
     * ProjectProxy::addModel.  The proxy is registered, made current when `selected`, and
     * the project becomes dirty; then a fresh initial motion for the model (under the UUID
     * `motionUuid`, with no file) is created and becomes the model's child motion.
     */
    method AddModel(value: ModelProxy, selected: bool, motionUuid: Uuid) returns (child: MotionProxy)
      modifies this`modelProxies, this`instance2ModelProxy, this`uuid2ModelProxy, this`currentModel
      modifies this`parentModelCandidates, this`parentBoneCandidates, this`dirty, this`undoStacks, this`projectMotions
      modifies this`motionProxies, this`motion2UndoStack, this`instance2MotionProxy, this`uuid2MotionProxy
      modifies this`childMotion, this`parentModelRef
      ensures State() == AfterAddModel(old(State()), value, selected, child)
      ensures fresh(child) && fresh(child.data) && fresh(child.undoStack)
      ensures child.uuid == motionUuid && child.fileUrl == ""
      ensures undoStacks == old(undoStacks) + {child.undoStack} && projectMotions == old(projectMotions)[child.data := motionUuid]
      ensures dirty
      ensures selected && value != old(currentModel) ==> CandidatesFor(old(modelProxies) + [value], value)
      ensures !(selected && value != old(currentModel)) ==>
        parentModelCandidates == old(parentModelCandidates) && parentBoneCandidates == old(parentBoneCandidates)
    {
      RegisterAndSelectModel(value, selected);
      child := CreateChildMotion(value, motionUuid);
    }

    /** ProjectProxy::setCurrentModel(0) when the model being deleted is current. */
    method DeselectModel(value: ModelProxy)
      modifies this`currentModel, this`parentModelCandidates, this`parentBoneCandidates
      ensures State() == SelectModel(old(State()), if old(currentModel) == value then null else old(currentModel))
      ensures old(currentModel) == value ==>
        parentModelCandidates == ParentModelCandidates(modelProxies, null) && parentBoneCandidates == [NullLabel]
      ensures old(currentModel) != value ==>
        parentModelCandidates == old(parentModelCandidates) && parentBoneCandidates == old(parentBoneCandidates)
    {
      if currentModel == value {
        SetCurrentModel(null);
      }
    }

    /** The unregistration part of deleteModel: the project becomes dirty and the proxy leaves the list and both hashes. */
    method UnregisterModel(value: ModelProxy)
      modifies this`modelProxies, this`instance2ModelProxy, this`uuid2ModelProxy, this`dirty
      ensures State() == WithoutModel(old(State()), value) && dirty
    {
      SetDirty(true);
      modelProxies := RemoveFirst(modelProxies, value);
      instance2ModelProxy, uuid2ModelProxy := instance2ModelProxy - {value.data}, uuid2ModelProxy - {value.uuid};
    }

    /** The step of deleteModel that deletes the model's child motion, when it has a registered one. */
    method DeleteChildMotion(value: ModelProxy)
      modifies this`undoStacks, this`projectMotions, this`motionProxies, this`motion2UndoStack, this`instance2MotionProxy
      modifies this`uuid2MotionProxy, this`childMotion, this`parentModelRef, this`currentMotion, this`activeStack
      ensures var c := DeletedChild(old(State()), value);
        && State() == (if c == null then old(State()) else WithoutMotion(old(State()), c))
        && undoStacks == old(undoStacks) - (if c == null then {} else StackSet(StackIn(old(State()), c)))
        && projectMotions == (if c == null then old(projectMotions) else old(projectMotions) - {c.data})
      ensures parentModelCandidates == old(parentModelCandidates) && parentBoneCandidates == old(parentBoneCandidates)
    {
      var child := ChildOf(State(), value);
      DeleteMotion(child);
    }

    /**
     * The part of deleteModel after the deselection of `value` from the registry `start`:
     * the child motion is deleted, then the proxy unregistered.
     */
    method RemoveModel(value: ModelProxy, ghost start: Registry)
      requires value.data in start.modelByInstance
      requires State() == SelectModel(start, if start.currentModel == value then null else start.currentModel)
      modifies this`modelProxies, this`instance2ModelProxy, this`uuid2ModelProxy, this`dirty, this`undoStacks
      modifies this`projectMotions, this`motionProxies, this`motion2UndoStack, this`instance2MotionProxy
      modifies this`uuid2MotionProxy, this`childMotion, this`parentModelRef, this`currentMotion, this`activeStack
      ensures State() == AfterDeleteModel(start, value) && dirty
      ensures var c := DeletedChild(start, value);
        undoStacks == old(undoStacks) - (if c == null then {} else StackSet(StackIn(start, c)))
      ensures projectMotions == old(projectMotions) - DeletedChildData(start, value)
      ensures parentModelCandidates == old(parentModelCandidates) && parentBoneCandidates == old(parentBoneCandidates)
    {
      DeleteChildMotion(value);
      UnregisterModel(value);
      DeleteModelSteps(start, value);
    }

    /** The branch of deleteModel for a registered proxy: it is deselected if current, then removed. */
    method DeleteRegisteredModel(value: ModelProxy)
      requires value.data in instance2ModelProxy
      modifies this`modelProxies, this`instance2ModelProxy, this`uuid2ModelProxy, this`currentModel
      modifies this`parentModelCandidates, this`parentBoneCandidates, this`dirty, this`undoStacks, this`projectMotions
      modifies this`motionProxies, this`motion2UndoStack, this`instance2MotionProxy, this`uuid2MotionProxy
      modifies this`childMotion, this`parentModelRef, this`currentMotion, this`activeStack
      ensures State() == AfterDeleteModel(old(State()), value) && dirty
      ensures var c := DeletedChild(old(State()), value);
        undoStacks == old(undoStacks) - (if c == null then {} else StackSet(StackIn(old(State()), c)))
      ensures projectMotions == old(projectMotions) - DeletedChildData(old(State()), value)
      ensures old(currentModel) == value ==>
        parentModelCandidates == ParentModelCandidates(old(modelProxies), null) && parentBoneCandidates == [NullLabel]
      ensures old(currentModel) != value ==>
        parentModelCandidates == old(parentModelCandidates) && parentBoneCandidates == old(parentBoneCandidates)
    {
      ghost var start := State();
      DeselectModel(value);
      RemoveModel(value, start);
    }

    /**
     * ProjectProxy::deleteModel.  An unregistered (or null) proxy only sets the error
     * string.  Otherwise the model stops being current, its child motion is deleted, the
     * project becomes dirty, and the proxy leaves the list and both hashes.  The parent
     * candidates are rebuilt only by the deselection, so they still list the deleted model.
     */
    method DeleteModel(value: ModelProxy?) returns (ok: bool)
      modifies this`modelProxies, this`instance2ModelProxy, this`uuid2ModelProxy, this`currentModel
      modifies this`parentModelCandidates, this`parentBoneCandidates, this`dirty, this`undoStacks, this`projectMotions
      modifies this`motionProxies, this`motion2UndoStack, this`instance2MotionProxy, this`uuid2MotionProxy
      modifies this`childMotion, this`parentModelRef, this`currentMotion, this`activeStack, this`errorString
      ensures ok <==> value != null && value.data in old(instance2ModelProxy)
      ensures !ok ==> errorString == ModelNotFoundMessage && State() == old(State()) && dirty == old(dirty)
      ensures !ok ==> undoStacks == old(undoStacks) && projectMotions == old(projectMotions)
      ensures ok ==> State() == AfterDeleteModel(old(State()), value) && dirty && errorString == old(errorString)
      ensures ok ==> var c := DeletedChild(old(State()), value);
        undoStacks == old(undoStacks) - (if c == null then {} else StackSet(StackIn(old(State()), c)))
      ensures value != null ==> projectMotions == old(projectMotions) - DeletedChildData(old(State()), value)
      ensures ok && old(currentModel) == value ==>
        parentModelCandidates == ParentModelCandidates(old(modelProxies), null) && parentBoneCandidates == [NullLabel]
      ensures !(ok && old(currentModel) == value) ==>
        parentModelCandidates == old(parentModelCandidates) && parentBoneCandidates == old(parentBoneCandidates)
    {
      if value != null && value.data in instance2ModelProxy {
        DeleteRegisteredModel(value);
        ok := true;
      } else {
        SetErrorString(ModelNotFoundMessage);
        assert value != null ==> projectMotions == projectMotions - DeletedChildData(State(), value);
        ok := false;
      }
    }

    /** ProjectProxy::reset: the time index returns to 0 and neither a model nor a motion is current. */
    method Reset()
      modifies this`currentTimeIndex, this`currentModel, this`parentModelCandidates, this`parentBoneCandidates
      modifies this`currentMotion, this`activeStack
      ensures currentTimeIndex == 0.0
      ensures State() == SelectMotion(SelectModel(old(State()), null), null)
      ensures State().currentModel == null && State().currentMotion == null
      ensures old(currentModel) != null ==> CandidatesFor(modelProxies, null)
      ensures old(currentModel) == null ==>
        parentModelCandidates == old(parentModelCandidates) && parentBoneCandidates == old(parentBoneCandidates)
    {
      currentTimeIndex := 0.0;
      SetCurrentModel(null);
      SetCurrentMotion(null);
    }

    /** The new QUndoGroup of release: no stacks and none active. */
    method ResetUndoGroup()
      modifies this`undoStacks, this`activeStack
      ensures undoStacks == {}
      ensures State() == old(State()).(activeStack := null)
    {
      undoStacks, activeStack := {}, null;
    }

    /** The start of release: reset, then a new undo group. */
    method ResetForRelease()
      modifies this`currentTimeIndex, this`currentModel, this`parentModelCandidates, this`parentBoneCandidates
      modifies this`currentMotion, this`activeStack, this`undoStacks
      ensures State() == old(State()).(currentModel := null, currentMotion := null, activeStack := null)
      ensures currentTimeIndex == 0.0 && undoStacks == {}
      ensures old(currentModel) != null ==>
        parentModelCandidates == ParentModelCandidates(old(modelProxies), null) && parentBoneCandidates == [NullLabel]
      ensures old(currentModel) == null ==>
        parentModelCandidates == old(parentModelCandidates) && parentBoneCandidates == old(parentBoneCandidates)
    {
      Reset();
      ResetUndoGroup();
    }

    /** The end of release: both lists are cleared. */
    method ClearLists()
      modifies this`modelProxies, this`motionProxies
      ensures State() == old(State()).(models := [], motions := [])
    {
      modelProxies, motionProxies := [], [];
    }

    /**
     * The loop of release: deleteModel on each proxy of `copy` in turn.  The project is
     * dirty once one deletion finds its model; a deletion that does not leaves the error
     * message; the child motions deleted leave the project.
     */
    method DeleteModels(copy: seq<ModelProxy>)
      modifies this`modelProxies, this`instance2ModelProxy, this`uuid2ModelProxy, this`currentModel
      modifies this`parentModelCandidates, this`parentBoneCandidates, this`dirty, this`undoStacks, this`projectMotions
      modifies this`motionProxies, this`motion2UndoStack, this`instance2MotionProxy, this`uuid2MotionProxy
      modifies this`childMotion, this`parentModelRef, this`currentMotion, this`activeStack, this`errorString
      ensures State() == AfterDeleteModels(old(State()), copy)
      ensures undoStacks <= old(undoStacks)
      ensures dirty == (old(dirty) || true in DeletionsFound(old(State()), copy))
      ensures errorString == if false in DeletionsFound(old(State()), copy) then ModelNotFoundMessage else old(errorString)
      ensures projectMotions == old(projectMotions) - DeletedChildMotions(old(State()), copy)
      ensures old(currentModel) == null ==>
        parentModelCandidates == old(parentModelCandidates) && parentBoneCandidates == old(parentBoneCandidates)
    {
      ghost var start := State();
      for i := 0 to |copy|
        invariant State() == AfterDeleteModels(start, copy[..i])
        invariant undoStacks <= old(undoStacks)
        invariant dirty == (old(dirty) || true in DeletionsFound(start, copy[..i]))
        invariant errorString == if false in DeletionsFound(start, copy[..i]) then ModelNotFoundMessage else old(errorString)
        invariant projectMotions == old(projectMotions) - DeletedChildMotions(start, copy[..i])
        invariant old(currentModel) == null ==>
          parentModelCandidates == old(parentModelCandidates) && parentBoneCandidates == old(parentBoneCandidates)
      {
        DeletionStep(start, copy, i);
        MapMinusUnion(old(projectMotions), DeletedChildMotions(start, copy[..i]), DeletedChildData(State(), copy[i]));
        var _ := DeleteModel(copy[i]);
      }
      assert copy[..|copy|] == copy;
    }

    /**
     * The steps of ProjectProxy::release: after reset and a new undo group, every model of a
     * copy of the list is deleted in list order, and both lists are cleared.
     */
    method ReleaseRegistry()
      modifies this`modelProxies, this`instance2ModelProxy, this`uuid2ModelProxy, this`currentModel
      modifies this`parentModelCandidates, this`parentBoneCandidates, this`dirty, this`undoStacks, this`projectMotions
      modifies this`motionProxies, this`motion2UndoStack, this`instance2MotionProxy, this`uuid2MotionProxy
      modifies this`childMotion, this`parentModelRef, this`currentMotion, this`activeStack, this`errorString
      modifies this`currentTimeIndex
      ensures State() == Released(old(State()))
      ensures currentTimeIndex == 0.0 && undoStacks == {}
      ensures var reset := old(State()).(currentModel := null, currentMotion := null, activeStack := null);
        && dirty == (old(dirty) || true in DeletionsFound(reset, old(modelProxies)))
        && errorString == (if false in DeletionsFound(reset, old(modelProxies)) then ModelNotFoundMessage else old(errorString))
        && projectMotions == old(projectMotions) - DeletedChildMotions(reset, old(modelProxies))
      ensures old(currentModel) != null ==>
        parentModelCandidates == ParentModelCandidates(old(modelProxies), null) && parentBoneCandidates == [NullLabel]
      ensures old(currentModel) == null ==>
        parentModelCandidates == old(parentModelCandidates) && parentBoneCandidates == old(parentBoneCandidates)
    {
      ResetForRelease();
      DeleteListed();
    }

    /** The loop of release over a copy of the model list, then the clearing of both lists. */
    method DeleteListed()
      modifies this`modelProxies, this`instance2ModelProxy, this`uuid2ModelProxy, this`currentModel
      modifies this`parentModelCandidates, this`parentBoneCandidates, this`dirty, this`undoStacks, this`projectMotions
      modifies this`motionProxies, this`motion2UndoStack, this`instance2MotionProxy, this`uuid2MotionProxy
      modifies this`childMotion, this`parentModelRef, this`currentMotion, this`activeStack, this`errorString
      ensures State() == AfterDeleteModels(old(State()), old(modelProxies)).(models := [], motions := [])
      ensures undoStacks <= old(undoStacks)
      ensures dirty == (old(dirty) || true in DeletionsFound(old(State()), old(modelProxies)))
      ensures errorString == if false in DeletionsFound(old(State()), old(modelProxies)) then ModelNotFoundMessage else old(errorString)
      ensures projectMotions == old(projectMotions) - DeletedChildMotions(old(State()), old(modelProxies))
      ensures old(currentModel) == null ==>
        parentModelCandidates == old(parentModelCandidates) && parentBoneCandidates == old(parentBoneCandidates)
    {
      var copy := modelProxies;
      DeleteModels(copy);
      ClearLists();
    }

    /**
     * ProjectProxy::release.  On a consistent registry every deletion finds its model: the
     * project becomes dirty when it had a model, keeps its error string, and loses exactly
     * the child motions of its models.
     */
    method Release()
      modifies this`modelProxies, this`instance2ModelProxy, this`uuid2ModelProxy, this`currentModel
      modifies this`parentModelCandidates, this`parentBoneCandidates, this`dirty, this`undoStacks, this`projectMotions
      modifies this`motionProxies, this`motion2UndoStack, this`instance2MotionProxy, this`uuid2MotionProxy
      modifies this`childMotion, this`parentModelRef, this`currentMotion, this`activeStack, this`errorString
      modifies this`currentTimeIndex
      ensures State() == Released(old(State()))
      ensures currentTimeIndex == 0.0 && undoStacks == {}
      ensures var reset := old(State()).(currentModel := null, currentMotion := null, activeStack := null);
        && dirty == (old(dirty) || true in DeletionsFound(reset, old(modelProxies)))
        && errorString == (if false in DeletionsFound(reset, old(modelProxies)) then ModelNotFoundMessage else old(errorString))
        && projectMotions == old(projectMotions) - DeletedChildMotions(reset, old(modelProxies))
      ensures old(Valid()) ==>
        && (old(modelProxies) != [] ==> dirty)
        && errorString == old(errorString)
        && projectMotions == old(projectMotions) - set m | m in old(childMotion) :: old(childMotion)[m].data
      ensures old(currentModel) != null ==>
        parentModelCandidates == ParentModelCandidates(old(modelProxies), null) && parentBoneCandidates == [NullLabel]
      ensures old(currentModel) == null ==>
        parentModelCandidates == old(parentModelCandidates) && parentBoneCandidates == old(parentBoneCandidates)
    {
      ghost var before := State();
      ghost var copy := modelProxies;
      ReleaseRegistry();
      if Consistent(before) {
        ReleaseDeletesEveryChild(before);
        if copy != [] {
          assert DeletionsFound(before.(currentModel := null, currentMotion := null, activeStack := null), copy)[0];
        }
      }
    }

    /**
     * ProjectProxy::resetBone.  For a bone, whose model proxy is `owner`, and a model with a
     * child motion, the parts of the pose the reset type names are restored to the origin
     * pose and the new pose is recorded in the child motion at the truncated time index.
     * For no bone, when the current model has a child motion, every bone of it gets its
     * origin pose back, each is recorded, and the command goes to the active undo stack if
     * there is one.  Otherwise nothing happens.
     */
    method ResetBone(bone: BoneRefObject?, owner: ModelProxy?, kind: ResetBoneType)
      returns (updates: seq<KeyframeUpdate>, pushed: UndoStack?)
      requires bone != null ==> owner != null
      modifies bone, if currentModel == null then {} else set b | b in currentModel.bones
      ensures bone != null && ChildOf(State(), owner) != null ==>
        && Pose(bone.localTranslation, bone.localOrientation)
           == ResetPose(old(Pose(bone.localTranslation, bone.localOrientation)),
                        old(Pose(bone.originLocalTranslation, bone.originLocalOrientation)), kind)
        && bone.originLocalTranslation == old(bone.originLocalTranslation)
        && bone.originLocalOrientation == old(bone.originLocalOrientation)
        && updates == [KeyframeUpdate(ChildOf(State(), owner), bone, TruncateTime(currentTimeIndex),
                                      Pose(bone.localTranslation, bone.localOrientation))]
        && pushed == null
      ensures bone != null && currentModel != null ==>
        forall b :: b in currentModel.bones && b != bone ==>
          && b.localTranslation == old(b.localTranslation) && b.localOrientation == old(b.localOrientation)
          && b.originLocalTranslation == old(b.originLocalTranslation)
          && b.originLocalOrientation == old(b.originLocalOrientation)
      ensures bone == null && currentModel != null && ChildOf(State(), currentModel) != null ==>
        && |updates| == |currentModel.bones|
        && (forall b :: b in currentModel.bones ==>
              && b.localTranslation == old(b.originLocalTranslation) == b.originLocalTranslation
              && b.localOrientation == old(b.originLocalOrientation) == b.originLocalOrientation)
        && (forall i :: 0 <= i < |updates| ==>
              updates[i] == KeyframeUpdate(ChildOf(State(), currentModel), currentModel.bones[i],
                                           TruncateTime(currentTimeIndex),
                                           Pose(old(currentModel.bones[i].originLocalTranslation),
                                                old(currentModel.bones[i].originLocalOrientation))))
        && pushed == activeStack
      ensures (bone != null && ChildOf(State(), owner) == null) || (bone == null && (currentModel == null || ChildOf(State(), currentModel) == null)) ==>
        updates == [] && pushed == null && (bone != null ==> unchanged(bone)) && (currentModel != null ==> unchanged(set b | b in currentModel.bones))
    {
      updates, pushed := [], null;
      if bone != null {
        var motion := ChildOf(State(), owner);
        if motion != null {
          var pose := ResetPose(Pose(bone.localTranslation, bone.localOrientation),
                                Pose(bone.originLocalTranslation, bone.originLocalOrientation), kind);
          bone.localTranslation := pose.translation;
          bone.localOrientation := pose.orientation;
          updates := [KeyframeUpdate(motion, bone, TruncateTime(currentTimeIndex), pose)];
        }
      } else if currentModel != null {
        var motion := ChildOf(State(), currentModel);
        if motion != null {
          var bones := currentModel.bones;
          for i := 0 to |bones|
            invariant |updates| == i
            invariant forall b :: b in bones ==>
              b.originLocalTranslation == old(b.originLocalTranslation) && b.originLocalOrientation == old(b.originLocalOrientation)
            invariant forall k :: 0 <= k < i ==>
              bones[k].localTranslation == bones[k].originLocalTranslation && bones[k].localOrientation == bones[k].originLocalOrientation
            invariant forall k :: 0 <= k < i ==>
              updates[k] == KeyframeUpdate(motion, bones[k], TruncateTime(currentTimeIndex),
                                           Pose(old(bones[k].originLocalTranslation), old(bones[k].originLocalOrientation)))
          {
            var b := bones[i];
            b.localTranslation := b.originLocalTranslation;
            b.localOrientation := b.originLocalOrientation;
            updates := updates + [KeyframeUpdate(motion, b, TruncateTime(currentTimeIndex),
                                                 Pose(b.originLocalTranslation, b.originLocalOrientation))];
          }
          pushed := activeStack;
        }
      }
    }

    /**
     * ProjectProxy::seekInternal: unless forced, a time index fuzzily equal to the current
     * one is ignored; otherwise the scene is updated and the time index taken.
     */
    method SeekInternal(timeIndex: real, forceUpdate: bool) returns (seeked: bool)
      modifies this`currentTimeIndex
      ensures seeked <==> forceUpdate || !FuzzyCompare(timeIndex, old(currentTimeIndex))
      ensures currentTimeIndex == if seeked then timeIndex else old(currentTimeIndex)
    {
      seeked := forceUpdate || !FuzzyCompare(timeIndex, currentTimeIndex);
      if seeked {
        currentTimeIndex := timeIndex;
      }
    }

    /** ProjectProxy::seek */
    method Seek(timeIndex: real) returns (seeked: bool)
      modifies this`currentTimeIndex
      ensures seeked <==> !FuzzyCompare(timeIndex, old(currentTimeIndex))
      ensures currentTimeIndex == if seeked then timeIndex else old(currentTimeIndex)
      ensures old(currentTimeIndex) == timeIndex ==> !seeked
    {
      FuzzyCompareFacts(timeIndex);
      seeked := SeekInternal(timeIndex, false);
    }

    /** ProjectProxy::rewind: always seeks, to 0. */
    method Rewind() returns (seeked: bool)
      modifies this`currentTimeIndex
      ensures seeked && currentTimeIndex == 0.0
    {
      seeked := SeekInternal(0.0, true);
    }
}
}
