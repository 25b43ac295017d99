/**
 * QMA1's SceneLoader: the registry of loaded PMD models, by name, and of the VMD motions
 * attached to each model.
 *
 * Reading and parsing files, the renderer and the scene are not part of this model: a load
 * that succeeds is a parameter, and a successful load allocates a fresh object.
 */
module Scene {
  import opened Common

  /** A vpvl::PMDModel, known by its identity. */
  class PMDModel {
    constructor () {}
  }

  /** A vpvl::VMDMotion; only its smoothing switch matters here. */
  class VMDMotion {
    var enableSmooth: bool
    constructor ()
      ensures enableSmooth
    {
      enableSmooth := true;
    }
  }

  /** m_motions after insertMotion(motion, model) for each model of `targets` in turn. */
  function AppendToEach(motions: map<PMDModel, seq<VMDMotion>>, targets: seq<PMDModel>, motion: VMDMotion)
    : (r: map<PMDModel, seq<VMDMotion>>)
    ensures motions.Keys <= r.Keys
    ensures targets != [] ==> targets[|targets| - 1] in r && motion in r[targets[|targets| - 1]]
  {
    if targets == [] then motions
    else
      var previous := AppendToEach(motions, targets[..|targets| - 1], motion);
      var model := targets[|targets| - 1];
      previous[model := Lookup(previous, model) + [motion]]
  }

  /** QHash::value: the list stored for the model, or the empty list. */
  function Lookup(motions: map<PMDModel, seq<VMDMotion>>, model: PMDModel): seq<VMDMotion> {
    if model in motions then motions[model] else []
  }

  /** With no model twice in `targets`, each of them gets the motion appended once and every other list is unchanged. */
  lemma {:induction false} AppendToEachDistinct(motions: map<PMDModel, seq<VMDMotion>>, targets: seq<PMDModel>,
                                                motion: VMDMotion, model: PMDModel)
    requires forall i, j :: 0 <= i < j < |targets| ==> targets[i] != targets[j]
    ensures model in targets ==> Lookup(AppendToEach(motions, targets, motion), model) == Lookup(motions, model) + [motion]
    ensures model !in targets ==> Lookup(AppendToEach(motions, targets, motion), model) == Lookup(motions, model)
    ensures AppendToEach(motions, targets, motion).Keys == motions.Keys + set m | m in targets
  {
    if targets != [] {
      var init := targets[..|targets| - 1];
      var last := targets[|targets| - 1];
      assert forall m :: m in targets <==> m in init || m == last;
      AppendToEachDistinct(motions, init, motion, model);
      if model == last {
        assert model !in init;
      }
    }
  }

  /**
   * Visiting the names of an injective registry in an order that lists each once visits
   * every registered model once, and visits none exactly when nothing is registered.
   */
  lemma VisitedAreRegistered(models: map<string, PMDModel>, order: seq<string>, visited: seq<PMDModel>)
    requires forall a, b :: a in models && b in models && models[a] == models[b] ==> a == b
    requires forall i, j :: 0 <= i < j < |order| ==> order[i] != order[j]
    requires forall name :: name in models <==> name in order
    requires |visited| == |order| && forall k :: 0 <= k < |order| ==> visited[k] == models[order[k]]
    ensures forall i, j :: 0 <= i < j < |visited| ==> visited[i] != visited[j]
    ensures forall m :: m in visited <==> m in models.Values
    ensures |visited| == 0 <==> models == map[]
  {
    forall i, j | 0 <= i < j < |visited| ensures visited[i] != visited[j] {
      assert order[i] != order[j];
    }
    forall m ensures m in visited <==> m in models.Values {
      if m in models.Values {
        var name :| name in models && models[name] == m;
        var k :| 0 <= k < |order| && order[k] == name;
        assert visited[k] == m;
      }
    }
    if |order| > 0 {
      assert order[0] in models;
    } else {
      assert models.Keys == {};
    }
  }

  // ---------------------------------------------------------------- unique names

  /** QString("%1%2").arg(key).arg(i): the key followed by the decimal digits of i. */
  function Numbered(key: string, i: nat): (r: string)
    ensures |r| > |key| && r[..|key|] == key
  {
    key + NatText(i)
  }

  /** Two numbered names of one key are equal only for equal numbers. */
  lemma NumberedInjective(key: string, i: nat, j: nat)
    ensures Numbered(key, i) == Numbered(key, j) <==> i == j
  {
    assert Numbered(key, i)[|key|..] == NatText(i);
    assert Numbered(key, j)[|key|..] == NatText(j);
  }

  /** The names key + j for j < i, with key + i added: a new name, and those for j < i + 1. */
  lemma NumberedTriedStep(key: string, i: nat, tried: set<string>)
    requires forall j: nat :: j < i ==> Numbered(key, j) in tried
    requires forall t :: t in tried ==> exists j: nat :: j < i && t == Numbered(key, j)
    ensures Numbered(key, i) !in tried
    ensures forall j: nat :: j < i + 1 ==> Numbered(key, j) in tried + {Numbered(key, i)}
    ensures forall t :: t in tried + {Numbered(key, i)} ==> exists j: nat :: j < i + 1 && t == Numbered(key, j)
  {
    forall j: nat | j < i ensures Numbered(key, j) != Numbered(key, i) {
      NumberedInjective(key, i, j);
    }
    forall t | t in tried + {Numbered(key, i)} ensures exists j: nat :: j < i + 1 && t == Numbered(key, j) {
      if t != Numbered(key, i) {
        var j: nat :| j < i && t == Numbered(key, j);
        assert j < i + 1;
      }
    }
  }

  /**
   * The name loop of SceneLoader::loadModel (and loadAsset) as written, after `rounds`
   * rounds from the key and counter (key, i): a round takes key + i as the key when that
   * name is free, and always goes on with the counter i + 1.  The loop has no exit, so this
   * is the state after any number of rounds, never a result.
   */
  function NameLoopAsWritten(names: set<string>, key: string, i: nat, rounds: nat): (r: (string, nat))
    ensures r.1 == i + rounds
    decreases rounds
  {
    if rounds == 0 then (key, i)
    else
      var tmpKey := Numbered(key, i);
      NameLoopAsWritten(names, if tmpKey !in names then tmpKey else key, i + 1, rounds - 1)
  }

  /** Every round of the loop as written keeps what the key has grown to. */
  lemma {:induction false} NameLoopAsWrittenGoesOn(names: set<string>, key: string, i: nat, rounds: nat)
    ensures |NameLoopAsWritten(names, key, i, rounds).0| >= |key|
    ensures NameLoopAsWritten(names, key, i, rounds).0[..|key|] == key
    decreases rounds
  {
    if rounds > 0 {
      var tmpKey := Numbered(key, i);
      var next := if tmpKey !in names then tmpKey else key;
      NameLoopAsWrittenGoesOn(names, next, i + 1, rounds - 1);
      var k := NameLoopAsWritten(names, next, i + 1, rounds - 1).0;
      assert k[..|next|][..|key|] == key;
    }
  }

  /**
   * With "a" taken, the first round reaches the free name "a0", but the loop does not stop
   * there: the second round replaces it by "a01", and so on without end.
   */
  lemma NameLoopAsWrittenPassesFreeName()
    ensures NameLoopAsWritten({"a"}, "a", 0, 1) == ("a0", 1)
    ensures "a0" !in {"a"}
    ensures NameLoopAsWritten({"a"}, "a", 0, 2) == ("a01", 2)
  {
    assert NatText(0) == "0" && NatText(1) == "1";
    assert Numbered("a", 0) == "a0";
    assert Numbered("a0", 1) == "a01";
  }

  class SceneLoader {
    /** m_models: model name to model. */
    var models: map<string, PMDModel>
    /** m_motions: model to the motions attached to it, in attachment order. */
    var motions: map<PMDModel, seq<VMDMotion>>

    constructor ()
      ensures models == map[] && motions == map[]
    {
      models := map[];
      motions := map[];
    }

    /** Every model is registered under one name at most. */
    ghost predicate Valid()
      reads this
    {
      forall a, b :: a in models && b in models && models[a] == models[b] ==> a == b
    }

    /** SceneLoader::findModel: the model registered under the name, or null. */
    function FindModel(name: string): (r: PMDModel?)
      reads this
      ensures r == null <==> name !in models
      ensures r != null ==> models[name] == r
    {
      if name in models then models[name] else null
    }

    /** SceneLoader::findModelMotions: the model's motions, or the empty list when it has no entry. */
    function FindModelMotions(model: PMDModel): (r: seq<VMDMotion>)
      reads this
      ensures model !in motions ==> r == []
      ensures model in motions ==> r == motions[model]
    {
      Lookup(motions, model)
    }

    /** SceneLoader::insertModel */
    method InsertModel(model: PMDModel, name: string)
      modifies this`models
      ensures models == old(models)[name := model]
    {
      models := models[name := model];
    }

    /** SceneLoader::insertMotion: appends to the model's list, which is created when missing. */
    method InsertMotion(motion: VMDMotion, model: PMDModel)
      modifies this`motions
      ensures motions == old(motions)[model := old(FindModelMotions(model)) + [motion]]
      ensures forall other :: other != model ==> FindModelMotions(other) == Lookup(old(motions), other)
    {
      var list := Lookup(motions, model);
      list := list + [motion];
      motions := motions[model := list];
    }

    /** SceneLoader::setModelMotion: switches smoothing off and attaches the motion to the model. */
    method SetModelMotion(motion: VMDMotion, model: PMDModel)
      modifies this`motions, motion
      ensures !motion.enableSmooth
      ensures motions == old(motions)[model := old(FindModelMotions(model)) + [motion]]
    {
      motion.enableSmooth := false;
      InsertMotion(motion, model);
    }

    /** SceneLoader::deleteModelMotion(model): drops the model's whole motion list; true when it had one. */
    method DeleteModelMotions(model: PMDModel?) returns (ok: bool)
      modifies this`motions
      ensures ok <==> model != null && model in old(motions)
      ensures ok ==> motions == old(motions) - {model}
      ensures !ok ==> motions == old(motions)
    {
      if model == null {
        return false;
      }
      if model in motions {
        motions := motions - {model};
        return true;
      }
      return false;
    }

    /**
     * SceneLoader::deleteModelMotion(motion, model) as written: the motion is removed from a
     * local copy of the list, so the stored list still holds it.  The result is true
     * whenever the model has an entry, whether or not the motion was in it.
     */
    method DeleteModelMotionAsWritten(motion: VMDMotion, model: PMDModel?) returns (ok: bool)
      modifies this`motions
      ensures ok <==> model != null && model in old(motions)
      ensures motions == old(motions)
    {
      if model != null && model in motions {
        var list := motions[model];
        if motion in list {
          list := RemoveFirst(list, motion);
        }
        return true;
      }
      return false;
    }

    /** deleteModelMotion(motion, model) with the edited list stored back. */
    method DeleteModelMotion(motion: VMDMotion, model: PMDModel?) returns (ok: bool)
      modifies this`motions
      ensures ok <==> model != null && model in old(motions)
      ensures ok ==> motions == old(motions)[model := RemoveFirst(old(motions)[model], motion)]
      ensures !ok ==> motions == old(motions)
    {
      if model != null && model in motions {
        var list := motions[model];
        if motion in list {
          list := RemoveFirst(list, motion);
        }
        motions := motions[model := list];
        return true;
      }
      return false;
    }

    /** SceneLoader::deleteModel: unregisters a registered model and its motions; false for null or an unknown model. */
    method DeleteModel(model: PMDModel?) returns (ok: bool)
      requires Valid()
      modifies this
      ensures Valid()
      ensures ok <==> model != null && model in old(models).Values
      ensures ok ==> model !in models.Values
      ensures ok ==> exists name :: name in old(models) && old(models)[name] == model && models == old(models) - {name}
      ensures ok ==> motions == old(motions) - {model}
      ensures !ok ==> models == old(models) && motions == old(motions)
    {
      if model == null {
        return false;
      }
      if model in models.Values {
        var key :| key in models && models[key] == model;
        var _ := DeleteModelMotions(model);
        models := models - {key};
        return true;
      }
      return false;
    }

    /**
     * The name loop of SceneLoader::loadModel as evidently intended: the key itself when it
     * is free, otherwise key + i for the first i whose name is free.
     */
    method UniqueModelKey(key: string) returns (r: string)
      ensures r !in models
      ensures key !in models ==> r == key
      ensures key in models ==> exists i: nat :: r == Numbered(key, i) && forall j: nat :: j < i ==> Numbered(key, j) in models
    {
      r := key;
      if key in models {
        var i: nat := 0;
        ghost var tried: set<string> := {};
        while Numbered(key, i) in models
          invariant tried <= models.Keys
          invariant forall j: nat :: j < i ==> Numbered(key, j) in tried
          invariant forall t :: t in tried ==> exists j: nat :: j < i && t == Numbered(key, j)
          decreases |models.Keys - tried|
        {
          var tmpKey := Numbered(key, i);
          NumberedTriedStep(key, i, tried);
          assert models.Keys - (tried + {tmpKey}) == (models.Keys - tried) - {tmpKey};
          tried := tried + {tmpKey};
          i := i + 1;
        }
        r := Numbered(key, i);
      }
    }

    /**
     * The registration part of SceneLoader::loadModel.  When loading succeeds, a fresh model
     * is registered under a name no other model has (the model's own name, or that name
     * numbered by UniqueModelKey) with a fresh null motion (smoothing off) as its first
     * motion; otherwise nothing changes and the out-parameter keeps its value.
     */
    method LoadModel(loaded: bool, name: string, nullMotionIn: VMDMotion?)
      returns (model: PMDModel?, nullMotion: VMDMotion?, key: string)
      requires Valid()
      modifies this
      ensures Valid()
      ensures (model != null) == loaded
      ensures model == null ==> nullMotion == nullMotionIn && models == old(models) && motions == old(motions)
      ensures model != null ==> fresh(model) && nullMotion != null && fresh(nullMotion) && !nullMotion.enableSmooth
      ensures model != null ==> key !in old(models) && models == old(models)[key := model]
      ensures model != null && name !in old(models) ==> key == name
      ensures model != null && name in old(models) ==>
        exists i: nat :: key == Numbered(name, i) && forall j: nat :: j < i ==> Numbered(name, j) in old(models)
      ensures model != null ==> motions == old(motions)[model := [nullMotion]]
    {
      nullMotion := nullMotionIn;
      model := null;
      key := name;
      if loaded {
        model := new PMDModel();
        key := UniqueModelKey(name);
        var motion := new VMDMotion();
        motion.enableSmooth := false;
        nullMotion := motion;
        InsertModel(model, key);
        assert motions == old(motions) && FindModelMotions(model) == [];
        InsertMotion(motion, model);
        assert [] + [motion] == [motion];
      }
    }

    /** SceneLoader::loadModelMotion(path): a fresh motion when the file loads, null otherwise; the registry is untouched. */
    method LoadMotionFile(loaded: bool) returns (motion: VMDMotion?)
      ensures (motion != null) == loaded
      ensures motion != null ==> fresh(motion) && motion.enableSmooth
    {
      motion := null;
      if loaded {
        motion := new VMDMotion();
      }
    }

    /** SceneLoader::loadModelMotion(path, model): a loaded motion is attached to the given model. */
    method LoadModelMotion(loaded: bool, model: PMDModel) returns (motion: VMDMotion?)
      modifies this`motions
      ensures (motion != null) == loaded
      ensures motion == null ==> motions == old(motions)
      ensures motion != null ==> fresh(motion) && !motion.enableSmooth
      ensures motion != null ==> motions == old(motions)[model := old(FindModelMotions(model)) + [motion]]
    {
      motion := LoadMotionFile(loaded);
      if motion != null {
        SetModelMotion(motion, model);
      }
    }

    /**
     * SceneLoader::loadModelMotion(path, models): a loaded motion is attached to every
     * registered model, and each model is appended to `targets`.  QHash's iteration order is
     * the parameter `order`, which lists every name once.
     */
    method LoadModelMotionForAll(loaded: bool, order: seq<string>, targets: seq<PMDModel>)
      returns (motion: VMDMotion?, targetsOut: seq<PMDModel>)
      requires Valid()
      requires forall i, j :: 0 <= i < j < |order| ==> order[i] != order[j]
      requires forall name :: name in models <==> name in order
      modifies this`motions
      ensures (motion != null) == loaded
      ensures motion == null ==> motions == old(motions) && targetsOut == targets
      ensures motion != null ==> fresh(motion) && (motion.enableSmooth <==> models == map[])
      ensures motion != null ==> |targetsOut| == |targets| + |order| && targetsOut[..|targets|] == targets
      ensures motion != null ==> forall i :: 0 <= i < |order| ==> targetsOut[|targets| + i] == models[order[i]]
      ensures motion != null ==> forall m :: m in models.Values ==> FindModelMotions(m) == Lookup(old(motions), m) + [motion]
      ensures motion != null ==> forall m :: m !in models.Values ==> FindModelMotions(m) == Lookup(old(motions), m)
    {
      targetsOut := targets;
      motion := LoadMotionFile(loaded);
      if motion != null {
        var visited: seq<PMDModel> := [];
        for i := 0 to |order|
          invariant |visited| == i && |targetsOut| == |targets| + i
          invariant targetsOut[..|targets|] == targets
          invariant forall k :: 0 <= k < i ==> visited[k] == models[order[k]] && targetsOut[|targets| + k] == visited[k]
          invariant motions == AppendToEach(old(motions), visited, motion)
          invariant motion.enableSmooth <==> i == 0
        {
          var model := models[order[i]];
          SetModelMotion(motion, model);
          visited := visited + [model];
          targetsOut := targetsOut + [model];
        }
        VisitedAreRegistered(models, order, visited);
        forall m ensures FindModelMotions(m) == Lookup(old(motions), m) + (if m in models.Values then [motion] else []) {
          AppendToEachDistinct(old(motions), visited, motion, m);
        }
      }
    }
  }
}
