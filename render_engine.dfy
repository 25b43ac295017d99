/**
 * vpvl2's PMDRenderEngine (Cg back end), reduced to the decisions it takes per material:
 * which texture and sphere map each material binds, whether face culling is on while it
 * is drawn, and where in the index buffer its elements start.  The GL and Cg calls are
 * not modelled; each glDrawElements becomes a recorded draw call.
 *
 * The fuzzy opacity tests of the source are booleans of a material: `translucent` for
 * !btFuzzyZero(opacity - 1) and `zPlotExcluded` for btFuzzyZero(opacity - 0.98).
 */
module RenderEngine {
  import opened Common

  /** PMDModel::kCustomTextureMax: toon0.bmp followed by the model's ten toon textures. */
  const CustomTextureMax := 11

  /** An RGBA colour as the delegate returns it for a toon texture. */
  datatype Color = Color(red: real, green: real, blue: real, alpha: real)

  /** One vpvl::Material, as far as the engine looks at it. */
  datatype Material = Material(
    mainTextureName: string,
    subTextureName: string,
    mainSphereAdd: bool,
    subSphereAdd: bool,
    subSphereModulate: bool,
    translucent: bool,
    zPlotExcluded: bool,
    countIndices: nat,
    toonID: nat)

  /** MaterialTextures: the texture IDs upload obtained for one material, 0 for none. */
  datatype MaterialTextures = MaterialTextures(mainTextureID: nat, subTextureID: nat)

  /** The effect parameters the texture selection writes; each keeps its value until written again. */
  datatype EffectParams = EffectParams(materialTexture: nat, materialSphereMap: nat, spadd: bool, useTexture: bool)

  /** The values setNoGeometryColorParameters gives the texture parameters. */
  const NoGeometryParams := EffectParams(0, 0, false, false)

  /** The outcome of the texture selection for one material. */
  datatype Selection = Selection(params: EffectParams, hasMainTexture: bool, hasSphereMap: bool)

  /** One glDrawElements call: the byte offset into the index buffer and the number of indices. */
  datatype DrawCall = DrawCall(offset: nat, count: nat)

  /** One material drawn by renderModel, with the state it was drawn in. */
  datatype MaterialDraw = MaterialDraw(elements: DrawCall, cullFace: bool, selection: Selection, toonColor: Color)

  // ---------------------------------------------------------------- texture selection

  /** Whether the main texture is bound as the sphere map. */
  predicate MainIsSphereMap(m: Material, t: MaterialTextures) {
    t.mainTextureID > 0 && (m.mainSphereAdd || m.subSphereModulate)
  }

  /** The texture and sphere-map selection of renderModel for one material, starting from the current parameters. */
  function SelectTextures(p: EffectParams, m: Material, t: MaterialTextures): (r: Selection)
    ensures r.hasMainTexture <==> t.mainTextureID > 0
    ensures !r.hasMainTexture ==> !r.params.useTexture && r.params.materialTexture == p.materialTexture
    // a main texture: sphere-add map, sphere-modulate map, or the ordinary texture
    ensures r.hasMainTexture && m.mainSphereAdd ==>
      r.params.materialSphereMap == t.mainTextureID && r.params.spadd && r.params.useTexture
      && r.params.materialTexture == p.materialTexture
    ensures r.hasMainTexture && !m.mainSphereAdd && m.subSphereModulate ==>
      r.params.materialSphereMap == t.mainTextureID && !r.params.spadd && !r.params.useTexture
      && r.params.materialTexture == p.materialTexture
    ensures r.hasMainTexture && !m.mainSphereAdd && !m.subSphereModulate ==>
      r.params.materialTexture == t.mainTextureID && r.params.useTexture
    // the sub texture is the sphere map only when the main texture is not
    ensures MainIsSphereMap(m, t) ==> r.hasSphereMap
    ensures !MainIsSphereMap(m, t) && m.subSphereAdd ==>
      r.params.materialSphereMap == t.subTextureID && r.params.spadd && r.hasSphereMap
    ensures !MainIsSphereMap(m, t) && !m.subSphereAdd && m.subSphereModulate ==>
      r.params.materialSphereMap == t.subTextureID && !r.params.spadd && r.hasSphereMap
    ensures !MainIsSphereMap(m, t) && !m.subSphereAdd && !m.subSphereModulate ==>
      !r.hasSphereMap && r.params.materialSphereMap == p.materialSphereMap
      && (r.hasMainTexture || r.params.spadd == p.spadd)
  {
    var hasMainTexture := t.mainTextureID > 0;
    var main :=
      if !hasMainTexture then Selection(p.(useTexture := false), false, false)
      else if m.mainSphereAdd then
        Selection(p.(materialSphereMap := t.mainTextureID, spadd := true, useTexture := true), true, true)
      else if m.subSphereModulate then
        Selection(p.(materialSphereMap := t.mainTextureID, spadd := false, useTexture := false), true, true)
      else
        Selection(p.(materialTexture := t.mainTextureID, spadd := false, useTexture := true), true, false);
    if main.hasSphereMap then main
    else if m.subSphereAdd then
      main.(params := main.params.(materialSphereMap := t.subTextureID, spadd := true), hasSphereMap := true)
    else if m.subSphereModulate then
      main.(params := main.params.(materialSphereMap := t.subTextureID, spadd := false), hasSphereMap := true)
    else main
  }

  /**
   * useTexture and the two flags handed to the technique lookup never depend on what the
   * previous material left in the parameters.
   */
  lemma SelectionFlagsIgnorePreviousMaterial(p: EffectParams, q: EffectParams, m: Material, t: MaterialTextures)
    ensures SelectTextures(p, m, t).params.useTexture == SelectTextures(q, m, t).params.useTexture
    ensures SelectTextures(p, m, t).hasMainTexture == SelectTextures(q, m, t).hasMainTexture
    ensures SelectTextures(p, m, t).hasSphereMap == SelectTextures(q, m, t).hasSphereMap
  {
  }

  // ---------------------------------------------------------------- face culling

  /**
   * The cull-face toggle of renderModel as written: culling is switched off for a
   * translucent material only while it is on, and switched back on whenever it is off.
   */
  function CullAfterAsWritten(state: bool, modelTranslucent: bool, materialTranslucent: bool): (r: bool)
    ensures !state ==> r
  {
    if (modelTranslucent && state) || (materialTranslucent && state) then false
    else if !state then true
    else state
  }

  /** As written, a translucent material flips the state: every other translucent material is drawn with culling on. */
  lemma CullAsWrittenAlternates(state: bool, modelTranslucent: bool, materialTranslucent: bool)
    requires modelTranslucent || materialTranslucent
    ensures CullAfterAsWritten(state, modelTranslucent, materialTranslucent) == !state
  {
  }

  /** Two translucent materials in a row: as written, the second is drawn with culling on. */
  lemma SecondTranslucentMaterialIsCulled()
    ensures CullAfterAsWritten(CullAfterAsWritten(true, false, true), false, true)
    ensures !CullAfter(CullAfter(true, false, true), false, true)
  {
  }

  /**
   * The toggle as evidently intended: culling is off exactly while a translucent material
   * (or any material of a translucent model) is drawn; GL is called only on a change.
   */
  function CullAfter(state: bool, modelTranslucent: bool, materialTranslucent: bool): (r: bool)
    ensures r <==> !modelTranslucent && !materialTranslucent
  {
    if modelTranslucent || materialTranslucent then
      if state then false else state
    else
      if !state then true else state
  }

  // ---------------------------------------------------------------- index-buffer offsets

  /** The byte offset just past the given materials' indices: each adds its index count times the stride. */
  function IndexOffset(ms: seq<Material>, stride: nat): (r: nat)
    ensures ms == [] ==> r == 0
    ensures ms != [] ==> r >= ms[|ms| - 1].countIndices * stride
  {
    if ms == [] then 0 else IndexOffset(ms[..|ms| - 1], stride) + ms[|ms| - 1].countIndices * stride
  }

  /** Material i's indices end where material i + 1's begin: the ranges of the materials do not overlap. */
  lemma IndexOffsetStep(ms: seq<Material>, stride: nat, i: nat)
    requires i < |ms|
    ensures IndexOffset(ms[..i + 1], stride) == IndexOffset(ms[..i], stride) + ms[i].countIndices * stride
  {
    assert ms[..i + 1][..i] == ms[..i];
  }

  /** The offset of the first i materials is at most the offset past all of them. */
  lemma {:induction false} IndexOffsetGrows(ms: seq<Material>, stride: nat, i: nat)
    requires i <= |ms|
    ensures IndexOffset(ms[..i], stride) <= IndexOffset(ms, stride)
    decreases |ms|
  {
    if i < |ms| {
      var init := ms[..|ms| - 1];
      assert init[..i] == ms[..i];
      IndexOffsetGrows(init, stride, i);
    } else {
      assert ms[..i] == ms;
    }
  }

  /** The draws renderEdge issues: one per material, each starting where the previous ones end. */
  function EdgeDraws(ms: seq<Material>, stride: nat): (r: seq<DrawCall>)
    ensures |r| == |ms|
  {
    if ms == [] then []
    else
      var n := |ms| - 1;
      EdgeDraws(ms[..n], stride) + [DrawCall(IndexOffset(ms[..n], stride), ms[n].countIndices)]
  }

  /** The draws renderZPlot issues: those of the materials not excluded, at the same offsets. */
  function ZPlotDraws(ms: seq<Material>, stride: nat): (r: seq<DrawCall>)
    ensures |r| <= |ms|
  {
    if ms == [] then []
    else
      var n := |ms| - 1;
      ZPlotDraws(ms[..n], stride)
      + (if ms[n].zPlotExcluded then [] else [DrawCall(IndexOffset(ms[..n], stride), ms[n].countIndices)])
  }

  /** renderZPlot draws as many materials as renderEdge exactly when it excludes none. */
  lemma {:induction false} ZPlotDrawsEvery(ms: seq<Material>, stride: nat)
    ensures |ZPlotDraws(ms, stride)| == |ms| <==> forall i :: 0 <= i < |ms| ==> !ms[i].zPlotExcluded
  {
    if ms != [] {
      var n := |ms| - 1;
      ZPlotDrawsEvery(ms[..n], stride);
      assert forall i :: 0 <= i < n ==> ms[..n][i] == ms[i];
    }
  }

  /** Material i is drawn at indexStride times the number of indices of the materials before it. */
  lemma {:induction false} EdgeDrawAt(ms: seq<Material>, stride: nat, i: nat)
    requires i < |ms|
    ensures EdgeDraws(ms, stride)[i] == DrawCall(IndexOffset(ms[..i], stride), ms[i].countIndices)
  {
    var n := |ms| - 1;
    if i < n {
      EdgeDrawAt(ms[..n], stride, i);
      assert ms[..n][..i] == ms[..i];
    }
  }

  /**
   * renderZPlot draws exactly the materials that are not excluded, each at the offset
   * renderEdge uses for it: skipping a material does not move the later ones.
   */
  lemma {:induction false} ZPlotDrawsAreEdgeDrawsOfIncluded(ms: seq<Material>, stride: nat)
    ensures forall d :: d in ZPlotDraws(ms, stride) <==>
      exists i :: 0 <= i < |ms| && !ms[i].zPlotExcluded && d == DrawCall(IndexOffset(ms[..i], stride), ms[i].countIndices)
  {
    if ms != [] {
      var n := |ms| - 1;
      ZPlotDrawsAreEdgeDrawsOfIncluded(ms[..n], stride);
      forall i | 0 <= i < n ensures ms[..n][..i] == ms[..i] && ms[..n][i] == ms[i] {
      }
    }
  }

  /** The draws renderZPlot issues for the first materials come first, in the same order. */
  lemma {:induction false} ZPlotDrawsOfPrefix(ms: seq<Material>, stride: nat, i: nat)
    requires i <= |ms|
    ensures var before := ZPlotDraws(ms[..i], stride);
      |before| <= |ZPlotDraws(ms, stride)| && ZPlotDraws(ms, stride)[..|before|] == before
  {
    if i < |ms| {
      var n := |ms| - 1;
      ZPlotDrawsOfPrefix(ms[..n], stride, i);
      assert ms[..n][..i] == ms[..i];
      var shorter, full := ZPlotDraws(ms[..n], stride), ZPlotDraws(ms, stride);
      assert full[..|shorter|] == shorter;
      var k := |ZPlotDraws(ms[..i], stride)|;
      assert full[..k] == shorter[..k];
    } else {
      assert ms[..i] == ms;
    }
  }

  /**
   * A material renderZPlot does not skip is drawn right after the draws of the materials
   * before it, at the offset renderEdge uses for it: one draw per included material, in order.
   */
  lemma {:induction false} ZPlotDrawAt(ms: seq<Material>, stride: nat, i: nat)
    requires i < |ms| && !ms[i].zPlotExcluded
    ensures var at := |ZPlotDraws(ms[..i], stride)|;
      at < |ZPlotDraws(ms, stride)| && ZPlotDraws(ms, stride)[at] == DrawCall(IndexOffset(ms[..i], stride), ms[i].countIndices)
  {
    var n := |ms| - 1;
    if i < n {
      ZPlotDrawAt(ms[..n], stride, i);
      assert ms[..n][..i] == ms[..i] && ms[..n][i] == ms[i];
    }
  }

  // ---------------------------------------------------------------- renderModel

  /** Which cull-face toggle a pass applies: the one renderModel has, or the one it evidently intends. */
  datatype CullToggle = AsWritten | Corrected

  /** The cull-face state after one material under the given toggle. */
  function CullStep(toggle: CullToggle, state: bool, modelTranslucent: bool, materialTranslucent: bool): (r: bool)
    ensures toggle == Corrected ==> (r <==> !modelTranslucent && !materialTranslucent)
    ensures toggle == AsWritten && !modelTranslucent && !materialTranslucent ==> r
    ensures toggle == AsWritten && (modelTranslucent || materialTranslucent) ==> r == !state
  {
    match toggle
    case AsWritten => CullAfterAsWritten(state, modelTranslucent, materialTranslucent)
    case Corrected => CullAfter(state, modelTranslucent, materialTranslucent)
  }

  /** renderModel's loop state: the draws so far, the cull-face state and the texture parameters. */
  datatype PassState = PassState(draws: seq<MaterialDraw>, cullFace: bool, params: EffectParams)

  /**
   * One material of renderModel's loop: its textures are selected from the current
   * parameters, the toggle updates the cull-face state, and it is drawn at `offset` in that
   * state with its toon colour.
   */
  function PassStep(toggle: CullToggle, before: PassState, m: Material, t: MaterialTextures, toonColor: Color,
                    offset: nat, modelTranslucent: bool): (r: PassState)
    ensures |r.draws| == |before.draws| + 1 && r.draws[..|before.draws|] == before.draws
    ensures r.draws[|before.draws|].elements == DrawCall(offset, m.countIndices)
    ensures r.draws[|before.draws|].cullFace == r.cullFace
    ensures r.draws[|before.draws|].toonColor == toonColor
  {
    var selection := SelectTextures(before.params, m, t);
    var cull := CullStep(toggle, before.cullFace, modelTranslucent, m.translucent);
    PassState(before.draws + [MaterialDraw(DrawCall(offset, m.countIndices), cull, selection, toonColor)], cull, selection.params)
  }

  /**
   * renderModel's loop over the given materials, from the state `init`, with the given
   * cull-face toggle: it appends one draw per material.
   */
  function ModelPass(toggle: CullToggle, init: PassState, ms: seq<Material>, ts: seq<MaterialTextures>, toon: seq<Color>,
                     modelTranslucent: bool, stride: nat): (r: PassState)
    requires |ts| == |ms|
    requires forall i :: 0 <= i < |ms| ==> ms[i].toonID < |toon|
    ensures |r.draws| == |init.draws| + |ms|
  {
    if ms == [] then init
    else
      var n := |ms| - 1;
      var before := ModelPass(toggle, init, ms[..n], ts[..n], toon, modelTranslucent, stride);
      PassStep(toggle, before, ms[n], ts[n], toon[ms[n].toonID], IndexOffset(ms[..n], stride), modelTranslucent)
  }

  /**
   * The pass over the first i + 1 materials is the pass over the first i followed by
   * material i, and the offset after material i is the offset before it plus its indices
   * times the stride.
   */
  lemma ModelPassExtend(toggle: CullToggle, init: PassState, ms: seq<Material>, ts: seq<MaterialTextures>, toon: seq<Color>,
                        modelTranslucent: bool, stride: nat, i: nat)
    requires |ts| == |ms|
    requires forall k :: 0 <= k < |ms| ==> ms[k].toonID < |toon|
    requires i < |ms|
    ensures ModelPass(toggle, init, ms[..i + 1], ts[..i + 1], toon, modelTranslucent, stride)
            == PassStep(toggle, ModelPass(toggle, init, ms[..i], ts[..i], toon, modelTranslucent, stride),
                        ms[i], ts[i], toon[ms[i].toonID], IndexOffset(ms[..i], stride), modelTranslucent)
    ensures IndexOffset(ms[..i + 1], stride) == IndexOffset(ms[..i], stride) + ms[i].countIndices * stride
  {
    assert ms[..i + 1][..i] == ms[..i];
    assert ts[..i + 1][..i] == ts[..i];
  }

  /**
   * Under either toggle, material i is drawn once, in order, at renderEdge's offset, with
   * its own toon colour and its own texture.  With the corrected toggle culling is off
   * exactly when the model or the material is translucent; as written, the cull state of
   * draw i is the toggle applied to the state the first i materials left behind.
   */
  lemma {:induction false} ModelDrawAt(toggle: CullToggle, init: PassState, ms: seq<Material>, ts: seq<MaterialTextures>,
                                       toon: seq<Color>, modelTranslucent: bool, stride: nat, i: nat)
    requires |ts| == |ms|
    requires forall k :: 0 <= k < |ms| ==> ms[k].toonID < |toon|
    requires i < |ms|
    ensures var d := ModelPass(toggle, init, ms, ts, toon, modelTranslucent, stride).draws[|init.draws| + i];
      && d.elements == DrawCall(IndexOffset(ms[..i], stride), ms[i].countIndices)
      && d.toonColor == toon[ms[i].toonID]
      && (d.selection.hasMainTexture <==> ts[i].mainTextureID > 0)
      && (toggle == Corrected ==> (d.cullFace <==> !modelTranslucent && !ms[i].translucent))
      && (toggle == AsWritten ==>
            d.cullFace == CullAfterAsWritten(ModelPass(toggle, init, ms[..i], ts[..i], toon, modelTranslucent, stride).cullFace,
                                             modelTranslucent, ms[i].translucent))
  {
    var n := |ms| - 1;
    if i < n {
      ModelDrawAt(toggle, init, ms[..n], ts[..n], toon, modelTranslucent, stride, i);
      assert ms[..n][..i] == ms[..i];
      assert ts[..n][..i] == ts[..i];
    } else {
      assert ms[..i] == ms[..n] && ts[..i] == ts[..n];
    }
  }

  /**
   * An opaque model drawn with culling on, two translucent materials in a row: renderModel
   * as written draws the second with culling on again, the corrected pass with it off.
   */
  lemma AsWrittenPassCullsSecondTranslucent(m: Material, t: MaterialTextures, toon: seq<Color>, p: EffectParams, stride: nat)
    requires m.translucent && m.toonID < |toon|
    ensures ModelPass(AsWritten, PassState([], true, p), [m, m], [t, t], toon, false, stride).draws[1].cullFace
    ensures !ModelPass(Corrected, PassState([], true, p), [m, m], [t, t], toon, false, stride).draws[1].cullFace
  {
    var init := PassState([], true, p);
    assert [m, m][..1] == [m] && [t, t][..1] == [t];
    assert [m][..0] == [] && [t][..0] == [];
    assert !ModelPass(AsWritten, init, [m], [t], toon, false, stride).cullFace;
    ModelDrawAt(AsWritten, init, [m, m], [t, t], toon, false, stride, 1);
    ModelDrawAt(Corrected, init, [m, m], [t, t], toon, false, stride, 1);
  }

  // ---------------------------------------------------------------- the engine

  class PMDRenderEngine {
    /** The model's materials, in order. */
    const materials: seq<Material>
    /** The model's toon texture names (PMDModel::toonTexture(0) to (9)). */
    const toonTextures: seq<string>
    /** strideSize(kIndicesStride): the size of one index in bytes. */
    const indexStride: nat
    /** m_toonTextureColors */
    const toonColors: array<Color>
    /** m_textures: null until upload. */
    var textures: array?<MaterialTextures>
    /** m_effect.isAttached() */
    var effectAttached: bool
    /** The texture parameters of m_effect. */
    var params: EffectParams
    /** m_cullFaceState */
    var cullFaceState: bool

    ghost predicate Valid()
      reads this
    {
      && toonColors.Length == CustomTextureMax
      && |toonTextures| == CustomTextureMax - 1
      && (forall i :: 0 <= i < |materials| ==> materials[i].toonID < CustomTextureMax)
      && (effectAttached ==> textures != null && textures.Length == |materials|)
    }

    constructor (materials: seq<Material>, toonTextures: seq<string>, indexStride: nat)
      requires |toonTextures| == CustomTextureMax - 1
      requires forall i :: 0 <= i < |materials| ==> materials[i].toonID < CustomTextureMax
      ensures Valid()
      ensures this.materials == materials && this.toonTextures == toonTextures && this.indexStride == indexStride
      ensures textures == null && !effectAttached && cullFaceState
    {
      this.materials := materials;
      this.toonTextures := toonTextures;
      this.indexStride := indexStride;
      toonColors := new Color[CustomTextureMax](_ => Color(0.0, 0.0, 0.0, 0.0));
      textures := null;
      effectAttached := false;
      params := NoGeometryParams;
      cullFaceState := true;
    }

    /** The guard of update, renderModel, renderEdge and renderZPlot. */
    predicate Renders(visible: bool)
      reads this
      ensures !visible ==> !Renders(visible)
      ensures !effectAttached ==> !Renders(visible)
      ensures visible && effectAttached ==> Renders(visible)
    {
      visible && effectAttached
    }

    /**
     * PMDRenderEngine::upload.  When the effect does not compile nothing changes and the
     * result is false.  Otherwise the effect is attached with the parameter values it
     * declares, each material gets the IDs of the textures the delegate uploaded (0 for a
     * failed upload), slot 0 of the toon colours comes from "toon0.bmp" and slots 1 to 10
     * come from the model's toon textures in order.
     */
    method Upload(effectCompiles: bool, declared: EffectParams, uploadTexture: string -> Option<nat>,
                  toonColor: string -> Color) returns (ok: bool)
      requires Valid()
      modifies this, toonColors
      ensures Valid()
      ensures ok == effectCompiles
      ensures !ok ==> unchanged(this) && unchanged(toonColors)
      ensures ok ==> effectAttached && params == declared && cullFaceState == old(cullFaceState)
      ensures ok ==> fresh(textures)
      ensures ok ==> forall i :: 0 <= i < |materials| ==>
        textures[i] == MaterialTextures(uploadTexture(materials[i].mainTextureName).GetOr(0),
                                        uploadTexture(materials[i].subTextureName).GetOr(0))
      ensures ok ==> toonColors[0] == toonColor("toon0.bmp")
      ensures ok ==> forall i :: 0 <= i < CustomTextureMax - 1 ==> toonColors[i + 1] == toonColor(toonTextures[i])
    {
      if !effectCompiles {
        return false;
      }
      effectAttached := true;
      params := declared;
      textures := UploadTextures(uploadTexture);
      FillToonColors(toonColor);
      return true;
    }

    /** The texture loop of upload: each material gets the IDs of its main and sub textures, 0 for a failed upload. */
    method UploadTextures(uploadTexture: string -> Option<nat>) returns (created: array<MaterialTextures>)
      ensures fresh(created) && created.Length == |materials|
      ensures forall i :: 0 <= i < |materials| ==>
        created[i] == MaterialTextures(uploadTexture(materials[i].mainTextureName).GetOr(0),
                                       uploadTexture(materials[i].subTextureName).GetOr(0))
    {
      created := new MaterialTextures[|materials|](_ => MaterialTextures(0, 0));
      for i := 0 to |materials|
        invariant forall k :: 0 <= k < i ==>
          created[k] == MaterialTextures(uploadTexture(materials[k].mainTextureName).GetOr(0),
                                         uploadTexture(materials[k].subTextureName).GetOr(0))
      {
        var texture := MaterialTextures(0, 0);
        var primary := uploadTexture(materials[i].mainTextureName);
        if primary.Some? {
          texture := texture.(mainTextureID := primary.value);
        }
        var second := uploadTexture(materials[i].subTextureName);
        if second.Some? {
          texture := texture.(subTextureID := second.value);
        }
        created[i] := texture;
      }
    }

    /** The toon loop of upload: slot 0 from "toon0.bmp", then one slot per toon texture of the model. */
    method FillToonColors(toonColor: string -> Color)
      requires toonColors.Length == CustomTextureMax && |toonTextures| == CustomTextureMax - 1
      modifies toonColors
      ensures toonColors[0] == toonColor("toon0.bmp")
      ensures forall i :: 0 <= i < CustomTextureMax - 1 ==> toonColors[i + 1] == toonColor(toonTextures[i])
    {
      toonColors[0] := toonColor("toon0.bmp");
      for i := 0 to CustomTextureMax - 1
        invariant toonColors[0] == toonColor("toon0.bmp")
        invariant forall k :: 0 <= k < i ==> toonColors[k + 1] == toonColor(toonTextures[k])
      {
        toonColors[i + 1] := toonColor(toonTextures[i]);
      }
    }

    /** PMDRenderEngine::update: it pushes the vertices and effect parameters only for a visible model with an effect. */
    method Update(visible: bool) returns (updated: bool)
      ensures updated <==> visible && effectAttached
    {
      updated := false;
      if !visible || !effectAttached {
        return;
      }
      updated := true;
    }

    /**
     * PMDRenderEngine::renderModel.  Nothing is drawn for an invisible model or without an
     * effect.  Otherwise each material is drawn as ModelPass describes with the cull-face
     * toggle as the source writes it, and culling is on again on return.
     */
    method RenderModel(visible: bool, modelTranslucent: bool) returns (draws: seq<MaterialDraw>)
      requires Valid()
      modifies this
      ensures Valid()
      ensures textures == old(textures) && effectAttached == old(effectAttached)
      ensures !old(Renders(visible)) ==> draws == [] && unchanged(this)
      ensures old(Renders(visible)) ==>
        var pass := ModelPass(AsWritten, PassState([], old(cullFaceState), old(params)), materials, textures[..],
                              toonColors[..], modelTranslucent, indexStride);
        draws == pass.draws && params == pass.params
      ensures old(Renders(visible)) ==> cullFaceState
    {
      draws := [];
      if !visible || !effectAttached {
        return;
      }
      var ts := textures[..];
      var toon := toonColors[..];
      draws := DrawMaterials(AsWritten, modelTranslucent, ts, toon);
      if !cullFaceState {
        cullFaceState := true;
      }
    }

    /** The material loop of renderModel over the given textures and toon colours, with a running index offset and the given toggle. */
    method DrawMaterials(toggle: CullToggle, modelTranslucent: bool, ts: seq<MaterialTextures>, toon: seq<Color>)
      returns (draws: seq<MaterialDraw>)
      requires |ts| == |materials|
      requires forall i :: 0 <= i < |materials| ==> materials[i].toonID < |toon|
      modifies this`params, this`cullFaceState
      ensures PassState(draws, cullFaceState, params)
              == ModelPass(toggle, PassState([], old(cullFaceState), old(params)), materials, ts, toon, modelTranslucent, indexStride)
    {
      var state := PassState([], cullFaceState, params);
      ghost var init := state;
      var offset: nat := 0;
      for i := 0 to |materials|
        invariant offset == IndexOffset(materials[..i], indexStride)
        invariant state == ModelPass(toggle, init, materials[..i], ts[..i], toon, modelTranslucent, indexStride)
      {
        var material := materials[i];
        ModelPassExtend(toggle, init, materials, ts, toon, modelTranslucent, indexStride, i);
        state := PassStep(toggle, state, material, ts[i], toon[material.toonID], offset, modelTranslucent);
        offset := offset + material.countIndices * indexStride;
      }
      assert materials[..|materials|] == materials && ts[..|materials|] == ts;
      draws, cullFaceState, params := state.draws, state.cullFace, state.params;
    }

    /** PMDRenderEngine::renderEdge: every material drawn in order at its offset; the texture parameters are cleared. */
    method RenderEdge(visible: bool) returns (draws: seq<DrawCall>)
      modifies this`params
      ensures !old(Renders(visible)) ==> draws == [] && params == old(params)
      ensures old(Renders(visible)) ==> draws == EdgeDraws(materials, indexStride) && params == NoGeometryParams
    {
      draws := [];
      if !visible || !effectAttached {
        return;
      }
      params := NoGeometryParams;
      var offset := 0;
      for i := 0 to |materials|
        invariant offset == IndexOffset(materials[..i], indexStride)
        invariant draws == EdgeDraws(materials[..i], indexStride)
      {
        var nindices := materials[i].countIndices;
        draws := draws + [DrawCall(offset, nindices)];
        offset := offset + nindices * indexStride;
        assert materials[..i + 1][..i] == materials[..i];
      }
      assert materials[..|materials|] == materials;
    }

    /** PMDRenderEngine::renderZPlot: like renderEdge, but an excluded material is skipped while the offset still advances. */
    method RenderZPlot(visible: bool) returns (draws: seq<DrawCall>)
      modifies this`params
      ensures !old(Renders(visible)) ==> draws == [] && params == old(params)
      ensures old(Renders(visible)) ==> draws == ZPlotDraws(materials, indexStride) && params == NoGeometryParams
    {
      draws := [];
      if !visible || !effectAttached {
        return;
      }
      params := NoGeometryParams;
      var offset := 0;
      for i := 0 to |materials|
        invariant offset == IndexOffset(materials[..i], indexStride)
        invariant draws == ZPlotDraws(materials[..i], indexStride)
      {
        var nindices := materials[i].countIndices;
        if !materials[i].zPlotExcluded {
          draws := draws + [DrawCall(offset, nindices)];
        }
        offset := offset + nindices * indexStride;
        assert materials[..i + 1][..i] == materials[..i];
      }
      assert materials[..|materials|] == materials;
    }
  }
}
