/**
 * vpvl2's Factory: chooses the model codec (PMX, PMD or asset) and the motion codec
 * (VMD or MVD) from the leading bytes of a file read into memory.
 *
 * The codecs' own `load` is not part of this model: whether a codec accepts the bytes is
 * a parameter `load`.  The VMD and MVD signature constants are defined with those codecs,
 * so a Factory is given them at construction.
 */
module ModelFactory {
  import opened Common

  /** IModel::Type as passed to createModel(type); Other stands for every other enumerator. */
  datatype ModelType = AssetType | PmdType | PmxType | OtherType(code: int)

  /** The codec class a created model belongs to (asset::Model, pmd::Model or pmx::Model). */
  datatype ModelKind = AssetModel | PmdModel | PmxModel

  /** The codec class a created motion belongs to (vmd::Motion or mvd::Motion). */
  datatype MotionKind = VmdMotion | MvdMotion

  /** A created motion: its codec and the model it was created for (an IModel pointer, None for null). */
  datatype Motion = Motion(kind: MotionKind, parentModel: Option<nat>)

  /** The model type a codec class reports. */
  function TypeOf(kind: ModelKind): ModelType {
    match kind
    case AssetModel => AssetType
    case PmdModel => PmdType
    case PmxModel => PmxType
  }

  /** "PMX " */
  const PmxMagic: seq<byte> := [0x50, 0x4D, 0x58, 0x20]
  /** "Pmd" */
  const PmdMagic: seq<byte> := [0x50, 0x6D, 0x64]

  /** memcmp(data, magic, |magic|) == 0 guarded by size >= |magic|. */
  predicate StartsWith(data: seq<byte>, magic: seq<byte>) {
    |data| >= |magic| && data[..|magic|] == magic
  }

  /**
   * A motion signature as the codec declares it: `sizeOf` is sizeof(kSignature), and the
   * comparison covers the first sizeOf - 1 bytes of `bytes`.
   */
  datatype Signature = Signature(bytes: seq<byte>, sizeOf: nat)

  predicate WellFormed(s: Signature) {
    1 <= s.sizeOf && s.sizeOf - 1 <= |s.bytes|
  }

  /** The signature test of createMotion: size >= sizeof(signature), then sizeof(signature) - 1 bytes compared. */
  predicate MatchesSignature(data: seq<byte>, s: Signature)
    requires WellFormed(s)
    ensures MatchesSignature(data, s) ==> |data| >= s.sizeOf
  {
    |data| >= s.sizeOf && data[..s.sizeOf - 1] == s.bytes[..s.sizeOf - 1]
  }

  /** Only the leading bytes decide the test: data that matches still matches with more bytes after it. */
  lemma SignatureIgnoresTail(data: seq<byte>, extra: seq<byte>, s: Signature)
    requires WellFormed(s)
    ensures MatchesSignature(data, s) ==> MatchesSignature(data + extra, s)
  {
    if MatchesSignature(data, s) {
      assert (data + extra)[..s.sizeOf - 1] == data[..s.sizeOf - 1];
    }
  }

  /** What createModel(data, size, ok) returns: the model (never null) and the value stored in ok. */
  datatype ModelResult = ModelResult(model: ModelKind, ok: bool)

  /** What createMotion(data, size, model, ok) returns: the motion or null, and the value ok holds afterwards. */
  datatype MotionResult = MotionResult(motion: Option<Motion>, ok: bool)

  class Factory {
    const vmdSignature: Signature
    const mvdSignature: Signature
    /** PrivateContext::motion: the motion being loaded, if any. */
    var contextMotion: Option<Motion>

    constructor (vmdSignature: Signature, mvdSignature: Signature)
      requires WellFormed(vmdSignature) && WellFormed(mvdSignature)
      ensures this.vmdSignature == vmdSignature && this.mvdSignature == mvdSignature
      ensures contextMotion == None
    {
      this.vmdSignature := vmdSignature;
      this.mvdSignature := mvdSignature;
      contextMotion := None;
    }

    ghost predicate Valid() {
      WellFormed(vmdSignature) && WellFormed(mvdSignature)
    }

    /** Factory::createModel(type): a model of that type, or null for any other type. */
    function CreateModelOfType(t: ModelType): (r: Option<ModelKind>)
      ensures r.None? <==> t.OtherType?
      ensures r.Some? ==> TypeOf(r.value) == t
    {
      match t
      case AssetType => Some(AssetModel)
      case PmdType => Some(PmdModel)
      case PmxType => Some(PmxModel)
      case OtherType(_) => None
    }

    /** The codec createModel(data, size, ok) picks: PMX before PMD, the asset codec for anything else. */
    function SniffModel(data: seq<byte>): (r: ModelKind)
      ensures r == PmxModel <==> StartsWith(data, PmxMagic)
      ensures r == PmdModel <==> !StartsWith(data, PmxMagic) && StartsWith(data, PmdMagic)
      ensures r == AssetModel <==> !StartsWith(data, PmxMagic) && !StartsWith(data, PmdMagic)
    {
      if |data| >= 4 && data[..4] == PmxMagic then PmxModel
      else if |data| >= 3 && data[..3] == PmdMagic then PmdModel
      else AssetModel
    }

    /** Factory::createModel(data, size, ok): the sniffed model, and ok set to that model's load result. */
    function CreateModelFromData(data: seq<byte>, load: (ModelKind, seq<byte>) -> bool): (r: ModelResult)
      ensures r.model == SniffModel(data)
      ensures r.ok == load(r.model, data)
    {
      var model := SniffModel(data);
      ModelResult(model, load(model, data))
    }

    /** The codec createMotion picks: VMD before MVD, none when neither signature matches. */
    function SniffMotion(data: seq<byte>): (r: Option<MotionKind>)
      requires Valid()
      ensures r == Some(VmdMotion) <==> MatchesSignature(data, vmdSignature)
      ensures r == Some(MvdMotion) <==> !MatchesSignature(data, vmdSignature) && MatchesSignature(data, mvdSignature)
      ensures r == None <==> !MatchesSignature(data, vmdSignature) && !MatchesSignature(data, mvdSignature)
    {
      if |data| >= vmdSignature.sizeOf && data[..vmdSignature.sizeOf - 1] == vmdSignature.bytes[..vmdSignature.sizeOf - 1] then
        Some(VmdMotion)
      else if |data| >= mvdSignature.sizeOf && data[..mvdSignature.sizeOf - 1] == mvdSignature.bytes[..mvdSignature.sizeOf - 1] then
        Some(MvdMotion)
      else
        None
    }

    /**
     * Factory::createMotion(data, size, model, ok).  The context holds the new motion while
     * it loads and is null again on return; `ok` keeps its old value when nothing matched.
     */
    method CreateMotion(data: seq<byte>, model: Option<nat>, ok: bool, load: (MotionKind, seq<byte>) -> bool)
      returns (r: MotionResult)
      requires Valid()
      modifies this`contextMotion
      ensures contextMotion == None
      ensures SniffMotion(data).None? ==> r == MotionResult(None, ok)
      ensures SniffMotion(data).Some? ==>
        r == MotionResult(Some(Motion(SniffMotion(data).value, model)), load(SniffMotion(data).value, data))
    {
      var motion: Option<Motion> := None;
      var result := ok;
      if |data| >= vmdSignature.sizeOf && data[..vmdSignature.sizeOf - 1] == vmdSignature.bytes[..vmdSignature.sizeOf - 1] {
        motion := Some(Motion(VmdMotion, model));
        contextMotion := motion;
        result := load(VmdMotion, data);
      } else if |data| >= mvdSignature.sizeOf && data[..mvdSignature.sizeOf - 1] == mvdSignature.bytes[..mvdSignature.sizeOf - 1] {
        motion := Some(Motion(MvdMotion, model));
        contextMotion := motion;
        result := load(MvdMotion, data);
      }
      contextMotion := None;
      r := MotionResult(motion, result);
    }
  }

  /** createModel(data, ...) never returns null: it returns what createModel(type) gives for the sniffed type. */
  lemma DataModelIsTypedModel(f: Factory, data: seq<byte>, load: (ModelKind, seq<byte>) -> bool)
    ensures f.CreateModelOfType(TypeOf(f.CreateModelFromData(data, load).model)) == Some(f.CreateModelFromData(data, load).model)
  {
  }

  /** Input starting with "PMX " is read as a PMX model, whatever follows the four bytes. */
  lemma PmxMagicHasPriority(f: Factory, data: seq<byte>, load: (ModelKind, seq<byte>) -> bool)
    requires StartsWith(data, PmxMagic)
    ensures f.CreateModelFromData(data, load).model == PmxModel
  {
  }

  /** Input shorter than three bytes always gives the asset codec. */
  lemma ShortInputIsAsset(f: Factory, data: seq<byte>)
    requires |data| < 3
    ensures f.SniffModel(data) == AssetModel
  {
  }

  /**
   * A file that carries the whole VMD signature followed by at least one more byte
   * (the signature's terminating NUL or the data after it) is read as VMD.
   */
  lemma VmdFileIsVmd(f: Factory, signature: seq<byte>, rest: seq<byte>)
    requires f.Valid()
    requires f.vmdSignature.sizeOf - 1 <= |signature|
    requires signature[..f.vmdSignature.sizeOf - 1] == f.vmdSignature.bytes[..f.vmdSignature.sizeOf - 1]
    requires |signature| + |rest| >= f.vmdSignature.sizeOf
    ensures f.SniffMotion(signature + rest) == Some(VmdMotion)
  {
    var data := signature + rest;
    assert data[..f.vmdSignature.sizeOf - 1] == signature[..f.vmdSignature.sizeOf - 1];
  }
}
