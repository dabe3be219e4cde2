/** The random anonymization strategy (`RandomAnonymizer`): it replaces every
    embedding of a batch either by the embedding multiplied with random integer
    masks, or, when per-dimension statistics were loaded ("in scale"), by a
    vector drawn uniformly inside the per-dimension ranges. The statistics are
    loaded lazily, on the first read of `scaling_ranges`.

    Randomness is an oracle: `masks(j, i)` is the integer torch draws for
    dimension i of the j-th vector, `units(j, i)` the number in [0, 1) numpy
    scales into the i-th range for the j-th vector. */
module RandomAnon {
  import opened Wrappers
  import opened StatsLoader
  import opened Embeddings

  /** `random_(-40, 40)` draws integers from the half-open range [-40, 40). */
  const MaskLow: int := -40
  const MaskHigh: int := 40

  type MaskOracle = (nat, nat) -> int
  type UnitOracle = (nat, nat) -> real

  ghost predicate MasksInRange(masks: MaskOracle)
  {
    forall j: nat, i: nat :: MaskLow <= masks(j, i) < MaskHigh
  }

  ghost predicate UnitsInRange(units: UnitOracle)
  {
    forall j: nat, i: nat :: 0.0 <= units(j, i) < 1.0
  }

  // ---------------------------------------------------------------------
  // Construction and the lazily loaded scaling ranges
  // ---------------------------------------------------------------------

  /** `model_name if model_name else f"random_{vec_type}"`; an empty name is
      falsy and replaced too. */
  function ModelName(vecType: string, modelName: Option<string>): (name: string)
    ensures |name| > 0
    ensures modelName.Some? && modelName.value != "" ==> name == modelName.value
    ensures modelName.None? || modelName.value == "" ==> name == "random_" + vecType
  {
    if modelName.Some? && modelName.value != "" then modelName.value else "random_" + vecType
  }

  /** The two attributes behind `scaling_ranges`, as one state:
      Unset         `stats_per_dim_path` is None, `_scaling_ranges` never assigned;
      Pending(p)    `stats_per_dim_path` is p, `_scaling_ranges` never assigned;
      Loaded(r)     `stats_per_dim_path` is None, `_scaling_ranges` is r
                    (None when the strategy is not in scale). */
  datatype CacheState = Unset | Pending(path: string) | Loaded(ranges: Option<seq<DimRange>>)

  /** The state the constructor leaves. */
  function InitialState(inScale: bool, statsPerDimPath: Option<string>): (s: CacheState)
    ensures !inScale ==> s == Loaded(None)
    ensures inScale && statsPerDimPath.None? ==> s == Unset
    ensures inScale && statsPerDimPath.Some? ==> s == Pending(statsPerDimPath.value)
  {
    if !inScale then Loaded(None)
    else if statsPerDimPath.Some? then Pending(statsPerDimPath.value)
    else Unset
  }

  /** What one read of `scaling_ranges` returns, the state it leaves, and how
      many times it called the loader. */
  datatype ReadOutcome = ReadOutcome(result: Result<Option<seq<DimRange>>>, next: CacheState, loaderCalls: nat)

  /** One read of the `scaling_ranges` property. */
  function ReadScalingRanges(s: CacheState, fs: FileSystem): (o: ReadOutcome)
    ensures o.loaderCalls == (if s.Pending? then 1 else 0)
    ensures s.Pending? ==> o.result == (match LoadScalingRanges(fs, Some(s.path))
                                         case Ok(rs) => Ok(Some(rs))
                                         case Err(e) => Err(e))
    ensures o.result.Ok? ==> o.next == Loaded(o.result.value)
    ensures o.result.Err? ==> o.next == s
    ensures s.Loaded? ==> o.result == Ok(s.ranges)
    ensures s.Unset? ==> o.result == Err(AttributeError)
  {
    match s
    case Unset => ReadOutcome(Err(AttributeError), s, 0)
    case Loaded(ranges) => ReadOutcome(Ok(ranges), s, 0)
    case Pending(path) =>
      match LoadScalingRanges(fs, Some(path))
      case Err(e) => ReadOutcome(Err(e), s, 1)
      case Ok(ranges) => ReadOutcome(Ok(Some(ranges)), Loaded(Some(ranges)), 1)
  }

  /** After a successful read every later read returns the same value, leaves
      the state alone and calls no loader, whatever the files now hold. */
  lemma ReadIsCached(s: CacheState, fs: FileSystem, later: FileSystem)
    ensures var o := ReadScalingRanges(s, fs);
      o.result.Ok? ==> ReadScalingRanges(o.next, later) == ReadOutcome(o.result, o.next, 0)
  {
  }

  /** A read that fails to load keeps the path pending, so the next read
      tries the loader again. */
  lemma FailedLoadIsRetried(path: string, fs: FileSystem)
    ensures var o := ReadScalingRanges(Pending(path), fs);
      o.result.Err? ==> o.next == Pending(path) && ReadScalingRanges(o.next, fs).loaderCalls == 1
  {
  }

  /** A strategy that is not in scale reads None without touching any file. */
  lemma NotInScaleReadsNone(path: Option<string>, fs: FileSystem)
    ensures ReadScalingRanges(InitialState(false, path), fs) == ReadOutcome(Ok(None), Loaded(None), 0)
  {
  }

  /** In scale without a path the property raises: the loader's default file
      is never reached through it, even when that file exists. */
  lemma InScaleWithoutPathFails(fs: FileSystem)
    requires DefaultStatsPath in fs
    ensures ReadScalingRanges(InitialState(true, None), fs).result == Err(AttributeError)
    ensures ReadScalingRanges(InitialState(true, None), fs).loaderCalls == 0
  {
  }

  // ---------------------------------------------------------------------
  // The two ways of producing an anonymous vector
  // ---------------------------------------------------------------------

  /** `vector * mask` for the j-th vector. */
  function MaskVector(v: Vector, j: nat, masks: MaskOracle): (w: Vector)
    ensures |w| == |v|
  {
    seq(|v|, i requires 0 <= i < |v| => v[i] * masks(j, i) as real)
  }

  function Abs(x: real): real { if x < 0.0 then -x else x }

  /** Each masked coordinate is the input coordinate scaled by an integer in
      [-40, 39]: zero where the mask is zero, and at most 40 times as large. */
  lemma MaskedCoordinate(v: Vector, j: nat, masks: MaskOracle, i: nat)
    requires MasksInRange(masks) && i < |v|
    ensures MaskVector(v, j, masks)[i] == v[i] * masks(j, i) as real
    ensures MaskLow <= masks(j, i) < MaskHigh
    ensures masks(j, i) == 0 ==> MaskVector(v, j, masks)[i] == 0.0
    ensures Abs(MaskVector(v, j, masks)[i]) <= 40.0 * Abs(v[i])
  {
    ScaledBound(v[i], masks(j, i) as real, 40.0);
  }

  lemma ScaledBound(x: real, m: real, bound: real)
    requires -bound <= m <= bound
    ensures Abs(x * m) <= bound * Abs(x)
  {
  }

  /** `np.random.uniform(min, max)`: min + (max - min) * u for u in [0, 1).
      The draw is the point a fraction u of the way from min to max. */
  function Draw(r: DimRange, u: real): (d: real)
    ensures d == (1.0 - u) * r.min + u * r.max
    ensures u == 0.0 ==> d == r.min
  {
    r.min + (r.max - r.min) * u
  }

  /** `d` is a possible `np.random.uniform(r.min, r.max)`: in [min, max) when
      min < max, min itself when they are equal, in (max, min] otherwise. */
  predicate WithinRange(d: real, r: DimRange)
  {
    && (r.min < r.max ==> r.min <= d < r.max)
    && (r.min == r.max ==> d == r.min)
    && (r.max < r.min ==> r.max < d <= r.min)
  }

  lemma DrawWithinRange(r: DimRange, u: real)
    requires 0.0 <= u < 1.0
    ensures WithinRange(Draw(r, u), r)
  {
    var w := r.max - r.min;
    var d := Draw(r, u);
    assert d - r.min == w * u;
    assert r.max - d == w * (1.0 - u);
    if w > 0.0 {
      ProductSigns(w, u);
      ProductSigns(w, 1.0 - u);
    } else if w < 0.0 {
      ProductSigns(-w, u);
      ProductSigns(-w, 1.0 - u);
      assert w * u == -((-w) * u);
      assert w * (1.0 - u) == -((-w) * (1.0 - u));
    }
  }

  lemma ProductSigns(a: real, b: real)
    requires a > 0.0 && b >= 0.0
    ensures a * b >= 0.0
    ensures b > 0.0 ==> a * b > 0.0
  {
  }

  /** The fresh vector for the j-th entry: one draw per stored range. */
  function DrawVector(ranges: seq<DimRange>, j: nat, units: UnitOracle): (w: Vector)
    ensures |w| == |ranges|
  {
    seq(|ranges|, i requires 0 <= i < |ranges| => Draw(ranges[i], units(j, i)))
  }

  // ---------------------------------------------------------------------
  // The batches the two paths return
  // ---------------------------------------------------------------------

  /** Python truthiness of the cached ranges: a non-empty list. */
  predicate UsesScale(ranges: Option<seq<DimRange>>): (b: bool)
    ensures b <==> ranges != None && ranges != Some([])
  {
    ranges.Some? && |ranges.value| > 0
  }

  /** The batch the mask path returns (`anonymize_embeddings`, else branch). */
  function MaskedBatch(vecType: string, device: string, batch: SpeakerEmbeddings, embLevel: string,
                       masks: MaskOracle): (r: Result<SpeakerEmbeddings>)
    requires batch.Valid()
    ensures r.Ok? <==> |batch.vectors| > 0
    ensures r.Err? ==> r.error == EmptyStack
    ensures r.Ok? ==> r.value.Valid() && r.value.identifiers == batch.identifiers
    ensures r.Ok? ==> r.value.genders == batch.genders && r.value.speakers == batch.speakers
    ensures r.Ok? ==> r.value.vecType == vecType && r.value.device == device && r.value.embLevel == Some(embLevel)
    ensures r.Ok? ==> |r.value.vectors| == |batch.vectors| && forall j :: 0 <= j < |batch.vectors| ==>
      r.value.vectors[j] == MaskVector(batch.vectors[j], j, masks)
  {
    if |batch.vectors| == 0 then Err(EmptyStack)
    else
      var vectors := seq(|batch.vectors|, j requires 0 <= j < |batch.vectors| => MaskVector(batch.vectors[j], j, masks));
      Ok(SpeakerEmbeddings(vecType, device, Some(embLevel), batch.identifiers, vectors, batch.genders, batch.speakers))
  }

  /** The batch the in-scale path returns (`_anonymize_data_in_scale`); it is
      built without the caller's `emb_level`. */
  function InScaleBatch(vecType: string, device: string, batch: SpeakerEmbeddings, ranges: seq<DimRange>,
                        units: UnitOracle): (r: Result<SpeakerEmbeddings>)
    requires batch.Valid()
    ensures r.Ok? <==> |batch.vectors| > 0
    ensures r.Err? ==> r.error == EmptyStack
    ensures r.Ok? ==> r.value.Valid() && r.value.identifiers == batch.identifiers
    ensures r.Ok? ==> r.value.genders == batch.genders && r.value.speakers == batch.speakers
    ensures r.Ok? ==> r.value.vecType == vecType && r.value.device == device && r.value.embLevel == None
    ensures r.Ok? ==> |r.value.vectors| == |batch.vectors| && forall j :: 0 <= j < |batch.vectors| ==>
      r.value.vectors[j] == DrawVector(ranges, j, units)
  {
    if |batch.vectors| == 0 then Err(EmptyStack)
    else
      var vectors := seq(|batch.vectors|, j requires 0 <= j < |batch.vectors| => DrawVector(ranges, j, units));
      Ok(SpeakerEmbeddings(vecType, device, None, batch.identifiers, vectors, batch.genders, batch.speakers))
  }

  /** Every in-scale coordinate is the oracle's own draw from its own range, and the
      output has one coordinate per range, whatever the input's dimension. */
  lemma InScaleWithinRanges(vecType: string, device: string, batch: SpeakerEmbeddings,
                            ranges: seq<DimRange>, units: UnitOracle, j: nat, i: nat)
    requires batch.Valid() && UnitsInRange(units)
    requires InScaleBatch(vecType, device, batch, ranges, units).Ok?
    requires j < |batch.vectors| && i < |ranges|
    ensures |InScaleBatch(vecType, device, batch, ranges, units).value.vectors[j]| == |ranges|
    ensures InScaleBatch(vecType, device, batch, ranges, units).value.vectors[j][i] == Draw(ranges[i], units(j, i))
    ensures WithinRange(InScaleBatch(vecType, device, batch, ranges, units).value.vectors[j][i], ranges[i])
  {
    DrawWithinRange(ranges[i], units(j, i));
  }

  /** The in-scale vectors do not depend on the input vectors' values or
      dimension: two batches of the same size get the same vectors. */
  lemma InScaleIgnoresInput(vecType: string, device: string, a: SpeakerEmbeddings, b: SpeakerEmbeddings,
                            ranges: seq<DimRange>, units: UnitOracle)
    requires a.Valid() && b.Valid() && |a.vectors| == |b.vectors|
    ensures InScaleBatch(vecType, device, a, ranges, units).Ok? ==>
      InScaleBatch(vecType, device, a, ranges, units).value.vectors
        == InScaleBatch(vecType, device, b, ranges, units).value.vectors
  {
  }

  /** `anonymize_embeddings` after its read of `scaling_ranges`: a failed read
      propagates, non-empty ranges select the in-scale path, None or an empty
      list the mask path. */
  function Dispatch(vecType: string, device: string, read: Result<Option<seq<DimRange>>>,
                    batch: SpeakerEmbeddings, embLevel: string, masks: MaskOracle, units: UnitOracle)
    : (r: Result<SpeakerEmbeddings>)
    requires batch.Valid()
    ensures read.Err? ==> r == Err(read.error)
    ensures read.Ok? && UsesScale(read.value) ==> r == InScaleBatch(vecType, device, batch, read.value.value, units)
    ensures read.Ok? && !UsesScale(read.value) ==> r == MaskedBatch(vecType, device, batch, embLevel, masks)
    ensures read.Ok? ==> (r.Ok? <==> |batch.vectors| > 0)
    ensures r.Ok? ==> r.value.Valid() && r.value.identifiers == batch.identifiers
    ensures r.Ok? ==> |r.value.vectors| == |batch.vectors|
    ensures r.Ok? ==> r.value.genders == batch.genders && r.value.speakers == batch.speakers
    ensures r.Ok? && UsesScale(read.value) ==> r.value.embLevel == None
    ensures r.Ok? && UsesScale(read.value) ==>
      forall j :: 0 <= j < |batch.vectors| ==> |r.value.vectors[j]| == |read.value.value|
    ensures r.Ok? && !UsesScale(read.value) ==> r.value.embLevel == Some(embLevel)
    ensures r.Ok? && !UsesScale(read.value) ==>
      forall j :: 0 <= j < |batch.vectors| ==> |r.value.vectors[j]| == |batch.vectors[j]|
  {
    match read
    case Err(e) => Err(e)
    case Ok(ranges) =>
      if UsesScale(ranges) then InScaleBatch(vecType, device, batch, ranges.value, units)
      else MaskedBatch(vecType, device, batch, embLevel, masks)
  }

  /** An empty statistics file falls back to masking. */
  lemma EmptyStatsFallBackToMask(vecType: string, device: string, batch: SpeakerEmbeddings, embLevel: string,
                                 masks: MaskOracle, units: UnitOracle)
    requires batch.Valid()
    ensures Dispatch(vecType, device, Ok(Some([])), batch, embLevel, masks, units)
      == MaskedBatch(vecType, device, batch, embLevel, masks)
  {
  }

  // ---------------------------------------------------------------------
  // The strategy object
  // ---------------------------------------------------------------------

  class RandomAnonymizer {
    const device: string
    const vecType: string
    const modelName: string
    /** `stats_per_dim_path` and `_scaling_ranges`. */
    var state: CacheState
    /** How many times `_load_scaling_ranges` has been called. */
    ghost var loaderCalls: nat

    /** `__init__`, with the source's defaults for every argument but the device. */
    constructor (device: string, vecType: string := "xvector", modelName: Option<string> := None,
                 inScale: bool := false, statsPerDimPath: Option<string> := None)
      ensures this.device == device && this.vecType == vecType
      ensures this.modelName == ModelName(vecType, modelName)
      ensures state == InitialState(inScale, statsPerDimPath)
      ensures loaderCalls == 0
    {
      this.device := device;
      this.vecType := vecType;
      this.modelName := ModelName(vecType, modelName);
      if inScale {
        state := if statsPerDimPath.Some? then Pending(statsPerDimPath.value) else Unset;
      } else {
        state := Loaded(None);
      }
      loaderCalls := 0;
    }

    /** The `scaling_ranges` property. */
    method ScalingRanges(fs: FileSystem) returns (r: Result<Option<seq<DimRange>>>)
      modifies this`state, this`loaderCalls
      ensures var o := ReadScalingRanges(old(state), fs);
        r == o.result && state == o.next && loaderCalls == old(loaderCalls) + o.loaderCalls
    {
      match state
      case Unset =>
        r := Err(AttributeError);
      case Loaded(ranges) =>
        r := Ok(ranges);
      case Pending(path) =>
        var loaded := LoadScalingRanges(fs, Some(path));
        loaderCalls := loaderCalls + 1;
        if loaded.Err? {
          r := Err(loaded.error);
        } else {
          state := Loaded(Some(loaded.value));
          r := Ok(Some(loaded.value));
        }
    }

    /** `anonymize_embeddings`. The file system and the two oracles stand
        before `emb_level`, which keeps its default "spk". */
    method AnonymizeEmbeddings(batch: SpeakerEmbeddings, fs: FileSystem, masks: MaskOracle, units: UnitOracle,
                               embLevel: string := "spk")
      returns (r: Result<SpeakerEmbeddings>)
      requires batch.Valid()
      modifies this`state, this`loaderCalls
      ensures var o := ReadScalingRanges(old(state), fs);
        && state == o.next && loaderCalls == old(loaderCalls) + o.loaderCalls
        && r == Dispatch(vecType, device, o.result, batch, embLevel, masks, units)
    {
      var ranges := ScalingRanges(fs);
      if ranges.Err? {
        r := Err(ranges.error);
      } else if UsesScale(ranges.value) {
        r := AnonymizeDataInScale(batch, units);
      } else {
        r := AnonymizeMasked(batch, embLevel, masks);
      }
    }

    /** The mask path of `anonymize_embeddings`: one fresh integer mask per
        vector, multiplied in element-wise. */
    method AnonymizeMasked(batch: SpeakerEmbeddings, embLevel: string, masks: MaskOracle)
      returns (r: Result<SpeakerEmbeddings>)
      requires batch.Valid()
      ensures r == MaskedBatch(vecType, device, batch, embLevel, masks)
    {
      var identifiers: seq<string> := [];
      var anonVectors: seq<Vector> := [];
      var speakers := batch.speakers;
      var genders := batch.genders;
      var j := 0;
      while j < |batch.vectors|
        invariant 0 <= j <= |batch.vectors|
        invariant identifiers == batch.identifiers[..j]
        invariant |anonVectors| == j
        invariant forall k :: 0 <= k < j ==> anonVectors[k] == MaskVector(batch.vectors[k], k, masks)
      {
        var anonVec := MaskVector(batch.vectors[j], j, masks);
        identifiers := identifiers + [batch.identifiers[j]];
        anonVectors := anonVectors + [anonVec];
        j := j + 1;
      }
      if |anonVectors| == 0 {
        r := Err(EmptyStack);
      } else {
        assert identifiers == batch.identifiers;
        assert anonVectors == MaskedBatch(vecType, device, batch, embLevel, masks).value.vectors;
        r := Ok(SpeakerEmbeddings(vecType, device, Some(embLevel), identifiers, anonVectors, genders, speakers));
      }
    }

    /** `_anonymize_data_in_scale`: one fresh draw per stored range for every
        vector; the input vector's values are never read. */
    method AnonymizeDataInScale(batch: SpeakerEmbeddings, units: UnitOracle)
      returns (r: Result<SpeakerEmbeddings>)
      requires batch.Valid()
      requires state.Loaded? && state.ranges.Some?
      ensures r == InScaleBatch(vecType, device, batch, state.ranges.value, units)
    {
      var identifiers: seq<string> := [];
      var anonVectors: seq<Vector> := [];
      var speakers := batch.speakers;
      var genders := batch.genders;
      var j := 0;
      while j < |batch.vectors|
        invariant 0 <= j <= |batch.vectors|
        invariant identifiers == batch.identifiers[..j]
        invariant |anonVectors| == j
        invariant forall k :: 0 <= k < j ==> anonVectors[k] == DrawVector(state.ranges.value, k, units)
      {
        var anonVec := DrawVector(state.ranges.value, j, units);
        identifiers := identifiers + [batch.identifiers[j]];
        anonVectors := anonVectors + [anonVec];
        j := j + 1;
      }
      if |anonVectors| == 0 {
        r := Err(EmptyStack);
      } else {
        assert identifiers == batch.identifiers;
        assert anonVectors == InScaleBatch(vecType, device, batch, state.ranges.value, units).value.vectors;
        r := Ok(SpeakerEmbeddings(vecType, device, None, identifiers, anonVectors, genders, speakers));
      }
    }
  }
}
