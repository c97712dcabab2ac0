/**
 Model of `ComplexityCalculator` (src/src/complexity_calculator.py): three
 computable proxies for the Kolmogorov complexity of a theory and their
 weighted combination.

 The foreign numeric routines the calculator calls are parameters of the
 model, never interpreted:
   - `log2`          stands for `np.log2`,
   - `ln`            stands for `np.log`,
   - `compressedLen` stands for `len(zlib.compress(s.encode()))`.
 Python floats are read as exact reals. Only the properties that hold for
 EVERY choice of these routines are proved, plus those that follow from a
 stated law about them (given as a `requires`).
 */
module ComplexityCalculator {

  // ---------------------------------------------------------------------------
  // Data model
  // ---------------------------------------------------------------------------

  datatype Option<T> = None | Some(value: T) {
    /** `dict.get(key, default)`: the stored value, or the default when absent. */
    function GetOr(default: T): T {
      match this
      case Some(v) => v
      case None => default
    }
  }

  /** The Python exceptions `parameter_complexity` can raise. */
  datatype Error =
    | KeyError(key: string)   // a descriptor lacks 'min', 'max' or 'precision'
    | ZeroDivisionError       // a descriptor's precision is zero

  /** A value, or the exception that ended the computation. */
  datatype Result<T> = Ok(value: T) | Err(error: Error)

  /** A parameter descriptor: the dictionary `{'min': .., 'max': .., 'precision': ..}`. */
  type Descriptor = map<string, real>

  const MinKey: string := "min"
  const MaxKey: string := "max"
  const PrecisionKey: string := "precision"

  /** One `(param_name, param_info)` item of the parameter dictionary. */
  datatype Entry = Entry(name: string, info: Descriptor)

  predicate DistinctNames(entries: seq<Entry>) {
    forall i, j :: 0 <= i < j < |entries| ==> entries[i].name != entries[j].name
  }

  /** The parameter dictionary: its items in iteration (= insertion) order, keys unique. */
  type ParameterSet = entries: seq<Entry> | DistinctNames(entries) witness []

  /** A theory specification: each of its three keys may be absent. The
      lagrangian is kept as its `str()` rendering. */
  datatype TheorySpec = TheorySpec(
    lagrangian: Option<string>,
    symmetries: Option<seq<string>>,
    fields: Option<seq<string>>)

  /** The three foreign numeric routines the calculator relies on. */
  datatype Foreign = Foreign(log2: real -> real, ln: real -> real, compressedLen: string -> nat)

  const DefaultWeights: (real, real, real) := (0.5, 0.3, 0.2)

  // ---------------------------------------------------------------------------
  // parameter_complexity
  // ---------------------------------------------------------------------------

  /** A descriptor from which one term can be computed: all three keys are
      present and the division by the precision does not raise. */
  predicate Readable(info: Descriptor) {
    MinKey in info && MaxKey in info && PrecisionKey in info && info[PrecisionKey] != 0.0
  }

  /** The bits one parameter contributes, log2((max - min) / precision). The
      keys are read in the order 'min', 'max', 'precision', so the first
      missing one is the one reported. */
  function ParameterBits(log2: real -> real, info: Descriptor): (r: Result<real>)
    ensures r == Err(KeyError(MinKey)) <==> MinKey !in info
    ensures r == Err(KeyError(MaxKey)) <==> MinKey in info && MaxKey !in info
    ensures r == Err(KeyError(PrecisionKey)) <==> MinKey in info && MaxKey in info && PrecisionKey !in info
    ensures r == Err(ZeroDivisionError) <==>
      MinKey in info && MaxKey in info && PrecisionKey in info && info[PrecisionKey] == 0.0
    ensures r.Ok? <==> Readable(info)
    ensures r.Ok? ==> r.value == log2((info[MaxKey] - info[MinKey]) / info[PrecisionKey])
  {
    if MinKey !in info then Err(KeyError(MinKey))
    else if MaxKey !in info then Err(KeyError(MaxKey))
    else if PrecisionKey !in info then Err(KeyError(PrecisionKey))
    else if info[PrecisionKey] == 0.0 then Err(ZeroDivisionError)
    else Ok(log2((info[MaxKey] - info[MinKey]) / info[PrecisionKey]))
  }

  /** Specification of `parameter_complexity`: entries are visited in order;
      the first one that fails ends the computation with its error, otherwise
      the result is the sum of one term per entry. */
  function ParameterComplexity(log2: real -> real, entries: seq<Entry>): (score: Result<real>)
    ensures |entries| == 0 ==> score == Ok(0.0)
    ensures |entries| == 1 ==> score == ParameterBits(log2, entries[0].info)
  {
    if |entries| == 0 then Ok(0.0)
    else
      match ParameterBits(log2, entries[0].info)
      case Err(e) => Err(e)
      case Ok(bits) =>
        match ParameterComplexity(log2, entries[1..])
        case Err(e) => Err(e)
        case Ok(rest) => Ok(bits + rest)
  }

  /** `parameter_complexity`: the accumulator loop over `parameters.items()`. */
  method ComputeParameterComplexity(log2: real -> real, parameters: ParameterSet) returns (r: Result<real>)
    ensures r == ParameterComplexity(log2, parameters)
  {
    var totalBits := 0.0;
    var i := 0;
    while i < |parameters|
      invariant 0 <= i <= |parameters|
      invariant ParameterComplexity(log2, parameters[..i]) == Ok(totalBits)
    {
      var info := parameters[i].info;
      var bits := ParameterBits(log2, info);
      if bits.Err? {
        FirstFailureDecides(log2, parameters, i);
        return Err(bits.error);
      }
      AppendEntry(log2, parameters[..i], parameters[i]);
      assert parameters[..i + 1] == parameters[..i] + [parameters[i]];
      totalBits := totalBits + bits.value;
      i := i + 1;
    }
    assert parameters[..i] == parameters;
    return Ok(totalBits);
  }

  /** Appending one parameter adds exactly that parameter's term. */
  lemma {:induction false} AppendEntry(log2: real -> real, entries: seq<Entry>, e: Entry)
    ensures ParameterComplexity(log2, entries + [e]) ==
      match ParameterComplexity(log2, entries)
      case Err(err) => Err(err)
      case Ok(total) =>
        match ParameterBits(log2, e.info)
        case Err(err) => Err(err)
        case Ok(bits) => Ok(total + bits)
  {
    if |entries| > 0 {
      assert (entries + [e])[1..] == entries[1..] + [e];
      AppendEntry(log2, entries[1..], e);
    }
  }

  /** If every entry before index k is readable and entry k is not, the
      whole computation fails with entry k's error. */
  lemma {:induction false} FirstFailureDecides(log2: real -> real, entries: seq<Entry>, k: nat)
    requires k < |entries|
    requires ParameterComplexity(log2, entries[..k]).Ok?
    requires ParameterBits(log2, entries[k].info).Err?
    ensures ParameterComplexity(log2, entries) == Err(ParameterBits(log2, entries[k].info).error)
  {
    if k > 0 {
      assert entries[..k][1..] == entries[1..][..k - 1];
      FirstFailureDecides(log2, entries[1..], k - 1);
    }
  }

  /** Conversely, every failure is the error of some entry all of whose
      predecessors are readable. */
  lemma {:induction false} FailureHasFirstCause(log2: real -> real, entries: seq<Entry>)
    requires ParameterComplexity(log2, entries).Err?
    ensures exists k ::
              && 0 <= k < |entries|
              && ParameterComplexity(log2, entries[..k]).Ok?
              && ParameterBits(log2, entries[k].info) == Err(ParameterComplexity(log2, entries).error)
  {
    if ParameterBits(log2, entries[0].info).Err? {
      assert entries[..0] == [];
    } else {
      FailureHasFirstCause(log2, entries[1..]);
      var k :| 0 <= k < |entries[1..]| && ParameterComplexity(log2, entries[1..][..k]).Ok? &&
        ParameterBits(log2, entries[1..][k].info) == Err(ParameterComplexity(log2, entries[1..]).error);
      assert entries[..k + 1][1..] == entries[1..][..k];
      assert ParameterComplexity(log2, entries[..k + 1]).Ok?;
    }
  }

  /** The score exists exactly when every descriptor is readable. */
  lemma {:induction false} SucceedsIffAllReadable(log2: real -> real, entries: seq<Entry>)
    ensures ParameterComplexity(log2, entries).Ok? <==>
      forall k :: 0 <= k < |entries| ==> Readable(entries[k].info)
  {
    if |entries| > 0 {
      SucceedsIffAllReadable(log2, entries[1..]);
      assert forall k :: 1 <= k < |entries| ==> entries[k] == entries[1..][k - 1];
    }
  }

  /** Scores of two parameter lists that both succeed add up. */
  lemma {:induction false} ConcatAdds(log2: real -> real, xs: seq<Entry>, ys: seq<Entry>)
    requires ParameterComplexity(log2, xs).Ok? && ParameterComplexity(log2, ys).Ok?
    ensures ParameterComplexity(log2, xs + ys) ==
      Ok(ParameterComplexity(log2, xs).value + ParameterComplexity(log2, ys).value)
  {
    if |xs| > 0 {
      assert (xs + ys)[1..] == xs[1..] + ys;
      ConcatAdds(log2, xs[1..], ys);
    } else {
      assert xs + ys == ys;
    }
  }

  /** When every entry is readable, the iteration order does not change the
      score: exchanging two blocks of parameters gives the same result. */
  lemma OrderIrrelevant(log2: real -> real, xs: seq<Entry>, ys: seq<Entry>)
    requires ParameterComplexity(log2, xs).Ok? && ParameterComplexity(log2, ys).Ok?
    ensures ParameterComplexity(log2, xs + ys) == ParameterComplexity(log2, ys + xs)
  {
    ConcatAdds(log2, xs, ys);
    ConcatAdds(log2, ys, xs);
  }

  /** A single parameter with a fixed range scores strictly more bits when its
      precision is finer, provided log2 is strictly increasing on the positives. */
  lemma FinerPrecisionCostsMore(log2: real -> real, name: string, lo: real, hi: real, fine: real, coarse: real)
    requires forall x: real, y: real :: 0.0 < x < y ==> log2(x) < log2(y)
    requires lo < hi && 0.0 < fine < coarse
    ensures ParameterComplexity(log2, [Entry(name, map[MinKey := lo, MaxKey := hi, PrecisionKey := fine])]).Ok?
    ensures ParameterComplexity(log2, [Entry(name, map[MinKey := lo, MaxKey := hi, PrecisionKey := coarse])]).Ok?
    ensures ParameterComplexity(log2, [Entry(name, map[MinKey := lo, MaxKey := hi, PrecisionKey := coarse])]).value
          < ParameterComplexity(log2, [Entry(name, map[MinKey := lo, MaxKey := hi, PrecisionKey := fine])]).value
  {
  }

  // ---------------------------------------------------------------------------
  // structural_complexity
  // ---------------------------------------------------------------------------

  /** `str(theory_spec.get('lagrangian', ''))`. */
  function LagrangianText(spec: TheorySpec): string {
    spec.lagrangian.GetOr("")
  }

  /** `len(theory_spec.get('symmetries', []))`. */
  function SymmetryCount(spec: TheorySpec): nat {
    |spec.symmetries.GetOr([])|
  }

  /** `len(theory_spec.get('fields', []))`. */
  function FieldCount(spec: TheorySpec): nat {
    |spec.fields.GetOr([])|
  }

  /** `structural_complexity`: compressed length of the lagrangian text plus
      flat penalties of 5 per symmetry and 3 per field. The result is never
      below the compressed length, and equals it exactly when the theory
      declares no symmetry and no field. */
  function StructuralComplexity(compressedLen: string -> nat, spec: TheorySpec): (r: nat)
    ensures r >= compressedLen(LagrangianText(spec))
    ensures r == compressedLen(LagrangianText(spec)) <==> SymmetryCount(spec) == 0 && FieldCount(spec) == 0
  {
    var compressedSize := compressedLen(LagrangianText(spec));
    var symmetryComplexity := SymmetryCount(spec) * 5;
    var fieldComplexity := FieldCount(spec) * 3;
    compressedSize + symmetryComplexity + fieldComplexity
  }

  /** Declaring one more symmetry raises the score by exactly 5. */
  lemma AddSymmetryAddsFive(compressedLen: string -> nat, spec: TheorySpec, symmetry: string)
    ensures StructuralComplexity(compressedLen, spec.(symmetries := Some(spec.symmetries.GetOr([]) + [symmetry])))
         == StructuralComplexity(compressedLen, spec) + 5
  {
  }

  /** Declaring one more field raises the score by exactly 3. */
  lemma AddFieldAddsThree(compressedLen: string -> nat, spec: TheorySpec, field: string)
    ensures StructuralComplexity(compressedLen, spec.(fields := Some(spec.fields.GetOr([]) + [field])))
         == StructuralComplexity(compressedLen, spec) + 3
  {
  }

  /** An absent key scores as its default: '' for the lagrangian, [] for the lists. */
  lemma AbsentKeysDefaultToEmpty(compressedLen: string -> nat, spec: TheorySpec)
    ensures StructuralComplexity(compressedLen, spec.(lagrangian := None))
         == StructuralComplexity(compressedLen, spec.(lagrangian := Some("")))
    ensures StructuralComplexity(compressedLen, spec.(symmetries := None))
         == StructuralComplexity(compressedLen, spec.(symmetries := Some([])))
    ensures StructuralComplexity(compressedLen, spec.(fields := None))
         == StructuralComplexity(compressedLen, spec.(fields := Some([])))
  {
  }

  /** The empty specification scores the compressed length of the empty string. */
  lemma EmptySpecScore(compressedLen: string -> nat)
    ensures StructuralComplexity(compressedLen, TheorySpec(None, None, None)) == compressedLen("")
  {
  }

  // ---------------------------------------------------------------------------
  // predictive_complexity
  // ---------------------------------------------------------------------------

  /** `predictive_complexity`: ln(simulation_time + 1) + ln(memory_usage + 1). */
  function PredictiveComplexity(ln: real -> real, simulationTime: real, memoryUsage: real): (r: real)
    ensures ln(1.0) == 0.0 && simulationTime == 0.0 ==> r == ln(memoryUsage + 1.0)
    ensures ln(1.0) == 0.0 && memoryUsage == 0.0 ==> r == ln(simulationTime + 1.0)
  {
    ln(simulationTime + 1.0) + ln(memoryUsage + 1.0)
  }

  /** No simulation cost means no predictive complexity, given ln(1) = 0. */
  lemma PredictiveBaseline(ln: real -> real)
    requires ln(1.0) == 0.0
    ensures PredictiveComplexity(ln, 0.0, 0.0) == 0.0
  {
  }

  /** Logarithmic scaling: if ln turns products of positives into sums, then
      doubling `simulation_time + 1` adds the constant ln(2), whatever the cost. */
  lemma DoublingTimeAddsConstant(ln: real -> real, simulationTime: real, memoryUsage: real)
    requires forall a: real, b: real :: 0.0 < a && 0.0 < b ==> ln(a * b) == ln(a) + ln(b)
    requires simulationTime > -1.0
    ensures PredictiveComplexity(ln, 2.0 * simulationTime + 1.0, memoryUsage)
         == PredictiveComplexity(ln, simulationTime, memoryUsage) + ln(2.0)
  {
    assert (2.0 * simulationTime + 1.0) + 1.0 == 2.0 * (simulationTime + 1.0);
    assert ln(2.0 * (simulationTime + 1.0)) == ln(2.0) + ln(simulationTime + 1.0);
  }

  // ---------------------------------------------------------------------------
  // total_complexity
  // ---------------------------------------------------------------------------

  /** `total_complexity`: the three estimators in the order parameters,
      structure, prediction, combined linearly by the weights. An error of
      `parameter_complexity` propagates; no partial score is produced. */
  function TotalComplexity(
    lib: Foreign, parameters: ParameterSet, theorySpec: TheorySpec,
    simTime: real := 1.0, memory: real := 1.0, weights: (real, real, real) := DefaultWeights): (r: Result<real>)
    ensures r.Err? <==> !forall k :: 0 <= k < |parameters| ==> Readable(parameters[k].info)
  {
    SucceedsIffAllReadable(lib.log2, parameters);
    match ParameterComplexity(lib.log2, parameters)
    case Err(e) => Err(e)
    case Ok(cParam) =>
      var cStruct := StructuralComplexity(lib.compressedLen, theorySpec);
      var cPred := PredictiveComplexity(lib.ln, simTime, memory);
      Ok(weights.0 * cParam + weights.1 * cStruct as real + weights.2 * cPred)
  }

  /** A failure of `parameter_complexity` is the caller-visible result,
      whatever the other inputs; otherwise the score is produced. */
  lemma ParameterFailurePropagates(
    lib: Foreign, parameters: ParameterSet, theorySpec: TheorySpec,
    simTime: real, memory: real, weights: (real, real, real))
    ensures ParameterComplexity(lib.log2, parameters).Err? ==>
      TotalComplexity(lib, parameters, theorySpec, simTime, memory, weights)
        == Err(ParameterComplexity(lib.log2, parameters).error)
    ensures ParameterComplexity(lib.log2, parameters).Ok? ==>
      TotalComplexity(lib, parameters, theorySpec, simTime, memory, weights).Ok?
  {
  }

  /** Every logarithm `total_complexity` takes has a positive argument:
      each descriptor is readable and (max - min) / precision > 0, and both
      costs exceed -1. On exactly these inputs numpy returns finite values,
      never -inf or nan. */
  predicate LogArgumentsPositive(parameters: seq<Entry>, simTime: real, memory: real) {
    && (forall k :: 0 <= k < |parameters| ==>
          && Readable(parameters[k].info)
          && (parameters[k].info[MaxKey] - parameters[k].info[MinKey]) / parameters[k].info[PrecisionKey] > 0.0)
    && simTime > -1.0
    && memory > -1.0
  }

  /** Weights (0, 0, 0) give 0 whenever every logarithm argument is positive. */
  lemma ZeroWeightsScoreZero(lib: Foreign, parameters: ParameterSet, theorySpec: TheorySpec, simTime: real, memory: real)
    requires LogArgumentsPositive(parameters, simTime, memory)
    ensures TotalComplexity(lib, parameters, theorySpec, simTime, memory, (0.0, 0.0, 0.0)) == Ok(0.0)
  {
    SucceedsIffAllReadable(lib.log2, parameters);
  }

  /** The score is linear in the weights: it is the weighted sum of the
      scores obtained with each unit weight alone, and each unit weight
      selects one estimator, whenever every logarithm argument is positive. */
  lemma TotalIsWeightedSum(
    lib: Foreign, parameters: ParameterSet, theorySpec: TheorySpec,
    simTime: real, memory: real, weights: (real, real, real))
    requires LogArgumentsPositive(parameters, simTime, memory)
    ensures TotalComplexity(lib, parameters, theorySpec, simTime, memory, (1.0, 0.0, 0.0))
         == ParameterComplexity(lib.log2, parameters)
    ensures TotalComplexity(lib, parameters, theorySpec, simTime, memory, (0.0, 1.0, 0.0))
         == Ok(StructuralComplexity(lib.compressedLen, theorySpec) as real)
    ensures TotalComplexity(lib, parameters, theorySpec, simTime, memory, (0.0, 0.0, 1.0))
         == Ok(PredictiveComplexity(lib.ln, simTime, memory))
    ensures TotalComplexity(lib, parameters, theorySpec, simTime, memory, weights).value
         == weights.0 * TotalComplexity(lib, parameters, theorySpec, simTime, memory, (1.0, 0.0, 0.0)).value
          + weights.1 * TotalComplexity(lib, parameters, theorySpec, simTime, memory, (0.0, 1.0, 0.0)).value
          + weights.2 * TotalComplexity(lib, parameters, theorySpec, simTime, memory, (0.0, 0.0, 1.0)).value
  {
    SucceedsIffAllReadable(lib.log2, parameters);
  }

  /** With the default arguments the score is 0.5·C_param + 0.3·C_struct + 0.2·C_pred
      at a simulation time and memory of 1. */
  lemma DefaultArguments(lib: Foreign, parameters: ParameterSet, theorySpec: TheorySpec)
    requires ParameterComplexity(lib.log2, parameters).Ok?
    ensures TotalComplexity(lib, parameters, theorySpec)
         == Ok(0.5 * ParameterComplexity(lib.log2, parameters).value
             + 0.3 * StructuralComplexity(lib.compressedLen, theorySpec) as real
             + 0.2 * (lib.ln(2.0) + lib.ln(2.0)))
  {
  }
}
