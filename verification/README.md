# Complexity calculator — a verified model

This project models `ComplexityCalculator` from `src/src/complexity_calculator.py`.
The class scores a scientific theory with three computable stand-ins for its
Kolmogorov complexity:

- **parameter complexity**: one term `log2((max - min) / precision)` for each declared parameter, summed;
- **structural complexity**: the compressed length of the lagrangian's text, plus 5 per declared symmetry and 3 per declared field;
- **predictive complexity**: `ln(sim_time + 1) + ln(memory + 1)`.

`total_complexity` combines the three with a weight triple. The default weights are `(0.5, 0.3, 0.2)`.

The model is the single module `ComplexityCalculator` in `complexity_calculator.dfy`.

- Python floats are exact `real`s.
- The foreign routines are function-valued parameters that the model never interprets. `log2` stands for `np.log2` and `ln` for `np.log`. `compressedLen` stands for `len(zlib.compress(s.encode()))`. The three are bundled as `Foreign` where `total_complexity` needs all of them.
- Where a property needs a law about a foreign routine, the lemma states that law as a `requires`. Examples: `ln(1) = 0`, `log2` increasing, `ln` of a product.
- The parameter dictionary is a `ParameterSet`: a sequence of `(name, descriptor)` entries in iteration order, with distinct names. Each descriptor is a `map<string, real>`. This keeps the missing-key failures and the visiting order visible.
- `parameter_complexity` updates an accumulator in a loop. It is the method `ComputeParameterComplexity`, proved equal to the recursive specification `ParameterComplexity`.
- The other three operations are single expressions and are modelled as functions.
- The theory specification is a `TheorySpec`. Each of its three keys is an `Option`, so an absent key can be told apart from an empty value.

How the code fails:

- **Exceptions.** The code raises Python's `KeyError` for a missing key, and `ZeroDivisionError` when a precision is zero. It raises nothing for a non-positive logarithm argument: numpy returns `-inf`/`nan`. The model's errors are therefore `KeyError(key)` and `ZeroDivisionError` only.
- **Key order.** The keys are read in the order `'min'`, `'max'`, `'precision'`. A descriptor lacking several keys therefore reports the first of these.

## Model

| member | source | states |
|---|---|---|
| `ComplexityCalculator.ParameterBits` | src/src/complexity_calculator.py:18-21 | A descriptor's term is `log2((max-min)/precision)` exactly when all three keys are present and precision ≠ 0. Otherwise the error is `KeyError('min')`, `KeyError('max')` or `KeyError('precision')`, the first key in that order that is missing, or `ZeroDivisionError` when precision is 0. |
| `ComplexityCalculator.ParameterComplexity` | src/src/complexity_calculator.py:14-23 | The specification of `parameter_complexity`. Entries are visited in iteration order, and the first failing entry ends the call with its error. Otherwise the result is the sum of one `log2((max-min)/precision)` term per entry. An empty mapping gives 0, and a one-parameter mapping gives exactly that parameter's term or its error. |
| `ComplexityCalculator.ComputeParameterComplexity` | src/src/complexity_calculator.py:14-23 | The accumulator loop returns exactly the specification `ParameterComplexity`: the sum of one term per entry, or the error of the first failing entry. An empty mapping scores 0. |
| `ComplexityCalculator.AppendEntry` | src/src/complexity_calculator.py:17-22 | Appending one parameter adds exactly that parameter's term. An earlier error, or an error of the new entry, is the result instead. |
| `ComplexityCalculator.FirstFailureDecides` | src/src/complexity_calculator.py:17-20 | If all entries before index k succeed and entry k fails, the whole call fails with entry k's error. Later entries do not matter. |
| `ComplexityCalculator.FailureHasFirstCause` | src/src/complexity_calculator.py:17-21 | Conversely, every failure is the error of some entry all of whose predecessors succeed. |
| `ComplexityCalculator.SucceedsIffAllReadable` | src/src/complexity_calculator.py:17-21 | A score is returned if and only if every descriptor has the three keys and a non-zero precision. |
| `ComplexityCalculator.ConcatAdds` | src/src/complexity_calculator.py:16-23 | The scores of two successful parameter lists add up when the lists are concatenated. |
| `ComplexityCalculator.OrderIrrelevant` | src/src/complexity_calculator.py:17-22 | With exact arithmetic, exchanging two blocks of successful parameters does not change the score. |
| `ComplexityCalculator.FinerPrecisionCostsMore` | src/src/complexity_calculator.py:18-22 | For one parameter with `min < max`, assume `log2` is strictly increasing. Then a strictly finer positive precision gives a strictly larger score, and both scores exist. |
| `ComplexityCalculator.StructuralComplexity` | src/src/complexity_calculator.py:25-37 | The structural score is a natural number. It is never below the compressed length of the lagrangian text. It equals that length exactly when no symmetry and no field is declared. |
| `ComplexityCalculator.AddSymmetryAddsFive` | src/src/complexity_calculator.py:31-37 | For a fixed lagrangian, one more symmetry raises the score by exactly 5. |
| `ComplexityCalculator.AddFieldAddsThree` | src/src/complexity_calculator.py:34-37 | For a fixed lagrangian, one more field raises the score by exactly 3. |
| `ComplexityCalculator.AbsentKeysDefaultToEmpty` | src/src/complexity_calculator.py:28-35 | An absent key scores like its default: `''` for the lagrangian, `[]` for the symmetries and for the fields. |
| `ComplexityCalculator.EmptySpecScore` | src/src/complexity_calculator.py:28-37 | The empty specification scores exactly the compressed length of `""`. |
| `ComplexityCalculator.PredictiveComplexity` | src/src/complexity_calculator.py:39-41 | `predictive_complexity` is `ln(sim_time + 1) + ln(memory + 1)`. Given `ln(1) = 0`, a zero cost contributes nothing: a zero time leaves only the memory term, and a zero memory leaves only the time term. |
| `ComplexityCalculator.PredictiveBaseline` | src/src/complexity_calculator.py:39-41 | Given `ln(1) = 0`, zero simulation time and zero memory give 0. |
| `ComplexityCalculator.DoublingTimeAddsConstant` | src/src/complexity_calculator.py:41 | Assume `ln` maps products of positives to sums. Then doubling `sim_time + 1` adds exactly `ln(2)`. |
| `ComplexityCalculator.TotalComplexity` | src/src/complexity_calculator.py:43-53 | The total fails if and only if some parameter descriptor is unreadable. In the model the structural and predictive estimators cannot fail. |
| `ComplexityCalculator.ParameterFailurePropagates` | src/src/complexity_calculator.py:47-49 | An error of `parameter_complexity` is the caller's result whatever the other inputs, so no partial score is returned. Otherwise a score is always produced. |
| `ComplexityCalculator.ZeroWeightsScoreZero` | src/src/complexity_calculator.py:51-53 | Weights `(0, 0, 0)` give exactly 0 whenever every logarithm argument is positive: every descriptor is readable with `(max - min) / precision > 0`, and both `sim_time` and `memory` exceed -1. |
| `ComplexityCalculator.TotalIsWeightedSum` | src/src/complexity_calculator.py:47-53 | Each unit weight selects exactly one estimator's score. The total for any weights is the weighted sum of those three scores. Both hold whenever every logarithm argument is positive. |
| `ComplexityCalculator.DefaultArguments` | src/src/complexity_calculator.py:43-53 | Called without the optional arguments, the total is `0.5·C_param + 0.3·C_struct + 0.2·(ln 2 + ln 2)`. |

## Left out

- The values of `np.log2`, `np.log` and `zlib.compress`. They are foreign routines, so the model takes them as uninterpreted parameters. No property depends on a particular compressor or on logarithm values, except where a lemma states the law it uses as a `requires`.
- Floating-point rounding, and the IEEE values `-inf` and `nan`. numpy returns these for a logarithm argument ≤ 0: `(max - min) / precision ≤ 0`, which happens when exactly one of `max - min` and `precision` is negative or when `max == min`, or `sim_time ≤ -1`, or `memory ≤ -1`. In the model such a term is whatever the `log2` or `ln` parameter returns. No domain error is raised, in line with the code.
- `ZeroDivisionError` is modelled as raised for a zero precision, which is the behaviour of Python numbers. If the descriptor held numpy scalars, the division would instead return `±inf`, or `nan` when also `max == min`, with a warning.
- ZeroWeightsScoreZero: stated only when every logarithm argument is positive. If some argument is ≤ 0, numpy returns `-inf` or `nan`, and `0 * -inf` makes the program return `nan` rather than 0.
- TotalIsWeightedSum: stated only when every logarithm argument is positive. Otherwise an estimator is `-inf` or `nan`, and a zero weight times it gives `nan`, so the unit-weight decomposition does not hold for the program.
- The `str()` rendering of an arbitrary lagrangian object, and its UTF-8 encoding. The lagrangian is modelled as its already-rendered text, so an explicit `None` is the text `"None"`. Outside the model: an object whose `str()` raises, and text that UTF-8 cannot encode.
- Non-numeric descriptor values, and symmetry or field values that are not sequences (`len(None)` raises `TypeError`). Descriptors map strings to reals, and symmetries and fields are sequences.
- Weight tuples of a length other than three, which would raise `IndexError` on a short tuple. The model's weights are a triple.
- Python's `int`/`float` distinction. An empty mapping returns the integer `0`, and the structural score is an integer. Both are read as reals, or as a `nat` for the structural score.
- The `complexity_cache` field. It is initialised and never read or written, so it has no behaviour to model.
- Determinism is not stated as a lemma. It holds by construction, because every operation of the model is a function of its inputs.
