# HSSM likelihood core in Dafny

This project models the likelihood core of HSSM, the hierarchical sequential
sampling modelling toolbox, and proves properties of it. The core computes the
log-likelihood of the drift diffusion model (DDM) from signed response times
(`rt`, `response`). It has five parts:

- **`Numerics`**: the real-number vocabulary the likelihoods use. Transcendental
  functions are uninterpreted arrows in a `Math` record, constrained only by the
  laws the proofs need (`exp` positive and additive, `log` its inverse on
  positives, `sqrt` non-negative). It also holds the maximum over a term axis,
  the shifted exponential sum and log-sum-exp, numpy's `arange`, floor and
  ceiling, and the `check_parameters` wrapper (`Checked`).
- **`Analytical`** (`likelihoods/analytical.py`): `compute_k`, which picks the
  fast (small-time) or slow (large-time) Navarro–Fuss series; the two series
  with their index ranges; `ftt01w`; and `logp_ddm` and `logp_ddm_sdv` on each
  row and on a vector, with their `LOGP_LB` floor and their parameter checks.
- **`Wfpt`** (`wfpt.py`): the older variant. It has the memoising
  `decision_func` closure as a class with mutable fields, its own `ftt01w`
  (log-sum-exp form, clamped at zero), and `log_pdf_sv`. Lemmas tie it to the
  analytical variant.
- **`Lan`** (`wfpt/lan/lan.py`): the structure of the likelihood-approximation
  network wrappers. It covers the vmap axes, the network input row, the
  vector-Jacobian product that drops the data cotangent, the pytensor `Op`
  nodes and their `grad`, the two `perform` methods writing output storage,
  and the input-matrix builder of `make_pytensor_logp`.
- **`Utils`** (`utils.py`): `Param` naming and the alias dictionary;
  `_process_param_in_kwargs`; `_generate_random_indices`; `_rearrange_data`,
  which moves missing rows first; and `_split_array`, with Python's floor
  division and numpy's `array_split`.

`Wrappers` holds `Option` and `Result`. A Python exception is modelled as a
`Failure` that carries the exception's message.

Where the documentation and the code disagree, the model follows the code:

- `make_jax_logp_funcs_from_onnx` (`src/hssm/wfpt/lan/lan.py:32`) builds its
  vmapped likelihood with the regression parameters mapped (`in_axes` entry `0`)
  and the others broadcast (`None`) (`src/hssm/wfpt/lan/lan.py:83-86`). Its
  docstring (`src/hssm/wfpt/lan/lan.py:44-47`) describes the opposite.
- `logp_ddm` and `logp_ddm_sdv` double `a` before they use or check it
  (`src/hssm/likelihoods/analytical.py:203`), so the `a >= 0` check is made on `2a`.
  `log_pdf_sv` in `wfpt.py` does not double `a`. `Wfpt.LogPdfSvMatchesAnalytical`
  relates the two by passing `a / 2` to the analytical variant.

- The two term counts of `compute_k` in `analytical.py` are combined with an
  arithmetic indicator blend (`src/hssm/likelihoods/analytical.py:44`, `:50`),
  not a select. Where the branch not taken takes the square root of a negative
  number, its NaN survives `maximum` and `0 * NaN`, so the count is NaN and the
  comparison `ks < kl` is false: the slow series is used. `Analytical.KSmall` and
  `Analytical.KLarge` return `None` for that NaN. `wfpt.py` uses `switch`, which
  has no such effect.

## Model

| member | source | states |
|---|---|---|
| Numerics.Blend | src/hssm/likelihoods/analytical.py:154 | the indicator blend `λ·x + (1−λ)·y` selects `x` when λ holds and `y` otherwise |
| Numerics.MaxOfIsMax | src/hssm/likelihoods/analytical.py:84 | the maximum over the term axis bounds every term and is attained by one of them |
| Numerics.ShiftedSumRescale | src/hssm/likelihoods/analytical.py:85 | `exp(c)·Σ y·exp(r−c) = Σ y·exp(r)` for any shift `c` |
| Numerics.LogSumExpIsSum | src/hssm/likelihoods/analytical.py:81-85 | shifted by the maximum `c`, every exponent is ≤ 0 and one is exactly 0, and the log-sum-exp form `exp(c)·Σ y·exp(r−c)` equals the plain sum `Σ y·exp(r)` |
| Numerics.Arange | src/hssm/likelihoods/analytical.py:77 | `arange(lo, hi)` has `max(hi−lo, 0)` entries and entry `i` is `lo + i` |
| Numerics.Messages | src/hssm/likelihoods/analytical.py:226-228 | the messages of a check list, in order, one per check |
| Analytical.KSmall | src/hssm/likelihoods/analytical.py:39-44 | the small-time count is NaN exactly when `_a > 1`; it is 2 when `_a = 1`, and `max(2 + √(−2·rt·log _a), √rt + 1)` when `_a < 1` |
| Analytical.SmallRootArgNegative | src/hssm/likelihoods/analytical.py:40-41 | for `_a > 1` the argument of the square root in `_b` is negative, which is where the NaN comes from |
| Analytical.KSmallAtLeastTwo | src/hssm/likelihoods/analytical.py:39-44 | wherever the small-time count is a number, it is at least 2 |
| Analytical.LargeRootArgNegative | src/hssm/likelihoods/analytical.py:37-47 | for `π·rt·err > 1` the argument of the square root in `__c` is negative, which is where the NaN comes from |
| Analytical.KLarge | src/hssm/likelihoods/analytical.py:46-50 | the large-time count is NaN exactly when `π·rt·err > 1`; otherwise it is at least `__b = 1/(π√rt)`; below 1 it is at least `__c`, and at exactly 1 it is `__b` |
| Analytical.ComputeK | src/hssm/likelihoods/analytical.py:22-52 | the fast series is chosen exactly when both counts are numbers and `ks < kl`, so never when `_a > 1` or `π·rt·err > 1` |
| Analytical.FastIndices | src/hssm/likelihoods/analytical.py:77-79 | the fast series runs over `k_terms` consecutive integers from `−⌊(k−1)/2⌋` to `⌈(k−1)/2⌉` |
| Analytical.FastIndicesAsWritten | src/hssm/likelihoods/analytical.py:77 | the floor/ceil-of-a-real bounds as written give the same range as integer halving |
| Analytical.SlowIndices | src/hssm/likelihoods/analytical.py:112 | the slow series runs over `1..k_terms` |
| Analytical.FastRowIsSeries | src/hssm/likelihoods/analytical.py:55-89 | the fast expansion equals `Σ_k (w+2k)·exp(−(w+2k)²/2tt) / √(2π tt³)` over its index range |
| Analytical.SlowRowIsSeries | src/hssm/likelihoods/analytical.py:92-117 | the slow expansion equals `π·Σ_{k=1..K} k·sin(kπw)·exp(−k²π²tt/2)` |
| Analytical.Ftt01wRow | src/hssm/likelihoods/analytical.py:118-156 | `ftt01w` is the fast series at `rt/a²` when `compute_k` chooses it and the slow series otherwise |
| Analytical.Prepare | src/hssm/likelihoods/analytical.py:199-213 | a positive response flips `v` to `−v` and `z` to `1−z`; `z` in [0,1] stays in [0,1]; a row is degenerate exactly when `abs(rt)−t ≤ ε`, which then uses `tt = ε`, and otherwise `tt = abs(rt)−t` |
| Analytical.FloorDensity | src/hssm/likelihoods/analytical.py:213 | the floored density is positive, at least `exp(LOGP_LB)`, and unchanged when already above the floor |
| Analytical.LogOfFlooredDensity | src/hssm/likelihoods/analytical.py:213-224 | the log of the floored density is never below `LOGP_LB` |
| Analytical.LogDensity | src/hssm/likelihoods/analytical.py:219 | `log p` of the floored density is at least `LOGP_LB` |
| Analytical.DdmLogp | src/hssm/likelihoods/analytical.py:215-224 | a degenerate row scores exactly `LOGP_LB`; otherwise the score plus the drift and `2 log a` penalty (`v·a·z + v²·tt/2 + 2 log a`, with the doubled `a`) is at least `LOGP_LB` |
| Analytical.SdvLogp | src/hssm/likelihoods/analytical.py:291-307 | a degenerate row scores exactly `LOGP_LB`; otherwise the score less the variability terms (the floored log density) is at least `LOGP_LB` |
| Analytical.DegenerateRow | src/hssm/likelihoods/analytical.py:208-224 | for `a > 0`, a row within ε of the non-decision time scores `LOGP_LB` in both `logp_ddm` and `logp_ddm_sdv`, whatever the drift, start and variability |
| Analytical.SdvAtZero | src/hssm/likelihoods/analytical.py:274-307 | with `sv = 0` the drift-variability row score equals the plain DDM row score |
| Analytical.ChoiceMirror | src/hssm/likelihoods/analytical.py:199-207 | an upper-bound response is scored as a lower-bound one with `v ↦ −v` and `z ↦ 1−z` |
| Analytical.ChoiceMirrorSdv | src/hssm/likelihoods/analytical.py:278-285 | the same mirror holds for `logp_ddm_sdv`, whatever `sv` |
| Analytical.DdmChecks | src/hssm/likelihoods/analytical.py:226-228 | the checks are `a >= 0`, `z >= 0`, `z <= 1` in that order, and all hold exactly when `2a ≥ 0` and `0 ≤ z ≤ 1` |
| Analytical.LogpDdm | src/hssm/likelihoods/analytical.py:159-229 | one score per `(rt, response)` row, each the row model, with the three checks, valid exactly when `a ≥ 0` and `0 ≤ z ≤ 1` |
| Analytical.LogpDdmSdv | src/hssm/likelihoods/analytical.py:232-313 | one score per row, each the sv row model; it agrees with `logp_ddm` when `sv = 0`; the fourth check `sv > 0` is appended, so valid exactly when also `sv > 0` |
| Wfpt.KSmallAtLeastTwo | src/hssm/wfpt.py:67-69 | for a positive time and error bound, the legacy small-time count is at least 2 |
| Wfpt.KLarge | src/hssm/wfpt.py:72-74 | the legacy large-time count is at least `1/(π√rt)`, and is exactly that when `π·rt·err ≥ 1` |
| Wfpt.LargeCountsAgree | src/hssm/wfpt.py:72-74 | up to `π·rt·err = 1` the legacy large-time count is the analytical one; beyond it the analytical count is NaN while the legacy `switch` still gives `1/(π√rt)` |
| Wfpt.ComputeK | src/hssm/wfpt.py:66-76 | a time at or below zero is never given the fast series (its NaN counts compare false); for a positive time the decision is `ks < kl` |
| Wfpt.DecisionCache.constructor | src/hssm/wfpt.py:33-35 | a new cache is empty and consistent |
| Wfpt.DecisionCache.Decide | src/hssm/wfpt.py:37-80 | the answer is always the fresh decision for the given `rt` and `err`; a hit leaves the memo unchanged; a miss stores `rt`, `err` and the answer |
| Wfpt.BroadcastHitIsStale | src/hssm/wfpt.py:56-61 | with the comparison as written, a key of another length can hit: `[1, 1]` after `[1]` gets one answer for two rows, `[1]` after `[1, 1]` gets two answers for one row, and `[]` after `[1]` gets one answer for no rows |
| Wfpt.FastRsAgree | src/hssm/wfpt.py:105-110 | the legacy fast exponents equal the analytical ones term by term |
| Wfpt.FastRowAgrees | src/hssm/wfpt.py:91-113 | the legacy log-sum-exp fast series equals the analytical fast series wherever the latter is positive |
| Wfpt.Clamp | src/hssm/wfpt.py:162 | `p·(p > 0)` is non-negative, keeps a positive `p` and maps a non-positive `p` to 0 |
| Wfpt.Ftt01wRow | src/hssm/wfpt.py:137-162 | the legacy density is never negative; the fast series is only evaluated for a positive time, the slow one for any |
| Wfpt.Ftt01wAgreesWithAnalytical | src/hssm/wfpt.py:137-162 | under the same series choice, where the analytical density is positive the legacy density equals it |
| Wfpt.Ftt01w | src/hssm/wfpt.py:137-162 | the vector density is the row model on each element, evaluated with the memoised decision; afterwards the memo holds these times, and a call that was a hit leaves the stored decision as it was |
| Wfpt.FlipStart | src/hssm/wfpt.py:190-192 | a positive datum flips `z` to `1−z`; otherwise `z` is kept |
| Wfpt.ChoiceMirror | src/hssm/wfpt.py:188-208 | an upper-bound datum `x > 0` scores as the datum `−x` with `v ↦ −v` and `z ↦ 1−z`; both have the same decision time |
| Wfpt.FlipDrift | src/hssm/wfpt.py:190-191 | a positive datum flips `v` to `−v`; otherwise `v` is kept |
| Wfpt.SvTermsAgree | src/hssm/wfpt.py:198-208 | the legacy drift-variability terms with `a` equal the analytical ones with `2·(a/2)` |
| Wfpt.LogPdfSvMatchesAnalytical | src/hssm/wfpt.py:165-208 | under the same series choice, a decision time above ε, and a density above the floor, `log_pdf_sv` with `a` equals the analytical sv row score with `a/2` |
| Wfpt.SvChecks | src/hssm/wfpt.py:210-216 | the checks are `sv >= 0` then `a >= 0`, with no check on `z`, and all hold exactly when `sv ≥ 0` and `a ≥ 0` |
| Wfpt.LogPdfSvAt | src/hssm/wfpt.py:188-208 | a datum at or before the non-decision time gets the clamped slow series at its (non-positive) decision time, then the sv terms |
| Wfpt.LogPdfSvValue | src/hssm/wfpt.py:165-219 | one score per datum; the checks are `sv >= 0` then `a >= 0` and hold exactly when `sv ≥ 0` and `a ≥ 0`; every datum at or before `t` is scored through the clamped slow series |
| Wfpt.LogPdfSv | src/hssm/wfpt.py:165-219 | the result is the value model evaluated through the memo; afterwards the memo holds the decision times, and a call that was a hit leaves the stored decision as it was |
| Lan.InAxes | src/hssm/wfpt/lan/lan.py:83-86 | data is mapped on axis 0; parameter `i` is mapped on axis 0 exactly when it is a regression and broadcast exactly when it is not |
| Lan.MappedParamsAreRegressions | src/hssm/wfpt/lan/lan.py:83-86 | the parameters vmap maps over are exactly the regression parameters |
| Lan.NetworkInput | src/hssm/wfpt/lan/lan.py:78 | the network input row is the parameters followed by the data row, in order |
| Lan.VjpVmapLogp | src/hssm/wfpt/lan/lan.py:105-106 | the returned cotangents are those of the parameters, the data cotangent dropped |
| Lan.VjpKeepsParamsInOrder | src/hssm/wfpt/lan/lan.py:105-106 | for a full VJP the result has one cotangent per parameter, the i-th with respect to parameter i, and none with respect to the data |
| Lan.MakeNode | src/hssm/wfpt/lan/lan.py:136-143 | the log-likelihood node takes the data then the parameters and has one float vector output |
| Lan.MakeVjpNode | src/hssm/wfpt/lan/lan.py:172-182 | the VJP node takes the data, the parameters and `gz`, and has one output per parameter with that parameter's type |
| Lan.Grad | src/hssm/wfpt/lan/lan.py:161-167 | one gradient entry per input, the data's entry being "not implemented" |
| Lan.GradMatchesInputs | src/hssm/wfpt/lan/lan.py:161-182 | for a log-likelihood node, the i-th parameter's gradient is output i of a VJP node over the node's inputs and `gz`, with the type of that parameter |
| Lan.PerformLogp | src/hssm/wfpt/lan/lan.py:145-159 | the single output cell holds the log-likelihood of the inputs |
| Lan.PerformVjp | src/hssm/wfpt/lan/lan.py:184-188 | every VJP result is written to its output cell in order and the rest are untouched; it succeeds exactly when there are enough cells |
| Lan.BuildInputMatrix | src/hssm/wfpt/lan/lan.py:225-236 | fails exactly when the data cannot be reshaped into two columns, a parameter index is out of bounds, or a parameter's shape does not fit (each failure carries a label of this model, not a numpy or pytensor message); otherwise `len(data)/2` rows of `n_params + 2` columns, the last two the data, column `i` parameter `i`, scalars broadcast, unset columns 0 |
| Lan.InputLayoutsAgree | src/hssm/wfpt/lan/lan.py:60-80 | with every parameter given, each row of the matrix is the single-row network input for that row's parameter values and data |
| Lan.UnwrittenColumnsAreZero | src/hssm/wfpt/lan/lan.py:229-234 | a parameter column no parameter fills is 0 in every row |
| Utils.Param.SetName | src/hssm/utils.py:233 | the parameter's name is set to the given name and nothing else changes |
| Utils.MakeAliasDictFromParent | src/hssm/utils.py:70-87 | fails unless the parameter is a named parent; a regression parent aliases the response term only; any other parent aliases the response term to `rt,response` and `Intercept` to its name |
| Utils.ProcessedSpec | src/hssm/utils.py:225-239 | numbers, priors and plain dicts are wrapped as `{"name", "prior"}`; a dict with `prior` or `bounds` keeps its keys and gains `name`; a `Param` is returned renamed; anything else fails with the source's message |
| Utils.ProcessParamInKwargs | src/hssm/utils.py:225-239 | the result is the processed specification, and a `Param` argument is renamed in place with its other fields kept |
| Utils.SampleSize | src/hssm/utils.py:264-280 | `n_draws ≤ 0` fails; no count, or a count above `n_draws`, means all draws; a float outside (0,1] or an int below 1 fails with its message; otherwise the size lies in `1..n_draws` |
| Utils.FractionSize | src/hssm/utils.py:277 | `max(int(f·n), 1)` for `f` in (0,1] lies between 1 and `n` |
| Utils.GenerateRandomIndices | src/hssm/utils.py:264-282 | fails and returns `None` exactly as the size computation does; otherwise it returns distinct indices below `n_draws`, as many as the size |
| Utils.ChoiceContractSatisfiable | src/hssm/utils.py:282 | the contract placed on `np.random.choice` without replacement can be met |
| Utils.SmallFractionSamplesOne | src/hssm/utils.py:277 | a fraction too small to give one whole draw still samples exactly one |
| Utils.RearrangeData | src/hssm/utils.py:331-342 | the rows whose first column is `-999.0` come first, followed by the others |
| Utils.RearrangeIsPermutation | src/hssm/utils.py:331-342 | rearranging neither adds nor drops rows: same length, same multiset |
| Utils.RearrangeIsStable | src/hssm/utils.py:331-342 | rearranging preserves the relative order within the missing rows and within the present rows |
| Utils.PyFloorDiv | src/hssm/utils.py:346 | Python `//`: the quotient is the floor of the real quotient, also for a negative divisor |
| Utils.PyMod | src/hssm/utils.py:346 | Python `%`: `n = d·(n // d) + n % d`, with the remainder taking the divisor's sign |
| Utils.NumSplitsIsCeiling | src/hssm/utils.py:346 | for a positive divisor, the number of splits is `⌈len/d⌉` |
| Utils.NegativeDivisorHasNoChunks | src/hssm/utils.py:346 | a negative divisor with non-empty data gives no positive number of splits |
| Utils.ArraySplit | src/hssm/utils.py:347 | `array_split` into `n` sections gives `n` chunks; chunk `i` has `len/n` elements plus one when `i < len % n`, and their concatenation is the input |
| Utils.SplitArray | src/hssm/utils.py:345-347 | divisor 0 fails with Python's zero-division message (from `//`), and a non-positive section count with `array_split`'s message; otherwise the chunks number as computed and concatenate to the data |
| Utils.SplitArrayChunks | src/hssm/utils.py:345-347 | for a positive divisor and non-empty data, there are `⌈len/d⌉` chunks, each of 1 to `d` elements, non-increasing, differing by at most one, concatenating to the data |

## Left out

- Floating point: the model is over exact reals, with no infinities, overflow, underflow or rounding, so the series truncation error bound `err` is a parameter and is never related to the true density. NaN is modelled only where it decides a result: the analytical term counts (`None`) and the legacy decision at a non-positive time (false).
- Transcendentals: `exp`, `log`, `sqrt` and `sin` are uninterpreted functions obeying a few laws. `log` of a non-positive number is an unspecified value, not NaN or `-inf`.
- Analytical.KSmall, Analytical.KLarge, Analytical.ComputeK: the NaN of a negative square root is `None`. The counts take `rt > 0`, which `logp_ddm` always passes (its time is at least `epsilon > 0`). An error bound `err ≤ 0`, where the source takes the log of a non-positive number, is not modelled as NaN: `log` there is an unspecified value.
- Analytical.Ftt01wRow: this requires `a ≠ 0`, `rt > 0` and `k_terms ≥ 1`, which is what `logp_ddm` passes. Analytical.LogpDdm, Analytical.LogpDdmSdv: these require `a ≠ 0`, `k_terms ≥ 1` and `epsilon > 0`. Outside those bounds numpy divides by zero or takes a maximum over an empty axis, which the real-number model cannot represent.
- Wfpt.ComputeK: for `rt ≤ 0` the decision is false, which is what the NaN counts give when `err > 0`. For `rt > 0` the counts are numbers, so no other NaN is modelled; `err ≤ 0` is not modelled as NaN.
- Wfpt.Ftt01wRow, Wfpt.Ftt01w: these require `a ≠ 0` and `k_terms ≥ 1`, and take the fast series only at a positive time. The source evaluates both series and `switch` discards the fast one, which divides by zero or takes the square root of a negative number at a non-positive time; the model evaluates only the series it keeps.
- Wfpt.LogPdfSvValue, Wfpt.LogPdfSvAt, Wfpt.LogPdfSv, Wfpt.ChoiceMirror: these require `a ≠ 0` and `k_terms ≥ 1`, as `Wfpt.Ftt01wRow` does, and `sv²·(|x| − t) + 1 ≠ 0` for every datum. Where that spread is 0 the source divides by zero, and at `a = 0` it takes `log 0`; both give an infinity or NaN, which the model cannot represent. The log of a clamped density of 0 is the unspecified `log 0`, not `-inf`. Rows are related to the analytical model only through `Wfpt.LogPdfSvMatchesAnalytical`, for decision times above `epsilon`.
- Analytical.DegenerateRow: the lemma also holds in the model for `a < 0`, where the source's row is `LOGP_LB + 0·NaN`, which is NaN, because `log` of the doubled `a` is NaN. The model's `log` of a negative number is an unspecified value. That case fails the `a >= 0` check, so only `a > 0` is claimed of the source.
- Analytical.LogpDdmSdv: `sv` is a number. The early return `if sv == 0` is a Python comparison that fires only for a numeric `sv`; a symbolic `sv` always takes the variability formula, which the model does not distinguish.
- Tensor shapes: parameters of `logp_ddm` and `log_pdf_sv` are scalars. Per-row parameter vectors broadcast by pytensor are not modelled.
- The `reshape(-1, 2)` of the analytical data is taken as already two-column rows (`Analytical.Row`). The `float32`/`float64` casts (`astype(floatX)`, `astype(int)`) are identities.
- The ONNX runtime, JAX `jit`, `vmap`, `vjp` and `jax_funcify` are not modelled. The network is a parameter, and only the layout of what is passed to it and returned from it is modelled.
- Lan.Grad: pytensor's convention of returning a bare output for a single-output node is not modelled. The gradient list always holds `Output` variables.
- Lan.BuildInputMatrix: shape errors are reported before any write, where `set_subtensor` would report them while building the graph. The observable outcome (which error, or which matrix) is the same.
- Utils.GenerateRandomIndices: `np.random.choice` is a parameter constrained by its contract (distinct indices below `n_draws`). Which indices are drawn is not modelled.
- `SampleSize` returns a warning-less `None` where the source also logs a warning.
- Python dictionaries are `map`s, so key insertion order is not modelled.
- `_rearrange_data` is modelled on rows. DataFrame index labels are not modelled, and a DataFrame behaves like the array branch.
- Wfpt.DecisionCache: the memo is not thread-safe in the source, and concurrency is not modelled. The memo is modelled as storing the value of `rt`, whereas the closure keeps a reference to the caller's array, so later mutation of that array by the caller is not modelled.
- Wfpt.BroadcastHitIsStale: the comparison is modelled with numpy's broadcasting of a length-1 array. Newer numpy versions raise on other mismatched lengths; in the model those compare unequal.
- Bambi and PyMC model wiring, the `WFPT` and `WFPTRandomVariable` classes, the HuggingFace download helpers, `set_floatX`, `_get_alias_dict`, `_print_prior` and `_random_sample` are outside the core and are not modelled.
- `hssm/param.py` is not part of this model. `prior["name"] = name` on a `Param` is taken to set its name (`Utils.Param.SetName`).

## Findings

| source | as written | input that shows it | evidently intended | confidence | as-written member | corrected member |
|---|---|---|---|---|---|---|
| src/hssm/wfpt.py:56-61 | the memo is hit when `np.all(rt == internal_rt)` and `err` match; `==` broadcasts, so a length-1 array on either side matches any array whose entries all equal its one entry, and `np.all` of the empty comparison is true | `inner_func([1.0])` then `inner_func([1.0, 1.0])` with the same `err`: the second call returns the stored one-element answer for two rows; `[1.0, 1.0]` then `[1.0]` returns two answers for one row; `[1.0]` then `[]` returns one answer for no rows | a hit only when `rt` is the same array (same length and entries) | low, not executed | Wfpt.BroadcastHitIsStale | Wfpt.DecisionCache.Decide |
