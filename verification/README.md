# bqme core in Dafny

A model of the core of **bqme**, a Bayesian quantile-matching library. A user
describes priors as `Normal` or `Gamma` distributions. Each distribution's
parameters are range-checked `Variable`s. The priors go into a
quantile-matching model (`QM` or one of its families `NormalQM`, `GammaQM`,
`LognormalQM` and `WeibullQM`). The model turns a program template into the
inference engine's program text. Before any fit it checks the observed
quantiles against its domain. Its two entry points compile the program
only when nothing is cached yet; an explicit `compile()` always compiles
again. Either entry point, `sampling` or `optimizing`, returns a fit object. The
fit object answers `fit.<parameter>` and turns an unknown name into an
`AttributeError` in the same way for both backends.

Modules:

- `Wrappers`: `Option`, `Result` and `Outcome`.
- `ExtendedReals`: the reals with `-inf` and `inf`, and strict ordering.
- `Engine`: the handle of a compiled engine program.
- `Strings`: `str.join`, `str.replace` and ASCII `str.lower`.
- `Variables`: `bqme/variables.py`.
- `Distributions`: `bqme/distributions.py`.
- `FitObjects`: `bqme/fit_object.py`.
- `Models`: `bqme/models.py`.

Python exceptions are modelled as values. A constructor or call returns a
`Result` or `Outcome` whose error carries the facts the source's message
cites. `QM.model`, the cached compiled program, is the only state that
changes. Each call returns its new state together with its outcome, in a
`Step`. The engine, the template file's text and each distribution's
`code()` come in through an `External` record of functions, so every
property holds for every engine behaviour.

Numbers are kept as a pair: the value, and the text `str()` gives for it.
In Python `0 == 0.0`, but `str(0)` is `"0"` and `str(0.0)` is `"0.0"`, and
the display tests depend on that difference.

Facts about the code that the model follows:

- `bqme/distributions.py:1` imports `PositivContinuousVariable`, but
  `bqme/variables.py` defines only `PositiveContinuousVariable`. The model
  reads both as the class defined at `bqme/variables.py:28-35`.
- Every error the library raises itself is a `ValueError`: a variable out
  of range (`bqme/variables.py:15`), a prior that is not a Distribution
  (`bqme/models.py:40`) and a quantile outside the domain
  (`bqme/models.py:76`). Besides these, the base class's missing domain
  raises a TypeError (below), `__getattr__` raises AttributeError, and
  errors of the engine pass through unchanged (`EngineFailure`).
- The domain error reports the domain `(minn, maxx)`, not the offending
  values (`bqme/models.py:76`).
- `parametersnames` lists the priors' own names, not their dict keys
  (`bqme/models.py:54-56`).
- The family token removes every `QM` from the class name with
  `str.replace`, not only a trailing one (`bqme/models.py:49`). For the five
  class names this gives the same result.
- `compile()` itself always compiles. The memoisation is in `sampling` and
  `optimizing`, which compile only when nothing is cached
  (`bqme/models.py:85-86`, `90`, `97`).
- For a sampling fit, an unknown name is detected by the engine's
  `extract`, which raises ValueError (`bqme/fit_object.py:26-29`). The
  library keeps no list of parameter names to check against.
- The fit object's `model` field holds the compiled engine program, because
  the code passes `self.model`. It is not the `QM`
  (`bqme/models.py:93`, `100`).
- The base class `QM` has `domain()` returning `None`. `_check_domain` then
  fails to unpack it with a TypeError, modelled as `DomainUndefined`.

## Model

| member | source | states |
|---|---|---|
| Variables.NewVariable | bqme/variables.py:5-15 | A variable is built exactly when `lower < value < upper`. It stores value, name and bounds as given. Otherwise the error names the variable, both bounds and the value. |
| Variables.Approve | bqme/variables.py:11-15 | `approve` returns the value itself iff it is strictly inside the bounds, and otherwise raises the error naming the variable, both bounds and the value. |
| Variables.BoundsAreStrict | bqme/variables.py:12 | The comparison is strict: a value equal to either bound is refused, and so is every value when `lower` is not below `upper`. |
| Variables.InfiniteValueRejected | bqme/variables.py:12 | `inf` and `-inf` are refused whatever the bounds, because the bounds are strict. |
| Variables.ContinuousVariable | bqme/variables.py:22-25 | Bounds are `(-inf, inf)`. Every finite value is accepted and no infinite value is. |
| Variables.PositiveContinuousVariable | bqme/variables.py:32-35 | Bounds are `(0., inf)`. It accepts exactly the finite values above zero. |
| Variables.PositiveRejectsNonPositive | tests/test_variables.py:18-20 | Zero and every negative value are refused by a positive variable. |
| Distributions.NewNormal | bqme/distributions.py:28-36 | `Normal(mu, sigma, name)` succeeds iff mu is finite and sigma is finite and positive. The result keeps both values under the keys `mu` and `sigma`, in that order. The error reports mu when mu is bad, and sigma otherwise, because mu is checked first. |
| Distributions.NewGamma | bqme/distributions.py:43-51 | `Gamma(alpha, beta, name)` succeeds iff both are finite and positive. The result keeps both values under the keys `alpha` and `beta`, in that order. The error reports the first bad parameter. |
| Distributions.DisplayFormat | bqme/distributions.py:13-18 | The display is the class name, then `key=text` for each parameter in dict order separated by `, `, then `name="NAME"` in parentheses. `__repr__` (lines 20-21) is the same string. |
| Distributions.Display | bqme/distributions.py:13-21 | `str(d)` and `repr(d)` start with the class name and `(`, and end with `)`. |
| Distributions.NewNormalDisplay | bqme/distributions.py:13-36 | A built Normal prints the texts of the two arguments it was given. |
| Distributions.NewGammaDisplay | bqme/distributions.py:13-51 | A built Gamma prints the texts of the two arguments it was given. |
| Distributions.DisplayKeepsIntegerText | tests/test_distributions.py:4-7 | `Normal(0, 1, name='mu')` prints `Normal(mu=0, sigma=1, name="mu")`. |
| Distributions.DisplayKeepsMixedText | tests/test_distributions.py:6-8 | `Normal(1., 2, name='mu2')` prints `mu=1.0` and `sigma=2`. |
| Distributions.DisplayGammaExample | tests/test_distributions.py:18-22 | `Gamma(1, 1.2, name='somethingelse')` prints `Gamma(alpha=1, beta=1.2, name="somethingelse")`. |
| Distributions.RejectedExamples | tests/test_distributions.py:32-36 | `Normal(0, 0)` is refused because of sigma. `Gamma(-1., 2)` is refused because of alpha. |
| FitObjects.GetAttr | bqme/fit_object.py:7-15 | `fit.<attr>` succeeds exactly when the backend lookup does. A failure is never the backend's designated error, because that error is translated. |
| FitObjects.AccessParameter | bqme/fit_object.py:41-42 | The optimizing backend succeeds iff the name is a key of `opt`, giving `opt[name]`, and otherwise raises KeyError naming it. The sampling backend (lines 28-29) returns whatever `extract` gives. |
| FitObjects.OptimizingLookup | bqme/fit_object.py:36-42 | On an optimizing fit, a known name gives `opt[name]`. An unknown name gives `AttributeError("Object 'FitObjectOptimizing' has no attribute 'NAME'")`, never a KeyError. |
| FitObjects.SamplingLookup | bqme/fit_object.py:23-29 | On a sampling fit, a successful extraction is returned unchanged. A ValueError becomes the AttributeError naming `FitObjectSampling`. Any other error passes through unchanged. |
| FitObjects.UniformNotFound | bqme/fit_object.py:7-15 | Both backends report a failed lookup the same way. The backend's designated error becomes an AttributeError, and every other error is returned unchanged. |
| Models.CheckDict | bqme/models.py:37-41 | Succeeds iff every value is a Distribution, and then returns the same entries in the same order. Otherwise the error names the first non-Distribution entry's key, the model's class name and the value's type. |
| Models.NewQM | bqme/models.py:25-27 | A model is built iff `_check_dict` accepts. It keeps its class and the priors in dict order, and nothing is compiled yet. A failure is exactly `_check_dict`'s error: the first bad key, the class name and the type. |
| Models.NewFamilyQM | bqme/models.py:122-126 | `NormalQM(mu, sigma)` stores its two priors under `mu` and `sigma`, and nothing is compiled. `GammaQM` (lines 151-155) uses `alpha` and `beta`, `LognormalQM` (180-184) `mu` and `sigma`, and `WeibullQM` (209-213) `alpha` and `sigma`. It succeeds iff both arguments are Distributions, and the error names the first bad argument's key. |
| Models.CheckDictExample | tests/test_models.py:9-16 | The base class refuses `{'a': Normal(...), 'b': 1.}`, naming key `b`, class `QM` and type `float`. |
| Models.DisplayTwoPriors | bqme/models.py:29-35 | A two-prior model prints as `ClassName(` then the two priors' displays separated by `, ` then `)`. `__repr__` is the same string. |
| Models.Display | bqme/models.py:29-35 | `str(model)` and `repr(model)` start with the class name and `(`, and end with `)`. |
| Models.NormalQMDisplayExample | tests/test_models.py:21-26 | `NormalQM(Normal(0., 1., 'mu'), Gamma(1., 1., 'sigma'))` prints `NormalQM(Normal(mu=0.0, sigma=1.0, name="mu"), Gamma(alpha=1.0, beta=1.0, name="sigma"))`. |
| Models.TemplateReplacements | bqme/models.py:53-62 | There are exactly six replacements, keyed `parametersnames`, `parameters`, `priors`, `cdf`, `lpdf`, `rng`, in that order. |
| Models.ReplacementKeysPlain | bqme/models.py:53-62 | The six keys hold no `$` and are pairwise different. |
| Models.FamilyTokenPlain | bqme/models.py:59-61 | The `_cdf`, `_lpdf` and `_rng` texts hold no `$`. |
| Models.FamilyNameOfSuffix | bqme/models.py:49 | A class name made of a plain prefix and `QM` gives the lower-cased prefix as its family token. |
| Models.FamilyNameNormal | bqme/models.py:49 | NormalQM's family token (class name with `QM` removed, lower-cased) is `normal`. |
| Models.FamilyNameGamma | bqme/models.py:49 | GammaQM's family token is `gamma`. |
| Models.FamilyNameLognormal | bqme/models.py:49 | LognormalQM's family token is `lognormal`. |
| Models.FamilyNameWeibull | bqme/models.py:49 | WeibullQM's family token is `weibull`. |
| Models.FamilyNameBase | bqme/models.py:49 | The base class `QM` loses its whole name and gets the empty family token. |
| Models.FamilyTokenIsFamilyName | bqme/models.py:49 | The code generator's table of family tokens equals, for every class, the class name with `QM` removed and lower-cased. |
| Models.FamilyName | bqme/models.py:49 | `self.__class__.__name__.replace("QM", "").lower()`: the result holds no upper-case letter. FamilyTokenIsFamilyName gives its value for every class. |
| Models.FamilyToken | bqme/models.py:49 | The token table the code generator uses: empty exactly for the base class, and never holding a `$`. It equals FamilyName (FamilyTokenIsFamilyName). |
| Models.ReplacementsIgnoreKeys | bqme/models.py:50-56 | The replacements depend only on the priors, never on their dict keys. `parametersnames` lists the priors' own names. |
| Models.PriorNames | bqme/models.py:54-56 | `[p.name for p in self.parameters_dict.values()]`: one name per prior, in dict order, each the prior's own name. |
| Models.Pieces | bqme/models.py:50-52 | The list inside `build(s)`: one fragment per prior, in dict order, the declaration for `parameter` and the prior statement for `prior`. |
| Models.ReplacementsTwoPriors | tests/test_models.py:28-39 | For two priors, the names are joined by `, `. The declarations and the prior statements are each joined by a newline and four spaces. The `cdf`, `lpdf` and `rng` texts are the family token with `_cdf`, `_lpdf` and `_rng` appended, so NormalQM gives `normal_cdf`, `normal_lpdf` and `normal_rng`. |
| Models.ApplyInSequence | bqme/models.py:68-69 | Substitution is applied key after key. Applying a list is applying its first part and then its second part. |
| Models.ApplyOne | bqme/models.py:69 | One replacement is one `str.replace` of `$key$` by the value. |
| Models.ApplyReplacements | bqme/models.py:68-69 | The substitution loop: each `$key$` replaced in list order. A template with no `$` comes out unchanged. |
| Models.ApplyTwo | bqme/models.py:68-69 | Two replacements are two `str.replace` calls, the first key first. |
| Models.PlaceholderNotInOther | bqme/models.py:69 | The placeholder `$k1$` does not occur in `$k2$` followed by text without `$`, when `k1 != k2` and neither contains `$`. |
| Models.ReplaceFirstOfTwo | bqme/models.py:69 | In `t0 $k1$ t1 $k2$ t2`, replacing `$k1$` replaces exactly the first placeholder and leaves `$k2$` in place. |
| Models.ApplyTwoPlaceholders | bqme/models.py:65-70 | `t0 $k1$ t1 $k2$ t2` with distinct keys, applied in key order, becomes `t0 v1 t1 v2 t2` when no text or value contains `$`: every placeholder is replaced and nothing else changes. |
| Models.ApplyOnePlaceholder | bqme/models.py:68-69 | With plain, distinct keys, a template `t0 $key$ t1` holding the placeholder of one key of the list becomes `t0 value t1`, and every other key finds nothing to replace. |
| Models.ApplyFirstAndLater | bqme/models.py:68-69 | With plain, distinct keys, the placeholders of the first key and of a later key, between plain texts, are both replaced by their values, and nothing else changes. |
| Models.ReplaceInPlainText | bqme/models.py:69 | A text without `$` is unchanged by replacing any placeholder. |
| Models.Code | bqme/models.py:80-83 | The `code` property: the template with the six replacements of `_template_replacements` applied (lines 65-70). A template without placeholders is the program as it stands. CodeOnePlaceholder, CodeCdfPlaceholder and CodeNamesAndCdf state what each placeholder becomes. |
| Models.CodeOnePlaceholder | bqme/models.py:65-70 | For a template `t0 $key$ t1` with plain texts and any of the six keys, `code` is `t0`, that key's replacement text and `t1`, provided the text holds no `$`. |
| Models.CodeCdfToken | bqme/models.py:59 | `$cdf$` between plain texts becomes the family token followed by `_cdf`. |
| Models.CodeCdfPlaceholder | bqme/models.py:49 | `$cdf$` between plain texts becomes the class name without `QM`, lower-cased, followed by `_cdf` (line 59), e.g. `normal_cdf` for NormalQM. |
| Models.CodeNamesAndCdf | bqme/models.py:54-59 | A template `t0 $parametersnames$ t1 $cdf$ t2` becomes `t0`, the priors' names joined by `, `, `t1`, the family's `_cdf` function and `t2`, for any priors whose names hold no `$`. |
| Models.Outside | bqme/models.py:74-75 | The filtered list contains exactly the values not strictly inside `(minn, maxx)`. It is empty iff every value is inside. |
| Models.CheckDomain | bqme/models.py:72-76 | A family model accepts the quantiles iff every one is strictly inside its domain. Otherwise the error reports the domain. The base class, whose domain is None, always fails. |
| Models.Domain | bqme/models.py:78 | `domain()` is None exactly for the base class (line 78). Every family has an interval `(lo, inf)` with `lo < inf`: `(-inf, inf)` for NormalQM (lines 128-129) and `(0, inf)` for the others (157-158, 186-187, 215-216). |
| Models.NormalDomain | bqme/models.py:128-129 | NormalQM accepts exactly the finite values. |
| Models.PositiveDomain | bqme/models.py:157-158 | GammaQM, LognormalQM and WeibullQM (lines 186-187 and 215-216) accept exactly the finite values above 0 and report the domain `(0, inf)`. |
| Models.Compile | bqme/models.py:85-86 | Succeeds iff the engine compiles the generated code. The engine's program is then cached and class and priors are kept. A failed compile leaves the model unchanged and reports the engine's error. |
| Models.Ready | bqme/models.py:90 | A cached program is reused without compiling. When nothing is cached the result is exactly `Compile`: the engine's program for the generated code is cached, or its error is reported with the model unchanged. Class and priors never change. |
| Models.Sampling | bqme/models.py:88-93 | A failed domain check returns its error and leaves the model unchanged. After a passed check the model ends in the state `Ready` leaves. A failed compile is reported as the engine's error. With a program, the call succeeds iff the engine's sampling does, and a failure is the engine's error. A result is a sampling fit on the cached program holding the engine's samples for `{N, M=len(q), q, X}`. An already compiled model stays unchanged. |
| Models.Optimizing | bqme/models.py:95-100 | The same as `Sampling`, with the engine's point estimate in place of its samples: domain check first, the state `Ready` leaves, a failed compile reported, and success iff the engine's optimizing succeeds. |
| Models.SamplingAndOptimizingAgree | bqme/models.py:88-100 | Both entry points leave the model in the same state. Until a program is cached, they fail in the same way. |
| Models.CachedProgramIsKept | bqme/models.py:88-100 | Once a program is cached, no series of `sampling` and `optimizing` calls changes the model, so every later fit uses that program and neither entry point compiles again. |
| Models.RunAllKeepsPriors | bqme/models.py:88-100 | Any series of calls keeps the class and the priors, and keeps a cached program. |
| Models.NegativeQuantileRefused | tests/test_models.py:75-83 | GammaQM refuses `X = [-0.1, 1.0, 1.4]` in both entry points before compiling. LognormalQM and WeibullQM refuse it too. |
| Strings.JoinAppend | bqme/models.py:50-56 | `sep.join` puts the separator only between parts. Appending a part appends the separator and that part. |
| Strings.JoinKeepsOut | bqme/models.py:50-56 | A character in neither the separator nor any part is not in the join. |
| Strings.Join | bqme/models.py:50-56 | `sep.join(parts)`. The first part is a prefix of the result. |
| Strings.OccursInTail | bqme/models.py:69 | An occurrence of a pattern in `s[1..]` is an occurrence in `s`, one index later. |
| Strings.ReplaceIsJoinOfSplit | bqme/models.py:69 | `s.replace(pat, rep)` (left to right, non-overlapping) equals `rep.join(s.split(pat))`. |
| Strings.SplitJoinRoundTrip | bqme/models.py:69 | `pat.join(s.split(pat)) == s`. |
| Strings.SplitPiecesFree | bqme/models.py:69 | No piece of `s.split(pat)` contains `pat`: every occurrence the left-to-right scan takes is a boundary between pieces, and none is hidden inside a piece. |
| Strings.Split | bqme/models.py:69 | `s.split(pat)` always returns at least one piece. |
| Strings.HeadPieceFree | bqme/models.py:69 | The first piece of a split that does not start with the pattern is free of the pattern when the rest's first piece is. |
| Strings.ReplaceAll | bqme/models.py:69 | `s.replace(pat, rep)` for a non-empty pattern, left to right and non-overlapping. Replacing a pattern by itself changes nothing. |
| Strings.ReplaceSkipsPlainPrefix | bqme/models.py:69 | Text before the first possible match is copied unchanged. |
| Strings.ReplaceAbsent | bqme/models.py:69 | A string in which the pattern does not occur at any index is left unchanged. |
| Strings.FirstCharAbsent | bqme/models.py:69 | A pattern cannot occur in a string that lacks its first character. |
| Strings.ReplacePlaceholder | bqme/models.py:69 | One occurrence of a pattern in otherwise plain text is replaced exactly there. |
| Strings.LowerFamilyWords | bqme/models.py:49 | `.lower()` maps `Normal`, `Gamma`, `Lognormal` and `Weibull` to their lower-case forms. |
| Strings.Lower | bqme/models.py:49 | `.lower()` keeps the length, turns every upper-case ASCII letter into its lower-case counterpart (32 code points on), and keeps every other character. |

## Left out

- The inference engine (`StanModel`, `sampling`, `optimizing` and `extract`) is an uninterpreted parameter of `External`. Every property holds whatever the engine returns.
- Reading the template file at `STAN_TEMPLATE_PATH` is left out. Its text is a parameter, and I/O errors while reading it are not modelled.
- `multiprocessing.set_start_method("fork")` is left out, because it is process configuration with no effect on the model's values.
- Each distribution's `code()`, its `domain`, and the `Lognormal` and `Weibull` distribution classes that the tests import are not part of this model. `code()` is the `codeOf` parameter.
- The base `Distribution` class built directly with an arbitrary `parameters_dict` is left out. Distributions are the closed sum of `Normal` and `Gamma`.
- NaN has no counterpart in `ExtReal`. In Python every comparison with NaN is false, so a NaN value or quantile is refused just like an out-of-range one.
- Values that cannot be compared, which raise TypeError in Python, are excluded by the types.
- How Python formats a float as text is not modelled. A number's text is an opaque field.
- `Strings.Lower` lowers ASCII letters only. Every class name it is applied to is ASCII.
- Exception messages are modelled as data carrying the values they cite, with two exceptions. The AttributeError of `__getattr__` is modelled as its exact text. The base class's failure to unpack a `None` domain (a TypeError) is `DomainUndefined`.
- Exception subclasses are not modelled, so `except ValueError` is read as catching ValueError exactly.
- `FitObjects.GetAttr` models only the `__getattr__` fallback. Attributes a fit object really has (`model`, `stan_obj`, `opt`) are found by Python before it and are not modelled.
- For a sampling fit, `extract(attr)[attr]` is one lookup whose failure is any Python error.
- `bqme/fit_object.py` defines no other query than attribute lookup (no `pdf`, `cdf` or `ppf`, no matrix of all samples), so there is nothing more to model there.
- Models.RunAll: models series of `sampling` and `optimizing` calls only. A direct `compile()`, which always recompiles and replaces the cached program, is modelled by `Models.Compile` on its own.
- Models.Code: what `code` makes of a template is stated for one placeholder of any of the six keys (Models.CodeOnePlaceholder) and for `$parametersnames$` followed by `$cdf$` (Models.CodeNamesAndCdf), not for a template holding all six, for the reason given on the next line.
- Models.ApplyTwoPlaceholders: proves the substitution for templates holding two placeholders, not for the six of a real template. Models.CodeOnePlaceholder and Models.CodeNamesAndCdf state what `code` makes of one placeholder of any key, and of `$parametersnames$` followed by `$cdf$`. With more placeholders, a `$` closing one placeholder, the text after it and the `$` opening the next can spell another key's placeholder, which `str.replace` would then replace. A general statement needs conditions on the texts between placeholders.
- A parameters dict is a sequence of key–value pairs in insertion order. Uniqueness of keys is not required, because nothing in the core relies on it.
