/** Fit results and their parameter lookup (bqme/fit_object.py). Both
    backends answer `fit.<name>`; a name the backend does not know surfaces as
    the same AttributeError whichever backend produced the fit. */
module FitObjects {
  import opened Wrappers
  import opened Engine

  /** The Python exceptions the lookup can meet. */
  datatype PyError =
    | ValueError(message: string)
    | KeyError(key: string)
    | AttributeError(message: string)
    | OtherError(typeName: string, message: string)

  /** A parameter's fitted values (a numpy array in the source). */
  type Values = seq<real>

  /** The engine's sample collection: `extract(name)[name]`, which may fail. */
  datatype SampleSet = SampleSet(extract: string -> Result<Values, PyError>)

  /** `FitObjectSampling(model, stan_fit_object)` or
      `FitObjectOptimizing(model, opt_parameters)`; `model` is the compiled
      engine program that produced the result. */
  datatype FitObject =
    | FitSampling(model: Handle, samples: SampleSet)
    | FitOptimizing(model: Handle, opt: map<string, Values>)

  function ClassName(f: FitObject): string {
    match f
    case FitSampling(_, _) => "FitObjectSampling"
    case FitOptimizing(_, _) => "FitObjectOptimizing"
  }

  /** `_catch_error_access_parameter`: the one error kind each backend raises
      for an unknown name. */
  predicate Catches(f: FitObject, e: PyError) {
    match f
    case FitSampling(_, _) => e.ValueError?
    case FitOptimizing(_, _) => e.KeyError?
  }

  /** `_access_parameter(attr)`: the backend's own lookup. */
  function AccessParameter(f: FitObject, attr: string): (r: Result<Values, PyError>)
    ensures f.FitOptimizing? ==> (r.Success? <==> attr in f.opt)
    ensures f.FitOptimizing? && r.Success? ==> r.value == f.opt[attr]
    ensures f.FitOptimizing? && r.Failure? ==> r.error == KeyError(attr)
    ensures f.FitSampling? ==> r == f.samples.extract(attr)
  {
    match f
    case FitSampling(_, samples) => samples.extract(attr)
    case FitOptimizing(_, opt) => if attr in opt then Success(opt[attr]) else Failure(KeyError(attr))
  }

  /** The message of the uniform not-found error. */
  function NoAttribute(f: FitObject, attr: string): PyError {
    AttributeError("Object '" + ClassName(f) + "' has no attribute '" + attr + "'")
  }

  /** `FitObject.__getattr__(attr)`: the backend's lookup, with its designated
      error translated into an AttributeError and every other error passed on. */
  function GetAttr(f: FitObject, attr: string): (r: Result<Values, PyError>)
    ensures r.Failure? ==> !Catches(f, r.error)
    ensures r.Success? <==> AccessParameter(f, attr).Success?
  {
    match AccessParameter(f, attr)
    case Success(v) => Success(v)
    case Failure(e) => if Catches(f, e) then Failure(NoAttribute(f, attr)) else Failure(e)
  }

  /** Optimizing backend: a present key yields `opt[attr]` exactly; an absent
      one yields AttributeError, never KeyError. */
  lemma OptimizingLookup(h: Handle, opt: map<string, Values>, attr: string)
    ensures attr in opt ==> GetAttr(FitOptimizing(h, opt), attr) == Success(opt[attr])
    ensures attr !in opt ==>
              GetAttr(FitOptimizing(h, opt), attr)
              == Failure(AttributeError("Object '" + "FitObjectOptimizing" + "' has no attribute '" + attr + "'"))
  {
  }

  /** Sampling backend: a successful extraction is returned as is, a ValueError
      becomes AttributeError, and any other failure propagates unchanged. */
  lemma SamplingLookup(h: Handle, samples: SampleSet, attr: string)
    ensures samples.extract(attr).Success? ==> GetAttr(FitSampling(h, samples), attr) == samples.extract(attr)
    ensures samples.extract(attr).Failure? && samples.extract(attr).error.ValueError? ==>
              GetAttr(FitSampling(h, samples), attr)
              == Failure(AttributeError("Object '" + "FitObjectSampling" + "' has no attribute '" + attr + "'"))
    ensures samples.extract(attr).Failure? && !samples.extract(attr).error.ValueError? ==>
              GetAttr(FitSampling(h, samples), attr) == samples.extract(attr)
  {
  }

  /** Both backends report an unknown name the same way: the result of
      `__getattr__` is an AttributeError exactly when the backend raised its
      designated error, and the backend's error otherwise. */
  lemma UniformNotFound(f: FitObject, attr: string)
    requires AccessParameter(f, attr).Failure?
    ensures GetAttr(f, attr).Failure?
    ensures Catches(f, AccessParameter(f, attr).error) ==> GetAttr(f, attr).error.AttributeError?
    ensures !Catches(f, AccessParameter(f, attr).error) ==> GetAttr(f, attr) == AccessParameter(f, attr)
  {
  }
}
