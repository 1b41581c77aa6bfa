/** Distribution value objects built from validated variables
    (bqme/distributions.py). The two families the source defines form a
    closed sum type. */
module Distributions {
  import opened Wrappers
  import opened ExtendedReals
  import opened Variables
  import opened Strings

  datatype Distribution =
    | Normal(mu: Variable, sigma: Variable, name: string)
    | Gamma(alpha: Variable, beta: Variable, name: string)

  /** `self.__class__.__name__`. */
  function ClassName(d: Distribution): string {
    match d
    case Normal(_, _, _) => "Normal"
    case Gamma(_, _, _) => "Gamma"
  }

  /** `parameters_dict`: role name to variable, in the family's fixed order. */
  function Parameters(d: Distribution): seq<(string, Variable)> {
    match d
    case Normal(mu, sigma, _) => [("mu", mu), ("sigma", sigma)]
    case Gamma(alpha, beta, _) => [("alpha", alpha), ("beta", beta)]
  }

  predicate IsFinite(n: Number) { n.amount.Fin? }

  predicate IsPositive(n: Number) { n.amount.Fin? && n.amount.r > 0.0 }

  /** What the constructors guarantee: each variable carries its role name and
      the bounds of its kind, and holds a value inside them. */
  predicate Valid(d: Distribution) {
    match d
    case Normal(mu, sigma, _) =>
      mu == Variable(mu.value, "mu", NegInf, PosInf) && IsFinite(mu.value)
      && sigma == Variable(sigma.value, "sigma", Fin(0.0), PosInf) && IsPositive(sigma.value)
    case Gamma(alpha, beta, _) =>
      alpha == Variable(alpha.value, "alpha", Fin(0.0), PosInf) && IsPositive(alpha.value)
      && beta == Variable(beta.value, "beta", Fin(0.0), PosInf) && IsPositive(beta.value)
  }

  /** The parameter values in `parameters_dict` order. */
  function ParameterValues(d: Distribution): seq<Number> {
    var ps := Parameters(d);
    seq(|ps|, i requires 0 <= i < |ps| => ps[i].1.value)
  }

  /** `Normal(mu, sigma, name)`: mu is validated first, then sigma. */
  function NewNormal(mu: Number, sigma: Number, name: string): (r: Result<Distribution, RangeError>)
    ensures r.Success? <==> IsFinite(mu) && IsPositive(sigma)
    ensures r.Success? ==> r.value.Normal? && Valid(r.value) && r.value.name == name
                           && ParameterValues(r.value) == [mu, sigma]
    ensures r.Failure? ==> r.error.value == (if IsFinite(mu) then sigma else mu)
    ensures r.Failure? ==> r.error.name == (if IsFinite(mu) then "sigma" else "mu")
  {
    match ContinuousVariable(mu, "mu")
    case Failure(e) => Failure(e)
    case Success(m) =>
      match PositiveContinuousVariable(sigma, "sigma")
      case Failure(e) => Failure(e)
      case Success(s) => Success(Normal(m, s, name))
  }

  /** `Gamma(alpha, beta, name)`: alpha is validated first, then beta. */
  function NewGamma(alpha: Number, beta: Number, name: string): (r: Result<Distribution, RangeError>)
    ensures r.Success? <==> IsPositive(alpha) && IsPositive(beta)
    ensures r.Success? ==> r.value.Gamma? && Valid(r.value) && r.value.name == name
                           && ParameterValues(r.value) == [alpha, beta]
    ensures r.Failure? ==> r.error.value == (if IsPositive(alpha) then beta else alpha)
    ensures r.Failure? ==> r.error.name == (if IsPositive(alpha) then "beta" else "alpha")
  {
    match PositiveContinuousVariable(alpha, "alpha")
    case Failure(e) => Failure(e)
    case Success(a) =>
      match PositiveContinuousVariable(beta, "beta")
      case Failure(e) => Failure(e)
      case Success(b) => Success(Gamma(a, b, name))
  }

  /** `k=v` for one entry of `parameters_dict`, v in its own textual form. */
  function Entry(p: (string, Variable)): string {
    p.0 + "=" + p.1.value.text
  }

  /** `str(d)` and `repr(d)`: `ClassName(k1=v1, k2=v2, name="NAME")`. */
  function Display(d: Distribution): (r: string)
    ensures ClassName(d) + "(" <= r
    ensures |r| > 0 && r[|r| - 1] == ')'
  {
    var ps := Parameters(d);
    ClassName(d) + "("
      + Join(", ", seq(|ps|, i requires 0 <= i < |ps| => Entry(ps[i])))
      + ", name=\"" + d.name + "\")"
  }

  /** The display string spelled out: the class name, then each parameter as
      `key=text` in the family's fixed order, then the name in quotes. */
  lemma DisplayFormat(d: Distribution)
    ensures d.Normal? ==>
              Display(d) == "Normal(mu=" + d.mu.value.text + ", sigma=" + d.sigma.value.text + ", name=\"" + d.name + "\")"
    ensures d.Gamma? ==>
              Display(d) == "Gamma(alpha=" + d.alpha.value.text + ", beta=" + d.beta.value.text + ", name=\"" + d.name + "\")"
  {
    DisplayLayout(d);
    if d.Normal? {
      assert "Normal" + "(" + ("mu" + "=") == "Normal(mu=";
      assert ", " + "sigma" + "=" == ", sigma=";
    } else {
      assert "Gamma" + "(" + ("alpha" + "=") == "Gamma(alpha=";
      assert ", " + "beta" + "=" == ", beta=";
    }
  }

  /** The display of a two-parameter distribution, piece by piece. */
  lemma DisplayLayout(d: Distribution)
    ensures var ps := Parameters(d);
            Display(d) == (ClassName(d) + "(" + (ps[0].0 + "=")) + ps[0].1.value.text + (", " + ps[1].0 + "=")
                          + ps[1].1.value.text + ", name=\"" + d.name + "\")"
  {
    var ps := Parameters(d);
    var entries := seq(|ps|, i requires 0 <= i < |ps| => Entry(ps[i]));
    assert entries == [Entry(ps[0]), Entry(ps[1])];
    JoinTwo(", ", Entry(ps[0]), Entry(ps[1]));
    SpellOut(ClassName(d) + "(", ps[0].0 + "=", ps[0].1.value.text, ", " + ps[1].0 + "=", ps[1].1.value.text, d.name);
  }

  /** Only regroups string pieces: moves the parentheses of a concatenation. */
  lemma SpellOut(a: string, b: string, c: string, d: string, e: string, name: string)
    ensures a + (b + c + d + e) + ", name=\"" + name + "\")" == (a + b) + c + d + e + ", name=\"" + name + "\")"
  {
  }

  /** A successfully built Normal displays its two arguments' texts. */
  lemma NewNormalDisplay(mu: Number, sigma: Number, name: string)
    requires IsFinite(mu) && IsPositive(sigma)
    ensures Display(NewNormal(mu, sigma, name).value)
            == "Normal(mu=" + mu.text + ", sigma=" + sigma.text + ", name=\"" + name + "\")"
  {
    var d := NewNormal(mu, sigma, name).value;
    assert ParameterValues(d)[0] == d.mu.value;
    assert ParameterValues(d)[1] == d.sigma.value;
    DisplayFormat(d);
  }

  /** A successfully built Gamma displays its two arguments' texts. */
  lemma NewGammaDisplay(alpha: Number, beta: Number, name: string)
    requires IsPositive(alpha) && IsPositive(beta)
    ensures Display(NewGamma(alpha, beta, name).value)
            == "Gamma(alpha=" + alpha.text + ", beta=" + beta.text + ", name=\"" + name + "\")"
  {
    var d := NewGamma(alpha, beta, name).value;
    assert ParameterValues(d)[0] == d.alpha.value;
    assert ParameterValues(d)[1] == d.beta.value;
    DisplayFormat(d);
  }

  /** Textual forms are kept: `Normal(0, 1, name='mu')` prints `0` and `1`. */
  lemma DisplayKeepsIntegerText()
    ensures var r := NewNormal(Number(Fin(0.0), "0"), Number(Fin(1.0), "1"), "mu");
            r.Success? && Display(r.value) == "Normal(mu=" + "0" + ", sigma=" + "1" + ", name=\"" + "mu" + "\")"
  {
    NewNormalDisplay(Number(Fin(0.0), "0"), Number(Fin(1.0), "1"), "mu");
  }

  /** `Normal(1., 2, name='mu2')` prints `1.0` for mu and `2` for sigma. */
  lemma DisplayKeepsMixedText()
    ensures var r := NewNormal(Number(Fin(1.0), "1.0"), Number(Fin(2.0), "2"), "mu2");
            r.Success? && Display(r.value) == "Normal(mu=" + "1.0" + ", sigma=" + "2" + ", name=\"" + "mu2" + "\")"
  {
    NewNormalDisplay(Number(Fin(1.0), "1.0"), Number(Fin(2.0), "2"), "mu2");
  }

  /** `Gamma(1, 1.2, name='somethingelse')` prints `1` and `1.2`. */
  lemma DisplayGammaExample()
    ensures var r := NewGamma(Number(Fin(1.0), "1"), Number(Fin(1.2), "1.2"), "somethingelse");
            r.Success? && Display(r.value) == "Gamma(alpha=" + "1" + ", beta=" + "1.2" + ", name=\"" + "somethingelse" + "\")"
  {
    NewGammaDisplay(Number(Fin(1.0), "1"), Number(Fin(1.2), "1.2"), "somethingelse");
  }

  /** `Normal(0, 0, name='mu')` and `Gamma(-1., 2, name='alpha')` are refused,
      naming sigma and alpha respectively. */
  lemma RejectedExamples()
    ensures NewNormal(Number(Fin(0.0), "0"), Number(Fin(0.0), "0"), "mu").Failure?
    ensures NewNormal(Number(Fin(0.0), "0"), Number(Fin(0.0), "0"), "mu").error.name == "sigma"
    ensures NewGamma(Number(Fin(-1.0), "-1.0"), Number(Fin(2.0), "2"), "alpha").Failure?
    ensures NewGamma(Number(Fin(-1.0), "-1.0"), Number(Fin(2.0), "2"), "alpha").error.name == "alpha"
  {
  }
}
