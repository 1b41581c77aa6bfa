/** Quantile-matching models (bqme/models.py): priors validated at
    construction, the program text generated from a template, the domain
    check on observed quantiles, and the memoised compile behind `sampling`
    and `optimizing`. The inference engine, the template file and the
    distributions' `code()` are outside this model and come in through an
    `External` record. */
module Models {
  import opened Wrappers
  import opened ExtendedReals
  import opened Strings
  import Variables
  import Distributions
  import FitObjects
  import Engine

  type Distribution = Distributions.Distribution
  type Handle = Engine.Handle

  /** The four model families of the source. */
  datatype Family = NormalFamily | GammaFamily | LognormalFamily | WeibullFamily

  /** The class a model was built from: the base class `QM` itself, or one of
      the four family subclasses. */
  datatype Kind = BaseQM | FamilyQM(family: Family)

  /** A value of a parameters dict as Python sees it: a Distribution, or any
      other object, known by its type name. */
  datatype PyValue = Dist(d: Distribution) | Other(typeName: string)

  /** A model: its class, its priors in dict order, and the compiled program
      cached by the first `compile`. */
  datatype QM = QM(kind: Kind, priors: seq<(string, Distribution)>, model: Option<Handle>)

  /** What the model operations raise. */
  datatype ModelError =
    | NotADistribution(key: string, className: string, typeName: string)
    | DomainUndefined
    | OutOfDomain(lower: ExtReal, upper: ExtReal)
    | EngineFailure(error: FitObjects.PyError)

  /** `self.__class__.__name__`. */
  function ClassName(k: Kind): string {
    match k
    case BaseQM => "QM"
    case FamilyQM(NormalFamily) => "NormalQM"
    case FamilyQM(GammaFamily) => "GammaQM"
    case FamilyQM(LognormalFamily) => "LognormalQM"
    case FamilyQM(WeibullFamily) => "WeibullQM"
  }

  /** The keys each family constructor gives its two priors, in order. */
  function Roles(f: Family): (string, string) {
    match f
    case NormalFamily => ("mu", "sigma")
    case GammaFamily => ("alpha", "beta")
    case LognormalFamily => ("mu", "sigma")
    case WeibullFamily => ("alpha", "sigma")
  }

  // ---------------------------------------------------------------------------
  // Construction: `_check_dict`

  /** Index of the first entry that is not a Distribution (or the length). */
  function FirstOther(entries: seq<(string, PyValue)>): (i: nat)
    ensures i <= |entries|
    ensures forall j :: 0 <= j < i ==> entries[j].1.Dist?
    ensures i < |entries| ==> entries[i].1.Other?
    decreases |entries|
  {
    if |entries| == 0 || entries[0].1.Other? then 0 else 1 + FirstOther(entries[1..])
  }

  /** `_check_dict`: walks the dict in order and raises for the first value
      that is not a Distribution, naming its key and type; otherwise hands the
      dict back unchanged. */
  function CheckDict(kind: Kind, entries: seq<(string, PyValue)>): (r: Result<seq<(string, Distribution)>, ModelError>)
    ensures r.Success? <==> forall i :: 0 <= i < |entries| ==> entries[i].1.Dist?
    ensures r.Success? ==> |r.value| == |entries|
    ensures r.Success? ==> forall i :: 0 <= i < |entries| ==> entries[i] == (r.value[i].0, Dist(r.value[i].1))
    ensures r.Failure? ==>
              var i := FirstOther(entries);
              i < |entries| && r.error == NotADistribution(entries[i].0, ClassName(kind), entries[i].1.typeName)
    decreases |entries|
  {
    if |entries| == 0 then Success([])
    else
      match entries[0].1
      case Other(t) => Failure(NotADistribution(entries[0].0, ClassName(kind), t))
      case Dist(d) =>
        match CheckDict(kind, entries[1..])
        case Failure(e) => Failure(e)
        case Success(rest) => Success([(entries[0].0, d)] + rest)
  }

  /** `QM(parameters_dict)`: validated priors and no compiled program yet. */
  function NewQM(kind: Kind, entries: seq<(string, PyValue)>): (r: Result<QM, ModelError>)
    ensures r.Success? <==> forall i :: 0 <= i < |entries| ==> entries[i].1.Dist?
    ensures r.Success? ==> r.value.kind == kind && r.value.model == None && |r.value.priors| == |entries|
    ensures r.Success? ==> forall i :: 0 <= i < |entries| ==>
                             entries[i] == (r.value.priors[i].0, Dist(r.value.priors[i].1))
    ensures r.Failure? ==> CheckDict(kind, entries).Failure? && r.error == CheckDict(kind, entries).error
    ensures r.Failure? ==> r.error.NotADistribution? && r.error.className == ClassName(kind)
  {
    match CheckDict(kind, entries)
    case Failure(e) => Failure(e)
    case Success(priors) => Success(QM(kind, priors, None))
  }

  /** `NormalQM(mu, sigma)`, `GammaQM(alpha, beta)`, `LognormalQM(mu, sigma)`,
      `WeibullQM(alpha, sigma)`: the two priors under the family's keys. */
  function NewFamilyQM(f: Family, first: PyValue, second: PyValue): (r: Result<QM, ModelError>)
    ensures r.Success? <==> first.Dist? && second.Dist?
    ensures r.Success? ==> r.value == QM(FamilyQM(f), [(Roles(f).0, first.d), (Roles(f).1, second.d)], None)
    ensures r.Failure? ==> r.error.NotADistribution? && r.error.key == (if first.Other? then Roles(f).0 else Roles(f).1)
  {
    var entries := [(Roles(f).0, first), (Roles(f).1, second)];
    assert entries[0].1 == first && entries[1].1 == second;
    assert first.Other? ==> FirstOther(entries) == 0;
    assert first.Dist? && second.Other? ==> FirstOther(entries) == 1 by {
      if first.Dist? && second.Other? {
        assert entries[1..] == [(Roles(f).1, second)];
      }
    }
    NewQM(FamilyQM(f), entries)
  }

  /** The base class refuses `{'a': Normal(0., 1., name='a'), 'b': 1.}`
      because of key 'b'. */
  lemma CheckDictExample(a: Distribution)
    ensures NewQM(BaseQM, [("a", Dist(a)), ("b", Other("float"))])
            == Failure(NotADistribution("b", "QM", "float"))
  {
    var entries := [("a", Dist(a)), ("b", Other("float"))];
    assert FirstOther(entries[1..]) == 0;
  }

  // ---------------------------------------------------------------------------
  // Display: `__str__` and `__repr__`

  /** `str(model)`: the class name and the priors' display strings, in order. */
  function Display(qm: QM): (r: string)
    ensures ClassName(qm.kind) + "(" <= r
    ensures |r| > 0 && r[|r| - 1] == ')'
  {
    var ps := qm.priors;
    ClassName(qm.kind) + "("
      + Join(", ", seq(|ps|, i requires 0 <= i < |ps| => Distributions.Display(ps[i].1)))
      + ")"
  }

  /** For a family model the display is `ClassName(prior1, prior2)`. */
  lemma DisplayTwoPriors(qm: QM)
    requires |qm.priors| == 2
    ensures Display(qm) == ClassName(qm.kind) + "("
              + Distributions.Display(qm.priors[0].1) + ", " + Distributions.Display(qm.priors[1].1) + ")"
  {
    var ps := qm.priors;
    var a, b := Distributions.Display(ps[0].1), Distributions.Display(ps[1].1);
    var shown := seq(|ps|, i requires 0 <= i < |ps| => Distributions.Display(ps[i].1));
    assert Join(", ", shown) == a + ", " + b by {
      assert shown == [a, b];
      JoinTwo(", ", a, b);
    }
    Regroup(ClassName(qm.kind) + "(", a, ", ", b, ")");
  }

  /** Only regroups string pieces: moves the parentheses of a concatenation. */
  lemma Regroup(a: string, b: string, c: string, d: string, e: string)
    ensures a + (b + c + d) + e == a + b + c + d + e
    ensures a + b + (c + (d + e)) == a + b + c + d + e
  {
  }

  /** `NormalQM(Normal(0., 1., name='mu'), Gamma(1., 1., name='sigma'))`
      displays as `NormalQM(Normal(mu=0.0, sigma=1.0, name="mu"),
      Gamma(alpha=1.0, beta=1.0, name="sigma"))`. */
  lemma NormalQMDisplayExample()
    ensures var mu := Distributions.NewNormal(Num(0.0, "0.0"), Num(1.0, "1.0"), "mu");
            var sigma := Distributions.NewGamma(Num(1.0, "1.0"), Num(1.0, "1.0"), "sigma");
            && mu.Success? && sigma.Success?
            && var qm := NewFamilyQM(NormalFamily, Dist(mu.value), Dist(sigma.value));
               && qm.Success?
               && Display(qm.value)
                  == "NormalQM" + "("
                     + ("Normal(mu=" + "0.0" + ", sigma=" + "1.0" + ", name=\"" + "mu" + "\")") + ", "
                     + ("Gamma(alpha=" + "1.0" + ", beta=" + "1.0" + ", name=\"" + "sigma" + "\")") + ")"
  {
    var mu := Distributions.NewNormal(Num(0.0, "0.0"), Num(1.0, "1.0"), "mu");
    var sigma := Distributions.NewGamma(Num(1.0, "1.0"), Num(1.0, "1.0"), "sigma");
    Distributions.NewNormalDisplay(Num(0.0, "0.0"), Num(1.0, "1.0"), "mu");
    Distributions.NewGammaDisplay(Num(1.0, "1.0"), Num(1.0, "1.0"), "sigma");
    var qm := NewFamilyQM(NormalFamily, Dist(mu.value), Dist(sigma.value));
    DisplayTwoPriors(qm.value);
  }

  /** A finite number with its text. */
  function Num(x: real, text: string): Variables.Number {
    Variables.Number(Fin(x), text)
  }

  // ---------------------------------------------------------------------------
  // Code generation: `_template_replacements` and `_stan_code`

  /** What a distribution's `code()` returns: its declaration and its prior
      statement. */
  datatype Fragments = Fragments(parameter: string, prior: string)

  /** The template keys, in the order the replacements are applied. */
  const ReplacementKeys: seq<string> := ["parametersnames", "parameters", "priors", "cdf", "lpdf", "rng"]

  /** `self.__class__.__name__.replace("QM", "").lower()`. */
  function FamilyName(kind: Kind): (r: string)
    ensures forall i :: 0 <= i < |r| ==> !('A' <= r[i] <= 'Z')
  {
    Lower(ReplaceAll(ClassName(kind), "QM", ""))
  }

  /** The family token of each class, as the code generator uses it; equal to
      `FamilyName` (lemma `FamilyTokenIsFamilyName`). */
  function FamilyToken(kind: Kind): (r: string)
    ensures r == "" <==> kind.BaseQM?
    ensures '$' !in r
  {
    match kind
    case BaseQM => ""
    case FamilyQM(NormalFamily) => "normal"
    case FamilyQM(GammaFamily) => "gamma"
    case FamilyQM(LognormalFamily) => "lognormal"
    case FamilyQM(WeibullFamily) => "weibull"
  }

  /** The priors' own names (`p.name`), in dict order. */
  function PriorNames(priors: seq<(string, Distribution)>): (names: seq<string>)
    ensures |names| == |priors|
    ensures forall i :: 0 <= i < |priors| ==> names[i] == priors[i].1.name
  {
    seq(|priors|, i requires 0 <= i < |priors| => priors[i].1.name)
  }

  /** `build(s)` without the join: the `s` fragment of every prior, in order. */
  function Pieces(priors: seq<(string, Distribution)>, codeOf: Distribution -> Fragments, declarations: bool): (r: seq<string>)
    ensures |r| == |priors|
    ensures forall i :: 0 <= i < |priors| ==> r[i] == (if declarations then codeOf(priors[i].1).parameter else codeOf(priors[i].1).prior)
  {
    seq(|priors|, i requires 0 <= i < |priors| =>
      if declarations then codeOf(priors[i].1).parameter else codeOf(priors[i].1).prior)
  }

  /** `_template_replacements`: the six template keys and their texts. */
  function TemplateReplacements(kind: Kind, priors: seq<(string, Distribution)>, codeOf: Distribution -> Fragments): (r: seq<(string, string)>)
    ensures |r| == |ReplacementKeys|
    ensures forall i :: 0 <= i < |r| ==> r[i].0 == ReplacementKeys[i]
  {
    var family := FamilyToken(kind);
    [ ("parametersnames", Join(", ", PriorNames(priors))),
      ("parameters", Join("\n    ", Pieces(priors, codeOf, true))),
      ("priors", Join("\n    ", Pieces(priors, codeOf, false))),
      ("cdf", family + "_cdf"),
      ("lpdf", family + "_lpdf"),
      ("rng", family + "_rng") ]
  }

  /** A class name that is a plain prefix followed by "QM" loses exactly that
      suffix. */
  lemma FamilyNameOfSuffix(kind: Kind, prefix: string)
    requires ClassName(kind) == prefix + "QM" && 'Q' !in prefix
    ensures FamilyName(kind) == Lower(prefix)
  {
    ReplacePlaceholder(prefix, "", "QM", "");
    assert prefix + "QM" + "" == ClassName(kind);
    assert prefix + "" + "" == prefix;
  }

  /** The base class `QM` has the empty family token. */
  lemma FamilyNameBase()
    ensures FamilyName(BaseQM) == ""
  {
    FamilyNameOfSuffix(BaseQM, "");
  }

  /** NormalQM's family token is `normal`. */
  lemma FamilyNameNormal()
    ensures FamilyName(FamilyQM(NormalFamily)) == "normal"
  {
    FamilyNameOfSuffix(FamilyQM(NormalFamily), "Normal");
    LowerFamilyWords();
  }

  /** GammaQM's family token is `gamma`. */
  lemma FamilyNameGamma()
    ensures FamilyName(FamilyQM(GammaFamily)) == "gamma"
  {
    FamilyNameOfSuffix(FamilyQM(GammaFamily), "Gamma");
    LowerFamilyWords();
  }

  /** LognormalQM's family token is `lognormal`. */
  lemma FamilyNameLognormal()
    ensures FamilyName(FamilyQM(LognormalFamily)) == "lognormal"
  {
    FamilyNameOfSuffix(FamilyQM(LognormalFamily), "Lognormal");
    LowerFamilyWords();
  }

  /** WeibullQM's family token is `weibull`. */
  lemma FamilyNameWeibull()
    ensures FamilyName(FamilyQM(WeibullFamily)) == "weibull"
  {
    FamilyNameOfSuffix(FamilyQM(WeibullFamily), "Weibull");
    LowerFamilyWords();
  }

  /** The token table is the class name with "QM" removed and lower-cased,
      for every class. */
  lemma FamilyTokenIsFamilyName(kind: Kind)
    ensures FamilyToken(kind) == FamilyName(kind)
  {
    match kind
    case BaseQM => FamilyNameBase();
    case FamilyQM(NormalFamily) => FamilyNameNormal();
    case FamilyQM(GammaFamily) => FamilyNameGamma();
    case FamilyQM(LognormalFamily) => FamilyNameLognormal();
    case FamilyQM(WeibullFamily) => FamilyNameWeibull();
  }

  /** The generated text depends on the priors only, never on their dict keys:
      `parametersnames` lists the priors' own names. */
  lemma ReplacementsIgnoreKeys(kind: Kind, p1: seq<(string, Distribution)>, p2: seq<(string, Distribution)>,
                               codeOf: Distribution -> Fragments)
    requires |p1| == |p2|
    requires forall i :: 0 <= i < |p1| ==> p1[i].1 == p2[i].1
    ensures TemplateReplacements(kind, p1, codeOf) == TemplateReplacements(kind, p2, codeOf)
  {
    assert PriorNames(p1) == PriorNames(p2);
    assert Pieces(p1, codeOf, true) == Pieces(p2, codeOf, true);
    assert Pieces(p1, codeOf, false) == Pieces(p2, codeOf, false);
  }

  /** A two-prior model: the names joined by ", ", the declarations and the
      prior statements each joined by a newline and four spaces, and the
      family tokens; e.g. NormalQM gives `normal_cdf`, `normal_lpdf`, `normal_rng`. */
  lemma ReplacementsTwoPriors(f: Family, priors: seq<(string, Distribution)>, codeOf: Distribution -> Fragments)
    requires |priors| == 2
    ensures var r := TemplateReplacements(FamilyQM(f), priors, codeOf);
            var d0, d1 := priors[0].1, priors[1].1;
            && r[0].1 == d0.name + ", " + d1.name
            && r[1].1 == codeOf(d0).parameter + "\n    " + codeOf(d1).parameter
            && r[2].1 == codeOf(d0).prior + "\n    " + codeOf(d1).prior
            && r[3].1 == FamilyName(FamilyQM(f)) + "_cdf"
            && r[4].1 == FamilyName(FamilyQM(f)) + "_lpdf"
            && r[5].1 == FamilyName(FamilyQM(f)) + "_rng"
            && (f == NormalFamily ==> r[3].1 == "normal" + "_cdf" && r[4].1 == "normal" + "_lpdf"
                                      && r[5].1 == "normal" + "_rng")
  {
    var d0, d1 := priors[0].1, priors[1].1;
    assert Join(", ", PriorNames(priors)) == d0.name + ", " + d1.name by {
      assert PriorNames(priors) == [d0.name, d1.name];
      JoinTwo(", ", d0.name, d1.name);
    }
    assert Join("\n    ", Pieces(priors, codeOf, true)) == codeOf(d0).parameter + "\n    " + codeOf(d1).parameter by {
      assert Pieces(priors, codeOf, true) == [codeOf(d0).parameter, codeOf(d1).parameter];
      JoinTwo("\n    ", codeOf(d0).parameter, codeOf(d1).parameter);
    }
    assert Join("\n    ", Pieces(priors, codeOf, false)) == codeOf(d0).prior + "\n    " + codeOf(d1).prior by {
      assert Pieces(priors, codeOf, false) == [codeOf(d0).prior, codeOf(d1).prior];
      JoinTwo("\n    ", codeOf(d0).prior, codeOf(d1).prior);
    }
    FamilyTokenIsFamilyName(FamilyQM(f));
  }

  /** `$key$`. */
  function Placeholder(key: string): (p: string)
    ensures |p| > 0 && p[0] == '$'
  {
    "$" + key + "$"
  }

  /** A text without `$` is left unchanged by replacing any placeholder. */
  lemma ReplaceInPlainText(code: string, key: string, value: string)
    ensures '$' !in code ==> ReplaceAll(code, Placeholder(key), value) == code
  {
    if '$' !in code {
      FirstCharAbsent(code, Placeholder(key));
      ReplaceAbsent(code, Placeholder(key), value);
    }
  }

  /** The loop of `_stan_code`: each `$key$` replaced by its value, one key
      after the other in the given order. A text without `$` comes out
      unchanged. */
  function ApplyReplacements(code: string, reps: seq<(string, string)>): (r: string)
    ensures '$' !in code ==> r == code
    decreases |reps|
  {
    if |reps| == 0 then code
    else
      ReplaceInPlainText(code, reps[0].0, reps[0].1);
      ApplyReplacements(ReplaceAll(code, Placeholder(reps[0].0), reps[0].1), reps[1..])
  }

  /** Substituting a list of replacements is substituting its first part, then
      its second part: the order of the keys is the order of application. */
  lemma {:induction false} ApplyInSequence(code: string, a: seq<(string, string)>, b: seq<(string, string)>)
    ensures ApplyReplacements(code, a + b) == ApplyReplacements(ApplyReplacements(code, a), b)
    decreases |a|
  {
    if |a| > 0 {
      assert (a + b)[0] == a[0];
      assert (a + b)[1..] == a[1..] + b;
      ApplyInSequence(ReplaceAll(code, Placeholder(a[0].0), a[0].1), a[1..], b);
    } else {
      assert a + b == b;
    }
  }

  /** One replacement is one `str.replace` of its placeholder. */
  lemma ApplyOne(code: string, key: string, value: string)
    ensures ApplyReplacements(code, [(key, value)]) == ReplaceAll(code, Placeholder(key), value)
  {
  }

  /** The placeholder of one key does not occur in the placeholder of a
      different key followed by plain text. */
  lemma PlaceholderNotInOther(k1: string, k2: string, t: string)
    requires '$' !in k1 && '$' !in k2 && '$' !in t && k1 != k2
    ensures forall i :: !OccursAt(Placeholder(k1), Placeholder(k2) + t, i)
  {
    var p, s := Placeholder(k1), Placeholder(k2) + t;
    forall i
      ensures !OccursAt(p, s, i)
    {
      var w := if 0 <= i && i + |p| <= |s| then s[i..i + |p|] else p;
      if i < 0 || i + |p| > |s| {
      } else if i == 0 {
        if |k1| < |k2| {
          assert w[|k1| + 1] == k2[|k1|] != p[|k1| + 1];
        } else if |k1| > |k2| {
          assert w[|k2| + 1] != k1[|k2|] == p[|k2| + 1];
        } else {
          assert w[1..|k1| + 1] == k2 != k1 == p[1..|k1| + 1];
        }
      } else if i <= |k2| {
        assert w[0] == k2[i - 1] != p[0];
      } else if i == |k2| + 1 {
        assert w[|p| - 1] == t[|k1|] != p[|p| - 1];
      } else {
        assert w[0] == t[i - |k2| - 2] != p[0];
      }
    }
  }

  /** Replacing the first of two different placeholders leaves the second. */
  lemma ReplaceFirstOfTwo(t0: string, t1: string, t2: string, k1: string, v1: string, k2: string)
    requires '$' !in t0 && '$' !in t1 && '$' !in t2
    requires '$' !in k1 && '$' !in k2 && k1 != k2
    ensures ReplaceAll(t0 + Placeholder(k1) + t1 + Placeholder(k2) + t2, Placeholder(k1), v1)
            == t0 + v1 + (t1 + (Placeholder(k2) + t2))
  {
    var p1, rest := Placeholder(k1), t1 + (Placeholder(k2) + t2);
    assert t0 + p1 + t1 + Placeholder(k2) + t2 == t0 + (p1 + rest);
    ReplaceSkipsPlainPrefix(t0, p1 + rest, p1, v1);
    assert (p1 + rest)[..|p1|] == p1;
    assert (p1 + rest)[|p1|..] == rest;
    ReplaceSkipsPlainPrefix(t1, Placeholder(k2) + t2, p1, v1);
    PlaceholderNotInOther(k1, k2, t2);
    ReplaceAbsent(Placeholder(k2) + t2, p1, v1);
  }

  /** Two replacements are two `str.replace` calls, in list order. */
  lemma ApplyTwo(code: string, k1: string, v1: string, k2: string, v2: string)
    ensures ApplyReplacements(code, [(k1, v1), (k2, v2)])
            == ReplaceAll(ReplaceAll(code, Placeholder(k1), v1), Placeholder(k2), v2)
  {
    assert [(k1, v1), (k2, v2)][1..] == [(k2, v2)];
    ApplyOne(ReplaceAll(code, Placeholder(k1), v1), k2, v2);
  }

  /** A template holding two different placeholders, in the order the keys
      are applied, gets each replaced by its value and keeps its plain text:
      `t0 $k1$ t1 $k2$ t2` becomes `t0 v1 t1 v2 t2`. */
  lemma ApplyTwoPlaceholders(t0: string, t1: string, t2: string, k1: string, v1: string, k2: string, v2: string)
    requires '$' !in t0 && '$' !in t1 && '$' !in t2 && '$' !in v1 && '$' !in v2
    requires '$' !in k1 && '$' !in k2 && k1 != k2
    ensures ApplyReplacements(t0 + Placeholder(k1) + t1 + Placeholder(k2) + t2, [(k1, v1), (k2, v2)])
            == t0 + v1 + t1 + v2 + t2
  {
    var template := t0 + Placeholder(k1) + t1 + Placeholder(k2) + t2;
    var head := t0 + v1 + t1;
    ApplyTwo(template, k1, v1, k2, v2);
    ReplaceFirstOfTwo(t0, t1, t2, k1, v1, k2);
    Regroup(t0, v1, t1, Placeholder(k2), t2);
    assert '$' !in head;
    ReplacePlaceholder(head, t2, Placeholder(k2), v2);
  }

  /** The keys of a replacement list hold no `$` and are pairwise different. */
  predicate PlainDistinctKeys(reps: seq<(string, string)>) {
    && (forall i :: 0 <= i < |reps| ==> '$' !in reps[i].0)
    && (forall i, j :: 0 <= i < j < |reps| ==> reps[i].0 != reps[j].0)
  }

  /** A template holding the placeholder of one key of the list between two
      plain texts gets that placeholder replaced by the key's value; every
      other key finds nothing to replace. */
  lemma {:induction false} ApplyOnePlaceholder(t0: string, t1: string, reps: seq<(string, string)>, j: nat)
    requires PlainDistinctKeys(reps) && j < |reps|
    requires '$' !in t0 && '$' !in t1 && '$' !in reps[j].1
    ensures ApplyReplacements(t0 + Placeholder(reps[j].0) + t1, reps) == t0 + reps[j].1 + t1
    decreases j
  {
    var code := t0 + Placeholder(reps[j].0) + t1;
    var p0 := Placeholder(reps[0].0);
    if j == 0 {
      ReplacePlaceholder(t0, t1, p0, reps[0].1);
      assert '$' !in t0 + reps[0].1 + t1;
    } else {
      var rest := Placeholder(reps[j].0) + t1;
      assert code == t0 + rest;
      ReplaceSkipsPlainPrefix(t0, rest, p0, reps[0].1);
      PlaceholderNotInOther(reps[0].0, reps[j].0, t1);
      ReplaceAbsent(rest, p0, reps[0].1);
      var tail := reps[1..];
      assert tail[j - 1] == reps[j];
      assert PlainDistinctKeys(tail) by {
        assert forall i :: 0 <= i < |tail| ==> tail[i] == reps[i + 1];
      }
      ApplyOnePlaceholder(t0, t1, tail, j - 1);
    }
  }

  // ---------------------------------------------------------------------------
  // Domain check: `domain` and `_check_domain`

  /** `domain()`: (-inf, inf) for NormalQM and (0, inf) for the other
      families; the base class returns None. */
  function Domain(kind: Kind): (r: Option<(ExtReal, ExtReal)>)
    ensures r.Some? <==> kind.FamilyQM?
    ensures r.Some? ==> Less(r.value.0, r.value.1) && r.value.1 == PosInf
  {
    match kind
    case BaseQM => None
    case FamilyQM(NormalFamily) => Some((NegInf, PosInf))
    case FamilyQM(_) => Some((Fin(0.0), PosInf))
  }

  /** `filter(f, X)` with `f = lambda x: not(minn < x < maxx)`. */
  function Outside(xs: seq<ExtReal>, lo: ExtReal, hi: ExtReal): (r: seq<ExtReal>)
    ensures |r| <= |xs|
    ensures forall y :: y in r ==> y in xs && !Inside(y, lo, hi)
    ensures forall i :: 0 <= i < |xs| && !Inside(xs[i], lo, hi) ==> xs[i] in r
    ensures |r| == 0 <==> forall i :: 0 <= i < |xs| ==> Inside(xs[i], lo, hi)
    decreases |xs|
  {
    if |xs| == 0 then []
    else if !Inside(xs[0], lo, hi) then [xs[0]] + Outside(xs[1..], lo, hi)
    else Outside(xs[1..], lo, hi)
  }

  /** `_check_domain(X)`: raises when some value is not strictly inside the
      domain; the base class, whose domain is None, fails to unpack it. */
  function CheckDomain(kind: Kind, xs: seq<ExtReal>): (r: Outcome<ModelError>)
    ensures kind.BaseQM? ==> r == Fail(DomainUndefined)
    ensures kind.FamilyQM? ==>
              var (lo, hi) := Domain(kind).value;
              && (r.Pass? <==> forall i :: 0 <= i < |xs| ==> Inside(xs[i], lo, hi))
              && (r.Fail? ==> r.error == OutOfDomain(lo, hi))
  {
    match Domain(kind)
    case None => Fail(DomainUndefined)
    case Some((lo, hi)) =>
      if |Outside(xs, lo, hi)| > 0 then Fail(OutOfDomain(lo, hi)) else Pass
  }

  /** NormalQM accepts exactly the finite values. */
  lemma NormalDomain(xs: seq<ExtReal>)
    ensures CheckDomain(FamilyQM(NormalFamily), xs).Pass? <==> forall i :: 0 <= i < |xs| ==> xs[i].Fin?
  {
  }

  /** The other three families accept exactly the finite values above 0, so
      0 itself and every negative value are refused. */
  lemma PositiveDomain(f: Family, xs: seq<ExtReal>)
    requires f != NormalFamily
    ensures CheckDomain(FamilyQM(f), xs).Pass? <==> forall i :: 0 <= i < |xs| ==> xs[i].Fin? && xs[i].r > 0.0
    ensures CheckDomain(FamilyQM(f), xs).Fail? ==> CheckDomain(FamilyQM(f), xs).error == OutOfDomain(Fin(0.0), PosInf)
  {
  }

  // ---------------------------------------------------------------------------
  // Compiling and running: `code`, `compile`, `sampling`, `optimizing`

  /** The data dictionary handed to the engine: `{N, M=len(q), q, X}`. */
  datatype Data = Data(n: int, m: nat, q: seq<ExtReal>, x: seq<ExtReal>)

  /** Everything the model calls but does not define: the template file's
      text, each distribution's `code()`, and the engine's three entry points. */
  datatype External = External(
    template: string,
    codeOf: Distribution -> Fragments,
    compile: string -> Result<Handle, FitObjects.PyError>,
    sample: (Handle, Data) -> Result<FitObjects.SampleSet, FitObjects.PyError>,
    optimize: (Handle, Data) -> Result<map<string, FitObjects.Values>, FitObjects.PyError>)

  /** The model's state after a call, and what the call returned or raised. */
  datatype Step<T> = Step(state: QM, outcome: Result<T, ModelError>)

  /** The `code` property: the template with the six keys substituted; a
      template without placeholders is the program as it stands. */
  function Code(qm: QM, ext: External): (r: string)
    ensures '$' !in ext.template ==> r == ext.template
  {
    ApplyReplacements(ext.template, TemplateReplacements(qm.kind, qm.priors, ext.codeOf))
  }

  /** The six keys of `_template_replacements` are plain, different words. */
  lemma ReplacementKeysPlain(kind: Kind, priors: seq<(string, Distribution)>, codeOf: Distribution -> Fragments)
    ensures PlainDistinctKeys(TemplateReplacements(kind, priors, codeOf))
  {
  }

  /** The family tokens hold no `$`. */
  lemma FamilyTokenPlain(kind: Kind)
    ensures '$' !in FamilyToken(kind) + "_cdf"
    ensures '$' !in FamilyToken(kind) + "_lpdf"
    ensures '$' !in FamilyToken(kind) + "_rng"
  {
  }

  /** The `code` of a template holding one placeholder between plain texts:
      the placeholder of any of the six keys becomes that key's text, as long
      as the text holds no `$`, and the rest of the template is kept. */
  lemma CodeOnePlaceholder(qm: QM, ext: External, t0: string, t1: string, j: nat)
    requires j < |ReplacementKeys|
    requires '$' !in t0 && '$' !in t1
    requires ext.template == t0 + Placeholder(ReplacementKeys[j]) + t1
    requires '$' !in TemplateReplacements(qm.kind, qm.priors, ext.codeOf)[j].1
    ensures Code(qm, ext) == t0 + TemplateReplacements(qm.kind, qm.priors, ext.codeOf)[j].1 + t1
  {
    ReplacementKeysPlain(qm.kind, qm.priors, ext.codeOf);
    ApplyOnePlaceholder(t0, t1, TemplateReplacements(qm.kind, qm.priors, ext.codeOf), j);
  }

  /** `$cdf$` between plain texts becomes the family token's `_cdf`. */
  lemma CodeCdfToken(qm: QM, ext: External, t0: string, t1: string)
    requires '$' !in t0 && '$' !in t1
    requires ext.template == t0 + Placeholder("cdf") + t1
    ensures Code(qm, ext) == t0 + (FamilyToken(qm.kind) + "_cdf") + t1
  {
    var reps := TemplateReplacements(qm.kind, qm.priors, ext.codeOf);
    assert reps[3].1 == FamilyToken(qm.kind) + "_cdf";
    FamilyTokenPlain(qm.kind);
    ReplacementKeysPlain(qm.kind, qm.priors, ext.codeOf);
    ApplyOnePlaceholder(t0, t1, reps, 3);
  }

  /** `$cdf$` in a template becomes the family's cumulative distribution
      function, e.g. `normal_cdf` for NormalQM. */
  lemma CodeCdfPlaceholder(qm: QM, ext: External, t0: string, t1: string)
    requires '$' !in t0 && '$' !in t1
    requires ext.template == t0 + Placeholder("cdf") + t1
    ensures Code(qm, ext) == t0 + FamilyName(qm.kind) + "_cdf" + t1
  {
    CodeCdfToken(qm, ext, t0, t1);
    FamilyTokenIsFamilyName(qm.kind);
    assert t0 + (FamilyToken(qm.kind) + "_cdf") + t1 == t0 + FamilyName(qm.kind) + "_cdf" + t1;
  }

  /** A template holding the placeholder of the first key and then that of a
      later key, between plain texts, gets both replaced by their values. */
  lemma ApplyFirstAndLater(t0: string, t1: string, t2: string, reps: seq<(string, string)>, j: nat)
    requires PlainDistinctKeys(reps) && 0 < j < |reps|
    requires '$' !in t0 && '$' !in t1 && '$' !in t2
    requires '$' !in reps[0].1 && '$' !in reps[j].1
    ensures ApplyReplacements(t0 + Placeholder(reps[0].0) + t1 + Placeholder(reps[j].0) + t2, reps)
            == t0 + reps[0].1 + t1 + reps[j].1 + t2
  {
    var k0, v0, kj := reps[0].0, reps[0].1, reps[j].0;
    var code := t0 + Placeholder(k0) + t1 + Placeholder(kj) + t2;
    var head := t0 + v0 + t1;
    ReplaceFirstOfTwo(t0, t1, t2, k0, v0, kj);
    Regroup(t0, v0, t1, Placeholder(kj), t2);
    assert ApplyReplacements(code, reps) == ApplyReplacements(head + Placeholder(kj) + t2, reps[1..]);
    var tail := reps[1..];
    assert tail[j - 1] == reps[j];
    assert PlainDistinctKeys(tail) by {
      assert forall i :: 0 <= i < |tail| ==> tail[i] == reps[i + 1];
    }
    ApplyOnePlaceholder(head, t2, tail, j - 1);
    Regroup(t0, v0, t1, reps[j].1, t2);
  }

  /** A template naming the parameters and then the cumulative distribution
      function: `$parametersnames$` becomes the priors' names joined by `, `
      and `$cdf$` the family's function, when no prior name holds a `$`. */
  lemma CodeNamesAndCdf(qm: QM, ext: External, t0: string, t1: string, t2: string)
    requires '$' !in t0 && '$' !in t1 && '$' !in t2
    requires forall i :: 0 <= i < |qm.priors| ==> '$' !in qm.priors[i].1.name
    requires ext.template == t0 + Placeholder("parametersnames") + t1 + Placeholder("cdf") + t2
    ensures Code(qm, ext) == t0 + Join(", ", PriorNames(qm.priors)) + t1 + FamilyName(qm.kind) + "_cdf" + t2
  {
    var reps := TemplateReplacements(qm.kind, qm.priors, ext.codeOf);
    JoinKeepsOut('$', ", ", PriorNames(qm.priors));
    FamilyTokenPlain(qm.kind);
    FamilyTokenIsFamilyName(qm.kind);
    ReplacementKeysPlain(qm.kind, qm.priors, ext.codeOf);
    ApplyFirstAndLater(t0, t1, t2, reps, 3);
  }

  /** `compile()`: compiles the generated code and caches the program; when the
      engine fails the cache keeps its previous content. */
  function Compile(qm: QM, ext: External): (r: Step<Handle>)
    ensures r.outcome.Success? <==> ext.compile(Code(qm, ext)).Success?
    ensures r.outcome.Success? ==> ext.compile(Code(qm, ext)) == Success(r.outcome.value)
                                   && r.state == QM(qm.kind, qm.priors, Some(r.outcome.value))
    ensures r.outcome.Failure? ==> r.state == qm && r.outcome.error == EngineFailure(ext.compile(Code(qm, ext)).error)
  {
    match ext.compile(Code(qm, ext))
    case Failure(e) => Step(qm, Failure(EngineFailure(e)))
    case Success(h) => Step(qm.(model := Some(h)), Success(h))
  }

  /** `if self.model is None: self.compile()`: the cached program when there
      is one, otherwise a fresh compile. */
  function Ready(qm: QM, ext: External): (r: Step<Handle>)
    ensures qm.model.Some? ==> r == Step(qm, Success(qm.model.value))
    ensures qm.model.None? ==> r == Compile(qm, ext)
    ensures r.outcome.Success? ==> r.state.model == Some(r.outcome.value)
    ensures r.outcome.Failure? ==> r.state == qm
    ensures r.state.kind == qm.kind && r.state.priors == qm.priors
  {
    if qm.model.Some? then Step(qm, Success(qm.model.value)) else Compile(qm, ext)
  }

  /** `sampling(N, q, X)`: domain check first, then compile if nothing is
      cached, then posterior sampling on `{N, M=len(q), q, X}`. */
  function Sampling(qm: QM, ext: External, n: int, q: seq<ExtReal>, x: seq<ExtReal>): (r: Step<FitObjects.FitObject>)
    ensures CheckDomain(qm.kind, x).Fail? ==> r.state == qm && r.outcome == Failure(CheckDomain(qm.kind, x).error)
    ensures qm.model.Some? ==> r.state == qm
    ensures r.state.kind == qm.kind && r.state.priors == qm.priors
    ensures r.outcome.Success? ==>
              && r.state.model.Some?
              && r.outcome.value.FitSampling?
              && r.outcome.value.model == r.state.model.value
              && ext.sample(r.state.model.value, Data(n, |q|, q, x)) == Success(r.outcome.value.samples)
    ensures CheckDomain(qm.kind, x).Pass? ==> r.state == Ready(qm, ext).state
    ensures CheckDomain(qm.kind, x).Pass? && qm.model.None? && ext.compile(Code(qm, ext)).Failure? ==>
              r.outcome == Failure(EngineFailure(ext.compile(Code(qm, ext)).error))
    ensures CheckDomain(qm.kind, x).Pass? && Ready(qm, ext).outcome.Success? ==>
              var engine := ext.sample(Ready(qm, ext).outcome.value, Data(n, |q|, q, x));
              && (r.outcome.Success? <==> engine.Success?)
              && (r.outcome.Failure? ==> r.outcome.error == EngineFailure(engine.error))
  {
    match CheckDomain(qm.kind, x)
    case Fail(e) => Step(qm, Failure(e))
    case Pass =>
      var c := Ready(qm, ext);
      match c.outcome
      case Failure(e) => Step(c.state, Failure(e))
      case Success(h) =>
        match ext.sample(h, Data(n, |q|, q, x))
        case Failure(e) => Step(c.state, Failure(EngineFailure(e)))
        case Success(s) => Step(c.state, Success(FitObjects.FitSampling(h, s)))
  }

  /** `optimizing(N, q, X)`: the same path, ending in the engine's point
      estimate. */
  function Optimizing(qm: QM, ext: External, n: int, q: seq<ExtReal>, x: seq<ExtReal>): (r: Step<FitObjects.FitObject>)
    ensures CheckDomain(qm.kind, x).Fail? ==> r.state == qm && r.outcome == Failure(CheckDomain(qm.kind, x).error)
    ensures qm.model.Some? ==> r.state == qm
    ensures r.state.kind == qm.kind && r.state.priors == qm.priors
    ensures r.outcome.Success? ==>
              && r.state.model.Some?
              && r.outcome.value.FitOptimizing?
              && r.outcome.value.model == r.state.model.value
              && ext.optimize(r.state.model.value, Data(n, |q|, q, x)) == Success(r.outcome.value.opt)
    ensures CheckDomain(qm.kind, x).Pass? ==> r.state == Ready(qm, ext).state
    ensures CheckDomain(qm.kind, x).Pass? && qm.model.None? && ext.compile(Code(qm, ext)).Failure? ==>
              r.outcome == Failure(EngineFailure(ext.compile(Code(qm, ext)).error))
    ensures CheckDomain(qm.kind, x).Pass? && Ready(qm, ext).outcome.Success? ==>
              var engine := ext.optimize(Ready(qm, ext).outcome.value, Data(n, |q|, q, x));
              && (r.outcome.Success? <==> engine.Success?)
              && (r.outcome.Failure? ==> r.outcome.error == EngineFailure(engine.error))
  {
    match CheckDomain(qm.kind, x)
    case Fail(e) => Step(qm, Failure(e))
    case Pass =>
      var c := Ready(qm, ext);
      match c.outcome
      case Failure(e) => Step(c.state, Failure(e))
      case Success(h) =>
        match ext.optimize(h, Data(n, |q|, q, x))
        case Failure(e) => Step(c.state, Failure(EngineFailure(e)))
        case Success(opt) => Step(c.state, Success(FitObjects.FitOptimizing(h, opt)))
  }

  /** Both entry points leave the model in the same state, and fail alike when
      the domain check or the compile fails. */
  lemma SamplingAndOptimizingAgree(qm: QM, ext: External, n: int, q: seq<ExtReal>, x: seq<ExtReal>)
    ensures Sampling(qm, ext, n, q, x).state == Optimizing(qm, ext, n, q, x).state
    ensures Sampling(qm, ext, n, q, x).state.model.None? ==>
              Sampling(qm, ext, n, q, x).outcome == Optimizing(qm, ext, n, q, x).outcome
  {
  }

  /** One call of either entry point. */
  datatype Call =
    | SamplingCall(n: int, q: seq<ExtReal>, x: seq<ExtReal>)
    | OptimizingCall(n: int, q: seq<ExtReal>, x: seq<ExtReal>)

  function Run(qm: QM, ext: External, call: Call): Step<FitObjects.FitObject> {
    match call
    case SamplingCall(n, q, x) => Sampling(qm, ext, n, q, x)
    case OptimizingCall(n, q, x) => Optimizing(qm, ext, n, q, x)
  }

  /** The model's state after a series of calls. */
  function RunAll(qm: QM, ext: External, calls: seq<Call>): QM
    decreases |calls|
  {
    if |calls| == 0 then qm else RunAll(Run(qm, ext, calls[0]).state, ext, calls[1..])
  }

  /** Once a program is cached, no series of `sampling` and `optimizing` calls
      changes the model: neither entry point compiles again, and every later
      fit uses that same program. */
  lemma {:induction false} CachedProgramIsKept(qm: QM, ext: External, calls: seq<Call>)
    requires qm.model.Some?
    ensures RunAll(qm, ext, calls) == qm
    decreases |calls|
  {
    if |calls| > 0 {
      assert Run(qm, ext, calls[0]).state == qm;
      CachedProgramIsKept(qm, ext, calls[1..]);
    }
  }

  /** A series of calls only ever fills the cache: the priors and class stay
      as built, and a cached program stays cached. */
  lemma {:induction false} RunAllKeepsPriors(qm: QM, ext: External, calls: seq<Call>)
    ensures RunAll(qm, ext, calls).kind == qm.kind
    ensures RunAll(qm, ext, calls).priors == qm.priors
    ensures qm.model.Some? ==> RunAll(qm, ext, calls).model == qm.model
    decreases |calls|
  {
    if |calls| > 0 {
      var next := Run(qm, ext, calls[0]).state;
      RunAllKeepsPriors(next, ext, calls[1..]);
    }
  }

  /** GammaQM, LognormalQM and WeibullQM refuse X = [-0.1, 1.0, 1.4] in both
      entry points, before any compile. */
  lemma NegativeQuantileRefused(f: Family, qm: QM, ext: External, n: int, q: seq<ExtReal>)
    requires f != NormalFamily && qm.kind == FamilyQM(f)
    ensures var x := [Fin(-0.1), Fin(1.0), Fin(1.4)];
            && Sampling(qm, ext, n, q, x) == Step(qm, Failure(OutOfDomain(Fin(0.0), PosInf)))
            && Optimizing(qm, ext, n, q, x) == Step(qm, Failure(OutOfDomain(Fin(0.0), PosInf)))
  {
    var x := [Fin(-0.1), Fin(1.0), Fin(1.4)];
    assert !Inside(x[0], Fin(0.0), PosInf);
  }
}
