/** The bookkeeping that follows every calibration fit in et_calc.py: the
    search ranges read from `start_range`, the mean squared residual, the
    fit-quality Error flag and the fixed layout of the returned parameter
    list. The optimiser (differential evolution or least squares), the curve
    formulas and the statistics (R², AIC, BIC, Pearson r) are inputs. */
module Fitting {
  import opened Basics

  /** The three calibration models. */
  datatype Kind = LN | FourPL | FivePL

  /** Parameter names in the order of the optimiser's vector, of the search
      bounds and of the returned list. */
  function ParamNames(kind: Kind): (names: seq<string>)
    ensures |names| == match kind case LN => 2 case FourPL => 4 case FivePL => 5
  {
    match kind
    case LN => ["A", "B"]
    case FourPL => ["D", "A", "B", "C"]
    case FivePL => ["D", "A", "B", "C", "E"]
  }

  /** The report keys of the curve parameters, position by position. */
  function ParamKeys(kind: Kind): (keys: seq<string>)
    ensures |keys| == |ParamNames(kind)|
  {
    match kind
    case LN => ["A_par1", "B_par1"]
    case FourPL => ["D_par1", "A_par1", "B_par1", "C_par1"]
    case FivePL => ["D_par1", "A_par1", "B_par1", "C_par1", "E_par1"]
  }

  /** A search range `(lower, upper)`. */
  type Range = (real, real)

  /** `start_range[p][0]`, `start_range[p][1]` for each name in turn; the
      first missing name raises KeyError. */
  function RangesOf(names: seq<string>, startRange: map<string, Range>): (r: Result<seq<Range>>)
    ensures r.Success? <==> forall p :: p in names ==> p in startRange
    ensures r.Success? ==>
      (|r.value| == |names| && forall i :: 0 <= i < |names| ==> r.value[i] == startRange[names[i]])
    ensures r.Failure? ==>
      (exists i :: 0 <= i < |names| && names[i] !in startRange && r.error == "KeyError: " + names[i]
         && forall j :: 0 <= j < i ==> names[j] in startRange)
    decreases |names|
  {
    if |names| == 0 then Success([])
    else if names[0] !in startRange then Failure("KeyError: " + names[0])
    else
      match RangesOf(names[1..], startRange)
      case Failure(e) => Failure(e)
      case Success(rest) => Success([startRange[names[0]]] + rest)
  }

  /** Some fitted parameter sits exactly on the lower or upper end of its
      search range. */
  predicate AnyOnBound(fitted: seq<real>, ranges: seq<Range>)
    requires |fitted| == |ranges|
  {
    exists i :: 0 <= i < |fitted| && (fitted[i] == ranges[i].0 || fitted[i] == ranges[i].1)
  }

  /** The flag of every fitter: 1 when a parameter is on a bound, the mean
      squared residual exceeds 0.3 or R² is below 0.6, otherwise 0. The
      source sets the flag from the first two tests and then overwrites it
      with 1 when R² is too low. */
  method ErrorFlag(fitted: seq<real>, ranges: seq<Range>, rss: real, rSquared: real) returns (flag: int)
    requires |fitted| == |ranges|
    ensures flag == 0 || flag == 1
    ensures flag == 1 <==> AnyOnBound(fitted, ranges) || rss > 0.3 || rSquared < 0.6
  {
    if AnyOnBound(fitted, ranges) || rss > 0.3 {
      flag := 1;
    } else {
      flag := 0;
    }
    if rSquared < 0.6 {
      flag := 1;
    }
  }

  /** A fit whose parameters lie in their search ranges and whose flag is 0
      has every parameter strictly inside its range, a mean squared residual
      of at most 0.3 and R² of at least 0.6. */
  lemma CleanFitIsInterior(fitted: seq<real>, ranges: seq<Range>, rss: real, rSquared: real)
    requires |fitted| == |ranges|
    requires forall i :: 0 <= i < |fitted| ==> ranges[i].0 <= fitted[i] <= ranges[i].1
    requires !(AnyOnBound(fitted, ranges) || rss > 0.3 || rSquared < 0.6)
    ensures forall i :: 0 <= i < |fitted| ==> ranges[i].0 < fitted[i] < ranges[i].1
    ensures rss <= 0.3 && rSquared >= 0.6
  {
    forall i | 0 <= i < |fitted| ensures ranges[i].0 < fitted[i] < ranges[i].1 {
      assert !(fitted[i] == ranges[i].0 || fitted[i] == ranges[i].1);
    }
  }

  /** One `(name, value)` entry of the returned parameter list. */
  datatype Entry = Entry(key: string, value: real)

  /** The goodness-of-fit statistics the fitters compute with library code. */
  datatype Statistics = Statistics(rSquared: real, aic: real, bic: real, r: real)

  /** The entries of a fit report: the curve parameters under their keys,
      then the residual, the statistics and the flag. */
  function Report(kind: Kind, fitted: seq<real>, rss: real, stats: Statistics, flag: real): seq<Entry>
    requires |fitted| == |ParamNames(kind)|
  {
    seq(|fitted|, i requires 0 <= i < |fitted| => Entry(ParamKeys(kind)[i], fitted[i]))
      + [Entry("RSS", rss), Entry("R_squ", stats.rSquared), Entry("AIC_crit", stats.aic),
         Entry("BIC_crit", stats.bic), Entry("R_corre", stats.r), Entry("Error", flag)]
  }

  /** The fixed positional layout: LN is [A, B, RSS, R², AIC, BIC, r, Error],
      4PL is [D, A, B, C, ...] and 5PL is [D, A, B, C, E, ...]. */
  lemma ReportLayout(kind: Kind, fitted: seq<real>, rss: real, stats: Statistics, flag: real)
    requires |fitted| == |ParamNames(kind)|
    ensures var r := Report(kind, fitted, rss, stats, flag); var k := |fitted|;
      |r| == k + 6
      && (forall i :: 0 <= i < k ==> r[i] == Entry(ParamKeys(kind)[i], fitted[i]))
      && r[k] == Entry("RSS", rss) && r[k + 1] == Entry("R_squ", stats.rSquared)
      && r[k + 2] == Entry("AIC_crit", stats.aic) && r[k + 3] == Entry("BIC_crit", stats.bic)
      && r[k + 4] == Entry("R_corre", stats.r) && r[k + 5] == Entry("Error", flag)
  {
  }

  /** The shared tail of ln_func_par_opt, logit_4PL_par_opt,
      logit_5PL_par_opt and the three *_curve_fit functions. `fitted` is
      the optimiser's vector, `residual` the sum of squared residuals over
      the `n` standards. An empty standards list divides by zero. */
  method FitReport(kind: Kind, startRange: map<string, Range>, fitted: seq<real>,
                   residual: real, n: nat, stats: Statistics)
    returns (r: Result<seq<Entry>>)
    requires |fitted| == |ParamNames(kind)|
    ensures r.Success? <==> (forall p :: p in ParamNames(kind) ==> p in startRange) && n > 0
    ensures r.Success? ==>
      var ranges := RangesOf(ParamNames(kind), startRange).value;
      var rss := residual / (n as real);
      r.value == Report(kind, fitted, rss, stats,
                        if AnyOnBound(fitted, ranges) || rss > 0.3 || stats.rSquared < 0.6 then 1.0 else 0.0)
  {
    var ranges := RangesOf(ParamNames(kind), startRange);
    if ranges.Failure? {
      return Failure(ranges.error);
    }
    if n == 0 {
      return Failure("ZeroDivisionError");
    }
    var rss := residual / (n as real);
    var flag := ErrorFlag(fitted, ranges.value, rss, stats.rSquared);
    var keys := ParamKeys(kind);
    var parameters := seq(|fitted|, i requires 0 <= i < |fitted| => Entry(keys[i], fitted[i]));
    parameters := parameters + [Entry("RSS", rss)];
    parameters := parameters + [Entry("R_squ", stats.rSquared)];
    parameters := parameters + [Entry("AIC_crit", stats.aic)];
    parameters := parameters + [Entry("BIC_crit", stats.bic)];
    parameters := parameters + [Entry("R_corre", stats.r)];
    parameters := parameters + [Entry("Error", flag as real)];
    return Success(parameters);
  }

  /** The value stored under `key`, if any (the first such entry). */
  function Lookup(entries: seq<Entry>, key: string): (v: Option<real>)
    ensures v.Some? <==> exists i :: 0 <= i < |entries| && entries[i].key == key
    ensures v.Some? ==> exists i :: 0 <= i < |entries| && entries[i] == Entry(key, v.value)
    decreases |entries|
  {
    if |entries| == 0 then None
    else if entries[0].key == key then Some(entries[0].value)
    else Lookup(entries[1..], key)
  }

  lemma {:induction false} LookupAt(entries: seq<Entry>, i: nat)
    requires i < |entries|
    requires forall j :: 0 <= j < i ==> entries[j].key != entries[i].key
    ensures Lookup(entries, entries[i].key) == Some(entries[i].value)
    decreases i
  {
    if i > 0 {
      LookupAt(entries[1..], i - 1);
    }
  }

  /** Parameter `p` is reported under its own name followed by `_par1`. */
  lemma ParamKeysNameParams(kind: Kind)
    ensures forall i :: 0 <= i < |ParamKeys(kind)| ==> ParamKeys(kind)[i] == ParamNames(kind)[i] + "_par1"
  {
  }

  lemma ReportKeysDistinct(kind: Kind, fitted: seq<real>, rss: real, stats: Statistics, flag: real)
    requires |fitted| == |ParamNames(kind)|
    ensures var r := Report(kind, fitted, rss, stats, flag);
      forall i, j :: 0 <= i < j < |r| ==> r[i].key != r[j].key
  {
    var r := Report(kind, fitted, rss, stats, flag);
    var keys := ReportKeys(kind);
    assert forall i :: 0 <= i < |r| ==> r[i].key == keys[i];
    ReportKeysPairwiseDistinct(kind);
  }

  /** The keys of a report, in order. */
  function ReportKeys(kind: Kind): seq<string>
  {
    ParamKeys(kind) + ["RSS", "R_squ", "AIC_crit", "BIC_crit", "R_corre", "Error"]
  }

  lemma ReportKeysPairwiseDistinct(kind: Kind)
    ensures forall i, j :: 0 <= i < j < |ReportKeys(kind)| ==> ReportKeys(kind)[i] != ReportKeys(kind)[j]
  {
    var p := ParamKeys(kind);
    var t := ["RSS", "R_squ", "AIC_crit", "BIC_crit", "R_corre", "Error"];
    assert forall i :: 0 <= i < |p| ==> |p[i]| == 6;
    assert forall i, j :: 0 <= i < j < |p| ==> p[i][0] != p[j][0];
    assert forall j :: 0 <= j < |t| ==> |t[j]| != 6;
    assert forall i, j :: 0 <= i < j < |t| ==> |t[i]| != |t[j]| || t[i][0] != t[j][0];
    DistinctConcat(p, t);
  }

  /** Two lists without repeats and without a common element make a list
      without repeats. */
  lemma DistinctConcat(a: seq<string>, b: seq<string>)
    requires forall i, j :: 0 <= i < j < |a| ==> a[i] != a[j]
    requires forall i, j :: 0 <= i < j < |b| ==> b[i] != b[j]
    requires forall i, j :: 0 <= i < |a| && 0 <= j < |b| ==> a[i] != b[j]
    ensures forall i, j :: 0 <= i < j < |a + b| ==> (a + b)[i] != (a + b)[j]
  {
  }

  /** Every key of a report occurs once, so a lookup by name finds each
      fitted parameter, the residual and the flag. */
  lemma ReportLookup(kind: Kind, fitted: seq<real>, rss: real, stats: Statistics, flag: real)
    requires |fitted| == |ParamNames(kind)|
    ensures forall p :: 0 <= p < |fitted| ==>
      Lookup(Report(kind, fitted, rss, stats, flag), ParamKeys(kind)[p]) == Some(fitted[p])
    ensures Lookup(Report(kind, fitted, rss, stats, flag), "RSS") == Some(rss)
    ensures Lookup(Report(kind, fitted, rss, stats, flag), "Error") == Some(flag)
  {
    var r := Report(kind, fitted, rss, stats, flag);
    ReportKeysDistinct(kind, fitted, rss, stats, flag);
    forall p | 0 <= p < |fitted| ensures Lookup(r, ParamKeys(kind)[p]) == Some(fitted[p]) {
      LookupAt(r, p);
    }
    LookupAt(r, |fitted|);
    LookupAt(r, |fitted| + 5);
  }

  // ---------------------------------------------------------------------
  // The *_curve_fit argument order

  /** The model parameter each position of the fitted vector is bound to by
      the model function handed to `curve_fit`: the as-written signatures
      are `(X, A, B)`, `(X, A, B, C, D)` and `(X, A, B, C, D, E)`. */
  function CurveFitRoles(kind: Kind): (roles: seq<string>)
    ensures |roles| == |ParamNames(kind)|
  {
    match kind
    case LN => ["A", "B"]
    case FourPL => ["A", "B", "C", "D"]
    case FivePL => ["A", "B", "C", "D", "E"]
  }

  /** The roles with the model function's signature in the order of the
      bounds, `(X, D, A, B, C[, E])`. */
  function CorrectedCurveFitRoles(kind: Kind): (roles: seq<string>)
    ensures |roles| == |ParamNames(kind)|
  {
    ParamNames(kind)
  }

  /** The search range that bounds model parameter `p` when position `i` of
      the vector plays `roles[i]` while the bounds follow `ParamNames`. */
  ghost function RangeKeyOfRole(kind: Kind, roles: seq<string>, p: string): Option<string>
    requires |roles| == |ParamNames(kind)|
  {
    if exists i :: 0 <= i < |roles| && roles[i] == p then
      var i :| 0 <= i < |roles| && roles[i] == p;
      Some(ParamNames(kind)[i])
    else None
  }

  /** As written, the 4PL and 5PL least-squares fits search the curve's
      asymptote A within D's range (and D within C's), while the report
      names position 0 as D: for the vector [1, 2, 3, 4] the fitted curve
      has A = 1 but the report says A = 2. */
  lemma CurveFitRolesMismatch()
    ensures RangeKeyOfRole(FourPL, CurveFitRoles(FourPL), "A") == Some("D")
    ensures RangeKeyOfRole(FivePL, CurveFitRoles(FivePL), "A") == Some("D")
    ensures CurveFitRoles(FourPL)[0] == "A" && ParamNames(FourPL)[0] == "D"
    ensures CurveFitRoles(FourPL)[1] == "B" && ParamNames(FourPL)[1] == "A"
  {
    assert CurveFitRoles(FourPL)[0] == "A";
    assert CurveFitRoles(FivePL)[0] == "A";
  }

  /** With the corrected signature every model parameter is searched in its
      own range and reported under its own name, for every model. */
  lemma CorrectedRolesAgree(kind: Kind)
    ensures forall i :: 0 <= i < |ParamNames(kind)| ==> CorrectedCurveFitRoles(kind)[i] == ParamNames(kind)[i]
    ensures forall p :: p in ParamNames(kind) ==> RangeKeyOfRole(kind, CorrectedCurveFitRoles(kind), p) == Some(p)
  {
    forall p | p in ParamNames(kind)
      ensures RangeKeyOfRole(kind, CorrectedCurveFitRoles(kind), p) == Some(p)
    {
      var i :| 0 <= i < |ParamNames(kind)| && ParamNames(kind)[i] == p;
      assert CorrectedCurveFitRoles(kind)[i] == p;
    }
  }
}
