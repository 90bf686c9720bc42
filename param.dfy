/** The configuration layer of the ChaNGa front end (diskpy/pychanga/_param.py):
    parameter lookup with fallback to the simulator's defaults, and the
    builders for .director and .param dictionaries and for the output
    schedule of a run. */
module Param {
  import opened ConfigValues
  import opened Dicts
  import opened PathNames

  /** The three templates loaded once from the package: the default .param
      file, the default .director file and ChaNGa's own defaults. They are
      never written to. */
  datatype Defaults = Defaults(param: Config, director: Config, simulator: Config)

  // ---------------------------------------------------------------------
  // getpar
  // ---------------------------------------------------------------------

  /** getpar(key, param): the caller's value for key if it has one, else
      ChaNGa's default, else an error naming the key. */
  function GetPar(key: string, param: Config, defaults: Defaults): (r: Result<Value>)
    ensures key in param ==> r == Success(param[key])
    ensures key !in param && key in defaults.simulator ==> r == Success(defaults.simulator[key])
    ensures r.Failure? <==> key !in param && key !in defaults.simulator
    ensures r.Failure? ==> r.error == NotFound(key)
  {
    if key in param then Success(param[key])
    else if key in defaults.simulator then Success(defaults.simulator[key])
    else Failure(NotFound(key))
  }

  /** getpar is a lookup in ChaNGa's defaults overlaid with the caller's map. */
  lemma GetParIsOverlay(key: string, param: Config, defaults: Defaults)
    ensures var merged := defaults.simulator + param;
            GetPar(key, param, defaults) ==
              if key in merged then Success(merged[key]) else Failure(NotFound(key))
  {
  }

  /** getpar(key) with the default empty param searches ChaNGa's defaults only. */
  lemma GetParEmpty(key: string, defaults: Defaults)
    ensures GetPar(key, map[], defaults).Success? <==> key in defaults.simulator
    ensures key in defaults.simulator ==> GetPar(key, map[], defaults) == Success(defaults.simulator[key])
  {
  }

  // ---------------------------------------------------------------------
  // make_director
  // ---------------------------------------------------------------------

  const SigmaMaxKey := "#sigma_max"

  /** The template has every field make_director reads, each a number:
      the #sigma_max annotation, colgas[3], size[0] and eye[2]. */
  predicate HasReferenceFields(template: Config) {
    && SigmaMaxKey in template && IsNumber(template[SigmaMaxKey])
    && Element(template, "colgas", 3).Success? && IsNumber(template["colgas"].items[3])
    && Element(template, "size", 0).Success? && IsNumber(template["size"].items[0])
    && Element(template, "eye", 2).Success? && IsNumber(template["eye"].items[2])
  }

  /** The template's reference values. */
  function SigmaMax0(t: Config): real
    requires HasReferenceFields(t)
  {
    RealOf(t[SigmaMaxKey])
  }

  function C0(t: Config): real
    requires HasReferenceFields(t)
  {
    RealOf(t["colgas"].items[3])
  }

  function N0(t: Config): real
    requires HasReferenceFields(t)
  {
    RealOf(t["size"].items[0])
  }

  function R0(t: Config): real
    requires HasReferenceFields(t)
  {
    RealOf(t["eye"].items[2])
  }

  /** sigma_max0 * r0^2, the divisor of the scale factor. */
  function ReferenceDivisor(t: Config): real
    requires HasReferenceFields(t)
  {
    SigmaMax0(t) * (R0(t) * R0(t))
  }

  /** The scale factor A = c0 * n0^2 / (sigma_max0 * r0^2) read off the
      director template, or the error its computation raises. */
  function ScaleFactor(template: Config): (a: Result<real>)
    ensures SigmaMaxKey !in template ==> a == Failure(MissingKey(SigmaMaxKey))
    ensures a.Success? <==> HasReferenceFields(template) && ReferenceDivisor(template) != 0.0
    ensures a.Success? ==>
              a.value * ReferenceDivisor(template) == C0(template) * (N0(template) * N0(template))
  {
    if SigmaMaxKey !in template then Failure(MissingKey(SigmaMaxKey))
    else
      var sigmaMax0 := template[SigmaMaxKey];
      var c0 :- Element(template, "colgas", 3);
      var n0 :- Element(template, "size", 0);
      var r0 :- Element(template, "eye", 2);
      var n0f :- AsReal(n0);
      var c0f :- AsReal(c0);
      var s0f :- AsReal(sigmaMax0);
      var r0f :- AsReal(r0);
      var divisor := s0f * (r0f * r0f);
      if divisor == 0.0 then Failure(DivisionByZero)
      else Success(c0f * (n0f * n0f) / divisor)
  }

  /** The colour scale make_director stores in colgas[3]:
      A * sigma_max * r^2 / resolution^2. */
  function ColourScale(a: real, sigmaMax: real, r: real, resolution: real): (c: real)
    requires resolution != 0.0
    ensures c * (resolution * resolution) == a * (sigmaMax * (r * r))
  {
    a * (sigmaMax * (r * r) / (resolution * resolution))
  }

  /** The keys make_director writes (besides removing #sigma_max). */
  const DirectorKeys: set<string> := {"colgas", "size", "eye", "file"}

  /** make_director(sigma_min, sigma_max, r, resolution, filename) as a value:
      the new director dictionary, or the error raised. The result is the
      template without its #sigma_max annotation, with colgas[3] rescaled,
      size = [resolution, resolution], eye[2] = r and file = filename. */
  function DirectorFor(template: Config, sigmaMax: real, r: real,
                       resolution: Value := IntVal(1200), filename: string := "snapshot")
    : (res: Result<Config>)
    requires IsNumber(resolution)
    ensures SigmaMaxKey !in template ==> res == Failure(MissingKey(SigmaMaxKey))
    ensures res.Success? <==>
              ScaleFactor(template).Success? && sigmaMax != 0.0 && RealOf(resolution) != 0.0
    ensures res.Success? ==> SigmaMaxKey !in res.value
    ensures res.Success? ==> res.value.Keys == template.Keys - {SigmaMaxKey} + {"size", "file"}
    ensures res.Success? ==>
              forall k :: k in template && k != SigmaMaxKey && k !in DirectorKeys ==>
                res.value[k] == template[k]
    ensures res.Success? ==> res.value["size"] == ListVal([resolution, resolution])
    ensures res.Success? ==> res.value["file"] == StrVal(filename)
    ensures res.Success? ==>
              && res.value["eye"].ListVal?
              && res.value["eye"].items == template["eye"].items[2 := RealVal(r)]
    ensures res.Success? ==>
              && res.value["colgas"].ListVal?
              && res.value["colgas"].items == template["colgas"].items[3 :=
                   RealVal(ColourScale(ScaleFactor(template).value, sigmaMax, r, RealOf(resolution)))]
  {
    var a :- ScaleFactor(template);
    if sigmaMax == 0.0 then
      // logscale_min = sigma_min / sigma_max
      Failure(DivisionByZero)
    else if RealOf(resolution) == 0.0 then
      Failure(DivisionByZero)
    else
      var c := ColourScale(a, sigmaMax, r, RealOf(resolution));
      var colgas := template["colgas"].items;
      var eye := template["eye"].items;
      Success((template - {SigmaMaxKey})
        ["colgas" := ListVal(colgas[3 := RealVal(c)])]
        ["size" := ListVal([resolution, resolution])]
        ["eye" := ListVal(eye[2 := RealVal(r)])]
        ["file" := StrVal(filename)])
  }

  /** make_director: deep-copies the director template, drops the
      annotation from the copy and overwrites colgas[3], size, eye[2] and
      file in place. The template is a value and stays as it was. */
  method MakeDirector(defaults: Defaults, sigmaMin: real, sigmaMax: real, r: real,
                      resolution: Value := IntVal(1200), filename: string := "snapshot")
    returns (res: Result<Dict>)
    requires IsNumber(resolution)
    ensures res.Failure? ==> DirectorFor(defaults.director, sigmaMax, r, resolution, filename) == Failure(res.error)
    ensures res.Success? ==>
              && fresh(res.value)
              && DirectorFor(defaults.director, sigmaMax, r, resolution, filename) == Success(res.value.entries)
  {
    // sigma_min only feeds logscale_min, which the result does not hold.
    var template := defaults.director;
    var a :- ScaleFactor(template);
    var director := new Dict(template);
    director.Pop(SigmaMaxKey);
    if sigmaMax == 0.0 {
      return Failure(DivisionByZero);
    }
    var n := RealOf(resolution);
    if n == 0.0 {
      return Failure(DivisionByZero);
    }
    var c := ColourScale(a, sigmaMax, r, n);
    director.SetElement("colgas", 3, RealVal(c));
    director.Set("size", ListVal([resolution, resolution]));
    director.SetElement("eye", 2, RealVal(r));
    director.Set("file", StrVal(filename));
    return Success(director);
  }

  lemma SquareNonZero(x: real)
    requires x != 0.0
    ensures x * x != 0.0
  {
  }

  /** Dividing by n2 undoes multiplying by it: when a * d == c0 * n2, the
      rescaling a * (d / n2) is c0. */
  lemma RescaleCancels(a: real, c0: real, d: real, n2: real)
    requires n2 != 0.0 && a * d == c0 * n2
    ensures a * (d / n2) == c0
  {
  }

  /** Rescaling to the template's own density scale, radius and resolution
      gives back the template's colour scale: A evaluates the inverse of the
      rescaling. */
  lemma DirectorRescaleIdentity(template: Config, resolution: Value, filename: string)
    requires ScaleFactor(template).Success?
    requires IsNumber(resolution) && RealOf(resolution) == N0(template) && N0(template) != 0.0
    ensures var res := DirectorFor(template, SigmaMax0(template), R0(template), resolution, filename);
            && res.Success?
            && RealOf(res.value["colgas"].items[3]) == C0(template)
  {
    var n0 := N0(template);
    SquareNonZero(n0);
    RescaleCancels(ScaleFactor(template).value, C0(template), ReferenceDivisor(template), n0 * n0);
  }

  /** make_director(sigma_min, sigma_max, r) with the default resolution
      (1200) and file name ('snapshot'). */
  lemma DefaultArgumentsDirector(template: Config, sigmaMax: real, r: real)
    requires ScaleFactor(template).Success? && sigmaMax != 0.0
    ensures var res := DirectorFor(template, sigmaMax, r);
            && res.Success?
            && res.value["size"] == ListVal([IntVal(1200), IntVal(1200)])
            && res.value["file"] == StrVal("snapshot")
  {
  }

  // ---------------------------------------------------------------------
  // make_param
  // ---------------------------------------------------------------------

  /** The name of the snapshot pynbody gives to a snapshot made in memory. */
  const CreatedName := "<created>"

  /** The input file name make_param records: the explicit filename if one
      is given, else the snapshot's own file name unless it has none. */
  function InputName(filename: Option<string>, snapshotFilename: string): (name: Option<string>)
    ensures filename.Some? ==> name == filename
    ensures filename.None? ==> (name.Some? <==> snapshotFilename != CreatedName)
    ensures filename.None? && name.Some? ==> name.value == snapshotFilename
  {
    if filename.Some? then filename
    else if snapshotFilename != CreatedName then Some(snapshotFilename)
    else None
  }

  /** The three scalar keys make_param always writes. */
  const UnitKeys: set<string> := {"dKpcUnit", "dMsolUnit", "dMeanMolWeight"}
  const FileKeys: set<string> := {"achInFile", "achOutName"}

  /** make_param(snapshot, filename) as a value. The snapshot contributes its
      file name, its length unit in kpc, its mass unit in Msol and the mean
      molecular weight of its first gas particle. */
  function ParamFor(template: Config, snapshotFilename: string,
                    kpcUnit: real, msolUnit: real, meanMolWeight: real, filename: Option<string> := None)
    : (p: Config)
    ensures p.Keys == template.Keys + UnitKeys
                      + (if InputName(filename, snapshotFilename).Some? then FileKeys else {})
    ensures p["dKpcUnit"] == RealVal(kpcUnit)
    ensures p["dMsolUnit"] == RealVal(msolUnit)
    ensures p["dMeanMolWeight"] == RealVal(meanMolWeight)
    ensures filename.Some? ==>
              && p["achInFile"] == StrVal(filename.value)
              && p["achOutName"] == StrVal(Stem(filename.value))
    ensures filename.None? && snapshotFilename != CreatedName ==>
              && p["achInFile"] == StrVal(snapshotFilename)
              && p["achOutName"] == StrVal(Stem(snapshotFilename))
    ensures filename.None? && snapshotFilename == CreatedName ==>
              forall k :: k in FileKeys && k in template ==> p[k] == template[k]
    ensures forall k :: k in template && k !in UnitKeys && k !in FileKeys ==> p[k] == template[k]
  {
    var named := InputName(filename, snapshotFilename);
    var p := if named.Some? then
               template["achInFile" := StrVal(named.value)]["achOutName" := StrVal(Stem(named.value))]
             else template;
    p["dKpcUnit" := RealVal(kpcUnit)]["dMsolUnit" := RealVal(msolUnit)]["dMeanMolWeight" := RealVal(meanMolWeight)]
  }

  /** make_param: deep-copies the param template and sets the file names and
      units on the copy. */
  method MakeParam(defaults: Defaults, snapshotFilename: string,
                   kpcUnit: real, msolUnit: real, meanMolWeight: real, filename: Option<string> := None)
    returns (param: Dict)
    ensures fresh(param)
    ensures param.entries == ParamFor(defaults.param, snapshotFilename, kpcUnit, msolUnit, meanMolWeight, filename)
  {
    param := new Dict(defaults.param);
    if filename.Some? {
      param.Set("achInFile", StrVal(filename.value));
      param.Set("achOutName", StrVal(Stem(filename.value)));
    } else if snapshotFilename != CreatedName {
      param.Set("achInFile", StrVal(snapshotFilename));
      param.Set("achOutName", StrVal(Stem(snapshotFilename)));
    }
    param.Set("dKpcUnit", RealVal(kpcUnit));
    param.Set("dMsolUnit", RealVal(msolUnit));
    param.Set("dMeanMolWeight", RealVal(meanMolWeight));
  }

  /** When make_param records a file name, the output name is that name with
      its extension (if any) removed: a prefix of it that differs from it
      exactly when the name has an extension. */
  lemma OutNameIsStrippedInName(template: Config, snapshotFilename: string,
                                kpcUnit: real, msolUnit: real, meanMolWeight: real,
                                filename: Option<string>)
    requires InputName(filename, snapshotFilename).Some?
    ensures var p := ParamFor(template, snapshotFilename, kpcUnit, msolUnit, meanMolWeight, filename);
            var inName := InputName(filename, snapshotFilename).value;
            && p["achInFile"] == StrVal(inName)
            && p["achOutName"].StrVal?
            && p["achOutName"].s <= inName
            && (p["achOutName"].s == inName <==> !exists i :: IsExtDot(inName, i))
  {
    StemDropsOnlyExtension(InputName(filename, snapshotFilename).value);
  }

  /** The units make_param writes are the ones units_from_param reads back
      through getpar, whatever ChaNGa's defaults say. */
  lemma MadeParamUnitsReadBack(defaults: Defaults, snapshotFilename: string,
                               kpcUnit: real, msolUnit: real, meanMolWeight: real,
                               filename: Option<string>)
    ensures var p := ParamFor(defaults.param, snapshotFilename, kpcUnit, msolUnit, meanMolWeight, filename);
            && GetPar("dKpcUnit", p, defaults) == Success(RealVal(kpcUnit))
            && GetPar("dMsolUnit", p, defaults) == Success(RealVal(msolUnit))
  {
  }

  // ---------------------------------------------------------------------
  // setup_param (scheduling)
  // ---------------------------------------------------------------------

  function Abs(x: int): int { if x < 0 then -x else x }

  /** Python's int(a / b) on integers: the exact quotient truncated toward
      zero, so the remainder a - q * b has the sign of a and is smaller than
      b in magnitude. (The float quotient truncates to the same integer while
      |a| stays below 2^52.) */
  function TruncDiv(a: int, b: int): (q: int)
    requires b != 0
    ensures a >= 0 ==> 0 <= a - q * b < Abs(b)
    ensures a <= 0 ==> -Abs(b) < a - q * b <= 0
  {
    if a >= 0 then a / b else -((-a) / b)
  }

  /** Cancelling a positive factor from both sides of a strict inequality. */
  lemma CancelPositive(x: int, y: int, c: int)
    requires c > 0 && x * c < y * c
    ensures x < y
  {
  }

  /** Multiplying by a non-negative factor keeps the order. */
  lemma MulMonotone(x: int, c1: int, c2: int)
    requires x >= 0 && c1 <= c2
    ensures x * c1 <= x * c2
  {
  }

  /** The output cadence for a run of `steps` steps split into `count` parts:
      for a non-negative step count and a positive count, the largest
      interval that fits `count` times into the run. */
  lemma IntervalBounds(steps: int, count: int)
    requires steps >= 0 && count > 0
    ensures var i := TruncDiv(steps, count);
            && i >= 0
            && i * count <= steps < (i + 1) * count
  {
    var i := TruncDiv(steps, count);
    assert (i + 1) * count == i * count + count;
    CancelPositive(-1, i, count);
  }

  /** More parts never lengthen the interval. */
  lemma IntervalAntitone(steps: int, count1: int, count2: int)
    requires steps >= 0 && 0 < count1 <= count2
    ensures TruncDiv(steps, count2) <= TruncDiv(steps, count1)
  {
    IntervalBounds(steps, count1);
    IntervalBounds(steps, count2);
    var i1, i2 := TruncDiv(steps, count1), TruncDiv(steps, count2);
    MulMonotone(i2, count1, count2);
    CancelPositive(i2, i1 + 1, count1);
  }

  /** A longer run never shortens the interval. */
  lemma IntervalMonotone(steps1: int, steps2: int, count: int)
    requires 0 <= steps1 <= steps2 && count > 0
    ensures TruncDiv(steps1, count) <= TruncDiv(steps2, count)
  {
    IntervalBounds(steps1, count);
    IntervalBounds(steps2, count);
    CancelPositive(TruncDiv(steps1, count), TruncDiv(steps2, count) + 1, count);
  }

  /** The keys setup_param writes. */
  const ScheduleKeys: set<string> := {"nSteps", "dDumpFrameStep", "iOutInterval", "iCheckInterval"}

  /** setup_param(param, snapshot, r_orb, n_orb, n_image, n_snap, n_check) as a
      value, given the rounded step count `steps` the orbital period
      yields. It fails for r_orb outside [0, 1] before anything else, raises
      KeyError when the param map lacks dKpcUnit, dMsolUnit or dDelta (read
      directly, without ChaNGa's defaults), and divides by each count. */
  function Schedule(param: Config, steps: int, rOrb: real := 1.0,
                    nImage: Option<int> := None, nSnap: int := 100, nCheck: Option<int> := None)
    : (res: Result<Config>)
    ensures (rOrb > 1.0 || rOrb < 0.0) <==> res == Failure(ROrbOutOfRange)
    ensures 0.0 <= rOrb <= 1.0 && "dKpcUnit" !in param ==> res == Failure(MissingKey("dKpcUnit"))
    ensures 0.0 <= rOrb <= 1.0 && "dKpcUnit" in param && "dMsolUnit" !in param ==>
              res == Failure(MissingKey("dMsolUnit"))
    ensures 0.0 <= rOrb <= 1.0 && "dKpcUnit" in param && "dMsolUnit" in param && "dDelta" !in param ==>
              res == Failure(MissingKey("dDelta"))
    ensures && 0.0 <= rOrb <= 1.0
            && "dKpcUnit" in param && "dMsolUnit" in param && "dDelta" in param
            && (nImage.GetOr(nSnap) == 0 || nSnap == 0 || nCheck.GetOr(nSnap) == 0)
            ==> res == Failure(DivisionByZero)
    ensures res.Success? <==>
              && 0.0 <= rOrb <= 1.0
              && "dKpcUnit" in param && "dMsolUnit" in param && "dDelta" in param
              && nImage.GetOr(nSnap) != 0 && nSnap != 0 && nCheck.GetOr(nSnap) != 0
    ensures res.Success? ==> res.value.Keys == param.Keys + ScheduleKeys
    ensures res.Success? ==> forall k :: k in param && k !in ScheduleKeys ==> res.value[k] == param[k]
    ensures res.Success? ==>
              && res.value["nSteps"] == IntVal(steps)
              && res.value["dDumpFrameStep"] == IntVal(TruncDiv(steps, nImage.GetOr(nSnap)))
              && res.value["iOutInterval"] == IntVal(TruncDiv(steps, nSnap))
              && res.value["iCheckInterval"] == IntVal(TruncDiv(steps, nCheck.GetOr(nSnap)))
  {
    if rOrb > 1.0 || rOrb < 0.0 then Failure(ROrbOutOfRange)
    else if "dKpcUnit" !in param then Failure(MissingKey("dKpcUnit"))
    else if "dMsolUnit" !in param then Failure(MissingKey("dMsolUnit"))
    else if "dDelta" !in param then Failure(MissingKey("dDelta"))
    else
      var check := nCheck.GetOr(nSnap);
      var image := nImage.GetOr(nSnap);
      if image == 0 || nSnap == 0 || check == 0 then Failure(DivisionByZero)
      else
        Success(param
          ["nSteps" := IntVal(steps)]
          ["dDumpFrameStep" := IntVal(TruncDiv(steps, image))]
          ["iOutInterval" := IntVal(TruncDiv(steps, nSnap))]
          ["iCheckInterval" := IntVal(TruncDiv(steps, check))])
  }

  /** setup_param: checks r_orb, deep-copies the caller's dictionary and
      writes the step count and the three intervals on the copy. The
      caller's dictionary is neither modified nor returned. */
  method SetupParam(param: Dict, steps: int, rOrb: real := 1.0,
                    nImage: Option<int> := None, nSnap: int := 100, nCheck: Option<int> := None)
    returns (res: Result<Dict>)
    ensures param.entries == old(param.entries)
    ensures res.Failure? ==> Schedule(param.entries, steps, rOrb, nImage, nSnap, nCheck) == Failure(res.error)
    ensures res.Success? ==>
              && fresh(res.value)
              && res.value != param
              && Schedule(param.entries, steps, rOrb, nImage, nSnap, nCheck) == Success(res.value.entries)
  {
    if rOrb > 1.0 || rOrb < 0.0 {
      return Failure(ROrbOutOfRange);
    }
    var p := param.Copy();
    if "dKpcUnit" !in p.entries {
      return Failure(MissingKey("dKpcUnit"));
    }
    if "dMsolUnit" !in p.entries {
      return Failure(MissingKey("dMsolUnit"));
    }
    if "dDelta" !in p.entries {
      return Failure(MissingKey("dDelta"));
    }
    p.Set("nSteps", IntVal(steps));
    var check := if nCheck.None? then nSnap else nCheck.value;
    var image := if nImage.None? then nSnap else nImage.value;
    if image == 0 {
      return Failure(DivisionByZero);
    }
    p.Set("dDumpFrameStep", IntVal(TruncDiv(steps, image)));
    if nSnap == 0 {
      return Failure(DivisionByZero);
    }
    p.Set("iOutInterval", IntVal(TruncDiv(steps, nSnap)));
    if check == 0 {
      return Failure(DivisionByZero);
    }
    p.Set("iCheckInterval", IntVal(TruncDiv(steps, check)));
    return Success(p);
  }

  /** With n_image and n_check left unset, frames, snapshots and checkpoints
      share one interval. */
  lemma DefaultIntervalsEqual(param: Config, steps: int, rOrb: real, nSnap: int)
    requires Schedule(param, steps, rOrb, None, nSnap, None).Success?
    ensures var p := Schedule(param, steps, rOrb, None, nSnap, None).value;
            p["dDumpFrameStep"] == p["iOutInterval"] == p["iCheckInterval"]
  {
  }

  /** setup_param(param, snapshot) with every default argument (r_orb = 1.0,
      n_snap = 100, n_image and n_check unset) succeeds whenever the param
      map has the three keys it reads, and splits the run into 100 equal
      intervals. */
  lemma DefaultArgumentsSchedule(param: Config, steps: int)
    requires "dKpcUnit" in param && "dMsolUnit" in param && "dDelta" in param
    ensures var res := Schedule(param, steps);
            && res.Success?
            && res.value["nSteps"] == IntVal(steps)
            && res.value["dDumpFrameStep"] == IntVal(TruncDiv(steps, 100))
            && res.value["iOutInterval"] == IntVal(TruncDiv(steps, 100))
            && res.value["iCheckInterval"] == IntVal(TruncDiv(steps, 100))
  {
  }

  /** Asking for more snapshots (and, by default, as many frames and
      checkpoints) never lengthens the snapshot interval. */
  lemma MoreSnapshotsShorterInterval(param: Config, steps: int, rOrb: real,
                                     nImage: Option<int>, nSnap1: int, nSnap2: int, nCheck: Option<int>)
    requires steps >= 0 && 0 < nSnap1 <= nSnap2
    requires Schedule(param, steps, rOrb, nImage, nSnap1, nCheck).Success?
    ensures var p1 := Schedule(param, steps, rOrb, nImage, nSnap1, nCheck);
            var p2 := Schedule(param, steps, rOrb, nImage, nSnap2, nCheck);
            && p2.Success?
            && p2.value["iOutInterval"].i <= p1.value["iOutInterval"].i
  {
    IntervalAntitone(steps, nSnap1, nSnap2);
  }

  /** A longer run (more steps) never shortens any interval. */
  lemma MoreStepsLongerIntervals(param: Config, steps1: int, steps2: int, rOrb: real,
                                 nImage: Option<int>, nSnap: int, nCheck: Option<int>)
    requires 0 <= steps1 <= steps2
    requires nImage.GetOr(nSnap) > 0 && nSnap > 0 && nCheck.GetOr(nSnap) > 0
    requires Schedule(param, steps1, rOrb, nImage, nSnap, nCheck).Success?
    ensures var p1 := Schedule(param, steps1, rOrb, nImage, nSnap, nCheck).value;
            var p2 := Schedule(param, steps2, rOrb, nImage, nSnap, nCheck).value;
            && p1["dDumpFrameStep"].i <= p2["dDumpFrameStep"].i
            && p1["iOutInterval"].i <= p2["iOutInterval"].i
            && p1["iCheckInterval"].i <= p2["iCheckInterval"].i
  {
    IntervalMonotone(steps1, steps2, nImage.GetOr(nSnap));
    IntervalMonotone(steps1, steps2, nSnap);
    IntervalMonotone(steps1, steps2, nCheck.GetOr(nSnap));
  }

  /** Every key other than the four schedule keys looks up (through getpar)
      exactly as it did before setup_param. */
  lemma ScheduleKeepsOtherLookups(key: string, param: Config, defaults: Defaults, steps: int, rOrb: real,
                                  nImage: Option<int>, nSnap: int, nCheck: Option<int>)
    requires key !in ScheduleKeys
    requires Schedule(param, steps, rOrb, nImage, nSnap, nCheck).Success?
    ensures GetPar(key, Schedule(param, steps, rOrb, nImage, nSnap, nCheck).value, defaults)
              == GetPar(key, param, defaults)
  {
  }
}
