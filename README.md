# diskpy configuration layer, modelled in Dafny

This project models the configuration-dictionary layer of diskpy's ChaNGa
front end (`diskpy/pychanga/_param.py`). A configuration (a parsed `.param`
or `.director` file) is a finite map from string keys to values. Each value
is an int, a float, a string or a list of such values. Four operations work
on these maps:

- `getpar` looks a key up in the caller's map and falls back to ChaNGa's
  built-in defaults. It fails when the key is in neither.
- `make_director` builds an image-rendering (`.director`) dictionary. It
  deep-copies the bundled director template and rescales its colour field
  `colgas[3]` to a new surface density, radius and resolution. It also sets
  `size`, `eye[2]` and `file`, and drops the template's `#sigma_max`
  annotation.
- `make_param` builds a `.param` dictionary. It deep-copies the bundled param
  template, records the input and output file names, and sets the
  snapshot's length unit, mass unit and mean molecular weight.
- `setup_param` (its scheduling part) checks `r_orb`, deep-copies the
  caller's param dictionary, and writes the step count `nSteps` and the
  frame, output and checkpoint intervals.

Layout:

- `values.dfy` (module `ConfigValues`): the `Value` datatype, `Config`, the
  `Error` and `Result` types, and `d[key][i]` and `float(v)` on values.
- `dict.dfy` (module `Dicts`): the mutable Python dict as a class `Dict`.
  Its field `entries` is reassigned by `Set` (`d[k] = v`), `Pop`
  (`d.pop(k, None)`) and `SetElement` (`d[k][i] = v`). `Copy` and the
  constructor stand for `copy.deepcopy`.
- `paths.dfy` (module `PathNames`): `os.path.splitext` with POSIX separators.
- `param.dfy` (module `Param`): the four operations. The three builders
  each appear twice. A function (`DirectorFor`, `ParamFor`, `Schedule`)
  states the resulting map and the error cases. A method (`MakeDirector`,
  `MakeParam`, `SetupParam`) allocates a fresh `Dict`, updates it step by
  step as the source does, and is proved to return that function's result.
  Python's keyword defaults are Dafny default parameters at the end of each
  list: `resolution := 1200` and `filename := "snapshot"` for
  `make_director`; `filename := None` for `make_param`; and `r_orb := 1.0`,
  `n_image := None`, `n_snap := 100` and `n_check := None` for
  `setup_param`.

The three bundled templates (default param, default director, ChaNGa
defaults) are loaded from disk once, at import. Here they are an immutable
`Defaults` value passed to each operation. Two details of the code that the
model keeps:

- `setup_param` reads `dKpcUnit`, `dMsolUnit` and `dDelta` with plain
  indexing (`_param.py:320-328`). A missing key raises `KeyError` even when
  ChaNGa's defaults define it; `Schedule` models that.
- `make_director` computes `logscale_min = sigma_min/sigma_max` before the
  colour scale. So `sigma_max == 0` raises `ZeroDivisionError`, even though
  the value is never stored.

## Model

| member | source | states |
|---|---|---|
| `Param.GetPar` | diskpy/pychanga/_param.py:51-61 | The caller's value whenever the key is in the caller's map, whatever the defaults hold. Otherwise ChaNGa's default. Fails, with an error naming the key, exactly when the key is in neither map. |
| `Param.GetParIsOverlay` | diskpy/pychanga/_param.py:51-61 | getpar equals a lookup in ChaNGa's defaults overlaid by the caller's map. |
| `Param.GetParEmpty` | diskpy/pychanga/_param.py:29-61 | With the default empty `param`, getpar succeeds exactly for keys in ChaNGa's defaults and returns their default value. |
| `ConfigValues.Element` | diskpy/pychanga/_param.py:109-111 | `d[key][i]` succeeds exactly when key is present, its value is a list and i is in range. It fails with KeyError, TypeError or IndexError otherwise. |
| `ConfigValues.AsReal` | diskpy/pychanga/_param.py:112 | `float(v)` succeeds exactly on numbers and keeps their value. |
| `Param.ScaleFactor` | diskpy/pychanga/_param.py:104-112 | A missing `#sigma_max` raises KeyError. A succeeds exactly when every reference field is present and numeric and sigma_max0*r0^2 is non-zero. A*sigma_max0*r0^2 == c0*n0^2. |
| `Param.DirectorFor` | diskpy/pychanga/_param.py:104-131 | A template without `#sigma_max` fails. Succeeds exactly when A is defined and sigma_max and resolution are non-zero. The result has no `#sigma_max`. Its keys are the template's, minus the annotation, plus `size` and `file`. size == [resolution, resolution], file == filename, eye == template eye with [2] = r, colgas == template colgas with [3] = A*sigma_max*r^2/resolution^2. Every other key keeps the template's value. |
| `Param.ColourScale` | diskpy/pychanga/_param.py:126 | The colour scale c satisfies c*resolution^2 == A*sigma_max*r^2, for a non-zero resolution. |
| `Param.DefaultArgumentsDirector` | diskpy/pychanga/_param.py:65 | Called with only sigma_min, sigma_max and r, make_director uses resolution 1200 and file name 'snapshot': size == [1200, 1200] and file == 'snapshot'. |
| `Param.MakeDirector` | diskpy/pychanga/_param.py:65-133 | Deep-copies, pops, then updates in place. Returns a fresh dictionary equal to `DirectorFor`'s result, or the same error. The template is not modified. |
| `Param.DirectorRescaleIdentity` | diskpy/pychanga/_param.py:108-126 | Given sigma_max == sigma_max0, r == r0 and resolution == n0 != 0, the new colgas[3] equals the template's c0. |
| `Param.InputName` | diskpy/pychanga/_param.py:150-158 | The explicit filename if given. Otherwise the snapshot's file name, unless that is `<created>`, in which case none. |
| `Param.ParamFor` | diskpy/pychanga/_param.py:148-165 | Always sets dKpcUnit, dMsolUnit and dMeanMolWeight. With a filename, achInFile == filename and achOutName == its stem. Without one, the snapshot's name is used unless it is `<created>`; then both file keys keep their template values. Every other template key is unchanged. The key set is the template's plus exactly the keys written. |
| `Param.MakeParam` | diskpy/pychanga/_param.py:135-167 | Returns a fresh dictionary equal to `ParamFor`'s result. The template is not modified. |
| `Param.OutNameIsStrippedInName` | diskpy/pychanga/_param.py:150-158 | When a file name is recorded, achOutName is a prefix of achInFile. The two are equal exactly when the name has no extension. |
| `Param.MadeParamUnitsReadBack` | diskpy/pychanga/_param.py:160-163 | getpar on the made param returns the snapshot's kpc and Msol ratios, whatever ChaNGa's defaults hold. |
| `PathNames.RFind` | diskpy/pychanga/_param.py:153 | The last index holding the character, or -1. No later index holds it. |
| `PathNames.SplitExt` | diskpy/pychanga/_param.py:153 | root + ext == the name, and ext is empty or starts with a dot. |
| `PathNames.Stem` | diskpy/pychanga/_param.py:153 | The stem is a prefix of the name. |
| `PathNames.SplitExtSpec` | diskpy/pychanga/_param.py:153 | An extension is removed exactly when the name has one. That is a dot in the last path component, followed by no dot or separator and preceded in the component by a non-dot character. What is removed starts at that dot. |
| `PathNames.StemDropsOnlyExtension` | diskpy/pychanga/_param.py:153-158 | The stem equals the name exactly when the name has no extension. |
| `Param.TruncDiv` | diskpy/pychanga/_param.py:342-344 | `int(N/n)`: the remainder N - q*n has the sign of N and is smaller than n in magnitude (truncation toward zero). |
| `Param.IntervalBounds` | diskpy/pychanga/_param.py:342-344 | For N >= 0 and n > 0 the interval i is non-negative and i*n <= N < (i+1)*n. |
| `Param.IntervalAntitone` | diskpy/pychanga/_param.py:342-344 | For N >= 0, a larger positive count never gives a larger interval. |
| `Param.IntervalMonotone` | diskpy/pychanga/_param.py:342-344 | For a positive count, a larger non-negative N never gives a smaller interval. |
| `Param.Schedule` | diskpy/pychanga/_param.py:262-346 | Fails with the r_orb error exactly when r_orb > 1 or r_orb < 0, before anything else. The endpoints 0 and 1 are accepted. A missing dKpcUnit, dMsolUnit or dDelta (checked in that order) raises KeyError naming that key. A zero count, after defaulting to n_snap, raises ZeroDivisionError. Succeeds exactly when these checks pass and every count, after defaulting to n_snap, is non-zero. The result differs from the input only at nSteps, dDumpFrameStep, iOutInterval and iCheckInterval. nSteps == N, and each interval is int(N/count). |
| `Param.SetupParam` | diskpy/pychanga/_param.py:262-346 | Checks r_orb before copying. Returns a fresh dictionary, distinct from the caller's, equal to `Schedule`'s result, or the same error. The caller's dictionary is unchanged. |
| `Param.DefaultIntervalsEqual` | diskpy/pychanga/_param.py:334-344 | With n_image and n_check unset, the three intervals are equal. |
| `Param.DefaultArgumentsSchedule` | diskpy/pychanga/_param.py:262-263 | With every default argument (r_orb = 1.0, n_snap = 100, n_image and n_check unset), setup_param succeeds whenever dKpcUnit, dMsolUnit and dDelta are present, and all three intervals are int(N/100). |
| `Param.MoreSnapshotsShorterInterval` | diskpy/pychanga/_param.py:336-343 | For N >= 0, raising a positive n_snap keeps the schedule valid and never lengthens iOutInterval. |
| `Param.MoreStepsLongerIntervals` | diskpy/pychanga/_param.py:331-344 | For positive counts, a larger non-negative N never shortens any of the three intervals. |
| `Param.ScheduleKeepsOtherLookups` | diskpy/pychanga/_param.py:313-346 | After setup_param, getpar returns the same result as before for every key other than the four schedule keys. |
| `Dicts.Dict.constructor` | diskpy/pychanga/_param.py:148 | A fresh dictionary holding the template's contents (deepcopy of a template). |
| `Dicts.Dict.Copy` | diskpy/pychanga/_param.py:314 | A fresh dictionary with equal contents (deepcopy of the caller's dictionary). |
| `Dicts.Dict.Set` | diskpy/pychanga/_param.py:131 | `d[k] = v`: the new contents are the old ones with k mapped to v. |
| `Dicts.Dict.Pop` | diskpy/pychanga/_param.py:118 | `d.pop(k, None)`: the new contents are the old ones without k. No error when k is absent. |
| `Dicts.Dict.SetElement` | diskpy/pychanga/_param.py:128 | `d[k][i] = v`: only element i of list k changes. |

## Left out

- Loading the three templates from disk at import, and passing `param` or
  `snapshot` as a file name to be parsed or loaded. This is file I/O; the
  templates and dictionaries are inputs instead.
- The config parser and serializer (`configparser`, `configsave`),
  `strip_units` and `get_units` from `diskpy.utils`. `diskpy/utils` is not
  part of this model. Values are taken as the parser's typed output. The
  numeric arguments of `make_director` are taken as already unit-stripped
  Python floats, so division by zero raises.
- Insertion order of keys. Python dicts are ordered; a `map` is not, so the
  order in which keys would be written back to a file is not modelled.
- Aliasing between nested lists. List values are immutable Dafny sequences,
  so the deep copy and an element update cannot reach the template through
  a shared list.
- `ConfigValues.Element`: indexing a string value is treated as a type
  error. Python would return a character, but the parser stores
  multi-token fields as lists.
- `units_from_param` and `setup_units`: unit arithmetic happens inside the
  external `pynbody.units` library, and uses `sqrt` and float conversion.
- Computing `N` in `setup_param` from the snapshot's radii and star mass,
  the Keplerian period, `dDelta` and `np.round`. This needs snapshot arrays,
  units and floating point. `N` is an input, so a zero `dDelta` or star mass
  is not modelled.
  Likewise `setup_param`'s default `snapshot=None`: its docstring says the
  file named by the param is used, but the code reads `snapshot.g` and
  raises AttributeError. That happens inside the `N` computation, which the
  model takes as an input.
- The snapshot's own quantities in `make_param`: the kpc and Msol unit
  ratios and the first gas particle's `mu` are plain real inputs. An
  `IndexError` on a snapshot without gas is not modelled.
- `logscale_min` in `make_director`: it is computed and never stored. Only
  the division by `sigma_max` that computes it is modelled, as an error.
- `Param.TruncDiv`: models the exact quotient truncated toward zero. Python
  truncates a float quotient, which gives the same integer while |N| is
  below 2^52. Integer arguments are assumed; float counts are not modelled.
- `Param.Schedule`: NaN for `r_orb` is not modelled, since reals have no NaN.
  In Python a NaN passes the range check.
- Float rounding, overflow, infinities and NaN in the `make_director`
  formulas: they are computed over exact reals.
- `find_param_names`: filesystem probing, `glob` and a change of working
  directory.
