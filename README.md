# Glacier flow profiles, modelled in Dafny

This project models the profile engine of the glacier-flow tools and of
pypism. A profile is a polyline of (x, y) points across a glacier. The
engine works in three steps:

1. It computes the unit normals and tangentials of the polyline and the
   profile axis.
2. It interpolates the variables of a gridded dataset along the profile.
3. It optionally projects a vector field onto the normals, and compares
   observed with simulated variables by RMSD and Pearson correlation.

The project also models the `key=value` argument parser of the profile
script.

Modules, one file each:

- `numerics.dfy` (`Numerics`)
  - Plane vectors, `Option` for NaN, and NaN-propagating arithmetic.
  - The square root is a parameter: a function `sqrt` that the lemmas
    require to return the non-negative root (`IsSqrt`).
- `geometry.dfy` (`Geometry`)
  - `normal` and `tangential` of a point pair.
  - `compute_normals` and `compute_tangentials`: methods that fill the
    per-point arrays in a loop.
  - The profile axis used by `extract_profile`.
  - pypism's `distance_from_start`, a cumulative sum filled in a loop.
  - Both `profiles.py` files define these functions identically, so they
    are shared.
- `datasets.dfy` (`Datasets`)
  - An xarray dataset as two maps from names to columns: coordinates and
    data variables.
  - Item lookup and assignment.
  - `xr.merge` of a list of named arrays, with conflict detection.
  - The `Result` type for raised exceptions.
- `statistics.dfy` (`Statistics`)
  - `sqrt(nanmean((a - b) ** 2))`, over series whose NaN entries are
    skipped.
- `extraction.dfy` (`Extraction`)
  - `add_normal_component`, including its literal `(x and y) in
    data_vars` guard.
  - The full specification `ExtractSpec` of `extract_profile` without
    normals.
  - The method `Extract` that computes it: collect names, interpolate in
    a loop, merge, set `profile_id`.
- `stats.dfy` (`Stats`)
  - The per-name dispatch loop of `calculate_stats`, which writes each
    statistic into the dataset.
  - The failure paths, keeping the writes already made.
- `glacier.dfy` (`GlacierProfiles`)
  - The `ProfilesMethods` accessor (`add_normal_component`,
    `calculate_stats`, `extract_profile` with the conditional normal
    projections) as a class whose field `obj` is the wrapped dataset.
  - The configuration routing of `process_profile`.
- `pypism.dfy` (`PypismProfiles`)
  - `merge_on_intersection` as an inner join of data frames.
  - The frame-level `calculate_stats` with its NaN guard.
  - The `CustomDatasetMethods` accessor, whose only statistic is `rmsd`
    and which never adds a normal.
- `kwargs.dfy` (`ComputeProfiles`)
  - `ParseKwargs.__call__` over an argparse namespace.
  - Python's one-character `str.split`, with `join` as its inverse.

### Abstract parameters

Interpolation (`da.interp`), correlation (`xr.corr` and pandas `corr`) and
the square root are parameters. An interpolation returns `None` where the
call raises. Otherwise it returns one value per profile point. NaN is
`None`.

### The profile axis

The profile axis that `extract_profile` computes is the straight-line
distance from the first point to each point, not a cumulative distance
along the polyline (which is what pypism's `distance_from_start`
computes). Accounts of the axis as cumulative do not match the code, and
the model follows the code. `Geometry.RightAngleAxisIsChordNotPath` shows the two differ at
the corner of a right angle. `Geometry.ProfileAxisCanDecrease` shows the
axis need not be non-decreasing.

## Model

| member | source | states |
|---|---|---|
| Geometry.NormalNeverFlips | glacier_flow_tools/profiles.py:226-234 | The flip test never changes the result: `normal(p0, p1)` is p1 − p0 rotated clockwise and divided by its length. The result is NaN when the points coincide. |
| Geometry.NormalIsUnitRightNormal | glacier_flow_tools/profiles.py:203-234 | The normal is NaN exactly when p0 = p1. Otherwise it has unit length, is perpendicular to p1 − p0, and lies to its right (negative cross product). Scaled by \|p1 − p0\|, it is the clockwise rotation of p1 − p0. pypism's `normal` is the same code. |
| Geometry.UnitRightNormal | glacier_flow_tools/profiles.py:226-228 | Dividing the clockwise rotation of d by a positive root of \|d\|² gives a unit vector perpendicular to d and to its right. |
| Geometry.NormalScaleInvariant | glacier_flow_tools/profiles.py:226-228 | The normal depends only on the direction of p1 − p0. Stretching the segment by a positive factor leaves it unchanged. |
| Geometry.Tangential | glacier_flow_tools/profiles.py:258-262 | Coinciding points give the exact zero vector. |
| Geometry.TangentialIsUnitDirection | glacier_flow_tools/profiles.py:237-262 | For distinct points, the tangential has unit length and is parallel to p1 − p0, pointing the same way. pypism's `tangential` is the same code. |
| Geometry.Points | glacier_flow_tools/profiles.py:287 | `np.vstack((px, py)).T` pairs the i-th x with the i-th y, one point per entry. |
| Geometry.FillByPairs | glacier_flow_tools/profiles.py:292-297 | The loop fills entry 0 from pair (0, 1), each interior entry j from (j − 1, j + 1), and the last from (N − 2, N − 1). |
| Geometry.ComputeNormals | glacier_flow_tools/profiles.py:265-299 | Fewer than two points give the placeholder `([0], [0])`. Otherwise the result is two length-N series, each the component of the normal of the pair that indexes that point. pypism's `compute_normals` is the same code. |
| Geometry.ComputeTangentials | glacier_flow_tools/profiles.py:302-336 | The placeholder applies below two points. Otherwise there are two length-N series of the tangential of each point's pair. pypism's `compute_tangentials` is the same code. |
| Geometry.StraightLineNormalsAgree | glacier_flow_tools/profiles.py:265-299 | Along a straight polyline traversed in one direction, every point gets the same normal. |
| Geometry.DistanceRoot | glacier_flow_tools/profiles.py:817 | The distance of two points is the non-negative root of their squared distance. It is 0 exactly when they coincide. |
| Geometry.ProfileAxis | glacier_flow_tools/profiles.py:817 | The axis has one entry per point. Entry i is the straight-line distance from point 0 to point i. |
| Geometry.ProfileAxisStartsAtZero | glacier_flow_tools/profiles.py:817 | The axis starts at 0. |
| Geometry.ProfileAxisIsDistanceFromFirstPoint | pypism/profiles.py:329 | Entry i is the root of \|p_i − p_0\|². |
| Geometry.ProfileAxisCanDecrease | glacier_flow_tools/profiles.py:817 | The axis is not monotone: the points (0,0), (10,0), (0,0) give the axis [0, 10, 0]. |
| Geometry.RightAngleAxisIsChordNotPath | glacier_flow_tools/profiles.py:817 | For (0,0), (10,0), (10,10), the path length to the last point is 20. The axis there is √200, which is less than 20. |
| Geometry.DistanceFromStart | pypism/profiles.py:108-112 | The result has len(px) entries. Entry i is the summed length of the segments up to point i. |
| Geometry.PathLengthIsNonDecreasing | pypism/profiles.py:108-112 | The cumulative distance starts at 0, is never negative and never decreases. |
| Datasets.Lookup | glacier_flow_tools/profiles.py:861 | `ds[name]` finds a data variable or a coordinate. On a data variable it returns that variable's column. |
| Datasets.Assign | glacier_flow_tools/profiles.py:678 | `ds[name] = column` keeps the coordinates and adds or replaces only `name`. |
| Datasets.MergeSound | glacier_flow_tools/profiles.py:867 | A successful `xr.merge` has no two arrays of one name that disagree. Its names are exactly the arrays' names, holding the arrays' values. A failure is a MergeError. |
| Datasets.MergeComplete | glacier_flow_tools/profiles.py:867 | `xr.merge` succeeds whenever no two arrays of one name disagree. |
| Extraction.GuardChecksOnlySecondName | glacier_flow_tools/profiles.py:646 | With a non-empty first name, `assert (a and b) in data_vars` holds exactly when b is a data variable. |
| Extraction.GuardIgnoresFirstName | pypism/profiles.py:267 | A missing x component does not trip the assert. |
| Extraction.Projection | glacier_flow_tools/profiles.py:648-680 | The projection is `x*nx + y*ny` pointwise. It is NaN wherever one input is NaN. |
| Extraction.NormalComponentAddsOnlyItsName | glacier_flow_tools/profiles.py:621-681 | Success happens exactly when the guard holds and x, nx, y, ny are equal-length series. Then only `normal_name` is added or replaced, with the projection as its value. pypism's `add_normal_component` is the same apart from dask. |
| Extraction.MissingFirstComponentIsKeyError | glacier_flow_tools/profiles.py:646-679 | When the x component is missing but y is present, the assert passes and the read `self._obj[x_component]` raises KeyError. |
| Extraction.FirstMissing | glacier_flow_tools/profiles.py:860-861 | The name it reports is requested and found in the dataset neither as a variable nor as a coordinate. |
| Extraction.FirstMissingNone | glacier_flow_tools/profiles.py:860-861 | No name is reported exactly when every requested name can be read. |
| Extraction.FirstMissingAt | glacier_flow_tools/profiles.py:860-861 | The reported name is the first requested name that cannot be read. |
| Extraction.DataVarNames | glacier_flow_tools/profiles.py:857-858 | `list(self._obj.data_vars)` lists exactly the data variables, each once. |
| Extraction.Interpolated | glacier_flow_tools/profiles.py:862-865 | A successful interpolation is a series with one value per profile point. |
| Extraction.InterpolateEach | glacier_flow_tools/profiles.py:860-865 | The loop raises KeyError at the first unreadable name. Otherwise it appends, in order, the arrays whose interpolation succeeds. |
| Extraction.InterpolatedVariables | glacier_flow_tools/profiles.py:860-865 | It holds a name exactly when the name is requested and its interpolation succeeds. |
| Extraction.BaseVariables | glacier_flow_tools/profiles.py:836-855 | The arrays built before the loop are exactly `nx`, `ny` and `profile_name`. |
| Extraction.MergeOfExtraction | glacier_flow_tools/profiles.py:867 | Merging the base and interpolated arrays succeeds exactly when no interpolated variable clashes with a base one. The result is their union. |
| Extraction.AssembledContents | glacier_flow_tools/profiles.py:867-868 | After `ds["profile_id"] = [profile_id]`, the coordinates are exactly `profile_axis` and `profile_id`. The base and interpolated values survive, minus any variable named `profile_id`. |
| Extraction.ExtractedBase | glacier_flow_tools/profiles.py:817-868 | Every extracted profile has the coordinates `profile_axis` (the axis) and `profile_id = [id]`. It also has `nx` and `ny` (the normals) and `profile_name = [name]`. |
| Extraction.ExtractedRequested | glacier_flow_tools/profiles.py:857-868 | Every other variable is one the caller requested. A requested variable appears exactly when its interpolation succeeds, holding the interpolated values; failures are dropped. |
| Extraction.ExtractSucceeds | glacier_flow_tools/profiles.py:817-868 | Extraction succeeds exactly when the coordinates are non-empty and of equal length, `x` and `y` exist, every requested name exists and nothing clashes. A missing requested name raises KeyError with the first such name. |
| Extraction.UnequalLengthsFail | glacier_flow_tools/profiles.py:817-832 | Non-empty coordinates of unequal length always fail. With `x` and `y` present the failure is a shape error. When one side has a single point it broadcasts in the axis computation, so a missing `x` (or, with one y value, a missing `y`) is reported first as its KeyError, and only then. |
| Extraction.BroadcastReachesTheKeyLookup | glacier_flow_tools/profiles.py:817-826 | Three x values against one y value pass the axis computation and raise the KeyError of the missing `x`. |
| Extraction.DefaultIsEveryDataVariable | glacier_flow_tools/profiles.py:857-858 | `data_vars=None` behaves like requesting the list of all data variables. |
| Extraction.AxisStartsAtZero | glacier_flow_tools/profiles.py:817 | The `profile_axis` coordinate has N values and starts at 0. |
| Extraction.AxisIsDistanceFromStart | pypism/profiles.py:329 | Coordinate value i is the distance from point 0 to point i. |
| Extraction.MergeProfile | glacier_flow_tools/profiles.py:836-868 | Building `das`, merging and setting `profile_id` give the extraction result. |
| Extraction.Extract | glacier_flow_tools/profiles.py:817-868 | The method computes `ExtractSpec`, including its IndexError, ShapeError and KeyError paths in the order the code raises them (length-1 broadcast included). |
| Statistics.SquaredDiffs | glacier_flow_tools/profiles.py:734-735 | The squared difference is finite exactly where both inputs are. |
| Statistics.FiniteCountPositive | glacier_flow_tools/profiles.py:735 | `nanmean` has something to average exactly when some entry is finite. |
| Statistics.RmsdNaNIffNoFinitePair | glacier_flow_tools/profiles.py:734-735 | The RMSD is NaN exactly when no position has both values finite. |
| Statistics.RmsdIsRootOfMeanSquare | glacier_flow_tools/profiles.py:734-735 | The RMSD is the root of the non-negative mean of squared differences over the finite positions. |
| Statistics.RmsdSymmetric | glacier_flow_tools/profiles.py:714-735 | Swapping the two series leaves the RMSD unchanged. |
| Statistics.RmsdOfIdenticalIsZero | glacier_flow_tools/profiles.py:714-735 | A series with a finite value has RMSD 0 against itself. |
| Statistics.RmsdExample | glacier_flow_tools/profiles.py:734-735 | The series [1,2,3,4] and [1,2,3,5] have RMSD 0.5. |
| Stats.StatValue | glacier_flow_tools/profiles.py:714-770 | A computed statistic is a scalar of two equal-length series. `rmsd` needs the `profile_axis` dimension and is their RMSD. `pearson_r` is their correlation. A missing obs or sim variable raises KeyError. |
| Stats.RunStats | glacier_flow_tools/profiles.py:712-771 | The guard and the loop compute `CalculateStats`. When a statistic fails, the ones before it stay written. |
| Stats.LaterStatsKeepFailure | glacier_flow_tools/profiles.py:759-770 | After a failure, the remaining names change nothing. |
| Stats.StatsWriteOnlyTheirNames | glacier_flow_tools/profiles.py:759-770 | Only names from `stats` are added, coordinates and other variables are kept, and anything written is a scalar. On success every name is present. |
| Stats.UnknownStatFails | glacier_flow_tools/profiles.py:757-760 | A name missing from the dispatch table raises. |
| Stats.StatsSucceed | glacier_flow_tools/profiles.py:759-770 | With equal-length obs and sim series and known names, every name gets its statistic of the original obs and sim. |
| Stats.SameInputsSameStat | glacier_flow_tools/profiles.py:761-770 | A statistic reads only the obs and sim variables. |
| Stats.RmsdStatProperties | glacier_flow_tools/profiles.py:714-735 | The written `rmsd` is NaN exactly when no pair is finite. Otherwise it is non-negative, and it is symmetric in obs and sim. |
| Stats.MissingSimulationFailsTheGuard | glacier_flow_tools/profiles.py:712 | A missing `sim_var` fails the assert and leaves the dataset unchanged. |
| GlacierProfiles.ProfilesMethods.constructor | glacier_flow_tools/profiles.py:602-612 | The accessor wraps the given dataset. |
| GlacierProfiles.ProfilesMethods.AddNormalComponent | glacier_flow_tools/profiles.py:621-681 | The method writes the normal component into the wrapped dataset. On a raise, the dataset is unchanged. |
| GlacierProfiles.ProfilesMethods.CalculateStats | glacier_flow_tools/profiles.py:683-771 | The wrapped dataset and the failure become what `CalculateStats` gives with the table {rmsd, pearson_r}. |
| GlacierProfiles.ProfilesMethods.AddNormalIfPresent | glacier_flow_tools/profiles.py:870-886 | The projection is added only when every component variable is present. On an error the dataset is unchanged. |
| GlacierProfiles.ProfilesMethods.ExtractProfile | glacier_flow_tools/profiles.py:773-887 | The method returns the extraction, followed by the two optional projections. |
| GlacierProfiles.NormalAddedIffComponentsPresent | glacier_flow_tools/profiles.py:870-886 | `normal_var` is added exactly when both components are present, with value `x*nx + y*ny`. Otherwise the dataset is returned untouched. |
| GlacierProfiles.ExtractedNormals | glacier_flow_tools/profiles.py:870-886 | The component pair and the error pair are checked and added independently. Nothing else changes. |
| GlacierProfiles.MergeDatasets | glacier_flow_tools/profiles.py:445 | Merging two datasets succeeds exactly when they agree on every shared name. The result is the union of both. |
| GlacierProfiles.SameProfileMergesOnSharedFrame | glacier_flow_tools/profiles.py:445 | Two extractions along one profile always agree on the axis, normals, name and id. Their merge fails exactly when a shared interpolated variable differs. |
| GlacierProfiles.ProcessProfile | glacier_flow_tools/profiles.py:339-448 | The method routes the obs options and the sim options into the two extractions, merges them and adds the statistics. |
| GlacierProfiles.ProcessedProfileAddsTheStatistics | glacier_flow_tools/profiles.py:339-448 | A processed profile is the merge of both extractions plus one scalar per requested statistic. Nothing else changes. |
| PypismProfiles.MergeOnIntersection | pypism/profiles.py:31-36 | The merge succeeds exactly when the frames share a column and no shared column is text in one frame and numeric in the other. With no shared column it is a MergeError; with such a clash it is a ValueError naming a clashing key. The left columns come first, then the right columns that are not shared. |
| PypismProfiles.IntegerKeyJoinsFloatKey | pypism/profiles.py:36 | An integer key 1 joins a float key 1.0, and the joined row keeps the left key cell. |
| PypismProfiles.TextKeyAgainstNumberIsValueError | pypism/profiles.py:36 | A text key column against a numeric one raises the ValueError naming that key. |
| PypismProfiles.WithoutKeys | pypism/profiles.py:36 | Only the right columns that are not join keys are kept. |
| PypismProfiles.JoinRowsIsInnerJoin | pypism/profiles.py:36 | Every joined row combines a left and a right row that agree on the keys, and every such pair is joined. |
| PypismProfiles.MergeOnIntersectionJoinsSharedColumns | pypism/profiles.py:31-36 | The join keys are exactly the shared columns, making the merge an inner join with one row per agreeing pair of rows. |
| PypismProfiles.MatchRowsCount | pypism/profiles.py:36 | A left row is combined once with each right row it agrees with. |
| PypismProfiles.JoinRowsCount | pypism/profiles.py:36 | The join has exactly as many rows as there are index pairs (i, j) of agreeing left and right rows, so duplicates are kept. |
| PypismProfiles.DuplicateRowsAreKept | pypism/profiles.py:36 | Two equal left rows joined with one agreeing right row give two rows. |
| PypismProfiles.NumColumn | pypism/profiles.py:122 | `df[col]` is the column's numbers row by row, defined exactly when every row holds a float or an integer there. An integer converts exactly to a float. |
| PypismProfiles.Diff | pypism/profiles.py:121 | The difference is finite exactly where both columns are. |
| PypismProfiles.LegacyStatsContents | pypism/profiles.py:115-129 | The result is one row with columns `["pearson_r", "rmsd"]` in that order. Under the guard (all differences NaN, or at most two rows) both values are NaN. Otherwise `rmsd` is the finite, non-negative RMSD and `pearson_r` the correlation of col2 with col1. |
| PypismProfiles.LegacyRmsdSymmetric | pypism/profiles.py:127-128 | Swapping col1 and col2 leaves `rmsd` unchanged. |
| PypismProfiles.LegacyRmsdOfSameColumnIsZero | pypism/profiles.py:127-128 | A column compared with itself past the guard has `rmsd` 0. |
| PypismProfiles.NaNRowsCountTowardsTheGuard | pypism/profiles.py:122 | The length test counts NaN rows: three rows with one NaN are past the guard. |
| PypismProfiles.TwoRowsAreTooFew | pypism/profiles.py:122-124 | Two rows give NaN for both statistics. |
| PypismProfiles.LegacyRejectsCorrelation | pypism/profiles.py:294-297 | The pypism table knows only `rmsd`, so asking for `pearson_r` fails. |
| PypismProfiles.LegacyDefaultsAddTheRmsd | pypism/profiles.py:281-303 | With the default `stats=["rmsd"]` and two equal-length series that pass the guard, the call succeeds. It adds exactly `rmsd`, holding the RMSD of the two series, and leaves the other variables and the coordinates unchanged. |
| PypismProfiles.CustomDatasetMethods.constructor | pypism/profiles.py:245-249 | The accessor wraps the given dataset. |
| PypismProfiles.CustomDatasetMethods.AddNormalComponent | pypism/profiles.py:258-279 | The method writes the normal component into the wrapped dataset. On a raise, the dataset is unchanged. |
| PypismProfiles.CustomDatasetMethods.CalculateStats | pypism/profiles.py:281-305 | The wrapped dataset and the failure become what `CalculateStats` gives with the table {rmsd}. |
| PypismProfiles.CustomDatasetMethods.ExtractProfile | pypism/profiles.py:307-381 | The method returns exactly `ExtractSpec`, with no normal component. |
| ComputeProfiles.Split | profiles/compute_profiles.py:80 | `split("=")` gives one more piece than there are `=` characters. |
| ComputeProfiles.SplitPiecesLackSeparator | profiles/compute_profiles.py:80 | No piece contains `=`. |
| ComputeProfiles.JoinSplit | profiles/compute_profiles.py:80 | Joining the pieces with `=` gives the token back. |
| ComputeProfiles.SplitPair | profiles/compute_profiles.py:80 | `k=v` with no `=` in k or v splits into exactly [k, v]. |
| ComputeProfiles.ParseTokenMeaning | profiles/compute_profiles.py:80 | The two-way unpack succeeds exactly when the token has one `=`. Otherwise it raises ValueError. The key and value are the raw text on either side of the `=`. |
| ComputeProfiles.ParseTokenOfPair | profiles/compute_profiles.py:80 | `k=v` parses back to (k, v). |
| ComputeProfiles.CollectKeepsFailure | profiles/compute_profiles.py:79-81 | After a raise, the later tokens change nothing. |
| ComputeProfiles.CollectSucceedsIffAllParse | profiles/compute_profiles.py:79-81 | The action succeeds exactly when every token has one `=`. |
| ComputeProfiles.CollectStopsAtFirstBadToken | profiles/compute_profiles.py:79-81 | The first bad token raises ValueError. The pairs before it stay stored. |
| ComputeProfiles.CollectKeys | profiles/compute_profiles.py:79-81 | The stored keys are exactly the tokens' keys. |
| ComputeProfiles.CollectLastOccurrenceWins | profiles/compute_profiles.py:81 | A key holds the raw value of its last token. |
| ComputeProfiles.DocumentedExample | profiles/compute_profiles.py:54-58 | `key1=value1 key2=value2` gives `{'key1': 'value1', 'key2': 'value2'}`. |
| ComputeProfiles.ParseKwargs.constructor | profiles/compute_profiles.py:41 | The action is bound to its destination. |
| ComputeProfiles.ParseKwargs.Call | profiles/compute_profiles.py:61-81 | The destination is reset to `{}` and then holds the collected pairs; for no tokens it holds `{}`. A bad token's ValueError is returned after the earlier pairs are stored. Other attributes are unchanged. |

## Left out

- Plotting: `plot_profile`, `plot_glacier` and the accessors' `plot`.
- `FluxMethods.add_fluxes`, which is unit-aware physics with error propagation.
- The main block of the profile script: file I/O, dask and joblib parallelism, the `concat` helper and the option setup.
- The internals of `da.interp`, `xr.merge` beyond conflict detection, `xr.corr`, pandas `corr`, `groupby` and GeoDataFrame construction are foreign library code.
  - Interpolation and correlation are parameters. An interpolation stands for one dataset's grid: `process_profile` takes one for the observed and one for the simulated dataset.
  - The square root is a parameter, constrained only in the lemmas.
- Float behaviour: rounding that could make the normal flip fire, `np.zeros_like` truncating integer coordinates, and NaN semantics beyond "missing".
- Variables are series along the profile. The experiment dimension (`exp_id`) and broadcasting over extra dimensions are not modelled.
  - A statistic over series of different lengths is a ShapeError; xarray would align them.
  - A non-series operand is a TypeError.
- The `x` and `y` coordinates that `da.interp` attaches to each interpolated variable.
- Attributes (`attrs`), and reading `self._obj["x"].attrs` beyond its KeyError.
- Datasets.Lookup: `ds[name]` is None for a name that is neither a data variable nor a coordinate. xarray also answers for a dimension without a coordinate variable, with a range index. The model assumes `x` and `y` are variables of the dataset, so its KeyError("x") and KeyError("y") would not be raised for bare dimensions.
- Two leniencies of `xr.merge` are not modelled:
  - its defaults treat NaN as agreeing with any value (`no_conflicts`);
  - a name can be a coordinate in one dataset and a data variable in the other.
  - Both are modelled as plain equality per kind.
- An interpolated variable that clashes with `nx`, `ny` or `profile_name` is modelled as a MergeError.
- `stats_kwargs` holding a `stats` key, which Python rejects as a duplicate keyword.
- The accessors' `init` method, which does nothing.
- The `__init__` of the argparse `Action` base class.
- pypism's `process_profile` and `process_profile_xr` are left out, call sequence included: groupby, GeoDataFrame assembly and writing into `sims_profile`.
  - Their building blocks are modelled: `extract_profile`, `merge_on_intersection` and the frame-level `calculate_stats`.
- Aliasing: the accessor returns `self._obj`, so callers share the dataset. The model keeps the dataset as a value in the class field.
- The order of a dictionary's values inside `np.all([...])` does not matter and is not modelled.
- PypismProfiles.MergeOnIntersection: pandas decides key compatibility per column dtype. The model decides it per cell: a text cell under a key in one frame against a numeric cell under that key in the other is a ValueError. When several keys clash, which one is named is left open, as it follows the iteration order of a Python set. Numeric keys compare by value (integers against floats), and the result's key cells are the left ones, not a dtype-coerced column.
- PypismProfiles.MergeOnIntersection covers frames that share at least one column. With none, pandas receives an empty key list; the model treats this as a MergeError, which is not certain.
- PypismProfiles.JoinRowsIsInnerJoin: the row order is left row by left row, then right rows in order. pandas' ordering of an inner join is not promised beyond that.
- Geometry.ComputeNormals: requires `|px| == |py|`, as `np.vstack` raises otherwise.
- Geometry.ComputeTangentials: requires `|px| == |py|` for the same reason.
- Geometry.DistanceFromStart: requires `|px| == |py|`. numpy also accepts a length-2 `py` or a one-point `px`, because a length-1 difference broadcasts against the other; the model excludes these shapes. `distance_from_start` has no caller in the program.
- ComputeProfiles.Split models a one-character separator only, the form the parser uses.
