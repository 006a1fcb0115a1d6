/**
 * The "profiles" accessor of glacier_flow_tools: a dataset with methods that
 * add a normal component, compute statistics and extract a profile, writing
 * into the dataset they wrap; and process_profile, which extracts the
 * observed and the simulated profile, merges them and computes statistics.
 */
module GlacierProfiles {
  import opened Numerics
  import opened Geometry
  import opened Datasets
  import opened Statistics
  import opened Extraction
  import opened Stats

  /** The names extract_profile reads a normal component from: map["x" := ..., "y" := ...]. */
  type Components = map<string, string>

  /**
   * The optional normal projection of extract_profile: when every name in
   * the components is a data variable of the profile, project
   * components["x"] and components["y"] onto the normal under `name`
   * (a KeyError when "x" or "y" is absent); otherwise leave the profile as it is.
   */
  function MaybeAddNormal(ds: Dataset, comps: Components, name: string): Result<Dataset>
  {
    if !(forall v :: v in comps.Values ==> v in ds.data) then Ok(ds)
    else if "x" !in comps then Err(KeyError("x"))
    else if "y" !in comps then Err(KeyError("y"))
    else WithNormalComponent(ds, comps["x"], comps["y"], name)
  }

  /**
   * extract_profile with its options: the extraction, then, when
   * compute_profile_normal is set, the normal component of the vector
   * variables and then that of their errors.
   */
  function ExtractedProfile(ds: Dataset, interp: Interpolator, sqrt: real -> real, xs: seq<real>, ys: seq<real>,
                            profileName: string, profileId: int, dataVars: Option<seq<string>>,
                            normalVar: string, normalErrorVar: string, comps: Components, errorComps: Components,
                            computeNormal: bool): Result<Dataset>
  {
    match ExtractSpec(ds, interp, sqrt, xs, ys, profileName, profileId, dataVars)
    case Err(e) => Err(e)
    case Ok(p) =>
      if !computeNormal then Ok(p)
      else
        match MaybeAddNormal(p, comps, normalVar)
        case Err(e) => Err(e)
        case Ok(q) => MaybeAddNormal(q, errorComps, normalErrorVar)
  }

  /** The keyword arguments process_profile hands on to calculate_stats. */
  datatype StatsArgs = StatsArgs(obsVar: string, simVar: string, dim: string)

  /** calculate_stats' own defaults, used when stats_kwargs is empty. */
  const DefaultStatsArgs := StatsArgs("v", "velsurf_mag", "profile_axis")

  /** The options of process_profile that decide how each side is extracted. */
  datatype ProcessOptions = ProcessOptions(
    stats: seq<string>,
    obsNormalVar: string, obsNormalErrorVar: string, obsComps: Components, obsErrorComps: Components,
    simNormalVar: string, simComps: Components,
    computeNormal: bool, statsArgs: StatsArgs)

  /** process_profile's defaults. */
  const DefaultOptions := ProcessOptions(
    ["rmsd", "pearson_r"],
    "v_normal", "v_err_normal", map["x" := "vx", "y" := "vy"], map["x" := "vx_err", "y" := "vy_err"],
    "velsurf_normal", map["x" := "uvelsurf", "y" := "vvelsurf"],
    false, DefaultStatsArgs)

  /** xr.merge of two datasets: coordinates with coordinates and variables with variables; a name given two values is a conflict. */
  function MergeDatasets(a: Dataset, b: Dataset): (r: Result<Dataset>)
    ensures r.Ok? <==> !Conflicting(a.coords, b.coords) && !Conflicting(a.data, b.data)
    ensures r.Ok? ==> r.value.coords.Keys == a.coords.Keys + b.coords.Keys && r.value.data.Keys == a.data.Keys + b.data.Keys
    ensures r.Ok? ==> (forall k :: k in a.data ==> r.value.data[k] == a.data[k]) && (forall k :: k in b.data ==> r.value.data[k] == b.data[k])
    ensures r.Err? ==> r.error == MergeError
  {
    if Conflicting(a.coords, b.coords) || Conflicting(a.data, b.data) then Err(MergeError)
    else Ok(Dataset(a.coords + b.coords, a.data + b.data))
  }

  /**
   * process_profile: extract the observed profile with the observed names,
   * the simulated one with the simulated names (its error components keep
   * extract_profile's defaults), merge the two and compute the statistics
   * on the merge. An exception anywhere is the result. Each dataset is
   * interpolated on its own x/y grid, so each has its own interpolation.
   */
  function ProcessedProfile(obsDs: Dataset, simDs: Dataset, obsInterp: Interpolator, simInterp: Interpolator, sqrt: real -> real, corr: Correlation,
                            xs: seq<real>, ys: seq<real>, profileName: string, profileId: int, opts: ProcessOptions): Result<Dataset>
  {
    var obs := ExtractedProfile(obsDs, obsInterp, sqrt, xs, ys, profileName, profileId, None,
                                opts.obsNormalVar, opts.obsNormalErrorVar, opts.obsComps, opts.obsErrorComps, opts.computeNormal);
    var sim := ExtractedProfile(simDs, simInterp, sqrt, xs, ys, profileName, profileId, None,
                                opts.simNormalVar, "v_err_normal", opts.simComps, map["x" := "vx_err", "y" := "vy_err"], opts.computeNormal);
    if obs.Err? then obs
    else if sim.Err? then sim
    else
      match MergeDatasets(obs.value, sim.value)
      case Err(e) => Err(e)
      case Ok(merged) =>
        var out := CalculateStats(GlacierTable, sqrt, corr, merged, opts.statsArgs.obsVar, opts.statsArgs.simVar,
                                  opts.statsArgs.dim, opts.stats);
        if out.failure.Some? then Err(out.failure.value) else Ok(out.ds)
  }

  /** The accessor: the dataset it wraps, which its methods update. */
  class ProfilesMethods {
    var obj: Dataset

    constructor(ds: Dataset)
      ensures obj == ds
    {
      obj := ds;
    }

    /**
     * add_normal_component: on success the wrapped dataset gets the
     * projection under `name`; on an exception it is left as it was.
     */
    method AddNormalComponent(xc: string, yc: string, name: string) returns (failure: Option<Error>)
      modifies this
      ensures var r := WithNormalComponent(old(obj), xc, yc, name);
              && (r.Ok? ==> failure.None? && obj == r.value)
              && (r.Err? ==> failure == Some(r.error) && obj == old(obj))
    {
      var r := WithNormalComponent(obj, xc, yc, name);
      if r.Err? {
        return Some(r.error);
      }
      obj := r.value;
      failure := None;
    }

    /**
     * calculate_stats with the glacier table: the wrapped dataset holds
     * every statistic written before an exception, or all of them.
     */
    method CalculateStats(sqrt: real -> real, corr: Correlation, obs: string, sim: string, dim: string, stats: seq<string>)
      returns (failure: Option<Error>)
      modifies this
      ensures Outcome(obj, failure) == Stats.CalculateStats(GlacierTable, sqrt, corr, old(obj), obs, sim, dim, stats)
    {
      var out;
      out, failure := RunStats(GlacierTable, sqrt, corr, obj, obs, sim, dim, stats);
      obj := out;
    }

    /** extract_profile: a new dataset; the wrapped one is only read. */
    method ExtractProfile(interp: Interpolator, sqrt: real -> real, xs: seq<real>, ys: seq<real>,
                          profileName: string, profileId: int, dataVars: Option<seq<string>>,
                          normalVar: string, normalErrorVar: string, comps: Components, errorComps: Components,
                          computeNormal: bool) returns (r: Result<Dataset>)
      ensures r == ExtractedProfile(obj, interp, sqrt, xs, ys, profileName, profileId, dataVars,
                                    normalVar, normalErrorVar, comps, errorComps, computeNormal)
    {
      r := Extract(obj, interp, sqrt, xs, ys, profileName, profileId, dataVars);
      if r.Err? || !computeNormal {
        return;
      }
      var profile := new ProfilesMethods(r.value);
      var failure := profile.AddNormalIfPresent(comps, normalVar);
      if failure.Some? {
        return Err(failure.value);
      }
      failure := profile.AddNormalIfPresent(errorComps, normalErrorVar);
      if failure.Some? {
        return Err(failure.value);
      }
      r := Ok(profile.obj);
    }

    /** The presence test and the projection extract_profile runs on the profile it built. */
    method AddNormalIfPresent(comps: Components, name: string) returns (failure: Option<Error>)
      modifies this
      ensures var r := MaybeAddNormal(old(obj), comps, name);
              && (r.Ok? ==> failure.None? && obj == r.value)
              && (r.Err? ==> failure == Some(r.error) && obj == old(obj))
    {
      var present := true;
      var rest := comps.Values;
      while rest != {}
        invariant rest <= comps.Values
        invariant present <==> forall v :: v in comps.Values && v !in rest ==> v in obj.data
        decreases rest
      {
        var v :| v in rest;
        present := present && v in obj.data;
        rest := rest - {v};
      }
      if !present {
        return None;
      }
      if "x" !in comps {
        return Some(KeyError("x"));
      }
      if "y" !in comps {
        return Some(KeyError("y"));
      }
      failure := AddNormalComponent(comps["x"], comps["y"], name);
    }
  }

  /**
   * process_profile as the code runs it: two accessors extract the two
   * profiles, a third computes the statistics on their merge.
   */
  method ProcessProfile(obsDs: Dataset, simDs: Dataset, obsInterp: Interpolator, simInterp: Interpolator, sqrt: real -> real, corr: Correlation,
                           xs: seq<real>, ys: seq<real>, profileName: string, profileId: int, opts: ProcessOptions)
    returns (r: Result<Dataset>)
    ensures r == ProcessedProfile(obsDs, simDs, obsInterp, simInterp, sqrt, corr, xs, ys, profileName, profileId, opts)
  {
    var obsAccessor := new ProfilesMethods(obsDs);
    var obs := obsAccessor.ExtractProfile(obsInterp, sqrt, xs, ys, profileName, profileId, None,
                                          opts.obsNormalVar, opts.obsNormalErrorVar, opts.obsComps, opts.obsErrorComps,
                                          opts.computeNormal);
    if obs.Err? {
      return obs;
    }
    var simAccessor := new ProfilesMethods(simDs);
    var sim := simAccessor.ExtractProfile(simInterp, sqrt, xs, ys, profileName, profileId, None,
                                          opts.simNormalVar, "v_err_normal", opts.simComps, map["x" := "vx_err", "y" := "vy_err"],
                                          opts.computeNormal);
    if sim.Err? {
      return sim;
    }
    var merged := MergeDatasets(obs.value, sim.value);
    if merged.Err? {
      return Err(merged.error);
    }
    var profile := new ProfilesMethods(merged.value);
    var failure := profile.CalculateStats(sqrt, corr, opts.statsArgs.obsVar, opts.statsArgs.simVar, opts.statsArgs.dim, opts.stats);
    if failure.Some? {
      return Err(failure.value);
    }
    r := Ok(profile.obj);
  }

  /**
   * With two non-empty component names, the projection is added exactly
   * when both are data variables of the profile, and then holds
   * x * nx + y * ny; nothing else changes, and when either is missing the
   * profile is left as it is.
   */
  lemma NormalAddedIffComponentsPresent(ds: Dataset, xc: string, yc: string, name: string)
    requires xc != "" && yc != ""
    requires SeriesOf(ds, "nx").Some? && SeriesOf(ds, "ny").Some?
    requires |SeriesOf(ds, "nx").value| == |SeriesOf(ds, "ny").value|
    requires xc in ds.data ==> ds.data[xc].Series? && |ds.data[xc].values| == |SeriesOf(ds, "nx").value|
    requires yc in ds.data ==> ds.data[yc].Series? && |ds.data[yc].values| == |SeriesOf(ds, "nx").value|
    ensures var r := MaybeAddNormal(ds, map["x" := xc, "y" := yc], name);
            && r.Ok?
            && r.value.coords == ds.coords
            && r.value.data.Keys == ds.data.Keys + (if xc in ds.data && yc in ds.data then {name} else {})
            && (forall k :: k in ds.data && k != name ==> r.value.data[k] == ds.data[k])
            && (xc in ds.data && yc in ds.data ==>
                  r.value.data[name] == Series(Projection(ds.data[xc].values, SeriesOf(ds, "nx").value,
                                                          ds.data[yc].values, SeriesOf(ds, "ny").value)))
            && (!(xc in ds.data && yc in ds.data) ==> r.value == ds)
  {
    var comps := map["x" := xc, "y" := yc];
    assert comps["x"] == xc && comps["y"] == yc;
    assert forall v :: v in comps.Values ==> v == xc || v == yc;
    if xc in ds.data && yc in ds.data {
      NormalComponentAddsOnlyItsName(ds, xc, yc, name);
    }
  }

  /**
   * For the component maps extract_profile takes, the vector pair and the
   * error pair are checked and projected one after the other, each on its
   * own presence: every variable of the profile is kept, and each normal
   * name is added exactly when both of its components are present.
   */
  lemma ExtractedNormals(ds: Dataset, interp: Interpolator, sqrt: real -> real, xs: seq<real>, ys: seq<real>,
                         profileName: string, profileId: int, dataVars: Option<seq<string>>,
                         normalVar: string, normalErrorVar: string, xc: string, yc: string, xe: string, ye: string)
    requires ExtractSpec(ds, interp, sqrt, xs, ys, profileName, profileId, dataVars).Ok?
    requires xc != "" && yc != "" && xe != "" && ye != ""
    requires "profile_name" !in {xc, yc, xe, ye}
    requires normalVar !in {xe, ye, "nx", "ny"} && normalErrorVar !in {"nx", "ny"} && normalVar != normalErrorVar
    ensures var p := ExtractSpec(ds, interp, sqrt, xs, ys, profileName, profileId, dataVars).value;
            var r := ExtractedProfile(ds, interp, sqrt, xs, ys, profileName, profileId, dataVars, normalVar, normalErrorVar,
                                    map["x" := xc, "y" := yc], map["x" := xe, "y" := ye], true);
            && r.Ok?
            && r.value.coords == p.coords
            && r.value.data.Keys == p.data.Keys + (if xc in p.data && yc in p.data then {normalVar} else {})
                                                + (if xe in p.data && ye in p.data then {normalErrorVar} else {})
            && (forall k :: k in p.data && k != normalVar && k != normalErrorVar ==> r.value.data[k] == p.data[k])
  {
    var p := ExtractSpec(ds, interp, sqrt, xs, ys, profileName, profileId, dataVars).value;
    ExtractedBase(ds, interp, sqrt, xs, ys, profileName, profileId, dataVars);
    ExtractedRequested(ds, interp, sqrt, xs, ys, profileName, profileId, dataVars);
    NormalAddedIffComponentsPresent(p, xc, yc, normalVar);
    var q := MaybeAddNormal(p, map["x" := xc, "y" := yc], normalVar).value;
    assert SeriesOf(q, "nx") == SeriesOf(p, "nx") && SeriesOf(q, "ny") == SeriesOf(p, "ny");
    assert xe in q.data <==> xe in p.data;
    assert ye in q.data <==> ye in p.data;
    NormalAddedIffComponentsPresent(q, xe, ye, normalErrorVar);
  }

  /**
   * Two profiles extracted along the same points with the same name and id
   * share their axis, profile_id, nx, ny and profile_name, so merging them
   * fails only on a variable both have with different values. Each dataset
   * is interpolated on its own grid, so each has its own interpolation.
   */
  lemma SameProfileMergesOnSharedFrame(a: Dataset, b: Dataset, interpA: Interpolator, interpB: Interpolator, sqrt: real -> real,
                                       xs: seq<real>, ys: seq<real>, profileName: string, profileId: int,
                                       varsA: Option<seq<string>>, varsB: Option<seq<string>>)
    requires ExtractSpec(a, interpA, sqrt, xs, ys, profileName, profileId, varsA).Ok?
    requires ExtractSpec(b, interpB, sqrt, xs, ys, profileName, profileId, varsB).Ok?
    ensures var p := ExtractSpec(a, interpA, sqrt, xs, ys, profileName, profileId, varsA).value;
            var q := ExtractSpec(b, interpB, sqrt, xs, ys, profileName, profileId, varsB).value;
            MergeDatasets(p, q).Err? <==>
              exists k :: k in p.data && k in q.data && k !in Reserved() && p.data[k] != q.data[k]
  {
    var p := ExtractSpec(a, interpA, sqrt, xs, ys, profileName, profileId, varsA).value;
    var q := ExtractSpec(b, interpB, sqrt, xs, ys, profileName, profileId, varsB).value;
    ExtractedBase(a, interpA, sqrt, xs, ys, profileName, profileId, varsA);
    ExtractedBase(b, interpB, sqrt, xs, ys, profileName, profileId, varsB);
    ExtractedRequested(a, interpA, sqrt, xs, ys, profileName, profileId, varsA);
    assert !Conflicting(p.coords, q.coords);
    assert "profile_id" !in p.data by {
      ExtractedShape(a, interpA, sqrt, xs, ys, profileName, profileId, varsA);
    }
  }

  /**
   * A successful process_profile holds the merge of the two profiles with
   * the RMSD and the correlation added as scalars, and nothing else
   * changed: the statistics write only their own names.
   */
  lemma ProcessedProfileAddsTheStatistics(obsDs: Dataset, simDs: Dataset, obsInterp: Interpolator, simInterp: Interpolator, sqrt: real -> real, corr: Correlation,
                                          xs: seq<real>, ys: seq<real>, profileName: string, profileId: int, opts: ProcessOptions)
    requires ProcessedProfile(obsDs, simDs, obsInterp, simInterp, sqrt, corr, xs, ys, profileName, profileId, opts).Ok?
    ensures var obs := ExtractedProfile(obsDs, obsInterp, sqrt, xs, ys, profileName, profileId, None,
                                        opts.obsNormalVar, opts.obsNormalErrorVar, opts.obsComps, opts.obsErrorComps, opts.computeNormal);
            var sim := ExtractedProfile(simDs, simInterp, sqrt, xs, ys, profileName, profileId, None,
                                        opts.simNormalVar, "v_err_normal", opts.simComps, map["x" := "vx_err", "y" := "vy_err"], opts.computeNormal);
            var r := ProcessedProfile(obsDs, simDs, obsInterp, simInterp, sqrt, corr, xs, ys, profileName, profileId, opts).value;
            && obs.Ok? && sim.Ok? && MergeDatasets(obs.value, sim.value).Ok?
            && var merged := MergeDatasets(obs.value, sim.value).value;
               && r.coords == merged.coords
               && r.data.Keys == merged.data.Keys + (set i | 0 <= i < |opts.stats| :: opts.stats[i])
               && (forall i :: 0 <= i < |opts.stats| ==> r.data[opts.stats[i]].Scalar?)
               && (forall k :: k in merged.data && k !in opts.stats ==> r.data[k] == merged.data[k])
  {
    var obs := ExtractedProfile(obsDs, obsInterp, sqrt, xs, ys, profileName, profileId, None,
                                opts.obsNormalVar, opts.obsNormalErrorVar, opts.obsComps, opts.obsErrorComps, opts.computeNormal);
    var sim := ExtractedProfile(simDs, simInterp, sqrt, xs, ys, profileName, profileId, None,
                                opts.simNormalVar, "v_err_normal", opts.simComps, map["x" := "vx_err", "y" := "vy_err"], opts.computeNormal);
    var merged := MergeDatasets(obs.value, sim.value).value;
    var a := opts.statsArgs;
    StatsWriteOnlyTheirNames(GlacierTable, sqrt, corr, merged, a.obsVar, a.simVar, a.dim, opts.stats);
  }
}
