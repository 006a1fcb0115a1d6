/**
 * calculate_stats of the two dataset accessors: for every name in `stats`,
 * look the name up in the accessor's table of statistics, compute that
 * statistic of ds[obs_var] against ds[sim_var] and store it under the name.
 * The writes go into the dataset one by one, so a failure part-way keeps
 * the statistics already written.
 */
module Stats {
  import opened Numerics
  import opened Datasets
  import opened Statistics
  import opened Extraction

  /** The statistics the accessors know. */
  datatype Stat = RmsdStat | PearsonStat

  /** The table of statistics of the glacier accessor. */
  const GlacierTable: map<string, Stat> := map["rmsd" := RmsdStat, "pearson_r" := PearsonStat]

  /** The table of statistics of the older accessor: the RMSD alone. */
  const LegacyTable: map<string, Stat> := map["rmsd" := RmsdStat]

  /** The state calculate_stats leaves behind: the dataset as written so far, and the exception that stopped it, if any. */
  datatype Outcome = Outcome(ds: Dataset, failure: Option<Error>)

  /**
   * One statistic of ds[obs] against ds[sim]. The RMSD is applied along
   * `dim`, so the series must lie along it; the correlation always runs
   * along profile_axis. The rmsd helper is called with the observation as
   * its `sim` argument, so its difference is obs - sim.
   */
  function StatValue(sqrt: real -> real, corr: Correlation, ds: Dataset, obs: string, sim: string, dim: string, kind: Stat): (r: Result<Column>)
    ensures r.Ok? ==> r.value.Scalar?
    ensures r.Ok? ==> SeriesOf(ds, obs).Some? && SeriesOf(ds, sim).Some? && |SeriesOf(ds, obs).value| == |SeriesOf(ds, sim).value|
    ensures r.Ok? && kind == RmsdStat ==> dim == "profile_axis" && r.value.value == Rmsd(sqrt, SeriesOf(ds, obs).value, SeriesOf(ds, sim).value)
    ensures r.Ok? && kind == PearsonStat ==> r.value.value == corr(SeriesOf(ds, obs).value, SeriesOf(ds, sim).value)
    ensures Lookup(ds, obs).None? ==> r == Err(KeyError(obs))
    ensures Lookup(ds, obs).Some? && Lookup(ds, sim).None? ==> r == Err(KeyError(sim))
  {
    var o := Lookup(ds, obs);
    var s := Lookup(ds, sim);
    if o.None? then Err(KeyError(obs))
    else if s.None? then Err(KeyError(sim))
    else if kind == RmsdStat && dim != "profile_axis" then Err(MissingDimension(dim))
    else if !o.value.Series? || !s.value.Series? then Err(TypeError)
    else if |o.value.values| != |s.value.values| then Err(ShapeError)
    else
      match kind
      case RmsdStat => Ok(Scalar(Rmsd(sqrt, o.value.values, s.value.values)))
      case PearsonStat => Ok(Scalar(corr(o.value.values, s.value.values)))
  }

  /** Statistic by statistic, in order: a name missing from the table is a KeyError; each success is written at once. */
  function ApplyStats(table: map<string, Stat>, sqrt: real -> real, corr: Correlation, ds: Dataset,
                      obs: string, sim: string, dim: string, stats: seq<string>): Outcome
  {
    if |stats| == 0 then Outcome(ds, None)
    else
      var before := ApplyStats(table, sqrt, corr, ds, obs, sim, dim, stats[..|stats| - 1]);
      var name := stats[|stats| - 1];
      if before.failure.Some? then before
      else if name !in table then Outcome(before.ds, Some(KeyError(name)))
      else
        match StatValue(sqrt, corr, before.ds, obs, sim, dim, table[name])
        case Err(e) => Outcome(before.ds, Some(e))
        case Ok(c) => Outcome(Assign(before.ds, name, c), None)
  }

  /** calculate_stats: the guard on the two names, then the statistics. */
  function CalculateStats(table: map<string, Stat>, sqrt: real -> real, corr: Correlation, ds: Dataset,
                          obs: string, sim: string, dim: string, stats: seq<string>): Outcome
  {
    if !GuardHolds(ds, obs, sim) then Outcome(ds, Some(AssertionFailed))
    else ApplyStats(table, sqrt, corr, ds, obs, sim, dim, stats)
  }

  /** The loop over `stats`, writing each statistic into the dataset as it is computed. */
  method RunStats(table: map<string, Stat>, sqrt: real -> real, corr: Correlation, ds: Dataset,
                  obs: string, sim: string, dim: string, stats: seq<string>)
    returns (out: Dataset, failure: Option<Error>)
    ensures Outcome(out, failure) == CalculateStats(table, sqrt, corr, ds, obs, sim, dim, stats)
  {
    out := ds;
    if !GuardHolds(ds, obs, sim) {
      return out, Some(AssertionFailed);
    }
    for i := 0 to |stats|
      invariant Outcome(out, None) == ApplyStats(table, sqrt, corr, ds, obs, sim, dim, stats[..i])
    {
      assert stats[..i + 1][..i] == stats[..i];
      var name := stats[i];
      if name !in table {
        LaterStatsKeepFailure(table, sqrt, corr, ds, obs, sim, dim, stats, i + 1);
        return out, Some(KeyError(name));
      }
      var v := StatValue(sqrt, corr, out, obs, sim, dim, table[name]);
      if v.Err? {
        LaterStatsKeepFailure(table, sqrt, corr, ds, obs, sim, dim, stats, i + 1);
        return out, Some(v.error);
      }
      out := Assign(out, name, v.value);
    }
    assert stats[..|stats|] == stats;
    failure := None;
  }

  /** Once a statistic has failed, the statistics after it change nothing. */
  lemma {:induction false} LaterStatsKeepFailure(table: map<string, Stat>, sqrt: real -> real, corr: Correlation, ds: Dataset,
                                                 obs: string, sim: string, dim: string, stats: seq<string>, k: nat)
    requires k <= |stats|
    requires ApplyStats(table, sqrt, corr, ds, obs, sim, dim, stats[..k]).failure.Some?
    ensures ApplyStats(table, sqrt, corr, ds, obs, sim, dim, stats) == ApplyStats(table, sqrt, corr, ds, obs, sim, dim, stats[..k])
  {
    if k < |stats| {
      var init := stats[..|stats| - 1];
      assert init[..k] == stats[..k];
      LaterStatsKeepFailure(table, sqrt, corr, ds, obs, sim, dim, init, k);
    } else {
      assert stats[..k] == stats;
    }
  }

  /**
   * Whatever happens, the statistics write only their own names: the
   * coordinates and every other data variable stay as they were, and each
   * written name holds a scalar. On success every listed name is written.
   */
  lemma {:induction false} StatsWriteOnlyTheirNames(table: map<string, Stat>, sqrt: real -> real, corr: Correlation, ds: Dataset,
                                                    obs: string, sim: string, dim: string, stats: seq<string>)
    ensures var out := ApplyStats(table, sqrt, corr, ds, obs, sim, dim, stats);
            && out.ds.coords == ds.coords
            && ds.data.Keys <= out.ds.data.Keys
            && (forall k :: k in out.ds.data && k !in ds.data ==> k in stats)
            && (forall k :: k in ds.data && k !in stats ==> out.ds.data[k] == ds.data[k])
            && (forall k :: k in out.ds.data ==> (k in ds.data && out.ds.data[k] == ds.data[k]) || out.ds.data[k].Scalar?)
            && (out.failure.None? ==> forall i :: 0 <= i < |stats| ==> stats[i] in out.ds.data && out.ds.data[stats[i]].Scalar?)
  {
    if |stats| > 0 {
      var init := stats[..|stats| - 1];
      StatsWriteOnlyTheirNames(table, sqrt, corr, ds, obs, sim, dim, init);
      ApplyStatsStep(table, sqrt, corr, ds, obs, sim, dim, stats);
      assert stats == init + [stats[|stats| - 1]];
    }
  }

  /** One more statistic either fails and changes nothing, or writes a scalar under its own name. */
  lemma ApplyStatsStep(table: map<string, Stat>, sqrt: real -> real, corr: Correlation, ds: Dataset,
                       obs: string, sim: string, dim: string, stats: seq<string>)
    requires |stats| > 0
    ensures var before := ApplyStats(table, sqrt, corr, ds, obs, sim, dim, stats[..|stats| - 1]);
            var out := ApplyStats(table, sqrt, corr, ds, obs, sim, dim, stats);
            var name := stats[|stats| - 1];
            && out.ds.coords == before.ds.coords
            && (out.failure.Some? ==> out.ds == before.ds)
            && (out.failure.None? ==>
                  && before.failure.None?
                  && out.ds.data.Keys == before.ds.data.Keys + {name}
                  && out.ds.data[name].Scalar?
                  && forall k :: k in before.ds.data && k != name ==> out.ds.data[k] == before.ds.data[k])
  {
  }

  /** A name the table lacks makes calculate_stats fail. */
  lemma {:induction false} UnknownStatFails(table: map<string, Stat>, sqrt: real -> real, corr: Correlation, ds: Dataset,
                                            obs: string, sim: string, dim: string, stats: seq<string>, i: nat)
    requires i < |stats| && stats[i] !in table
    ensures ApplyStats(table, sqrt, corr, ds, obs, sim, dim, stats).failure.Some?
  {
    var init := stats[..|stats| - 1];
    if i < |init| {
      assert init[i] == stats[i];
      UnknownStatFails(table, sqrt, corr, ds, obs, sim, dim, init, i);
    }
  }

  /**
   * When ds[obs] and ds[sim] are series of one length, the RMSD runs along
   * profile_axis, every name is in the table and no name overwrites obs or
   * sim, every statistic succeeds and holds its value on the input dataset.
   */
  lemma {:induction false} StatsSucceed(table: map<string, Stat>, sqrt: real -> real, corr: Correlation, ds: Dataset,
                                        obs: string, sim: string, dim: string, stats: seq<string>)
    requires SeriesOf(ds, obs).Some? && SeriesOf(ds, sim).Some? && |SeriesOf(ds, obs).value| == |SeriesOf(ds, sim).value|
    requires dim == "profile_axis"
    requires forall i :: 0 <= i < |stats| ==> stats[i] in table && stats[i] != obs && stats[i] != sim
    ensures var out := ApplyStats(table, sqrt, corr, ds, obs, sim, dim, stats);
            && out.failure.None?
            && SeriesOf(out.ds, obs) == SeriesOf(ds, obs) && SeriesOf(out.ds, sim) == SeriesOf(ds, sim)
            && forall i :: 0 <= i < |stats| ==>
                 stats[i] in out.ds.data && Ok(out.ds.data[stats[i]]) == StatValue(sqrt, corr, ds, obs, sim, dim, table[stats[i]])
  {
    if |stats| > 0 {
      var init := stats[..|stats| - 1];
      var name := stats[|stats| - 1];
      StatsSucceed(table, sqrt, corr, ds, obs, sim, dim, init);
      var before := ApplyStats(table, sqrt, corr, ds, obs, sim, dim, init);
      SameInputsSameStat(sqrt, corr, before.ds, ds, obs, sim, dim, table[name]);
      var out := ApplyStats(table, sqrt, corr, ds, obs, sim, dim, stats);
      assert out.ds == Assign(before.ds, name, StatValue(sqrt, corr, ds, obs, sim, dim, table[name]).value);
      forall i | 0 <= i < |stats|
        ensures stats[i] in out.ds.data && Ok(out.ds.data[stats[i]]) == StatValue(sqrt, corr, ds, obs, sim, dim, table[stats[i]])
      {
        if i < |init| && stats[i] != name {
          assert init[i] == stats[i];
        }
      }
    }
  }

  /** A statistic reads nothing of the dataset but the two series. */
  lemma SameInputsSameStat(sqrt: real -> real, corr: Correlation, a: Dataset, b: Dataset, obs: string, sim: string, dim: string, kind: Stat)
    requires SeriesOf(a, obs) == SeriesOf(b, obs) && SeriesOf(a, sim) == SeriesOf(b, sim)
    requires SeriesOf(a, obs).Some? && SeriesOf(a, sim).Some?
    ensures StatValue(sqrt, corr, a, obs, sim, dim, kind) == StatValue(sqrt, corr, b, obs, sim, dim, kind)
  {
  }

  /**
   * The RMSD written by calculate_stats is NaN exactly when no point has
   * both values finite, otherwise the non-negative root of the mean squared
   * difference; swapping the observed and the simulated series does not change it.
   */
  lemma RmsdStatProperties(sqrt: real -> real, corr: Correlation, ds: Dataset, obs: string, sim: string, dim: string)
    requires IsSqrt(sqrt)
    requires StatValue(sqrt, corr, ds, obs, sim, dim, RmsdStat).Ok?
    ensures var a, b := SeriesOf(ds, obs).value, SeriesOf(ds, sim).value;
            var r := StatValue(sqrt, corr, ds, obs, sim, dim, RmsdStat).value.value;
            && (r.None? <==> forall i :: 0 <= i < |a| ==> a[i].None? || b[i].None?)
            && (r.Some? ==> r.value >= 0.0)
            && StatValue(sqrt, corr, ds, sim, obs, dim, RmsdStat) == StatValue(sqrt, corr, ds, obs, sim, dim, RmsdStat)
  {
    var a, b := SeriesOf(ds, obs).value, SeriesOf(ds, sim).value;
    RmsdNaNIffNoFinitePair(sqrt, a, b);
    RmsdIsRootOfMeanSquare(sqrt, a, b);
    RmsdSymmetric(sqrt, a, b);
  }

  /** The guard fails when the simulated name is no data variable, before any statistic is looked up. */
  lemma MissingSimulationFailsTheGuard(table: map<string, Stat>, sqrt: real -> real, corr: Correlation, ds: Dataset,
                                       obs: string, sim: string, dim: string, stats: seq<string>)
    requires obs != "" && sim !in ds.data
    ensures CalculateStats(table, sqrt, corr, ds, obs, sim, dim, stats) == Outcome(ds, Some(AssertionFailed))
  {
  }
}
