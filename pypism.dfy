/**
 * The profile module of pypism: the same geometry and extraction as the
 * glacier accessor (Geometry and Extraction), an accessor that only knows
 * the RMSD and never adds a normal component, and the data-frame helpers
 * its process_profile uses: an inner join on the shared columns and the
 * pair of statistics it computes per group.
 */
module PypismProfiles {
  import opened Numerics
  import opened Datasets
  import opened Statistics
  import opened Extraction
  import opened Stats

  /** A cell of a data frame. */
  datatype Cell = Num(x: Option<real>) | Text(s: string) | Whole(n: int)

  /** A data frame: its column names in order and its rows, each a map from column name to cell. */
  datatype Frame = Frame(columns: seq<string>, rows: seq<map<string, Cell>>)

  function ColumnSet(f: Frame): set<string>
  {
    set i | 0 <= i < |f.columns| :: f.columns[i]
  }

  /**
   * Two key cells match: numbers compare by value whatever their kind (an
   * integer 1 matches a float 1.0, and NaN matches NaN), other cells by
   * equality.
   */
  predicate SameKey(x: Cell, y: Cell)
  {
    if Numeric(x) && Numeric(y) then CellValue(x) == CellValue(y) else x == y
  }

  /** Two rows agree on every key column. */
  predicate Agree(l: map<string, Cell>, r: map<string, Cell>, keys: set<string>)
  {
    forall k :: k in keys ==> k in l && k in r && SameKey(l[k], r[k])
  }

  /** A joined row: the left row with the right row's columns that are not keys; the key cells are the left ones. */
  function Combine(l: map<string, Cell>, r: map<string, Cell>, keys: set<string>): map<string, Cell>
  {
    l + (r - keys)
  }

  /** Column k holds text in one frame and a number in the other, which pandas refuses to merge on. */
  predicate ClashAt(a: Frame, b: Frame, k: string)
  {
    exists i, j :: 0 <= i < |a.rows| && 0 <= j < |b.rows| && k in a.rows[i] && k in b.rows[j] &&
      ((a.rows[i][k].Text? && Numeric(b.rows[j][k])) || (Numeric(a.rows[i][k]) && b.rows[j][k].Text?))
  }

  /** Some key column clashes in kind. */
  predicate KindClash(a: Frame, b: Frame, keys: set<string>)
  {
    exists k :: k in keys && ClashAt(a, b, k)
  }

  /** The columns of cs that are not keys, in order. */
  function WithoutKeys(cs: seq<string>, keys: set<string>): (r: seq<string>)
    ensures forall c :: c in r <==> c in cs && c !in keys
  {
    if |cs| == 0 then []
    else WithoutKeys(cs[..|cs| - 1], keys) + (if cs[|cs| - 1] in keys then [] else [cs[|cs| - 1]])
  }

  /** The combinations of row l with every row of rs it agrees with, in the order of rs. */
  function MatchRows(l: map<string, Cell>, rs: seq<map<string, Cell>>, keys: set<string>): seq<map<string, Cell>>
  {
    if |rs| == 0 then []
    else MatchRows(l, rs[..|rs| - 1], keys) + (if Agree(l, rs[|rs| - 1], keys) then [Combine(l, rs[|rs| - 1], keys)] else [])
  }

  /** The inner join of two lists of rows on the key columns, left row by left row. */
  function JoinRows(ls: seq<map<string, Cell>>, rs: seq<map<string, Cell>>, keys: set<string>): seq<map<string, Cell>>
  {
    if |ls| == 0 then []
    else JoinRows(ls[..|ls| - 1], rs, keys) + MatchRows(ls[|ls| - 1], rs, keys)
  }

  /**
   * merge_on_intersection: pd.merge on the columns both frames have; the
   * left columns come first, then the right ones that are not keys. With
   * no shared column there is nothing to merge on, and a key column that
   * is text on one side and numeric on the other raises a ValueError
   * naming it. Which of several such keys is named depends on the order
   * of a Python set, so the model leaves the choice open.
   */
  ghost function MergeOnIntersection(a: Frame, b: Frame): (r: Result<Frame>)
    ensures r.Ok? <==> ColumnSet(a) * ColumnSet(b) != {} && !KindClash(a, b, ColumnSet(a) * ColumnSet(b))
    ensures ColumnSet(a) * ColumnSet(b) == {} ==> r == Err(MergeError)
    ensures ColumnSet(a) * ColumnSet(b) != {} && KindClash(a, b, ColumnSet(a) * ColumnSet(b)) ==>
              r.Err? && r.error.ValueError? && r.error.token in ColumnSet(a) * ColumnSet(b) && ClashAt(a, b, r.error.token)
    ensures r.Ok? ==> r.value.columns == a.columns + WithoutKeys(b.columns, ColumnSet(a) * ColumnSet(b))
  {
    var keys := ColumnSet(a) * ColumnSet(b);
    if keys == {} then Err(MergeError)
    else if KindClash(a, b, keys) then
      var k :| k in keys && ClashAt(a, b, k);
      Err(ValueError(k))
    else Ok(Frame(a.columns + WithoutKeys(b.columns, keys), JoinRows(a.rows, b.rows, keys)))
  }

  /** Every combined row comes from a row of rs that agrees with l. */
  lemma {:induction false} MatchRowsSound(l: map<string, Cell>, rs: seq<map<string, Cell>>, keys: set<string>)
    ensures forall o :: o in MatchRows(l, rs, keys) ==> exists j :: 0 <= j < |rs| && Agree(l, rs[j], keys) && o == Combine(l, rs[j], keys)
  {
    if |rs| > 0 {
      var init := rs[..|rs| - 1];
      MatchRowsSound(l, init, keys);
      forall o | o in MatchRows(l, rs, keys) ensures exists j :: 0 <= j < |rs| && Agree(l, rs[j], keys) && o == Combine(l, rs[j], keys) {
        if o in MatchRows(l, init, keys) {
          var j :| 0 <= j < |init| && Agree(l, init[j], keys) && o == Combine(l, init[j], keys);
          assert rs[j] == init[j];
        } else {
          assert o == Combine(l, rs[|rs| - 1], keys);
        }
      }
    }
  }

  /** Every row of rs that agrees with l is combined with it. */
  lemma {:induction false} MatchRowsComplete(l: map<string, Cell>, rs: seq<map<string, Cell>>, keys: set<string>, j: nat)
    requires j < |rs| && Agree(l, rs[j], keys)
    ensures Combine(l, rs[j], keys) in MatchRows(l, rs, keys)
  {
    var init := rs[..|rs| - 1];
    if j < |init| {
      assert init[j] == rs[j];
      MatchRowsComplete(l, init, keys, j);
    }
  }

  /**
   * The join is an inner join: each row it holds combines a left row and
   * a right row that agree on every key, and each such pair is in it.
   */
  lemma {:induction false} JoinRowsIsInnerJoin(ls: seq<map<string, Cell>>, rs: seq<map<string, Cell>>, keys: set<string>)
    ensures forall o :: o in JoinRows(ls, rs, keys) ==>
              exists i, j :: 0 <= i < |ls| && 0 <= j < |rs| && Agree(ls[i], rs[j], keys) && o == Combine(ls[i], rs[j], keys)
    ensures forall i, j :: 0 <= i < |ls| && 0 <= j < |rs| && Agree(ls[i], rs[j], keys) ==> Combine(ls[i], rs[j], keys) in JoinRows(ls, rs, keys)
  {
    if |ls| > 0 {
      var init := ls[..|ls| - 1];
      var last := ls[|ls| - 1];
      JoinRowsIsInnerJoin(init, rs, keys);
      MatchRowsSound(last, rs, keys);
      forall o | o in JoinRows(ls, rs, keys)
        ensures exists i, j :: 0 <= i < |ls| && 0 <= j < |rs| && Agree(ls[i], rs[j], keys) && o == Combine(ls[i], rs[j], keys)
      {
        if o in JoinRows(init, rs, keys) {
          var i, j :| 0 <= i < |init| && 0 <= j < |rs| && Agree(init[i], rs[j], keys) && o == Combine(init[i], rs[j], keys);
          assert ls[i] == init[i];
        } else {
          var j :| 0 <= j < |rs| && Agree(last, rs[j], keys) && o == Combine(last, rs[j], keys);
          assert ls[|ls| - 1] == last;
        }
      }
      forall i, j | 0 <= i < |ls| && 0 <= j < |rs| && Agree(ls[i], rs[j], keys)
        ensures Combine(ls[i], rs[j], keys) in JoinRows(ls, rs, keys)
      {
        if i < |init| {
          assert init[i] == ls[i];
        } else {
          MatchRowsComplete(last, rs, keys, j);
        }
      }
    }
  }

  /** The index pairs (i, j) of rs[j] agreeing with l, all with first index i. */
  function RowPairs(i: int, l: map<string, Cell>, rs: seq<map<string, Cell>>, keys: set<string>): set<(int, int)>
  {
    set j | 0 <= j < |rs| && Agree(l, rs[j], keys) :: (i, j)
  }

  /** The index pairs (i, j) of a left and a right row that agree on every key. */
  function AgreeingPairs(ls: seq<map<string, Cell>>, rs: seq<map<string, Cell>>, keys: set<string>): set<(int, int)>
  {
    set i, j | 0 <= i < |ls| && 0 <= j < |rs| && Agree(ls[i], rs[j], keys) :: (i, j)
  }

  /** Row l is combined once with each row of rs it agrees with, and no more. */
  lemma {:induction false} MatchRowsCount(i: int, l: map<string, Cell>, rs: seq<map<string, Cell>>, keys: set<string>)
    ensures |MatchRows(l, rs, keys)| == |RowPairs(i, l, rs, keys)|
  {
    if |rs| == 0 {
      assert RowPairs(i, l, rs, keys) == {};
    } else {
      var n := |rs| - 1;
      var init := rs[..n];
      MatchRowsCount(i, l, init, keys);
      assert forall j :: 0 <= j < n ==> init[j] == rs[j];
      if Agree(l, rs[n], keys) {
        assert RowPairs(i, l, rs, keys) == RowPairs(i, l, init, keys) + {(i, n)};
        assert (i, n) !in RowPairs(i, l, init, keys);
      } else {
        assert RowPairs(i, l, rs, keys) == RowPairs(i, l, init, keys);
      }
    }
  }

  /**
   * The join holds one row per agreeing pair of a left and a right row:
   * a left row that matches several right rows, or a duplicated row, gives
   * as many rows as there are pairs.
   */
  lemma {:induction false} JoinRowsCount(ls: seq<map<string, Cell>>, rs: seq<map<string, Cell>>, keys: set<string>)
    ensures |JoinRows(ls, rs, keys)| == |AgreeingPairs(ls, rs, keys)|
  {
    if |ls| == 0 {
      assert AgreeingPairs(ls, rs, keys) == {};
    } else {
      var n := |ls| - 1;
      var init := ls[..n];
      JoinRowsCount(init, rs, keys);
      MatchRowsCount(n, ls[n], rs, keys);
      assert forall i :: 0 <= i < n ==> init[i] == ls[i];
      assert AgreeingPairs(ls, rs, keys) == AgreeingPairs(init, rs, keys) + RowPairs(n, ls[n], rs, keys);
      assert AgreeingPairs(init, rs, keys) * RowPairs(n, ls[n], rs, keys) == {};
    }
  }

  /** Two equal left rows against one agreeing right row give two rows, not one. */
  lemma DuplicateRowsAreKept(m: map<string, Cell>, keys: set<string>)
    requires keys <= m.Keys
    ensures |JoinRows([m, m], [m], keys)| == 2
  {
    JoinRowsCount([m, m], [m], keys);
    assert Agree(m, m, keys);
    assert AgreeingPairs([m, m], [m], keys) == {(0, 0), (1, 0)};
  }

  /** A frame with the single column c has the column set {c}. */
  lemma OneColumn(f: Frame)
    requires |f.columns| == 1
    ensures ColumnSet(f) == {f.columns[0]}
  {
    assert f.columns[0] in ColumnSet(f);
  }

  /** An integer key 1 on the left joins a float key 1.0 on the right, keeping the left key cell. */
  lemma IntegerKeyJoinsFloatKey(v: Cell)
    ensures var a := Frame(["id"], [map["id" := Whole(1)]]);
            var b := Frame(["id", "v"], [map["id" := Num(Some(1.0)), "v" := v]]);
            && MergeOnIntersection(a, b).Ok?
            && MergeOnIntersection(a, b).value.rows == [map["id" := Whole(1), "v" := v]]
  {
    var a := Frame(["id"], [map["id" := Whole(1)]]);
    var b := Frame(["id", "v"], [map["id" := Num(Some(1.0)), "v" := v]]);
    OneColumn(a);
    assert b.columns[0] == "id";
    var keys := ColumnSet(a) * ColumnSet(b);
    assert keys == {"id"};
    assert Agree(a.rows[0], b.rows[0], keys);
    assert Combine(a.rows[0], b.rows[0], keys) == map["id" := Whole(1), "v" := v];
    assert JoinRows(a.rows, b.rows, keys) == MatchRows(a.rows[0], b.rows, keys) by {
      assert a.rows[..0] == [];
    }
    assert b.rows[..0] == [];
  }

  /** A text key on the left against a numeric key on the right raises the ValueError naming that key. */
  lemma TextKeyAgainstNumberIsValueError(s: string, n: int)
    ensures MergeOnIntersection(Frame(["id"], [map["id" := Text(s)]]), Frame(["id"], [map["id" := Whole(n)]])) == Err(ValueError("id"))
  {
    var a := Frame(["id"], [map["id" := Text(s)]]);
    var b := Frame(["id"], [map["id" := Whole(n)]]);
    OneColumn(a);
    OneColumn(b);
    assert a.rows[0]["id"].Text? && Numeric(b.rows[0]["id"]);
    assert ClashAt(a, b, "id");
    var keys := ColumnSet(a) * ColumnSet(b);
    assert keys == {"id"};
    assert KindClash(a, b, keys);
    var r := MergeOnIntersection(a, b);
    assert r.Err? && r.error.ValueError? && r.error.token in keys;
  }

  /**
   * So merge_on_intersection joins on exactly the shared columns: every
   * row of the result combines a left and a right row that agree on each
   * shared column, every such pair gives a row, and there is one row per
   * such pair.
   */
  lemma MergeOnIntersectionJoinsSharedColumns(a: Frame, b: Frame)
    requires MergeOnIntersection(a, b).Ok?
    ensures var r := MergeOnIntersection(a, b).value;
            var keys := ColumnSet(a) * ColumnSet(b);
            && (forall o :: o in r.rows ==>
                  exists i, j :: 0 <= i < |a.rows| && 0 <= j < |b.rows| && Agree(a.rows[i], b.rows[j], keys) && o == Combine(a.rows[i], b.rows[j], keys))
            && (forall i, j :: 0 <= i < |a.rows| && 0 <= j < |b.rows| && Agree(a.rows[i], b.rows[j], keys) ==>
                  Combine(a.rows[i], b.rows[j], keys) in r.rows)
            && |r.rows| == |AgreeingPairs(a.rows, b.rows, keys)|
  {
    JoinRowsIsInnerJoin(a.rows, b.rows, ColumnSet(a) * ColumnSet(b));
    JoinRowsCount(a.rows, b.rows, ColumnSet(a) * ColumnSet(b));
  }

  // ---------------------------------------------------------------------
  // calculate_stats on a data frame

  /** A cell pandas does arithmetic on: a float (possibly NaN) or an integer. */
  predicate Numeric(cell: Cell)
  {
    cell.Num? || cell.Whole?
  }

  /** The value of a numeric cell as a float; an integer converts exactly. */
  function CellValue(cell: Cell): Option<real>
    requires Numeric(cell)
  {
    match cell
    case Num(x) => x
    case Whole(n) => Some(n as real)
  }

  /** The numbers of column c, row by row; None when a row has no number there. */
  function NumColumn(f: Frame, c: string): (r: Option<seq<Option<real>>>)
    ensures r.Some? ==> |r.value| == |f.rows|
    ensures r.Some? <==> forall i :: 0 <= i < |f.rows| ==> c in f.rows[i] && Numeric(f.rows[i][c])
    ensures r.Some? ==> forall i :: 0 <= i < |f.rows| ==>
              && c in f.rows[i]
              && (f.rows[i][c].Num? ==> r.value[i] == f.rows[i][c].x)
              && (f.rows[i][c].Whole? ==> r.value[i] == Some(f.rows[i][c].n as real))
  {
    if forall i :: 0 <= i < |f.rows| ==> c in f.rows[i] && Numeric(f.rows[i][c]) then
      Some(seq(|f.rows|, i requires 0 <= i < |f.rows| => CellValue(f.rows[i][c])))
    else None
  }

  /** df[col1] - df[col2], row by row. */
  function Diff(a: seq<Option<real>>, b: seq<Option<real>>): (d: seq<Option<real>>)
    requires |a| == |b|
    ensures |d| == |a|
    ensures forall i :: 0 <= i < |d| ==> (d[i].Some? <==> a[i].Some? && b[i].Some?)
  {
    seq(|a|, i requires 0 <= i < |a| => SubN(a[i], b[i]))
  }

  /** The guard of calculate_stats: every difference is NaN, or there are at most two rows, NaN rows included. */
  predicate TooFewValues(d: seq<Option<real>>)
  {
    (forall i :: 0 <= i < |d| ==> d[i].None?) || |d| <= 2
  }

  /**
   * calculate_stats(df, col1, col2): one row with the columns pearson_r and
   * rmsd, both NaN under the guard, otherwise the correlation of col2 with
   * col1 and sqrt(nanmean((col1 - col2)**2)).
   */
  function LegacyStats(sqrt: real -> real, corr: Correlation, df: Frame, col1: string, col2: string): Result<Frame>
  {
    if col1 !in ColumnSet(df) then Err(KeyError(col1))
    else if col2 !in ColumnSet(df) then Err(KeyError(col2))
    else
      var a, b := NumColumn(df, col1), NumColumn(df, col2);
      if a.None? || b.None? then Err(TypeError)
      else
        var guarded := TooFewValues(Diff(a.value, b.value));
        var pearson := if guarded then None else corr(b.value, a.value);
        var rmsd := if guarded then None else Rmsd(sqrt, a.value, b.value);
        Ok(Frame(["pearson_r", "rmsd"], [map["pearson_r" := Num(pearson), "rmsd" := Num(rmsd)]]))
  }

  /**
   * The statistics frame is a single row with the columns pearson_r and
   * rmsd, in that order; both are NaN exactly under the guard for the
   * RMSD, which otherwise is the finite, non-negative root of the mean
   * squared difference, and the correlation of col2 with col1.
   */
  lemma LegacyStatsContents(sqrt: real -> real, corr: Correlation, df: Frame, col1: string, col2: string)
    requires IsSqrt(sqrt)
    requires LegacyStats(sqrt, corr, df, col1, col2).Ok?
    ensures var r := LegacyStats(sqrt, corr, df, col1, col2).value;
            var a, b := NumColumn(df, col1).value, NumColumn(df, col2).value;
            && r.columns == ["pearson_r", "rmsd"]
            && |r.rows| == 1
            && r.rows[0].Keys == {"pearson_r", "rmsd"}
            && (TooFewValues(Diff(a, b)) ==> r.rows[0]["pearson_r"] == Num(None) && r.rows[0]["rmsd"] == Num(None))
            && (!TooFewValues(Diff(a, b)) ==>
                  && r.rows[0]["pearson_r"] == Num(corr(b, a))
                  && r.rows[0]["rmsd"] == Num(Rmsd(sqrt, a, b))
                  && Rmsd(sqrt, a, b).Some? && Rmsd(sqrt, a, b).value >= 0.0)
  {
    var a, b := NumColumn(df, col1).value, NumColumn(df, col2).value;
    if !TooFewValues(Diff(a, b)) {
      var d := Diff(a, b);
      var i :| 0 <= i < |d| && d[i].Some?;
      RmsdNaNIffNoFinitePair(sqrt, a, b);
      RmsdIsRootOfMeanSquare(sqrt, a, b);
    }
  }

  /** Swapping the two columns does not change the RMSD. */
  lemma LegacyRmsdSymmetric(sqrt: real -> real, corr: Correlation, df: Frame, col1: string, col2: string)
    requires LegacyStats(sqrt, corr, df, col1, col2).Ok?
    ensures LegacyStats(sqrt, corr, df, col2, col1).Ok?
    ensures LegacyStats(sqrt, corr, df, col2, col1).value.rows[0]["rmsd"] == LegacyStats(sqrt, corr, df, col1, col2).value.rows[0]["rmsd"]
  {
    var a, b := NumColumn(df, col1).value, NumColumn(df, col2).value;
    RmsdSymmetric(sqrt, a, b);
    assert TooFewValues(Diff(a, b)) <==> TooFewValues(Diff(b, a));
  }

  /** A column compared with itself past the guard has RMSD 0. */
  lemma LegacyRmsdOfSameColumnIsZero(sqrt: real -> real, corr: Correlation, df: Frame, col: string)
    requires IsSqrt(sqrt)
    requires LegacyStats(sqrt, corr, df, col, col).Ok?
    requires !TooFewValues(Diff(NumColumn(df, col).value, NumColumn(df, col).value))
    ensures LegacyStats(sqrt, corr, df, col, col).value.rows[0]["rmsd"] == Num(Some(0.0))
  {
    var a := NumColumn(df, col).value;
    var d := Diff(a, a);
    var i :| 0 <= i < |d| && d[i].Some?;
    RmsdOfIdenticalIsZero(sqrt, a);
  }

  /** The guard counts rows, NaN rows included: three rows with one NaN still give finite statistics. */
  lemma NaNRowsCountTowardsTheGuard(d: seq<Option<real>>)
    requires |d| == 3 && d[0].Some? && d[1].Some? && d[2].None?
    ensures !TooFewValues(d)
  {
  }

  /** Two rows are too few, however finite they are. */
  lemma TwoRowsAreTooFew(sqrt: real -> real, corr: Correlation, df: Frame, col1: string, col2: string)
    requires IsSqrt(sqrt)
    requires LegacyStats(sqrt, corr, df, col1, col2).Ok? && |df.rows| == 2
    ensures LegacyStats(sqrt, corr, df, col1, col2).value.rows[0]["rmsd"] == Num(None)
    ensures LegacyStats(sqrt, corr, df, col1, col2).value.rows[0]["pearson_r"] == Num(None)
  {
    LegacyStatsContents(sqrt, corr, df, col1, col2);
  }

  // ---------------------------------------------------------------------
  // the accessor

  /** The statistics the accessor computes by default. */
  const LegacyDefaultStats: seq<string> := ["rmsd"]

  /**
   * With the defaults (stats = ["rmsd"] along profile_axis) and two series
   * of equal length that pass the guard, the call succeeds and adds exactly
   * the rmsd variable, holding the RMSD of the two series.
   */
  lemma LegacyDefaultsAddTheRmsd(sqrt: real -> real, corr: Correlation, ds: Dataset, obs: string, sim: string)
    requires GuardHolds(ds, obs, sim)
    requires SeriesOf(ds, obs).Some? && SeriesOf(ds, sim).Some? && |SeriesOf(ds, obs).value| == |SeriesOf(ds, sim).value|
    requires obs != "rmsd" && sim != "rmsd"
    ensures var out := CalculateStats(LegacyTable, sqrt, corr, ds, obs, sim, "profile_axis", LegacyDefaultStats);
            && out.failure.None?
            && out.ds.coords == ds.coords
            && out.ds.data.Keys == ds.data.Keys + {"rmsd"}
            && out.ds.data["rmsd"] == Scalar(Rmsd(sqrt, SeriesOf(ds, obs).value, SeriesOf(ds, sim).value))
            && forall k :: k in ds.data && k != "rmsd" ==> out.ds.data[k] == ds.data[k]
  {
    StatsSucceed(LegacyTable, sqrt, corr, ds, obs, sim, "profile_axis", LegacyDefaultStats);
    ApplyStatsStep(LegacyTable, sqrt, corr, ds, obs, sim, "profile_axis", LegacyDefaultStats);
    assert LegacyDefaultStats[..0] == [];
  }

  /** The accessor knows no correlation: asking for it is a KeyError, after the statistics before it are written. */
  lemma LegacyRejectsCorrelation(sqrt: real -> real, corr: Correlation, ds: Dataset, obs: string, sim: string, dim: string, stats: seq<string>)
    requires "pearson_r" in stats
    ensures ApplyStats(LegacyTable, sqrt, corr, ds, obs, sim, dim, stats).failure.Some?
  {
    var i :| 0 <= i < |stats| && stats[i] == "pearson_r";
    UnknownStatFails(LegacyTable, sqrt, corr, ds, obs, sim, dim, stats, i);
  }

  /** The accessor of pypism: the dataset it wraps, which its methods update. */
  class CustomDatasetMethods {
    var obj: Dataset

    constructor(ds: Dataset)
      ensures obj == ds
    {
      obj := ds;
    }

    /** add_normal_component, as in the glacier accessor: only normal_name is written. */
    method AddNormalComponent(xc: string, yc: string, name: string) returns (failure: Option<Error>)
      modifies this
      ensures var r := WithNormalComponent(old(obj), xc, yc, name);
              && (r.Ok? ==> failure.None? && obj == r.value)
              && (r.Err? ==> failure == Some(r.error) && obj == old(obj))
    {
      var r := WithNormalComponent(obj, xc, yc, name);
      if r.Err? {
        return Some(r.error);
      }
      obj := r.value;
      failure := None;
    }

    /** calculate_stats with the RMSD as the only statistic. */
    method CalculateStats(sqrt: real -> real, corr: Correlation, obs: string, sim: string, dim: string, stats: seq<string>)
      returns (failure: Option<Error>)
      modifies this
      ensures Outcome(obj, failure) == Stats.CalculateStats(LegacyTable, sqrt, corr, old(obj), obs, sim, dim, stats)
    {
      var out;
      out, failure := RunStats(LegacyTable, sqrt, corr, obj, obs, sim, dim, stats);
      obj := out;
    }

    /** extract_profile: the extraction alone, with no normal component. */
    method ExtractProfile(interp: Interpolator, sqrt: real -> real, xs: seq<real>, ys: seq<real>,
                          profileName: string, profileId: int, dataVars: Option<seq<string>>) returns (r: Result<Dataset>)
      ensures r == ExtractSpec(obj, interp, sqrt, xs, ys, profileName, profileId, dataVars)
    {
      r := Extract(obj, interp, sqrt, xs, ys, profileName, profileId, dataVars);
    }
  }
}
