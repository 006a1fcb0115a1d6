/**
 * What the two dataset accessors share: the normal projection of a vector
 * variable (add_normal_component), the extraction of every variable of a
 * dataset along a profile (extract_profile), and the statistics between an
 * observed and a simulated variable (calculate_stats).
 */
module Extraction {
  import opened Numerics
  import opened Geometry
  import opened Datasets
  import opened Statistics

  /**
   * da.interp(x=..., y=...): interpolating a variable's values at the profile
   * points, one value per point, or None when interpolation raises. The
   * interpolation itself is a parameter of the model; it stands for one
   * dataset's grid, so two datasets on different grids take two of them.
   */
  type Interpolator = f: (Column, seq<real>, seq<real>) -> Option<seq<Option<real>>>
    | forall c, xs, ys :: f(c, xs, ys).Some? ==> |f(c, xs, ys).value| == |xs|
    witness (c: Column, xs: seq<real>, ys: seq<real>) => None

  /** xr.corr of two series: the Pearson correlation, a parameter of the model. */
  type Correlation = (seq<Option<real>>, seq<Option<real>>) -> Option<real>

  /**
   * The guard `assert (a and b) in ds.data_vars`: Python's `a and b` is `a`
   * when `a` is the empty string and `b` otherwise, so only one name is checked.
   */
  predicate GuardHolds(ds: Dataset, a: string, b: string)
  {
    (if a == "" then a else b) in ds.data
  }

  /** The guard tests the second name alone whenever the first is non-empty. */
  lemma GuardChecksOnlySecondName(ds: Dataset, a: string, b: string)
    requires a != ""
    ensures GuardHolds(ds, a, b) <==> b in ds.data
  {
  }

  /** So the guard lets a missing first name through. */
  lemma GuardIgnoresFirstName(ds: Dataset, a: string, b: string)
    requires a != "" && a !in ds.data && b in ds.data
    ensures GuardHolds(ds, a, b)
  {
  }

  // ---------------------------------------------------------------------
  // add_normal_component

  /** x * x_n + y * y_n at every point; NaN wherever one of the four is NaN. */
  function Projection(x: seq<Option<real>>, nx: seq<Option<real>>, y: seq<Option<real>>, ny: seq<Option<real>>): (r: seq<Option<real>>)
    requires |x| == |nx| == |y| == |ny|
    ensures |r| == |x|
    ensures forall i :: 0 <= i < |r| ==>
              (r[i].Some? <==> x[i].Some? && nx[i].Some? && y[i].Some? && ny[i].Some?)
    ensures forall i :: 0 <= i < |r| && r[i].Some? ==>
              r[i].value == x[i].value * nx[i].value + y[i].value * ny[i].value
  {
    seq(|x|, i requires 0 <= i < |x| => AddN(MulN(x[i], nx[i]), MulN(y[i], ny[i])))
  }

  /** The series of ds[name], when it is one. */
  function SeriesOf(ds: Dataset, name: string): Option<seq<Option<real>>>
  {
    var c := Lookup(ds, name);
    if c.Some? && c.value.Series? then Some(c.value.values) else None
  }

  /**
   * add_normal_component(x_component, y_component, normal_name): after the
   * guard, reads ds[x_component], ds["nx"], ds[y_component] and ds["ny"]
   * in that order and stores their projection under normal_name.
   */
  function WithNormalComponent(ds: Dataset, xc: string, yc: string, name: string): Result<Dataset>
  {
    if !GuardHolds(ds, xc, yc) then Err(AssertionFailed)
    else if Lookup(ds, xc).None? then Err(KeyError(xc))
    else if Lookup(ds, "nx").None? then Err(KeyError("nx"))
    else if Lookup(ds, yc).None? then Err(KeyError(yc))
    else if Lookup(ds, "ny").None? then Err(KeyError("ny"))
    else
      var x, nx, y, ny := SeriesOf(ds, xc), SeriesOf(ds, "nx"), SeriesOf(ds, yc), SeriesOf(ds, "ny");
      if x.None? || nx.None? || y.None? || ny.None? then Err(TypeError)
      else if !(|x.value| == |nx.value| == |y.value| == |ny.value|) then Err(ShapeError)
      else Ok(Assign(ds, name, Series(Projection(x.value, nx.value, y.value, ny.value))))
  }

  /**
   * The projection succeeds exactly when the guard holds and the four
   * inputs are series of one length; it then adds normal_name, holding the
   * projection, and leaves every other variable and every coordinate as it was.
   */
  lemma NormalComponentAddsOnlyItsName(ds: Dataset, xc: string, yc: string, name: string)
    ensures WithNormalComponent(ds, xc, yc, name).Ok? <==>
              && GuardHolds(ds, xc, yc)
              && SeriesOf(ds, xc).Some? && SeriesOf(ds, "nx").Some? && SeriesOf(ds, yc).Some? && SeriesOf(ds, "ny").Some?
              && |SeriesOf(ds, xc).value| == |SeriesOf(ds, "nx").value| == |SeriesOf(ds, yc).value| == |SeriesOf(ds, "ny").value|
    ensures WithNormalComponent(ds, xc, yc, name).Ok? ==>
              var r := WithNormalComponent(ds, xc, yc, name).value;
              var x, nx, y, ny := SeriesOf(ds, xc).value, SeriesOf(ds, "nx").value, SeriesOf(ds, yc).value, SeriesOf(ds, "ny").value;
              && r.coords == ds.coords
              && r.data.Keys == ds.data.Keys + {name}
              && (forall k :: k in ds.data && k != name ==> r.data[k] == ds.data[k])
              && r.data[name].Series?
              && |r.data[name].values| == |x|
              && forall i :: 0 <= i < |x| ==>
                   if x[i].Some? && nx[i].Some? && y[i].Some? && ny[i].Some?
                   then r.data[name].values[i] == Some(x[i].value * nx[i].value + y[i].value * ny[i].value)
                   else r.data[name].values[i] == None
  {
    var r := WithNormalComponent(ds, xc, yc, name);
    if r.Ok? {
      var x, nx, y, ny := SeriesOf(ds, xc).value, SeriesOf(ds, "nx").value, SeriesOf(ds, yc).value, SeriesOf(ds, "ny").value;
      var p := Projection(x, nx, y, ny);
      assert r.value.data[name] == Series(p);
      forall i | 0 <= i < |x| && x[i].Some? && nx[i].Some? && y[i].Some? && ny[i].Some?
        ensures p[i] == Some(x[i].value * nx[i].value + y[i].value * ny[i].value)
      {
        var v := x[i].value * nx[i].value + y[i].value * ny[i].value;
        assert p[i].Some? && p[i].value == v;
        OptionOfValue(p[i], v);
      }
    }
  }

  /** An option that holds v is Some(v). */
  lemma OptionOfValue(o: Option<real>, v: real)
    requires o.Some? && o.value == v
    ensures o == Some(v)
  {
  }

  /** When the guard passes on the second name only, a missing first name surfaces as a KeyError. */
  lemma MissingFirstComponentIsKeyError(ds: Dataset, xc: string, yc: string, name: string)
    requires xc != "" && xc !in ds.data && xc !in ds.coords && yc in ds.data
    ensures WithNormalComponent(ds, xc, yc, name) == Err(KeyError(xc))
  {
  }

  // ---------------------------------------------------------------------
  // extract_profile

  /** The first requested name the dataset has neither as a variable nor as a coordinate. */
  function FirstMissing(ds: Dataset, names: seq<string>): (r: Option<string>)
    ensures r.Some? ==> r.value in names && Lookup(ds, r.value).None?
  {
    if |names| == 0 then None
    else if Lookup(ds, names[0]).None? then Some(names[0])
    else FirstMissing(ds, names[1..])
  }

  /** No requested name is reported missing exactly when the dataset has all of them. */
  lemma {:induction false} FirstMissingNone(ds: Dataset, names: seq<string>)
    ensures FirstMissing(ds, names).None? <==> forall i :: 0 <= i < |names| ==> Lookup(ds, names[i]).Some?
  {
    if |names| > 0 {
      FirstMissingNone(ds, names[1..]);
      assert forall i :: 1 <= i < |names| ==> names[i] == names[1..][i - 1];
    }
  }

  /** The name reported missing is the first one the dataset lacks. */
  lemma {:induction false} FirstMissingAt(ds: Dataset, names: seq<string>, k: nat)
    requires k < |names| && Lookup(ds, names[k]).None?
    requires forall i :: 0 <= i < k ==> Lookup(ds, names[i]).Some?
    ensures FirstMissing(ds, names) == Some(names[k])
  {
    if k > 0 {
      assert forall i :: 0 <= i < k - 1 ==> names[1..][i] == names[i + 1];
      FirstMissingAt(ds, names[1..], k - 1);
    }
  }

  /** The interpolated values of ds[name] along the profile, as a series; None when it cannot be read or interpolated. */
  function Interpolated(ds: Dataset, interp: Interpolator, xs: seq<real>, ys: seq<real>, name: string): (r: Option<Column>)
    ensures r.Some? ==> r.value.Series? && |r.value.values| == |xs|
  {
    var c := Lookup(ds, name);
    if c.None? then None
    else
      var v := interp(c.value, xs, ys);
      if v.Some? then Some(Series(v.value)) else None
  }

  /** The arrays the loop over data_vars appends: one per name whose interpolation succeeds, in order. */
  function InterpolatedArrays(ds: Dataset, interp: Interpolator, xs: seq<real>, ys: seq<real>, names: seq<string>): seq<DataArray>
  {
    if |names| == 0 then []
    else
      var m := names[|names| - 1];
      var v := Interpolated(ds, interp, xs, ys, m);
      InterpolatedArrays(ds, interp, xs, ys, names[..|names| - 1]) + (if v.Some? then [DataArray(m, v.value)] else [])
  }

  /** The arrays extract_profile always builds first: nx, ny and the profile name. */
  function BaseArrays(sqrt: real -> real, xs: seq<real>, ys: seq<real>, profileName: string): seq<DataArray>
    requires |xs| == |ys|
  {
    var n := NormalComponents(sqrt, xs, ys);
    [DataArray("nx", Series(n.0)), DataArray("ny", Series(n.1)), DataArray("profile_name", Labels([profileName]))]
  }

  /** The same three variables, by name. */
  function BaseVariables(sqrt: real -> real, xs: seq<real>, ys: seq<real>, profileName: string): (m: map<string, Column>)
    requires |xs| == |ys|
    ensures m.Keys == {"nx", "ny", "profile_name"}
  {
    var n := NormalComponents(sqrt, xs, ys);
    map["nx" := Series(n.0), "ny" := Series(n.1), "profile_name" := Labels([profileName])]
  }

  /** Every requested variable whose interpolation succeeds, by name. */
  function InterpolatedVariables(ds: Dataset, interp: Interpolator, xs: seq<real>, ys: seq<real>, names: set<string>): (m: map<string, Column>)
    ensures forall k :: k in m <==> k in names && Interpolated(ds, interp, xs, ys, k).Some?
  {
    map k | k in names && Interpolated(ds, interp, xs, ys, k).Some? :: Interpolated(ds, interp, xs, ys, k).value
  }

  /** Two sets of variables give one name two different values. */
  predicate Conflicting(a: map<string, Column>, b: map<string, Column>)
  {
    exists k :: k in a && k in b && a[k] != b[k]
  }

  /** The variables extract_profile is asked for: all data variables, or the listed ones. */
  function Requested(ds: Dataset, dataVars: Option<seq<string>>): set<string>
  {
    if dataVars.None? then ds.data.Keys else set i | 0 <= i < |dataVars.value| :: dataVars.value[i]
  }

  /** The profile axis as a coordinate. */
  function AxisColumn(sqrt: real -> real, xs: seq<real>, ys: seq<real>): Column
    requires 0 < |xs| == |ys|
  {
    var axis := ProfileAxis(sqrt, xs, ys);
    Series(seq(|axis|, i requires 0 <= i < |axis| => Some(axis[i])))
  }

  /**
   * extract_profile, stated as the dataset it produces: an IndexError for an
   * empty xs or ys, a shape error for unequal lengths that numpy cannot
   * broadcast, a KeyError when the dataset has no "x" or "y" or lacks a
   * requested variable, a merge
   * conflict when an interpolated variable clashes with nx, ny or
   * profile_name; otherwise the data variables nx, ny, profile_name and
   * every requested variable whose interpolation succeeds, over the
   * coordinates profile_axis and profile_id. A length-1 xs or ys
   * broadcasts against the other in the axis computation, so in that case
   * the shape error comes from building the x or the y array, after the
   * lookup of ds["x"] (and of ds["y"]) that is one of its arguments.
   */
  function ExtractSpec(ds: Dataset, interp: Interpolator, sqrt: real -> real, xs: seq<real>, ys: seq<real>,
                       profileName: string, profileId: int, dataVars: Option<seq<string>>): Result<Dataset>
  {
    if |xs| == 0 || |ys| == 0 then Err(IndexError)
    else if |xs| != |ys| && |xs| != 1 && |ys| != 1 then Err(ShapeError)
    else if Lookup(ds, "x").None? then Err(KeyError("x"))
    else if |xs| == 1 < |ys| then Err(ShapeError)
    else if Lookup(ds, "y").None? then Err(KeyError("y"))
    else if |ys| == 1 < |xs| then Err(ShapeError)
    else if dataVars.Some? && FirstMissing(ds, dataVars.value).Some? then Err(KeyError(FirstMissing(ds, dataVars.value).value))
    else Extracted(ds, interp, sqrt, xs, ys, profileName, profileId, Requested(ds, dataVars))
  }

  /**
   * The profile once every check has passed: a merge conflict when an
   * interpolated variable clashes with nx, ny or profile_name, otherwise
   * the variables over the coordinates profile_axis and profile_id.
   */
  function Extracted(ds: Dataset, interp: Interpolator, sqrt: real -> real, xs: seq<real>, ys: seq<real>,
                     profileName: string, profileId: int, requested: set<string>): Result<Dataset>
    requires 0 < |xs| == |ys|
  {
    Assembled(AxisColumn(sqrt, xs, ys), profileId, BaseVariables(sqrt, xs, ys, profileName),
              InterpolatedVariables(ds, interp, xs, ys, requested))
  }

  /** xr.merge of the variables, then ds["profile_id"] = [profile_id], over the profile axis. */
  function Assembled(axis: Column, profileId: int, base: map<string, Column>, found: map<string, Column>): Result<Dataset>
  {
    if Conflicting(base, found) then Err(MergeError)
    else Ok(Dataset(map["profile_axis" := axis, "profile_id" := Ids([profileId])], (base + found) - {"profile_id"}))
  }

  /**
   * The assembled profile has the coordinates profile_axis and profile_id
   * = [profile_id], the base variables unchanged, and every other variable
   * but profile_id from the interpolated ones.
   */
  lemma AssembledContents(axis: Column, profileId: int, base: map<string, Column>, found: map<string, Column>)
    requires base.Keys == {"nx", "ny", "profile_name"}
    requires Assembled(axis, profileId, base, found).Ok?
    ensures var r := Assembled(axis, profileId, base, found).value;
            && r.coords.Keys == {"profile_axis", "profile_id"}
            && r.coords["profile_id"] == Ids([profileId])
            && r.coords["profile_axis"] == axis
            && (forall k :: k in base ==> k in r.data && r.data[k] == base[k])
            && (forall k :: k in r.data <==> (k in base || k in found) && k != "profile_id")
            && (forall k :: k in found && k != "profile_id" ==> r.data[k] == found[k])
  {
    forall k | k in base && k in found ensures found[k] == base[k] {
      assert !(k in base && k in found && base[k] != found[k]);
    }
  }

  /** Each appended array comes from a listed name and holds that name's interpolation. */
  lemma {:induction false} InterpolatedArraysFromNames(ds: Dataset, interp: Interpolator, xs: seq<real>, ys: seq<real>, names: seq<string>)
    ensures forall i :: 0 <= i < |InterpolatedArrays(ds, interp, xs, ys, names)| ==>
              InterpolatedArrays(ds, interp, xs, ys, names)[i].name in names &&
              Interpolated(ds, interp, xs, ys, InterpolatedArrays(ds, interp, xs, ys, names)[i].name)
                == Some(InterpolatedArrays(ds, interp, xs, ys, names)[i].column)
  {
    if |names| > 0 {
      var init := names[..|names| - 1];
      InterpolatedArraysFromNames(ds, interp, xs, ys, init);
      var e0 := InterpolatedArrays(ds, interp, xs, ys, init);
      var e := InterpolatedArrays(ds, interp, xs, ys, names);
      forall i | 0 <= i < |e|
        ensures e[i].name in names && Interpolated(ds, interp, xs, ys, e[i].name) == Some(e[i].column)
      {
        if i < |e0| {
          assert e[i] == e0[i];
          var j :| 0 <= j < |init| && init[j] == e0[i].name;
          assert names[j] == init[j];
        }
      }
    }
  }

  /** Every listed name whose interpolation succeeds has an appended array. */
  lemma {:induction false} InterpolatedArraysCoverNames(ds: Dataset, interp: Interpolator, xs: seq<real>, ys: seq<real>, names: seq<string>)
    ensures forall k :: k in names && Interpolated(ds, interp, xs, ys, k).Some? ==>
              k in Names(InterpolatedArrays(ds, interp, xs, ys, names))
  {
    if |names| > 0 {
      var init := names[..|names| - 1];
      var m := names[|names| - 1];
      InterpolatedArraysCoverNames(ds, interp, xs, ys, init);
      var e0 := InterpolatedArrays(ds, interp, xs, ys, init);
      var e := InterpolatedArrays(ds, interp, xs, ys, names);
      forall k | k in names && Interpolated(ds, interp, xs, ys, k).Some? ensures k in Names(e) {
        if k in init {
          var j :| 0 <= j < |e0| && e0[j].name == k;
          assert e[j] == e0[j];
        } else {
          assert k == m;
          assert e[|e| - 1].name == m;
        }
      }
    }
  }

  /** Base arrays and appended arrays that give no name two values merge without conflict. */
  lemma NoConflictOfExtraction(b: seq<DataArray>, e: seq<DataArray>, base: map<string, Column>, found: map<string, Column>)
    requires forall i :: 0 <= i < |b| ==> b[i].name in base && base[b[i].name] == b[i].column
    requires forall i, j :: 0 <= i < j < |b| ==> b[i].name != b[j].name
    requires forall i :: 0 <= i < |e| ==> e[i].name in found && found[e[i].name] == e[i].column
    requires !Conflicting(base, found)
    ensures NoConflict(b + e)
  {
    var das := b + e;
    forall i, j | 0 <= i < j < |das| && das[i].name == das[j].name
      ensures das[i].column == das[j].column
    {
      if j < |b| {
        assert false;
      } else if i < |b| {
        assert das[i] == b[i] && das[j] == e[j - |b|];
      } else {
        assert das[i] == e[i - |b|] && das[j] == e[j - |b|];
      }
    }
  }

  /** A name both sides give different values is a conflict between two of the arrays. */
  lemma ConflictOfExtraction(b: seq<DataArray>, e: seq<DataArray>, base: map<string, Column>, found: map<string, Column>)
    requires Names(b) == base.Keys && forall i :: 0 <= i < |b| ==> base[b[i].name] == b[i].column
    requires Names(e) == found.Keys && forall i :: 0 <= i < |e| ==> found[e[i].name] == e[i].column
    requires Conflicting(base, found)
    ensures !NoConflict(b + e)
  {
    var das := b + e;
    var k :| k in base && k in found && base[k] != found[k];
    assert k in Names(b) && k in Names(e);
    var i :| 0 <= i < |b| && b[i].name == k;
    var j :| 0 <= j < |e| && e[j].name == k;
    assert das[i] == b[i] && das[|b| + j] == e[j];
  }

  /** A conflict-free merge of the arrays holds exactly the declarative variables. */
  lemma MergedVariables(b: seq<DataArray>, e: seq<DataArray>, base: map<string, Column>, found: map<string, Column>)
    requires Names(b) == base.Keys && forall i :: 0 <= i < |b| ==> base[b[i].name] == b[i].column
    requires Names(e) == found.Keys && forall i :: 0 <= i < |e| ==> found[e[i].name] == e[i].column
    requires Merge(b + e).Ok?
    ensures Merge(b + e).value == base + found
  {
    var das := b + e;
    MergeSound(das);
    var m := Merge(das).value;
    NamesAppend(b, e);
    forall k | k in m ensures m[k] == (base + found)[k] {
      if k in found {
        var j :| 0 <= j < |e| && e[j].name == k;
        assert das[|b| + j] == e[j];
      } else {
        var j :| 0 <= j < |b| && b[j].name == k;
        assert das[j] == b[j];
      }
    }
  }

  /** The base arrays name nx, ny and profile_name once each, with the base variables' values. */
  lemma BaseArraysFacts(sqrt: real -> real, xs: seq<real>, ys: seq<real>, profileName: string)
    requires |xs| == |ys|
    ensures var b := BaseArrays(sqrt, xs, ys, profileName);
            var base := BaseVariables(sqrt, xs, ys, profileName);
            && Names(b) == base.Keys
            && (forall i :: 0 <= i < |b| ==> b[i].name in base && base[b[i].name] == b[i].column)
            && (forall i, j :: 0 <= i < j < |b| ==> b[i].name != b[j].name)
  {
    var b := BaseArrays(sqrt, xs, ys, profileName);
    assert b[0].name == "nx" && b[1].name == "ny" && b[2].name == "profile_name";
    assert Names(b) == {"nx", "ny", "profile_name"};
  }

  /** The appended arrays name exactly the requested variables that interpolate, with their values. */
  lemma InterpolatedArraysFacts(ds: Dataset, interp: Interpolator, xs: seq<real>, ys: seq<real>,
                                names: seq<string>, requested: set<string>)
    requires forall k :: k in requested <==> k in names
    ensures var e := InterpolatedArrays(ds, interp, xs, ys, names);
            var found := InterpolatedVariables(ds, interp, xs, ys, requested);
            && Names(e) == found.Keys
            && forall i :: 0 <= i < |e| ==> e[i].name in found && found[e[i].name] == e[i].column
  {
    InterpolatedArraysFromNames(ds, interp, xs, ys, names);
    InterpolatedArraysCoverNames(ds, interp, xs, ys, names);
  }

  /**
   * Merging the base arrays with the appended ones conflicts exactly when the
   * declarative variables conflict, and otherwise gives their union.
   */
  lemma MergeOfExtraction(ds: Dataset, interp: Interpolator, sqrt: real -> real, xs: seq<real>, ys: seq<real>,
                          profileName: string, names: seq<string>, requested: set<string>)
    requires |xs| == |ys|
    requires forall k :: k in requested <==> k in names
    ensures var das := BaseArrays(sqrt, xs, ys, profileName) + InterpolatedArrays(ds, interp, xs, ys, names);
            var base := BaseVariables(sqrt, xs, ys, profileName);
            var found := InterpolatedVariables(ds, interp, xs, ys, requested);
            && (Merge(das).Ok? <==> !Conflicting(base, found))
            && (Merge(das).Ok? ==> Merge(das).value == base + found)
  {
    var b := BaseArrays(sqrt, xs, ys, profileName);
    var e := InterpolatedArrays(ds, interp, xs, ys, names);
    var base := BaseVariables(sqrt, xs, ys, profileName);
    var found := InterpolatedVariables(ds, interp, xs, ys, requested);
    BaseArraysFacts(sqrt, xs, ys, profileName);
    InterpolatedArraysFacts(ds, interp, xs, ys, names, requested);
    MergeSound(b + e);
    if Conflicting(base, found) {
      ConflictOfExtraction(b, e, base, found);
    } else {
      NoConflictOfExtraction(b, e, base, found);
      MergeComplete(b + e);
      MergedVariables(b, e, base, found);
    }
  }

  /** The names extract_profile writes itself; an interpolated variable of one of these names is not reported as such. */
  function Reserved(): set<string> { {"nx", "ny", "profile_name", "profile_id"} }

  /** A successful extraction is the assembly of the base and the interpolated variables. */
  lemma ExtractedShape(ds: Dataset, interp: Interpolator, sqrt: real -> real, xs: seq<real>, ys: seq<real>,
                       profileName: string, profileId: int, dataVars: Option<seq<string>>)
    requires ExtractSpec(ds, interp, sqrt, xs, ys, profileName, profileId, dataVars).Ok?
    ensures 0 < |xs| == |ys|
    ensures ExtractSpec(ds, interp, sqrt, xs, ys, profileName, profileId, dataVars)
         == Assembled(AxisColumn(sqrt, xs, ys), profileId, BaseVariables(sqrt, xs, ys, profileName),
                      InterpolatedVariables(ds, interp, xs, ys, Requested(ds, dataVars)))
  {
  }

  /**
   * A successful extraction always has the coordinates profile_axis and
   * profile_id = [profile_id], and the data variables nx and ny (the
   * normals of the profile) and profile_name = [profile_name].
   */
  lemma ExtractedBase(ds: Dataset, interp: Interpolator, sqrt: real -> real, xs: seq<real>, ys: seq<real>,
                      profileName: string, profileId: int, dataVars: Option<seq<string>>)
    requires ExtractSpec(ds, interp, sqrt, xs, ys, profileName, profileId, dataVars).Ok?
    ensures 0 < |xs| == |ys|
    ensures var r := ExtractSpec(ds, interp, sqrt, xs, ys, profileName, profileId, dataVars).value;
            && r.coords.Keys == {"profile_axis", "profile_id"}
            && r.coords["profile_id"] == Ids([profileId])
            && r.coords["profile_axis"] == AxisColumn(sqrt, xs, ys)
            && "nx" in r.data && "ny" in r.data && "profile_name" in r.data
            && r.data["nx"] == Series(NormalComponents(sqrt, xs, ys).0)
            && r.data["ny"] == Series(NormalComponents(sqrt, xs, ys).1)
            && r.data["profile_name"] == Labels([profileName])
  {
    ExtractedShape(ds, interp, sqrt, xs, ys, profileName, profileId, dataVars);
    var base := BaseVariables(sqrt, xs, ys, profileName);
    var found := InterpolatedVariables(ds, interp, xs, ys, Requested(ds, dataVars));
    AssembledContents(AxisColumn(sqrt, xs, ys), profileId, base, found);
  }

  /**
   * In a successful extraction every data variable but profile_name is a
   * series with one value per point, every other variable was requested,
   * and a requested variable of any other name is present exactly when its
   * interpolation succeeds, holding that interpolation.
   */
  lemma ExtractedRequested(ds: Dataset, interp: Interpolator, sqrt: real -> real, xs: seq<real>, ys: seq<real>,
                           profileName: string, profileId: int, dataVars: Option<seq<string>>)
    requires ExtractSpec(ds, interp, sqrt, xs, ys, profileName, profileId, dataVars).Ok?
    ensures 0 < |xs| == |ys|
    ensures var r := ExtractSpec(ds, interp, sqrt, xs, ys, profileName, profileId, dataVars).value;
            var requested := Requested(ds, dataVars);
            && (forall k :: k in r.data && k != "profile_name" ==> r.data[k].Series? && |r.data[k].values| == |xs|)
            && (forall k :: k in r.data && k !in Reserved() ==> k in requested)
            && (forall k :: k in requested && k !in Reserved() ==>
                  (k in r.data <==> Interpolated(ds, interp, xs, ys, k).Some?) &&
                  (k in r.data ==> Some(r.data[k]) == Interpolated(ds, interp, xs, ys, k)))
  {
    ExtractedShape(ds, interp, sqrt, xs, ys, profileName, profileId, dataVars);
    var base := BaseVariables(sqrt, xs, ys, profileName);
    var found := InterpolatedVariables(ds, interp, xs, ys, Requested(ds, dataVars));
    AssembledContents(AxisColumn(sqrt, xs, ys), profileId, base, found);
    var n := NormalComponents(sqrt, xs, ys);
    assert base["nx"] == Series(n.0) && base["ny"] == Series(n.1) && |n.0| == |xs| && |n.1| == |xs|;
  }

  /**
   * extract_profile succeeds exactly when the points are one or more, as
   * many x as y, the dataset has "x" and "y", every listed variable exists,
   * and no interpolated variable clashes with nx, ny or profile_name; a
   * listed variable the dataset lacks is a KeyError.
   */
  lemma ExtractSucceeds(ds: Dataset, interp: Interpolator, sqrt: real -> real, xs: seq<real>, ys: seq<real>,
                        profileName: string, profileId: int, dataVars: Option<seq<string>>)
    ensures ExtractSpec(ds, interp, sqrt, xs, ys, profileName, profileId, dataVars).Ok? <==>
              && 0 < |xs| == |ys|
              && Lookup(ds, "x").Some? && Lookup(ds, "y").Some?
              && (dataVars.Some? ==> forall i :: 0 <= i < |dataVars.value| ==> Lookup(ds, dataVars.value[i]).Some?)
              && !Conflicting(BaseVariables(sqrt, xs, ys, profileName), InterpolatedVariables(ds, interp, xs, ys, Requested(ds, dataVars)))
    ensures 0 < |xs| == |ys| && Lookup(ds, "x").Some? && Lookup(ds, "y").Some? && dataVars.Some? &&
            FirstMissing(ds, dataVars.value).Some? ==>
              var k := FirstMissing(ds, dataVars.value).value;
              && ExtractSpec(ds, interp, sqrt, xs, ys, profileName, profileId, dataVars) == Err(KeyError(k))
              && Lookup(ds, k).None? && k in dataVars.value
  {
    if dataVars.Some? {
      FirstMissingNone(ds, dataVars.value);
    }
  }

  /**
   * Unequal non-empty lengths always fail: with "x" and "y" present as a
   * shape error, otherwise possibly first as the KeyError of the missing
   * coordinate when one side has a single point and broadcasts.
   */
  lemma UnequalLengthsFail(ds: Dataset, interp: Interpolator, sqrt: real -> real, xs: seq<real>, ys: seq<real>,
                           profileName: string, profileId: int, dataVars: Option<seq<string>>)
    requires 0 < |xs| && 0 < |ys| && |xs| != |ys|
    ensures var r := ExtractSpec(ds, interp, sqrt, xs, ys, profileName, profileId, dataVars);
            && (r == Err(ShapeError) || r == Err(KeyError("x")) || r == Err(KeyError("y")))
            && (Lookup(ds, "x").Some? && Lookup(ds, "y").Some? ==> r == Err(ShapeError))
            && (r == Err(KeyError("x")) <==> (|xs| == 1 || |ys| == 1) && Lookup(ds, "x").None?)
            && (r == Err(KeyError("y")) <==> |ys| == 1 && Lookup(ds, "x").Some? && Lookup(ds, "y").None?)
  {
  }

  /** Three x values against one y value reach the lookup of ds["x"], which raises. */
  lemma BroadcastReachesTheKeyLookup(ds: Dataset, interp: Interpolator, sqrt: real -> real,
                                     profileName: string, profileId: int, dataVars: Option<seq<string>>)
    requires Lookup(ds, "x").None?
    ensures ExtractSpec(ds, interp, sqrt, [0.0, 1.0, 2.0], [5.0], profileName, profileId, dataVars) == Err(KeyError("x"))
  {
  }

  /** Leaving data_vars out is the same as listing every data variable of the dataset. */
  lemma DefaultIsEveryDataVariable(ds: Dataset, interp: Interpolator, sqrt: real -> real, xs: seq<real>, ys: seq<real>,
                                   profileName: string, profileId: int, names: seq<string>)
    requires forall k :: k in names <==> k in ds.data
    ensures ExtractSpec(ds, interp, sqrt, xs, ys, profileName, profileId, None)
         == ExtractSpec(ds, interp, sqrt, xs, ys, profileName, profileId, Some(names))
  {
    FirstMissingNone(ds, names);
    assert Requested(ds, Some(names)) == ds.data.Keys;
  }

  /** The profile_axis coordinate has one value per point, and 0 at the first point. */
  lemma AxisStartsAtZero(sqrt: real -> real, xs: seq<real>, ys: seq<real>)
    requires IsSqrt(sqrt) && 0 < |xs| == |ys|
    ensures AxisColumn(sqrt, xs, ys).Series? && |AxisColumn(sqrt, xs, ys).values| == |xs|
    ensures AxisColumn(sqrt, xs, ys).values[0] == Some(0.0)
  {
    var axis := ProfileAxis(sqrt, xs, ys);
    assert AxisColumn(sqrt, xs, ys).values[0] == Some(axis[0]);
    assert axis[0] == 0.0 by { ProfileAxisStartsAtZero(sqrt, xs, ys); }
  }

  /**
   * The profile_axis value at point i is the straight-line distance from
   * the first point: the non-negative root of the squared distance between
   * points 0 and i.
   */
  lemma AxisIsDistanceFromStart(sqrt: real -> real, xs: seq<real>, ys: seq<real>, i: nat)
    requires IsSqrt(sqrt) && 0 < |xs| == |ys| && i < |xs|
    ensures AxisColumn(sqrt, xs, ys).Series? && |AxisColumn(sqrt, xs, ys).values| == |xs|
    ensures AxisColumn(sqrt, xs, ys).values[i].Some?
    ensures IsRootOf(AxisColumn(sqrt, xs, ys).values[i].value, SquaredNorm(Sub(Vec(xs[i], ys[i]), Vec(xs[0], ys[0]))))
  {
    var axis := ProfileAxis(sqrt, xs, ys);
    assert AxisColumn(sqrt, xs, ys).values[i] == Some(axis[i]);
    ProfileAxisIsDistanceFromFirstPoint(sqrt, xs, ys, i);
  }

  /** list(ds.data_vars): the names of the data variables, each once, in some order. */
  method DataVarNames(ds: Dataset) returns (names: seq<string>)
    ensures forall k :: k in names <==> k in ds.data
    ensures forall i, j :: 0 <= i < j < |names| ==> names[i] != names[j]
  {
    names := [];
    var rest := ds.data.Keys;
    while rest != {}
      invariant rest <= ds.data.Keys
      invariant forall k :: k in names <==> k in ds.data && k !in rest
      invariant forall i, j :: 0 <= i < j < |names| ==> names[i] != names[j]
      decreases rest
    {
      var k :| k in rest;
      names := names + [k];
      rest := rest - {k};
    }
  }

  /**
   * The loop over the requested variables: read each one (a KeyError for
   * the first one the dataset lacks) and append its interpolation when that
   * succeeds.
   */
  method InterpolateEach(ds: Dataset, interp: Interpolator, xs: seq<real>, ys: seq<real>, names: seq<string>)
    returns (r: Result<seq<DataArray>>)
    ensures FirstMissing(ds, names).Some? ==> r == Err(KeyError(FirstMissing(ds, names).value))
    ensures FirstMissing(ds, names).None? ==> r == Ok(InterpolatedArrays(ds, interp, xs, ys, names))
  {
    var das: seq<DataArray> := [];
    for k := 0 to |names|
      invariant das == InterpolatedArrays(ds, interp, xs, ys, names[..k])
      invariant forall i :: 0 <= i < k ==> Lookup(ds, names[i]).Some?
    {
      var m := names[k];
      var da := Lookup(ds, m);
      if da.None? {
        FirstMissingAt(ds, names, k);
        return Err(KeyError(m));
      }
      var v := interp(da.value, xs, ys);
      if v.Some? {
        das := das + [DataArray(m, Series(v.value))];
      }
      assert names[..k + 1][..k] == names[..k];
    }
    assert names[..|names|] == names;
    FirstMissingNone(ds, names);
    return Ok(das);
  }

  /**
   * The tail of extract_profile: compute the normals, merge them and the
   * profile name with the interpolated arrays, and attach profile_id.
   */
  method MergeProfile(ds: Dataset, interp: Interpolator, sqrt: real -> real, xs: seq<real>, ys: seq<real>,
                      profileName: string, profileId: int, names: seq<string>, appended: seq<DataArray>,
                      axis: Column, requested: set<string>) returns (r: Result<Dataset>)
    requires 0 < |xs| == |ys|
    requires forall k :: k in requested <==> k in names
    requires appended == InterpolatedArrays(ds, interp, xs, ys, names)
    requires axis == AxisColumn(sqrt, xs, ys)
    ensures r == Extracted(ds, interp, sqrt, xs, ys, profileName, profileId, requested)
  {
    var nx, ny := ComputeNormals(sqrt, xs, ys);
    var base := [DataArray("nx", Series(nx)), DataArray("ny", Series(ny)), DataArray("profile_name", Labels([profileName]))];
    assert base == BaseArrays(sqrt, xs, ys, profileName);
    ghost var baseVars := BaseVariables(sqrt, xs, ys, profileName);
    ghost var found := InterpolatedVariables(ds, interp, xs, ys, requested);
    MergeOfExtraction(ds, interp, sqrt, xs, ys, profileName, names, requested);
    MergeSound(base + appended);
    var merged := Merge(base + appended);
    assert merged.Ok? <==> !Conflicting(baseVars, found);
    if merged.Err? {
      return Err(merged.error);
    }
    assert merged.value == baseVars + found;
    r := Ok(Dataset(map["profile_axis" := axis, "profile_id" := Ids([profileId])], merged.value - {"profile_id"}));
  }

  /**
   * extract_profile as the code runs it: compute the axis, read the x and
   * y attributes, compute the normals, append the interpolation of every
   * requested variable that succeeds, merge, and attach profile_id.
   */
  method Extract(ds: Dataset, interp: Interpolator, sqrt: real -> real, xs: seq<real>, ys: seq<real>,
                 profileName: string, profileId: int, dataVars: Option<seq<string>>) returns (r: Result<Dataset>)
    ensures r == ExtractSpec(ds, interp, sqrt, xs, ys, profileName, profileId, dataVars)
  {
    if |xs| == 0 || |ys| == 0 {
      return Err(IndexError);
    }
    if |xs| != |ys| && |xs| != 1 && |ys| != 1 {
      return Err(ShapeError);
    }
    if Lookup(ds, "x").None? {
      return Err(KeyError("x"));
    }
    if |xs| == 1 < |ys| {
      return Err(ShapeError);
    }
    if Lookup(ds, "y").None? {
      return Err(KeyError("y"));
    }
    if |ys| == 1 < |xs| {
      return Err(ShapeError);
    }
    var axis := AxisColumn(sqrt, xs, ys);
    var names: seq<string>;
    if dataVars.None? {
      names := DataVarNames(ds);
      FirstMissingNone(ds, names);
    } else {
      names := dataVars.value;
    }
    var appended := InterpolateEach(ds, interp, xs, ys, names);
    if appended.Err? {
      return Err(appended.error);
    }
    r := MergeProfile(ds, interp, sqrt, xs, ys, profileName, profileId, names, appended.value, axis, Requested(ds, dataVars));
  }
}
