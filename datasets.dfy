/**
 * Datasets as the profile code uses them: named variables holding series
 * along the profile, gridded fields, labels, ids or scalars, split into
 * coordinates and data variables; the errors the code can raise; and the
 * merge of a list of named arrays into one set of variables.
 */
module Datasets {
  import opened Numerics

  /** The values a variable holds. */
  datatype Column =
    | Series(values: seq<Option<real>>)         // one value per profile point
    | Field(grid: seq<seq<Option<real>>>)       // a gridded field over (y, x)
    | Labels(names: seq<string>)
    | Ids(ids: seq<int>)
    | Scalar(value: Option<real>)

  /** A dataset: its coordinates and its data variables, each by name. */
  datatype Dataset = Dataset(coords: map<string, Column>, data: map<string, Column>)

  /** A named array, as in a list of DataArrays handed to a merge. */
  datatype DataArray = DataArray(name: string, column: Column)

  /** The exceptions the modelled code raises. */
  datatype Error =
    | AssertionFailed
    | KeyError(key: string)
    | IndexError
    | ShapeError
    | TypeError
    | ValueError(token: string)
    | MergeError
    | MissingDimension(dim: string)

  datatype Result<+T> = Ok(value: T) | Err(error: Error)

  /** ds[name]: a data variable, or else a coordinate, of that name. */
  function Lookup(ds: Dataset, name: string): (r: Option<Column>)
    ensures r.Some? <==> name in ds.data || name in ds.coords
    ensures name in ds.data ==> r == Some(ds.data[name])
  {
    if name in ds.data then Some(ds.data[name])
    else if name in ds.coords then Some(ds.coords[name])
    else None
  }

  /** ds[name] = column: sets the data variable name and leaves everything else as it was. */
  function Assign(ds: Dataset, name: string, column: Column): (r: Dataset)
    ensures r.coords == ds.coords
    ensures r.data.Keys == ds.data.Keys + {name}
    ensures r.data[name] == column
    ensures forall k :: k in ds.data && k != name ==> r.data[k] == ds.data[k]
  {
    ds.(data := ds.data[name := column])
  }

  /** No two arrays of the list share a name but differ in value. */
  ghost predicate NoConflict(das: seq<DataArray>)
  {
    forall i, j :: 0 <= i < j < |das| && das[i].name == das[j].name ==> das[i].column == das[j].column
  }

  function Names(das: seq<DataArray>): set<string>
  {
    set i | 0 <= i < |das| :: das[i].name
  }

  /**
   * xr.merge of a list of named arrays: the variables of all of them; two
   * arrays with the same name and different values are a conflict.
   */
  function Merge(das: seq<DataArray>): Result<map<string, Column>>
  {
    if |das| == 0 then Ok(map[])
    else
      match Merge(das[..|das| - 1])
      case Err(e) => Err(e)
      case Ok(m) =>
        var a := das[|das| - 1];
        if a.name in m && m[a.name] != a.column then Err(MergeError) else Ok(m[a.name := a.column])
  }

  /** Keeping the last array of a list adds its name to the names of the rest. */
  lemma NamesSnoc(das: seq<DataArray>)
    requires |das| > 0
    ensures Names(das) == Names(das[..|das| - 1]) + {das[|das| - 1].name}
  {
    var init := das[..|das| - 1];
    forall k | k in Names(das) ensures k in Names(init) + {das[|das| - 1].name} {
      var i :| 0 <= i < |das| && das[i].name == k;
      if i < |init| { assert init[i].name == k; }
    }
    forall k | k in Names(init) ensures k in Names(das) {
      var i :| 0 <= i < |init| && init[i].name == k;
      assert das[i].name == k;
    }
  }

  /** The names of two lists put together are the names of each. */
  lemma NamesAppend(a: seq<DataArray>, b: seq<DataArray>)
    ensures Names(a + b) == Names(a) + Names(b)
  {
    var ab := a + b;
    forall k | k in Names(ab) ensures k in Names(a) + Names(b) {
      var i :| 0 <= i < |ab| && ab[i].name == k;
      if i < |a| { assert ab[i] == a[i]; } else { assert ab[i] == b[i - |a|]; }
    }
    forall k | k in Names(a) ensures k in Names(ab) {
      var i :| 0 <= i < |a| && a[i].name == k;
      assert ab[i] == a[i];
    }
    forall k | k in Names(b) ensures k in Names(ab) {
      var i :| 0 <= i < |b| && b[i].name == k;
      assert ab[|a| + i] == b[i];
    }
  }

  /**
   * A successful merge holds one variable per name, with the value every
   * array of that name has, so no two arrays conflict; a failed one is a
   * merge conflict.
   */
  lemma {:induction false} MergeSound(das: seq<DataArray>)
    ensures Merge(das).Ok? ==> NoConflict(das)
    ensures Merge(das).Ok? ==> Merge(das).value.Keys == Names(das)
    ensures Merge(das).Ok? ==> forall i :: 0 <= i < |das| ==> Merge(das).value[das[i].name] == das[i].column
    ensures Merge(das).Err? ==> Merge(das).error == MergeError
  {
    if |das| > 0 {
      var init := das[..|das| - 1];
      var a := das[|das| - 1];
      MergeSound(init);
      if Merge(das).Ok? {
        var m := Merge(init).value;
        assert Merge(das).value == m[a.name := a.column];
        NamesSnoc(das);
        forall i | 0 <= i < |das| ensures Merge(das).value[das[i].name] == das[i].column {
          if i < |init| { assert init[i] == das[i]; }
        }
        forall i, j | 0 <= i < j < |das| && das[i].name == das[j].name
          ensures das[i].column == das[j].column
        {
          assert Merge(das).value[das[i].name] == das[i].column;
          assert Merge(das).value[das[j].name] == das[j].column;
        }
      }
    }
  }

  /** Arrays that do not conflict always merge. */
  lemma {:induction false} MergeComplete(das: seq<DataArray>)
    requires NoConflict(das)
    ensures Merge(das).Ok?
  {
    if |das| > 0 {
      var init := das[..|das| - 1];
      var a := das[|das| - 1];
      assert NoConflict(init) by {
        forall i, j | 0 <= i < j < |init| && init[i].name == init[j].name
          ensures init[i].column == init[j].column
        {
          assert init[i] == das[i] && init[j] == das[j];
        }
      }
      MergeComplete(init);
      MergeSound(init);
      var m := Merge(init).value;
      if a.name in m {
        var i :| 0 <= i < |init| && init[i].name == a.name;
        assert das[i] == init[i];
        assert m[a.name] == a.column;
      }
    }
  }
}
