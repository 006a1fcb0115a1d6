/**
 * The argparse action of the profile script that turns `key=value`
 * tokens into a dictionary stored on the namespace under the action's
 * destination.
 */
module ComputeProfiles {
  import opened Numerics
  import opened Datasets

  /** The number of occurrences of c in s. */
  function Count(s: string, c: char): nat
  {
    if |s| == 0 then 0 else Count(s[..|s| - 1], c) + (if s[|s| - 1] == c then 1 else 0)
  }

  /** str.split(sep) for a one-character separator: the maximal pieces between separators. */
  function Split(s: string, sep: char): (parts: seq<string>)
    ensures |parts| == Count(s, sep) + 1
  {
    if |s| == 0 then [""]
    else
      var init := Split(s[..|s| - 1], sep);
      var c := s[|s| - 1];
      if c == sep then init + [""] else Extend(init, [c])
  }

  /** The pieces with text appended to the last one. */
  function Extend(parts: seq<string>, x: string): (r: seq<string>)
    requires |parts| > 0
    ensures |r| == |parts|
  {
    parts[..|parts| - 1] + [parts[|parts| - 1] + x]
  }

  lemma ExtendTwice(parts: seq<string>, x: string, y: string)
    requires |parts| > 0
    ensures Extend(Extend(parts, x), y) == Extend(parts, x + y)
  {
    var q := Extend(parts, x);
    assert q[..|q| - 1] == parts[..|parts| - 1];
    assert q[|q| - 1] + y == parts[|parts| - 1] + (x + y);
  }

  /** sep.join(parts), the inverse of Split. */
  function Join(parts: seq<string>, sep: char): string
    requires |parts| > 0
  {
    if |parts| == 1 then parts[0]
    else Join(parts[..|parts| - 1], sep) + [sep] + parts[|parts| - 1]
  }

  /** Joining the pieces of a split gives the string back. */
  lemma {:induction false} JoinSplit(s: string, sep: char)
    ensures Join(Split(s, sep), sep) == s
  {
    if |s| > 0 {
      var prefix := s[..|s| - 1];
      var c := s[|s| - 1];
      assert s == prefix + [c];
      var init := Split(prefix, sep);
      JoinSplit(prefix, sep);
      SplitSnoc(prefix, c, sep);
      if c == sep {
        JoinSnoc(init, "", sep);
      } else {
        JoinExtend(init, [c], sep);
      }
    }
  }

  /** Joining one more piece puts a separator before it. */
  lemma JoinSnoc(parts: seq<string>, x: string, sep: char)
    requires |parts| > 0
    ensures Join(parts + [x], sep) == Join(parts, sep) + [sep] + x
  {
    assert (parts + [x])[..|parts|] == parts;
  }

  /** Extending the last piece extends the joined string. */
  lemma JoinExtend(parts: seq<string>, x: string, sep: char)
    requires |parts| > 0
    ensures Join(Extend(parts, x), sep) == Join(parts, sep) + x
  {
    var e := Extend(parts, x);
    if |parts| > 1 {
      var init := parts[..|parts| - 1];
      assert e == init + [parts[|parts| - 1] + x];
      assert parts == init + [parts[|parts| - 1]];
      JoinSnoc(init, parts[|parts| - 1] + x, sep);
      JoinSnoc(init, parts[|parts| - 1], sep);
    }
  }

  /** No piece of a split holds the separator. */
  lemma {:induction false} SplitPiecesLackSeparator(s: string, sep: char)
    ensures forall i :: 0 <= i < |Split(s, sep)| ==> sep !in Split(s, sep)[i]
  {
    if |s| > 0 {
      SplitPiecesLackSeparator(s[..|s| - 1], sep);
    }
  }

  /** Split of a string with one more character, in terms of the split of the string. */
  lemma SplitSnoc(s: string, c: char, sep: char)
    ensures Split(s + [c], sep) == if c == sep then Split(s, sep) + [""] else Extend(Split(s, sep), [c])
  {
    assert (s + [c])[..|s|] == s;
  }

  /** Appending text without a separator extends the last piece only. */
  lemma {:induction false} SplitAppend(a: string, b: string, sep: char)
    requires sep !in b
    ensures Split(a + b, sep) == Extend(Split(a, sep), b)
  {
    var pa := Split(a, sep);
    if |b| == 0 {
      assert a + b == a;
      assert pa[|pa| - 1] + b == pa[|pa| - 1];
      assert pa[..|pa| - 1] + [pa[|pa| - 1]] == pa;
    } else {
      var b' := b[..|b| - 1];
      var c := b[|b| - 1];
      assert c != sep by { assert b[|b| - 1] in b; }
      assert sep !in b' by {
        forall i | 0 <= i < |b'| ensures b'[i] != sep { assert b'[i] == b[i]; }
      }
      SplitAppend(a, b', sep);
      SplitSnoc(a + b', c, sep);
      ExtendTwice(pa, b', [c]);
      assert b' + [c] == b;
      assert a + b == (a + b') + [c];
    }
  }

  /** A key and a value without '=' split back into exactly themselves. */
  lemma SplitPair(k: string, v: string)
    requires '=' !in k && '=' !in v
    ensures Split(k + "=" + v, '=') == [k, v]
  {
    SplitAppend("", k, '=');
    assert "" + k == k;
    SplitSnoc(k, '=', '=');
    SplitAppend(k + "=", v, '=');
    assert "" + v == v;
    assert [k, ""][..1] == [k];
  }

  /** `key, value = token.split("=")`: the unpack needs exactly two pieces. */
  function ParseToken(t: string): Result<(string, string)>
  {
    var parts := Split(t, '=');
    if |parts| != 2 then Err(ValueError(t)) else Ok((parts[0], parts[1]))
  }

  /**
   * A token parses exactly when it holds one '='; the key and the value
   * are then the raw text on either side of it, and every key and value
   * without '=' written as `key=value` parses back to itself.
   */
  lemma ParseTokenMeaning(t: string)
    ensures ParseToken(t).Ok? <==> Count(t, '=') == 1
    ensures ParseToken(t).Err? ==> ParseToken(t).error == ValueError(t)
    ensures ParseToken(t).Ok? ==> var (k, v) := ParseToken(t).value;
              '=' !in k && '=' !in v && t == k + "=" + v
  {
    JoinSplit(t, '=');
    SplitPiecesLackSeparator(t, '=');
    var parts := Split(t, '=');
    if |parts| == 2 {
      assert Join(parts, '=') == parts[0] + ['='] + parts[1];
    }
  }

  lemma ParseTokenOfPair(k: string, v: string)
    requires '=' !in k && '=' !in v
    ensures ParseToken(k + "=" + v) == Ok((k, v))
  {
    SplitPair(k, v);
  }

  /** What the action leaves under its destination, and the error that stopped it, if any. */
  datatype Parsed = Parsed(dict: map<string, string>, failure: Option<Error>)

  /** The destination dictionary after the tokens, in order; the first bad token stops the loop. */
  function Collect(values: seq<string>): Parsed
  {
    if |values| == 0 then Parsed(map[], None)
    else
      var before := Collect(values[..|values| - 1]);
      if before.failure.Some? then before
      else match ParseToken(values[|values| - 1])
        case Err(e) => Parsed(before.dict, Some(e))
        case Ok((k, v)) => Parsed(before.dict[k := v], None)
  }

  /** One more token after a clean prefix: a good one is stored under its key, a bad one raises. */
  lemma CollectStep(values: seq<string>)
    requires |values| > 0
    ensures var before := Collect(values[..|values| - 1]);
            var t := values[|values| - 1];
            before.failure.None? ==>
              match ParseToken(t)
              case Ok((k, v)) => Collect(values) == Parsed(before.dict[k := v], None)
              case Err(e) => Collect(values) == Parsed(before.dict, Some(e))
  {
  }

  /** Once a prefix has failed, the later tokens change nothing. */
  lemma {:induction false} CollectKeepsFailure(values: seq<string>, n: nat)
    requires n <= |values| && Collect(values[..n]).failure.Some?
    ensures Collect(values) == Collect(values[..n])
  {
    if n < |values| {
      var init := values[..|values| - 1];
      assert init[..n] == values[..n];
      CollectKeepsFailure(init, n);
    } else {
      assert values[..n] == values;
    }
  }

  /** The action succeeds exactly when every token has one '='. */
  lemma {:induction false} CollectSucceedsIffAllParse(values: seq<string>)
    ensures Collect(values).failure.None? <==> forall i :: 0 <= i < |values| ==> ParseToken(values[i]).Ok?
  {
    if |values| > 0 {
      var init := values[..|values| - 1];
      CollectSucceedsIffAllParse(init);
      assert forall i :: 0 <= i < |init| ==> init[i] == values[i];
    }
  }

  /** The first bad token raises a ValueError naming it, after the tokens before it are stored. */
  lemma CollectStopsAtFirstBadToken(values: seq<string>, i: nat)
    requires i < |values| && ParseToken(values[i]).Err?
    requires forall j :: 0 <= j < i ==> ParseToken(values[j]).Ok?
    ensures Collect(values) == Parsed(Collect(values[..i]).dict, Some(ValueError(values[i])))
  {
    var prefix := values[..i];
    var upto := values[..i + 1];
    assert Collect(prefix).failure.None? by {
      assert forall j :: 0 <= j < |prefix| ==> prefix[j] == values[j];
      CollectSucceedsIffAllParse(prefix);
    }
    assert ParseToken(values[i]) == Err(ValueError(values[i])) by {
      ParseTokenMeaning(values[i]);
    }
    assert upto[..|upto| - 1] == prefix && upto[|upto| - 1] == values[i];
    assert Collect(upto) == Parsed(Collect(prefix).dict, Some(ValueError(values[i])));
    CollectKeepsFailure(values, i + 1);
  }

  function Key(t: string): string
    requires ParseToken(t).Ok?
  {
    ParseToken(t).value.0
  }

  function Value(t: string): string
    requires ParseToken(t).Ok?
  {
    ParseToken(t).value.1
  }

  /** When every token parses, the keys are exactly the keys of the tokens. */
  lemma {:induction false} CollectKeys(values: seq<string>)
    requires forall i :: 0 <= i < |values| ==> ParseToken(values[i]).Ok?
    ensures Collect(values).failure.None?
    ensures forall k :: k in Collect(values).dict <==> exists i :: 0 <= i < |values| && Key(values[i]) == k
  {
    if |values| > 0 {
      var init := values[..|values| - 1];
      var last := values[|values| - 1];
      assert forall i :: 0 <= i < |init| ==> init[i] == values[i];
      CollectKeys(init);
      var d := Collect(values).dict;
      assert d == Collect(init).dict[Key(last) := Value(last)];
      forall k ensures k in d <==> exists i :: 0 <= i < |values| && Key(values[i]) == k {
        if k in Collect(init).dict {
          var i :| 0 <= i < |init| && Key(init[i]) == k;
          assert values[i] == init[i];
        }
        if exists i :: 0 <= i < |values| && Key(values[i]) == k {
          var i :| 0 <= i < |values| && Key(values[i]) == k;
          if i < |init| {
            assert init[i] == values[i];
          }
        }
      }
    }
  }

  /** When every token parses, each key holds the raw value of its last token. */
  lemma {:induction false} CollectLastOccurrenceWins(values: seq<string>, i: nat)
    requires forall j :: 0 <= j < |values| ==> ParseToken(values[j]).Ok?
    requires i < |values|
    requires forall j :: i < j < |values| ==> Key(values[j]) != Key(values[i])
    ensures Collect(values).failure.None?
    ensures Key(values[i]) in Collect(values).dict && Collect(values).dict[Key(values[i])] == Value(values[i])
  {
    var init := values[..|values| - 1];
    var last := values[|values| - 1];
    assert forall j :: 0 <= j < |init| ==> init[j] == values[j];
    CollectSucceedsIffAllParse(init);
    assert Collect(values).dict == Collect(init).dict[Key(last) := Value(last)];
    if i < |init| {
      CollectLastOccurrenceWins(init, i);
      assert Key(last) != Key(values[i]);
    }
  }

  /** The example in the action's documentation. */
  lemma DocumentedExample()
    ensures Collect(["key1=value1", "key2=value2"]) == Parsed(map["key1" := "value1", "key2" := "value2"], None)
  {
    var values := ["key1=value1", "key2=value2"];
    assert values[0] == "key1" + "=" + "value1";
    assert values[1] == "key2" + "=" + "value2";
    ParseTokenOfPair("key1", "value1");
    ParseTokenOfPair("key2", "value2");
    assert values[..1][..0] == [];
    assert values[..1] == ["key1=value1"];
  }

  /** An argparse namespace: each destination holds the dictionary parsed for it. */
  class Namespace {
    var attrs: map<string, map<string, string>>

    constructor()
      ensures attrs == map[]
    {
      attrs := map[];
    }
  }

  /** The action, bound to the destination argparse gives it. */
  class ParseKwargs {
    const dest: string

    constructor(dest: string)
      ensures this.dest == dest
    {
      this.dest := dest;
    }

    /**
     * __call__: the destination is reset to an empty dictionary, then each
     * token's value is stored under its key; a bad token raises and leaves
     * the pairs before it in place.
     */
    method Call(namespace: Namespace, values: seq<string>) returns (failure: Option<Error>)
      modifies namespace
      ensures namespace.attrs == old(namespace.attrs)[dest := Collect(values).dict]
      ensures failure == Collect(values).failure
    {
      namespace.attrs := namespace.attrs[dest := map[]];
      for i := 0 to |values|
        invariant namespace.attrs == old(namespace.attrs)[dest := Collect(values[..i]).dict]
        invariant Collect(values[..i]).failure.None?
      {
        CollectStep(values[..i + 1]);
        assert values[..i + 1][..i] == values[..i] && values[..i + 1][i] == values[i];
        var parsed := ParseToken(values[i]);
        if parsed.Err? {
          CollectKeepsFailure(values, i + 1);
          return Some(parsed.error);
        }
        var (key, value) := parsed.value;
        namespace.attrs := namespace.attrs[dest := namespace.attrs[dest][key := value]];
      }
      assert values[..|values|] == values;
      failure := None;
    }
  }
}
