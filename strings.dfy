/**
 * The two string operations the authentication gate relies on:
 * `String.prototype.startsWith` and `String.prototype.split(" ")`.
 */
module Strings {

  import opened Wrappers

  /** `s.startsWith(prefix)`. */
  predicate StartsWith(s: string, prefix: string)
  {
    |prefix| <= |s| && s[..|prefix|] == prefix
  }

  /**
   * `s.split(" ")`: the fields between single spaces, empty fields kept,
   * so `"".split(" ")` is `[""]` and `"a  b".split(" ")` is `["a", "", "b"]`.
   */
  function Split(s: string): (fields: seq<string>)
    ensures |fields| >= 1
    ensures forall i :: 0 <= i < |fields| ==> ' ' !in fields[i]
    decreases |s|
  {
    if s == [] then [""]
    else
      var rest := Split(s[1..]);
      if s[0] == ' ' then [""] + rest
      else [[s[0]] + rest[0]] + rest[1..]
  }

  /** `fields.join(" ")`, the inverse of `Split`. */
  function Join(fields: seq<string>): string
    requires |fields| >= 1
    decreases |fields|
  {
    if |fields| == 1 then fields[0] else fields[0] + " " + Join(fields[1..])
  }

  /** `s.split(" ")[i]`, `None` when the index is past the last field (JavaScript's `undefined`). */
  function Field(s: string, i: nat): (f: Option<string>)
    ensures f.Some? ==> ' ' !in f.value
    ensures f.Some? <==> i < |Split(s)|
  {
    var fields := Split(s);
    if i < |fields| then Some(fields[i]) else None
  }

  /** Prepending a non-space character extends the first field only. */
  lemma {:induction false} JoinConsFirst(c: char, fields: seq<string>)
    requires |fields| >= 1
    ensures Join([[c] + fields[0]] + fields[1..]) == [c] + Join(fields)
  {
    var g := [[c] + fields[0]] + fields[1..];
    assert g[1..] == fields[1..];
    if |fields| > 1 {
      assert [c] + fields[0] + " " + Join(fields[1..]) == [c] + (fields[0] + " " + Join(fields[1..]));
    }
  }

  /** Joining the fields of a split gives back the string. */
  lemma {:induction false} JoinSplit(s: string)
    ensures Join(Split(s)) == s
    decreases |s|
  {
    if s != [] {
      var rest := Split(s[1..]);
      JoinSplit(s[1..]);
      if s[0] == ' ' {
        assert ([""] + rest)[1..] == rest;
        assert Join([""] + rest) == "" + " " + Join(rest);
      } else {
        JoinConsFirst(s[0], rest);
      }
      assert s == [s[0]] + s[1..];
    }
  }

  /** A string without spaces is a single field. */
  lemma {:induction false} SplitNoSpace(p: string)
    requires ' ' !in p
    ensures Split(p) == [p]
    decreases |p|
  {
    if p != [] {
      assert ' ' !in p[1..] by { assert forall k :: 0 <= k < |p[1..]| ==> p[1..][k] == p[k + 1]; }
      SplitNoSpace(p[1..]);
      assert p == [p[0]] + p[1..];
    }
  }

  /** A space after a space-free prefix ends the first field there. */
  lemma {:induction false} SplitAfterField(p: string, rest: string)
    requires ' ' !in p
    ensures Split(p + " " + rest) == [p] + Split(rest)
    decreases |p|
  {
    var s := p + " " + rest;
    if p == [] {
      assert s == " " + rest;
      assert s[1..] == rest;
    } else {
      assert ' ' !in p[1..] by { assert forall k :: 0 <= k < |p[1..]| ==> p[1..][k] == p[k + 1]; }
      SplitAfterField(p[1..], rest);
      assert s[1..] == p[1..] + " " + rest;
      assert s[0] == p[0];
      assert [p[0]] + p[1..] == p;
    }
  }

  /** Splitting a join of space-free fields gives back the fields. */
  lemma {:induction false} SplitJoin(fields: seq<string>)
    requires |fields| >= 1
    requires forall i :: 0 <= i < |fields| ==> ' ' !in fields[i]
    ensures Split(Join(fields)) == fields
    decreases |fields|
  {
    if |fields| == 1 {
      SplitNoSpace(fields[0]);
    } else {
      SplitJoin(fields[1..]);
      SplitAfterField(fields[0], Join(fields[1..]));
      assert [fields[0]] + fields[1..] == fields;
    }
  }

  /** `(p + " " + t).split(" ")[1]` and `(p + " " + t + " " + rest).split(" ")[1]` are `t`. */
  lemma SecondField(p: string, t: string, rest: string)
    requires ' ' !in p && ' ' !in t
    ensures Field(p + " " + t, 1) == Some(t)
    ensures Field(p + " " + t + " " + rest, 1) == Some(t)
  {
    SplitAfterField(p, t);
    SplitNoSpace(t);
    SplitAfterField(p, t + " " + rest);
    SplitAfterField(t, rest);
    assert p + " " + t + " " + rest == p + " " + (t + " " + rest);
  }

  /** A string without spaces has no second field. */
  lemma NoSecondField(s: string)
    requires ' ' !in s
    ensures Field(s, 1) == None
  {
    SplitNoSpace(s);
  }
}
