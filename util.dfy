/**
  Shared vocabulary of the scoring pipeline: failure-carrying results, the
  pandas `clip(0, 1)` used on every index, and the Python string and list
  operations (`startswith`, substring `in`, boolean-mask filtering) whose
  exact meaning the engine depends on.
 */
module Util {

  datatype Option<T> = None | Some(value: T)

  datatype Result<T, E> = Ok(value: T) | Err(error: E)

  /** What a missing DataFrame column raises (`KeyError`). */
  datatype Error = MissingColumn(name: string)

  /** An optional input layer: no path found, a path whose read raised, or the data. */
  datatype Source<T> = Absent | Unreadable | Loaded(data: T)

  /** One census row as read from CSV (`dtype=str`): column name to cell text. */
  type Row = map<string, string>

  /** A DataFrame of text cells: its column set and its rows in order. */
  datatype Table = Table(header: set<string>, rows: seq<Row>)

  /** Every row of a DataFrame has exactly the frame's columns. */
  ghost predicate Rectangular(t: Table)
  {
    forall i :: 0 <= i < |t.rows| ==> t.rows[i].Keys == t.header
  }

  /** pandas `Series.clip(0, 1)` on one value. */
  function Clip01(x: real): (r: real)
    ensures 0.0 <= r <= 1.0
    ensures 0.0 <= x <= 1.0 ==> r == x
  {
    if x < 0.0 then 0.0 else if x > 1.0 then 1.0 else x
  }

  /** Python `s.startswith(p)`. */
  predicate StartsWith(s: string, p: string)
  {
    |p| <= |s| && s[..|p|] == p
  }

  /** Python `s[0:n]`: slicing past the end yields the whole string. */
  function Prefix(s: string, n: nat): (r: string)
    ensures |r| == if n <= |s| then n else |s|
    ensures StartsWith(s, r)
  {
    if n <= |s| then s[..n] else s
  }

  /** Python `sub in s` on strings. */
  predicate Contains(s: string, sub: string)
  {
    exists k :: 0 <= k <= |s| - |sub| && StartsWith(s[k..], sub)
  }

  /** A witness position establishes a substring. */
  lemma ContainsAt(s: string, sub: string, k: nat)
    requires k + |sub| <= |s| && s[k..k + |sub|] == sub
    ensures Contains(s, sub)
  {
    assert s[k..][..|sub|] == s[k..k + |sub|];
    assert StartsWith(s[k..], sub);
  }

  /** A string cannot contain `sub` if it lacks one of the characters of `sub`. */
  lemma {:induction false} MissingCharRulesOut(s: string, sub: string, j: nat)
    requires j < |sub| && sub[j] !in s
    ensures !Contains(s, sub)
  {
    forall k | 0 <= k <= |s| - |sub|
      ensures !StartsWith(s[k..], sub)
    {
      assert s[k + j] in s;
      assert s[k..][..|sub|][j] == s[k + j];
    }
  }

  /** Sum of a column of reals (pandas `Series.sum()`). */
  function Sum(xs: seq<real>): real
  {
    if xs == [] then 0.0 else Sum(xs[..|xs| - 1]) + xs[|xs| - 1]
  }

  /** Sum of the element-wise product of two columns, `(a * b).sum()`. */
  function SumProduct(a: seq<real>, b: seq<real>): real
    requires |a| == |b|
  {
    if a == [] then 0.0
    else SumProduct(a[..|a| - 1], b[..|b| - 1]) + a[|a| - 1] * b[|b| - 1]
  }
}
