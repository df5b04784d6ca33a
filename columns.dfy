/**
  Normalisation of census column names (`limpiar_nombres_columnas`): upper-case,
  strip surrounding whitespace, fold accents to ASCII, and rename a first column
  that merely contains "ENTIDAD" (a byte-order mark or quote around it) to
  "ENTIDAD" when no column is called that exactly.

  Python's `str.upper` and `str.strip` are modelled on ASCII; the Unicode
  NFKD-and-drop-non-ASCII fold is a parameter `fold`.
 */
module Columns {
  import opened Util

  const Entidad := "ENTIDAD"

  /** ASCII whitespace as Python's `str.isspace` sees it. */
  predicate IsSpace(c: char)
  {
    c == ' ' || 9 <= c as int <= 13 || 28 <= c as int <= 31
  }

  predicate IsLowerAscii(c: char)
  {
    'a' <= c <= 'z'
  }

  function UpperChar(c: char): char
  {
    if IsLowerAscii(c) then (c as int - 32) as char else c
  }

  /** `str.upper`, on ASCII letters. */
  function Upper(s: string): string
  {
    seq(|s|, i requires 0 <= i < |s| => UpperChar(s[i]))
  }

  /** Upper-casing leaves no lower-case ASCII letter, keeps the length, and is idempotent. */
  lemma UpperNormalises(s: string)
    ensures |Upper(s)| == |s|
    ensures forall i :: 0 <= i < |s| ==> !IsLowerAscii(Upper(s)[i])
    ensures Upper(Upper(s)) == Upper(s)
  {
  }

  /** Number of whitespace characters before the first non-space. */
  function LeadingSpaces(s: string): (n: nat)
    ensures n <= |s|
    ensures forall k :: 0 <= k < n ==> IsSpace(s[k])
    ensures n < |s| ==> !IsSpace(s[n])
  {
    if |s| > 0 && IsSpace(s[0]) then 1 + LeadingSpaces(s[1..]) else 0
  }

  /** Number of whitespace characters after the last non-space. */
  function TrailingSpaces(s: string): (n: nat)
    ensures n <= |s|
    ensures forall k :: |s| - n <= k < |s| ==> IsSpace(s[k])
    ensures n < |s| ==> !IsSpace(s[|s| - 1 - n])
  {
    if |s| > 0 && IsSpace(s[|s| - 1]) then 1 + TrailingSpaces(s[..|s| - 1]) else 0
  }

  /** `str.strip()`. */
  function Strip(s: string): string
  {
    var t := s[LeadingSpaces(s)..];
    t[..|t| - TrailingSpaces(t)]
  }

  /** Stripping removes exactly a run of spaces on each side: the result is a slice of
      the input, everything cut away is whitespace, and the result neither starts
      nor ends with whitespace. */
  lemma StripTrims(s: string)
    ensures exists i, j :: (0 <= i <= j <= |s| && Strip(s) == s[i..j]
      && (forall k :: 0 <= k < i ==> IsSpace(s[k]))
      && (forall k :: j <= k < |s| ==> IsSpace(s[k])))
    ensures Strip(s) != [] ==> !IsSpace(Strip(s)[0]) && !IsSpace(Strip(s)[|Strip(s)| - 1])
  {
    var i := LeadingSpaces(s);
    var t := s[i..];
    var j := i + |t| - TrailingSpaces(t);
    assert Strip(s) == s[i..j];
    forall k | j <= k < |s| ensures IsSpace(s[k]) {
      assert s[k] == t[k - i];
    }
  }

  /** Stripping twice is stripping once. */
  lemma StripIdempotent(s: string)
    ensures Strip(Strip(s)) == Strip(s)
  {
    StripTrims(s);
    var r := Strip(s);
    if r != [] {
      assert LeadingSpaces(r) == 0;
      assert TrailingSpaces(r) == 0;
    }
  }

  /** The name a column gets from the upper/strip pass and the accent fold. */
  function CleanName(col: string, fold: string -> string): string
  {
    fold(Strip(Upper(col)))
  }

  /** The header after the upper/strip pass and the fold, before any renaming. */
  function Cleaned(cols: seq<string>, fold: string -> string): (r: seq<string>)
    ensures |r| == |cols|
    ensures forall i :: 0 <= i < |cols| ==> r[i] == CleanName(cols[i], fold)
  {
    seq(|cols|, i requires 0 <= i < |cols| => CleanName(cols[i], fold))
  }

  /** `limpiar_nombres_columnas` on the header: every name is normalised in order;
      if no name is then exactly "ENTIDAD" but the first one contains it, every
      column carrying the first column's name is renamed "ENTIDAD" (pandas
      `rename` with a name-keyed mapping). Afterwards "ENTIDAD" is a column
      exactly when it already was one or the first cleaned name contains it. */
  method CleanColumnNames(cols: seq<string>, fold: string -> string) returns (r: seq<string>)
    ensures |r| == |cols|
    ensures var c := Cleaned(cols, fold);
      if Entidad !in c && |c| > 0 && Contains(c[0], Entidad) then
        forall i :: 0 <= i < |r| ==> r[i] == (if c[i] == c[0] then Entidad else c[i])
      else
        r == c
    ensures var c := Cleaned(cols, fold);
      Entidad in r <==> Entidad in c || (|c| > 0 && Contains(c[0], Entidad))
  {
    var upper := seq(|cols|, i requires 0 <= i < |cols| => Strip(Upper(cols[i])));
    var cleaned: seq<string> := [];
    for i := 0 to |upper|
      invariant |cleaned| == i
      invariant forall k :: 0 <= k < i ==> cleaned[k] == CleanName(cols[k], fold)
    {
      cleaned := cleaned + [fold(upper[i])];
    }
    assert cleaned == Cleaned(cols, fold);
    r := cleaned;
    if Entidad !in cleaned && |cleaned| > 0 && Contains(cleaned[0], Entidad) {
      var first := cleaned[0];
      r := seq(|cleaned|, i requires 0 <= i < |cleaned| =>
                 if cleaned[i] == first then Entidad else cleaned[i]);
      assert r[0] == Entidad;
    }
  }
}
