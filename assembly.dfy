/**
  Assembly of one layer (`procesar_geo`): the census rows of the target
  municipality are selected and given their geostatistical key CVEGEO, scored
  by the indicator engine, joined to the map's polygons on that key (inner
  join), and projected to 2025 with the layer's growth factor.

  Census rows arrive with cleaned column names (see module Columns). The
  polygons are given as (CVEGEO, geometry) pairs over an abstract geometry type.
 */
module Assembly {
  import opened Util
  import opened Indicators

  /** Municipality the engine serves (Catemaco). */
  const Municipio := "032"

  /** Locality key of the municipal seat, already covered by the urban layer. */
  const LocCabecera := "0001"

  /** Population growth factors 2020 to 2025. */
  const FactorUrbano: real := 1.048
  const FactorRural: real := 1.012

  const Cvegeo := "CVEGEO"

  /** Rural locality keys that are dropped: totals, unspecified, and the seat. */
  const ExcludedLocalities: seq<string> := ["0000", "9998", "9999", LocCabecera]

  /** `tipo`: city blocks or rural localities. */
  datatype Layer = Urbano | Rural

  /** The columns selection and keying read, in the order the engine first indexes them. */
  function KeyColumns(layer: Layer): seq<string>
  {
    match layer
    case Urbano => ["MUN", "MZA", "ENTIDAD", "LOC", "AGEB"]
    case Rural => ["MUN", "LOC", "ENTIDAD"]
  }

  /** The columns the indicator engine indexes directly, in the order it reads them. */
  const ScoredColumns: seq<string> := ["P_15YMAS", "POBTOT", "TVIVPARHAB"]

  predicate HasColumns(r: Row, cols: seq<string>)
  {
    forall c :: c in cols ==> c in r
  }

  /** The first column of `cols` missing from `header`, as a KeyError reports it. */
  function FirstMissing(header: set<string>, cols: seq<string>): (m: Option<string>)
    ensures m.None? <==> forall c :: c in cols ==> c in header
    ensures m.Some? ==> exists k :: 0 <= k < |cols| && cols[k] == m.value && m.value !in header &&
                                    forall j :: 0 <= j < k ==> cols[j] in header
  {
    if cols == [] then None
    else if cols[0] !in header then Some(cols[0])
    else
      var m := FirstMissing(header, cols[1..]);
      if m.Some? then
        var k :| 0 <= k < |cols[1..]| && cols[1..][k] == m.value && m.value !in header &&
                 forall j :: 0 <= j < k ==> cols[1..][j] in header;
        assert cols[k + 1] == m.value;
        m
      else m
  }

  /** Reporting the first missing column of a concatenation: the first part is
      checked entirely before the second. */
  lemma {:induction false} FirstMissingAppend(header: set<string>, a: seq<string>, b: seq<string>)
    ensures FirstMissing(header, a + b) ==
      if FirstMissing(header, a).Some? then FirstMissing(header, a) else FirstMissing(header, b)
  {
    if a != [] {
      assert (a + b)[0] == a[0];
      assert (a + b)[1..] == a[1..] + b;
      FirstMissingAppend(header, a[1..], b);
    } else {
      assert a + b == b;
    }
  }

  /** The indicator engine's columns are reported in the order it reads them. */
  lemma FirstMissingScored(header: set<string>)
    ensures FirstMissing(header, ScoredColumns) ==
      if "P_15YMAS" !in header then Some("P_15YMAS")
      else if "POBTOT" !in header then Some("POBTOT")
      else if "TVIVPARHAB" !in header then Some("TVIVPARHAB")
      else None
  {
    assert ScoredColumns[1..] == ["POBTOT", "TVIVPARHAB"];
    assert ScoredColumns[1..][1..] == ["TVIVPARHAB"];
    assert ScoredColumns[1..][1..][1..] == [];
  }

  /** Whether a census row is kept: urban blocks of the municipality other than the
      locality totals (block "000"); rural localities of the municipality other than
      the excluded keys. */
  predicate Keep(layer: Layer, mun: string, r: Row)
    requires HasColumns(r, KeyColumns(layer))
  {
    match layer
    case Urbano => r["MUN"] == mun && r["MZA"] != "000"
    case Rural => r["MUN"] == mun && r["LOC"] !in ExcludedLocalities
  }

  /** CVEGEO: state, municipality, locality, then AGEB and block for urban rows. */
  function Key(layer: Layer, r: Row): string
    requires HasColumns(r, KeyColumns(layer))
  {
    match layer
    case Urbano => r["ENTIDAD"] + r["MUN"] + r["LOC"] + r["AGEB"] + r["MZA"]
    case Rural => r["ENTIDAD"] + r["MUN"] + r["LOC"]
  }

  /** The row with its CVEGEO column set. */
  function Keyed(layer: Layer, r: Row): Row
    requires HasColumns(r, KeyColumns(layer))
  {
    r[Cvegeo := Key(layer, r)]
  }

  /** The geographic filter and keying: the kept rows, in order, each with its key. */
  function Select(layer: Layer, mun: string, rows: seq<Row>): (r: seq<Row>)
    requires forall i :: 0 <= i < |rows| ==> HasColumns(rows[i], KeyColumns(layer))
    ensures |r| <= |rows|
  {
    if rows == [] then []
    else
      var last := rows[|rows| - 1];
      Select(layer, mun, rows[..|rows| - 1]) + (if Keep(layer, mun, last) then [Keyed(layer, last)] else [])
  }

  /** `x` is a kept row of `rows` with its key set. */
  predicate KeptKeyed(layer: Layer, mun: string, rows: seq<Row>, x: Row)
    requires forall i :: 0 <= i < |rows| ==> HasColumns(rows[i], KeyColumns(layer))
  {
    exists i :: 0 <= i < |rows| && Keep(layer, mun, rows[i]) && x == Keyed(layer, rows[i])
  }

  /** Every selected row is a kept row of the frame, keyed. */
  lemma {:induction false} SelectSound(layer: Layer, mun: string, rows: seq<Row>)
    requires forall i :: 0 <= i < |rows| ==> HasColumns(rows[i], KeyColumns(layer))
    ensures forall k :: 0 <= k < |Select(layer, mun, rows)| ==> KeptKeyed(layer, mun, rows, Select(layer, mun, rows)[k])
  {
    if rows != [] {
      var init := rows[..|rows| - 1];
      var s := Select(layer, mun, init);
      var last := rows[|rows| - 1];
      var r := Select(layer, mun, rows);
      assert r == s + (if Keep(layer, mun, last) then [Keyed(layer, last)] else []);
      SelectSound(layer, mun, init);
      forall k | 0 <= k < |r|
        ensures KeptKeyed(layer, mun, rows, r[k])
      {
        if k < |s| {
          assert KeptKeyed(layer, mun, init, s[k]);
          var i :| 0 <= i < |init| && Keep(layer, mun, init[i]) && s[k] == Keyed(layer, init[i]);
          assert rows[i] == init[i];
        } else {
          assert Keep(layer, mun, rows[|rows| - 1]) && r[k] == Keyed(layer, rows[|rows| - 1]);
        }
      }
    }
  }

  /** Every kept row of the frame is selected, keyed. */
  lemma {:induction false} SelectComplete(layer: Layer, mun: string, rows: seq<Row>)
    requires forall i :: 0 <= i < |rows| ==> HasColumns(rows[i], KeyColumns(layer))
    ensures forall i :: 0 <= i < |rows| && Keep(layer, mun, rows[i]) ==> Keyed(layer, rows[i]) in Select(layer, mun, rows)
  {
    if rows != [] {
      var init := rows[..|rows| - 1];
      SelectComplete(layer, mun, init);
      forall i | 0 <= i < |rows| && Keep(layer, mun, rows[i])
        ensures Keyed(layer, rows[i]) in Select(layer, mun, rows)
      {
        if i < |init| {
          assert rows[i] == init[i];
        }
      }
    }
  }

  /** The filter and keying step on a frame: a KeyError on the first key column the
      frame lacks; otherwise the kept rows, each with CVEGEO, every row still having
      exactly the frame's columns. */
  function SelectRows(t: Table, layer: Layer, mun: string): (r: Result<Table, Error>)
    requires Rectangular(t)
    ensures r.Err? <==> FirstMissing(t.header, KeyColumns(layer)).Some?
    ensures r.Err? ==> r.error == MissingColumn(FirstMissing(t.header, KeyColumns(layer)).value)
    ensures r.Ok? ==> r.value.header == t.header + {Cvegeo} && Rectangular(r.value)
  {
    var missing := FirstMissing(t.header, KeyColumns(layer));
    if missing.Some? then Err(MissingColumn(missing.value))
    else
      var rows := Select(layer, mun, t.rows);
      var out := Table(t.header + {Cvegeo}, rows);
      SelectSound(layer, mun, t.rows);
      assert forall k :: 0 <= k < |rows| ==> rows[k].Keys == out.header by {
        forall k | 0 <= k < |rows| ensures rows[k].Keys == out.header {
          assert KeptKeyed(layer, mun, t.rows, rows[k]);
          var i :| 0 <= i < |t.rows| && Keep(layer, mun, t.rows[i]) && rows[k] == Keyed(layer, t.rows[i]);
        }
      }
      Ok(out)
  }

  /** Urban keys with census widths (2 + 3 + 4 + 4 + 3 characters) split back into
      their five fields, so two such rows with the same key agree on every field. */
  lemma UrbanKeySplits(r: Row)
    requires HasColumns(r, KeyColumns(Urbano))
    requires |r["ENTIDAD"]| == 2 && |r["MUN"]| == 3 && |r["LOC"]| == 4 && |r["AGEB"]| == 4 && |r["MZA"]| == 3
    ensures |Key(Urbano, r)| == 16
    ensures Key(Urbano, r)[..2] == r["ENTIDAD"] && Key(Urbano, r)[2..5] == r["MUN"]
    ensures Key(Urbano, r)[5..9] == r["LOC"] && Key(Urbano, r)[9..13] == r["AGEB"]
    ensures Key(Urbano, r)[13..] == r["MZA"]
  {
    var k := Key(Urbano, r);
    assert k == r["ENTIDAD"] + r["MUN"] + r["LOC"] + r["AGEB"] + r["MZA"];
  }

  lemma UrbanKeyInjective(r1: Row, r2: Row)
    requires HasColumns(r1, KeyColumns(Urbano)) && HasColumns(r2, KeyColumns(Urbano))
    requires |r1["ENTIDAD"]| == 2 && |r1["MUN"]| == 3 && |r1["LOC"]| == 4 && |r1["AGEB"]| == 4 && |r1["MZA"]| == 3
    requires |r2["ENTIDAD"]| == 2 && |r2["MUN"]| == 3 && |r2["LOC"]| == 4 && |r2["AGEB"]| == 4 && |r2["MZA"]| == 3
    requires Key(Urbano, r1) == Key(Urbano, r2)
    ensures r1["ENTIDAD"] == r2["ENTIDAD"] && r1["MUN"] == r2["MUN"] && r1["LOC"] == r2["LOC"]
    ensures r1["AGEB"] == r2["AGEB"] && r1["MZA"] == r2["MZA"]
  {
    UrbanKeySplits(r1);
    UrbanKeySplits(r2);
  }

  /** The right-hand rows whose key is `k`, in order. */
  function Matching<B(==)>(k: string, right: seq<(string, B)>): (m: seq<B>)
    ensures |m| <= |right|
    ensures forall t :: 0 <= t < |m| ==> exists j :: 0 <= j < |right| && right[j] == (k, m[t])
    ensures forall j :: 0 <= j < |right| && right[j].0 == k ==> right[j].1 in m
  {
    if right == [] then []
    else
      var last := right[|right| - 1];
      var m := Matching(k, right[..|right| - 1]);
      assert forall j :: 0 <= j < |right| - 1 ==> right[..|right| - 1][j] == right[j];
      m + (if last.0 == k then [last.1] else [])
  }

  /** `left.merge(right, on=key, how='inner')`: for each left row in order, one row
      per matching right row, in right order. */
  function InnerJoin<A(==), B(==)>(left: seq<(string, A)>, right: seq<(string, B)>): seq<(string, A, B)>
  {
    if left == [] then []
    else
      var (k, a) := left[|left| - 1];
      var m := Matching(k, right);
      InnerJoin(left[..|left| - 1], right) + seq(|m|, j requires 0 <= j < |m| => (k, a, m[j]))
  }

  /** A joined row is exactly a left row and a right row with the same key; in
      particular the join keeps only keys present on both sides. */
  lemma {:induction false} InnerJoinMembers<A, B>(left: seq<(string, A)>, right: seq<(string, B)>)
    ensures forall x :: x in InnerJoin(left, right) <==>
      exists i, j :: 0 <= i < |left| && 0 <= j < |right| && left[i] == (x.0, x.1) && right[j] == (x.0, x.2)
  {
    if left != [] {
      var init := left[..|left| - 1];
      var (k, a) := left[|left| - 1];
      var m := Matching(k, right);
      var tail := seq(|m|, j requires 0 <= j < |m| => (k, a, m[j]));
      InnerJoinMembers(init, right);
      assert InnerJoin(left, right) == InnerJoin(init, right) + tail;
      forall x
        ensures x in InnerJoin(left, right) <==>
          exists i, j :: 0 <= i < |left| && 0 <= j < |right| && left[i] == (x.0, x.1) && right[j] == (x.0, x.2)
      {
        MatchedTail(k, a, right, x);
        if exists i, j :: 0 <= i < |left| && 0 <= j < |right| && left[i] == (x.0, x.1) && right[j] == (x.0, x.2) {
          var i, j :| 0 <= i < |left| && 0 <= j < |right| && left[i] == (x.0, x.1) && right[j] == (x.0, x.2);
          if i < |left| - 1 {
            assert init[i] == left[i];
          }
        }
      }
    }
  }

  /** The rows one left row contributes to the join: its key and value with each
      right value under the same key. */
  lemma MatchedTail<A, B>(k: string, a: A, right: seq<(string, B)>, x: (string, A, B))
    ensures var m := Matching(k, right);
      x in seq(|m|, j requires 0 <= j < |m| => (k, a, m[j])) <==>
      x.0 == k && x.1 == a && exists j :: 0 <= j < |right| && right[j] == (k, x.2)
  {
    var m := Matching(k, right);
    var tail := seq(|m|, j requires 0 <= j < |m| => (k, a, m[j]));
    if x in tail {
      var t :| 0 <= t < |m| && tail[t] == x;
      var j :| 0 <= j < |right| && right[j] == (k, m[t]);
    }
    if x.0 == k && x.1 == a && exists j :: 0 <= j < |right| && right[j] == (k, x.2) {
      var j :| 0 <= j < |right| && right[j] == (k, x.2);
      var t :| 0 <= t < |m| && m[t] == x.2;
      assert tail[t] == x;
    }
  }

  /** With keys unique on the right, every left row yields at most one joined row. */
  lemma {:induction false} UniqueRightJoinShrinks<A, B>(left: seq<(string, A)>, right: seq<(string, B)>)
    requires forall j1, j2 :: 0 <= j1 < j2 < |right| ==> right[j1].0 != right[j2].0
    ensures |InnerJoin(left, right)| <= |left|
  {
    if left != [] {
      UniqueRightJoinShrinks(left[..|left| - 1], right);
      UniqueKeyMatchesOnce(left[|left| - 1].0, right);
    }
  }

  lemma {:induction false} UniqueKeyMatchesOnce<B>(k: string, right: seq<(string, B)>)
    requires forall j1, j2 :: 0 <= j1 < j2 < |right| ==> right[j1].0 != right[j2].0
    ensures |Matching(k, right)| <= 1
  {
    if right != [] {
      var init := right[..|right| - 1];
      UniqueKeyMatchesOnce(k, init);
      if right[|right| - 1].0 == k {
        assert forall j :: 0 <= j < |init| ==> init[j].0 != k;
        AbsentKeyMatchesNothing(k, init);
      }
    }
  }

  lemma AbsentKeyMatchesNothing<B>(k: string, right: seq<(string, B)>)
    requires forall j :: 0 <= j < |right| ==> right[j].0 != k
    ensures Matching(k, right) == []
  {
    if Matching(k, right) != [] {
      var m := Matching(k, right);
      var j :| 0 <= j < |right| && right[j] == (k, m[0]);
    }
  }

  /** Some right-hand row carries key `k`. */
  predicate HasKey<B>(k: string, right: seq<(string, B)>)
  {
    exists j :: 0 <= j < |right| && right[j].0 == k
  }

  /** With keys unique on the right, a key matches exactly once when some right row
      carries it, and never otherwise. */
  lemma MatchingCount<B>(k: string, right: seq<(string, B)>)
    requires forall j1, j2 :: 0 <= j1 < j2 < |right| ==> right[j1].0 != right[j2].0
    ensures |Matching(k, right)| == if HasKey(k, right) then 1 else 0
  {
    UniqueKeyMatchesOnce(k, right);
    if HasKey(k, right) {
      var j :| 0 <= j < |right| && right[j].0 == k;
      assert right[j].1 in Matching(k, right);
    } else {
      AbsentKeyMatchesNothing(k, right);
    }
  }

  /** The number of left rows whose key some right row carries. */
  function CountMatched<A, B>(left: seq<(string, A)>, right: seq<(string, B)>): nat
  {
    if left == [] then 0
    else CountMatched(left[..|left| - 1], right) + (if HasKey(left[|left| - 1].0, right) then 1 else 0)
  }

  /** With keys unique on the right, the join has exactly one row per left row whose
      key the right side carries: none is duplicated and none with a match is lost. */
  lemma {:induction false} UniqueRightJoinCount<A, B>(left: seq<(string, A)>, right: seq<(string, B)>)
    requires forall j1, j2 :: 0 <= j1 < j2 < |right| ==> right[j1].0 != right[j2].0
    ensures |InnerJoin(left, right)| == CountMatched(left, right)
  {
    if left != [] {
      UniqueRightJoinCount(left[..|left| - 1], right);
      MatchingCount(left[|left| - 1].0, right);
    }
  }

  /** The vulnerable groups of `GRUPOS`, one value each: total, women, men,
      indigenous-language speakers, Afro-descendants, people with a disability,
      female-headed households, children 0-14, adults 60 and over. */
  datatype Groups = Groups(tot: real, fem: real, mas: real, ind: real, afro: real,
                           disc: real, jefas: real, ninos: real, mayores: real)
  {
    function Scaled(f: real): Groups
    {
      Groups(tot * f, fem * f, mas * f, ind * f, afro * f, disc * f, jefas * f, ninos * f, mayores * f)
    }

    predicate NonNegative()
    {
      0.0 <= tot && 0.0 <= fem && 0.0 <= mas && 0.0 <= ind && 0.0 <= afro &&
      0.0 <= disc && 0.0 <= jefas && 0.0 <= ninos && 0.0 <= mayores
    }

    predicate AtMost(o: Groups)
    {
      tot <= o.tot && fem <= o.fem && mas <= o.mas && ind <= o.ind && afro <= o.afro &&
      disc <= o.disc && jefas <= o.jefas && ninos <= o.ninos && mayores <= o.mayores
    }
  }

  /** The 2020 counts each projection reads (POBTOT, POBFEM, POBMAS, P3YM_HLI, POB_AFRO,
      PCON_DISC, HOGJEF_F, POB0_14, P_60YMAS), a column the census lacks counting 0. */
  function Counts(num: NumRow): Groups
  {
    Groups(G(num, "POBTOT"), G(num, "POBFEM"), G(num, "POBMAS"), G(num, "P3YM_HLI"),
           G(num, "POB_AFRO"), G(num, "PCON_DISC"), G(num, "HOGJEF_F"), G(num, "POB0_14"),
           G(num, "P_60YMAS"))
  }

  /** The P25_* columns: every group count times the layer's factor. */
  function Projected(num: NumRow, factor: real): Groups
  {
    Counts(num).Scaled(factor)
  }

  /** Scaling a group by a factor of at least 1 never shrinks it. */
  lemma {:induction false} ScaleGrows(x: real, f: real)
    requires 0.0 <= x && 1.0 <= f
    ensures x <= x * f
  {
    assert x * f == x + x * (f - 1.0);
  }

  /** With a factor of at least 1 no non-negative group shrinks. */
  lemma ProjectionGrows(num: NumRow, factor: real)
    requires 1.0 <= factor
    requires Counts(num).NonNegative()
    ensures Counts(num).AtMost(Projected(num, factor))
  {
    var c := Counts(num);
    ScaleGrows(c.tot, factor); ScaleGrows(c.fem, factor); ScaleGrows(c.mas, factor);
    ScaleGrows(c.ind, factor); ScaleGrows(c.afro, factor); ScaleGrows(c.disc, factor);
    ScaleGrows(c.jefas, factor); ScaleGrows(c.ninos, factor); ScaleGrows(c.mayores, factor);
  }

  /** A zone whose population reads as 0 (or does not parse) has P20_TOT = 1 and
      P25_TOT = factor: the indicator engine replaced that 0 by 1 before the
      projection reads it. */
  lemma EmptyZoneProjection(row: Row, parse: string -> Option<real>, factor: real)
    requires "P_15YMAS" in row && "POBTOT" in row && "TVIVPARHAB" in row
    requires Coerce(parse, row["POBTOT"]) == 0.0
    ensures G(ScoreRow(row, parse).num, "POBTOT") == 1.0
    ensures Projected(ScoreRow(row, parse).num, factor).tot == factor
  {
    var coerced := Coerced(row, parse);
    assert Vars[0] == "POBTOT" && Denominators[0] == "POBTOT";
    assert "POBTOT" in coerced && coerced["POBTOT"] == 0.0;
    var num := Safe(coerced);
    assert num["POBTOT"] == 1.0;
    assert ScoreRow(row, parse).num == num;
  }

  /** One zone of an assembled layer. */
  datatype Zone<G> = Zone(
    key: string,               // CVEGEO
    geom: G,                   // the polygon
    layer: Layer,              // TIPO
    row: Row,                  // the selected census row, CVEGEO included
    scored: Scored,            // its numeric columns and indices
    p20: real,                 // P20_TOT
    p25: Groups)               // P25_* of each group

  function ToZone<G>(layer: Layer, factor: real, j: (string, G, (Row, Scored))): Zone<G>
  {
    var (key, geom, (row, scored)) := j;
    Zone(key, geom, layer, row, scored, G(scored.num, "POBTOT"), Projected(scored.num, factor))
  }

  /** A zone is a polygon of the map and a kept census row with the same key,
      scored by the indicator engine and projected. */
  ghost predicate FromCensus<G>(z: Zone<G>, shapes: seq<(string, G)>, t: Table, layer: Layer, mun: string,
                                factor: real, parse: string -> Option<real>)
  {
    && z.layer == layer
    && (exists s :: 0 <= s < |shapes| && shapes[s] == (z.key, z.geom))
    && (exists k :: 0 <= k < |t.rows| && HasColumns(t.rows[k], KeyColumns(layer)) &&
          Keep(layer, mun, t.rows[k]) && z.row == Keyed(layer, t.rows[k]) && z.key == Key(layer, t.rows[k]))
    && "P_15YMAS" in z.row && "POBTOT" in z.row && "TVIVPARHAB" in z.row
    && z.scored == ScoreRow(z.row, parse)
    && InUnitRange(z.scored.idx)
    && z.p20 == G(z.scored.num, "POBTOT")
    && z.p25 == Projected(z.scored.num, factor)
  }

  /** Every polygon and every kept census row with the same key yield a zone made
      of that polygon and that row. */
  ghost predicate Covers<G>(zs: seq<Zone<G>>, shapes: seq<(string, G)>, t: Table, layer: Layer, mun: string)
  {
    forall s, k ::
      (0 <= s < |shapes| && 0 <= k < |t.rows| &&
       HasColumns(t.rows[k], KeyColumns(layer)) && Keep(layer, mun, t.rows[k]) &&
       shapes[s].0 == Key(layer, t.rows[k])) ==>
      exists i :: 0 <= i < |zs| && zs[i].key == shapes[s].0 && zs[i].geom == shapes[s].1 &&
                  zs[i].row == Keyed(layer, t.rows[k])
  }

  /** Some kept census row of `rows` has CVEGEO `key`. */
  predicate KeptKey(rows: seq<Row>, layer: Layer, mun: string, key: string)
  {
    exists k :: 0 <= k < |rows| && HasColumns(rows[k], KeyColumns(layer)) && Keep(layer, mun, rows[k]) &&
                Key(layer, rows[k]) == key
  }

  /** No two kept census rows share a CVEGEO. */
  predicate UniqueKeptKeys(rows: seq<Row>, layer: Layer, mun: string)
  {
    forall i1, i2 ::
      (0 <= i1 < i2 < |rows| && HasColumns(rows[i1], KeyColumns(layer)) && HasColumns(rows[i2], KeyColumns(layer)) &&
       Keep(layer, mun, rows[i1]) && Keep(layer, mun, rows[i2])) ==>
      Key(layer, rows[i1]) != Key(layer, rows[i2])
  }

  /** The number of polygons whose key some kept census row carries. */
  function PolygonsWithCensus<G>(shapes: seq<(string, G)>, rows: seq<Row>, layer: Layer, mun: string): nat
  {
    if shapes == [] then 0
    else
      var found := KeptKey(rows, layer, mun, shapes[|shapes| - 1].0);
      PolygonsWithCensus(shapes[..|shapes| - 1], rows, layer, mun) + (if found then 1 else 0)
  }

  /** `procesar_geo` up to the projection. Missing or unreadable inputs give no
      layer (`Ok(None)`). A frame lacking a key column or one of the columns the
      indicator engine indexes fails with the first of them, in the order the
      engine reaches them. Otherwise every zone is a polygon and a kept census row
      with the same CVEGEO, scored and projected; every such pair yields a zone; and
      when no two kept census rows share a CVEGEO there is exactly one zone per
      polygon whose key a kept census row carries. */
  method ProcessGeo<G(==)>(input: Option<(seq<(string, G)>, Table)>, layer: Layer, mun: string,
                           factor: real, parse: string -> Option<real>)
    returns (r: Result<Option<seq<Zone<G>>>, Error>)
    requires input.Some? ==> Rectangular(input.value.1)
    ensures input.None? ==> r == Ok(None)
    ensures input.Some? ==>
      var missing := FirstMissing(input.value.1.header, KeyColumns(layer) + ScoredColumns);
      && (r.Err? <==> missing.Some?)
      && (r.Err? ==> r.error == MissingColumn(missing.value))
    ensures r.Ok? && input.Some? ==> r.value.Some?
    ensures r.Ok? && input.Some? ==>
      (forall i :: 0 <= i < |r.value.value| ==>
        FromCensus(r.value.value[i], input.value.0, input.value.1, layer, mun, factor, parse))
    ensures r.Ok? && input.Some? ==> Covers(r.value.value, input.value.0, input.value.1, layer, mun)
    ensures r.Ok? && input.Some? && UniqueKeptKeys(input.value.1.rows, layer, mun) ==>
      |r.value.value| == PolygonsWithCensus(input.value.0, input.value.1.rows, layer, mun)
  {
    if input.None? {
      return Ok(None);
    }
    var (shapes, t) := input.value;
    FirstMissingAppend(t.header, KeyColumns(layer), ScoredColumns);
    FirstMissingScored(t.header);
    var selected := SelectRows(t, layer, mun);
    if selected.Err? {
      return Err(selected.error);
    }
    var sel := selected.value;
    assert "P_15YMAS" in sel.header <==> "P_15YMAS" in t.header;
    assert "POBTOT" in sel.header <==> "POBTOT" in t.header;
    assert "TVIVPARHAB" in sel.header <==> "TVIVPARHAB" in t.header;
    var scored := ProcessIndicators(sel, parse);
    if scored.Err? {
      return Err(scored.error);
    }
    assert ScoredRows(sel, parse, scored.value);
    var zs := JoinAndProject(shapes, t, sel, scored.value, layer, mun, factor, parse);
    return Ok(Some(zs));
  }

  /** The merge and the projection of `procesar_geo`: the polygons joined to the
      scored census rows on CVEGEO, each joined row becoming a projected zone. */
  method JoinAndProject<G(==)>(shapes: seq<(string, G)>, t: Table, sel: Table, scored: seq<Scored>,
                               layer: Layer, mun: string, factor: real, parse: string -> Option<real>)
    returns (zs: seq<Zone<G>>)
    requires Rectangular(t) && FirstMissing(t.header, KeyColumns(layer)).None?
    requires sel == Table(t.header + {Cvegeo}, Select(layer, mun, t.rows)) && Rectangular(sel)
    requires "P_15YMAS" in sel.header && "POBTOT" in sel.header && "TVIVPARHAB" in sel.header
    requires ScoredRows(sel, parse, scored)
    ensures forall i :: 0 <= i < |zs| ==> FromCensus(zs[i], shapes, t, layer, mun, factor, parse)
    ensures Covers(zs, shapes, t, layer, mun)
    ensures UniqueKeptKeys(t.rows, layer, mun) ==> |zs| == PolygonsWithCensus(shapes, t.rows, layer, mun)
  {
    var right := seq(|sel.rows|, k requires 0 <= k < |sel.rows| =>
                   (sel.rows[k][Cvegeo], (sel.rows[k], scored[k])));
    var joined := InnerJoin(shapes, right);
    zs := seq(|joined|, i requires 0 <= i < |joined| => ToZone(layer, factor, joined[i]));
    assert Prepared(t, sel, layer, mun, scored, right);
    ZonesFaithful(shapes, t, sel, layer, mun, factor, parse, scored, right, joined, zs);
    ZonesCover(shapes, t, sel, layer, mun, factor, parse, scored, right, joined, zs);
    if UniqueKeptKeys(t.rows, layer, mun) {
      ZoneCount(shapes, t, sel, layer, mun, scored, right);
    }
  }

  /** The facts a prepared census side carries into the join. */
  ghost predicate Prepared(t: Table, sel: Table, layer: Layer, mun: string,
                           scored: seq<Scored>, right: seq<(string, (Row, Scored))>)
  {
    && Rectangular(t) && FirstMissing(t.header, KeyColumns(layer)).None?
    && sel == Table(t.header + {Cvegeo}, Select(layer, mun, t.rows))
    && "P_15YMAS" in sel.header && "POBTOT" in sel.header && "TVIVPARHAB" in sel.header
    && Rectangular(sel)
    && |scored| == |sel.rows| == |right|
    && (forall j :: 0 <= j < |sel.rows| ==> right[j] == (sel.rows[j][Cvegeo], (sel.rows[j], scored[j])))
  }

  /** The indicator engine's result on the selected rows. */
  ghost predicate ScoredRows(sel: Table, parse: string -> Option<real>, scored: seq<Scored>)
  {
    && |scored| == |sel.rows|
    && (forall j :: 0 <= j < |sel.rows| ==>
          && "P_15YMAS" in sel.rows[j] && "POBTOT" in sel.rows[j] && "TVIVPARHAB" in sel.rows[j]
          && scored[j] == ScoreRow(sel.rows[j], parse) && InUnitRange(scored[j].idx))
  }

  /** A polygon and a prepared census row with the same key form a faithful zone. */
  lemma ZoneOfMatch<G>(shapes: seq<(string, G)>, t: Table, sel: Table, layer: Layer, mun: string,
                       factor: real, parse: string -> Option<real>, scored: seq<Scored>,
                       right: seq<(string, (Row, Scored))>, s: nat, j: nat)
    requires Prepared(t, sel, layer, mun, scored, right) && ScoredRows(sel, parse, scored)
    requires s < |shapes| && j < |right| && shapes[s].0 == right[j].0
    ensures FromCensus(ToZone(layer, factor, (shapes[s].0, shapes[s].1, right[j].1)),
                       shapes, t, layer, mun, factor, parse)
  {
    KeyedRows(t, layer);
    SelectSound(layer, mun, t.rows);
    assert KeptKeyed(layer, mun, t.rows, sel.rows[j]);
    var k :| 0 <= k < |t.rows| && Keep(layer, mun, t.rows[k]) && sel.rows[j] == Keyed(layer, t.rows[k]);
    assert sel.rows[j].Keys == sel.header;
    assert shapes[s] == (shapes[s].0, shapes[s].1);
  }

  /** A frame with every key column has every key column in each of its rows. */
  lemma KeyedRows(t: Table, layer: Layer)
    requires Rectangular(t) && FirstMissing(t.header, KeyColumns(layer)).None?
    ensures forall i :: 0 <= i < |t.rows| ==> HasColumns(t.rows[i], KeyColumns(layer))
  {
  }

  /** A kept row reaches the selection, keyed. */
  lemma KeptRowSelected(rows: seq<Row>, layer: Layer, mun: string, k: nat)
    requires forall i :: 0 <= i < |rows| ==> HasColumns(rows[i], KeyColumns(layer))
    requires k < |rows| && Keep(layer, mun, rows[k])
    ensures Keyed(layer, rows[k]) in Select(layer, mun, rows)
  {
    SelectComplete(layer, mun, rows);
  }

  /** A joined row comes from a left row and a right row with its key. */
  lemma JoinedRowHasSources<A, B>(left: seq<(string, A)>, right: seq<(string, B)>, t: nat)
    requires t < |InnerJoin(left, right)|
    ensures var x := InnerJoin(left, right)[t];
      exists i, j :: 0 <= i < |left| && 0 <= j < |right| && left[i] == (x.0, x.1) && right[j] == (x.0, x.2)
  {
    InnerJoinMembers(left, right);
    assert InnerJoin(left, right)[t] in InnerJoin(left, right);
  }

  /** A left row and a right row with the same key are joined. */
  lemma MatchedPairJoined<A, B>(left: seq<(string, A)>, right: seq<(string, B)>, i: nat, j: nat)
    requires i < |left| && j < |right| && left[i].0 == right[j].0
    ensures exists t ::
      (0 <= t < |InnerJoin(left, right)| && InnerJoin(left, right)[t] == (left[i].0, left[i].1, right[j].1))
  {
    InnerJoinMembers(left, right);
    var x := (left[i].0, left[i].1, right[j].1);
    assert left[i] == (x.0, x.1) && right[j] == (x.0, x.2);
    assert x in InnerJoin(left, right);
  }

  /** Every zone of `ProcessGeo` is faithful to its polygon and census row. */
  lemma ZonesFaithful<G>(shapes: seq<(string, G)>, t: Table, sel: Table, layer: Layer, mun: string,
                         factor: real, parse: string -> Option<real>, scored: seq<Scored>,
                         right: seq<(string, (Row, Scored))>, joined: seq<(string, G, (Row, Scored))>,
                         zs: seq<Zone<G>>)
    requires Prepared(t, sel, layer, mun, scored, right) && ScoredRows(sel, parse, scored)
    requires joined == InnerJoin(shapes, right)
    requires |zs| == |joined| && forall i :: 0 <= i < |zs| ==> zs[i] == ToZone(layer, factor, joined[i])
    ensures forall i :: 0 <= i < |zs| ==> FromCensus(zs[i], shapes, t, layer, mun, factor, parse)
  {
    forall i | 0 <= i < |zs|
      ensures FromCensus(zs[i], shapes, t, layer, mun, factor, parse)
    {
      var x := joined[i];
      JoinedRowHasSources(shapes, right, i);
      var s, j :| 0 <= s < |shapes| && 0 <= j < |right| && shapes[s] == (x.0, x.1) && right[j] == (x.0, x.2);
      ZoneOfMatch(shapes, t, sel, layer, mun, factor, parse, scored, right, s, j);
      assert x == (shapes[s].0, shapes[s].1, right[j].1);
    }
  }

  /** Every polygon whose key a kept census row carries yields a zone of `ProcessGeo`. */
  lemma ZonesCover<G>(shapes: seq<(string, G)>, t: Table, sel: Table, layer: Layer, mun: string,
                      factor: real, parse: string -> Option<real>, scored: seq<Scored>,
                      right: seq<(string, (Row, Scored))>, joined: seq<(string, G, (Row, Scored))>,
                      zs: seq<Zone<G>>)
    requires Prepared(t, sel, layer, mun, scored, right)
    requires joined == InnerJoin(shapes, right)
    requires |zs| == |joined| && forall i :: 0 <= i < |zs| ==> zs[i] == ToZone(layer, factor, joined[i])
    ensures Covers(zs, shapes, t, layer, mun)
  {
    forall s, k | 0 <= s < |shapes| && 0 <= k < |t.rows| &&
      HasColumns(t.rows[k], KeyColumns(layer)) && Keep(layer, mun, t.rows[k]) &&
      shapes[s].0 == Key(layer, t.rows[k])
      ensures exists i :: 0 <= i < |zs| && zs[i].key == shapes[s].0 && zs[i].geom == shapes[s].1 &&
                          zs[i].row == Keyed(layer, t.rows[k])
    {
      PolygonYieldsZone(shapes, t, sel, layer, mun, factor, parse, scored, right, joined, zs, s, k);
    }
  }

  lemma PolygonYieldsZone<G>(shapes: seq<(string, G)>, t: Table, sel: Table, layer: Layer, mun: string,
                             factor: real, parse: string -> Option<real>, scored: seq<Scored>,
                             right: seq<(string, (Row, Scored))>, joined: seq<(string, G, (Row, Scored))>,
                             zs: seq<Zone<G>>, s: nat, k: nat)
    requires Prepared(t, sel, layer, mun, scored, right)
    requires joined == InnerJoin(shapes, right)
    requires |zs| == |joined| && forall i :: 0 <= i < |zs| ==> zs[i] == ToZone(layer, factor, joined[i])
    requires s < |shapes| && k < |t.rows| && HasColumns(t.rows[k], KeyColumns(layer))
    requires Keep(layer, mun, t.rows[k]) && shapes[s].0 == Key(layer, t.rows[k])
    ensures exists i :: 0 <= i < |zs| && zs[i].key == shapes[s].0 && zs[i].geom == shapes[s].1 &&
                        zs[i].row == Keyed(layer, t.rows[k])
  {
    var row := Keyed(layer, t.rows[k]);
    KeyedRows(t, layer);
    KeptRowSelected(t.rows, layer, mun, k);
    var j :| 0 <= j < |sel.rows| && sel.rows[j] == row;
    assert right[j].0 == shapes[s].0;
    MatchedPairJoined(shapes, right, s, j);
    var i :| 0 <= i < |joined| && joined[i] == (shapes[s].0, shapes[s].1, right[j].1);
    assert zs[i].key == shapes[s].0 && zs[i].geom == shapes[s].1 && zs[i].row == row;
  }

  /** Every row has a CVEGEO, and no two rows share one. */
  predicate DistinctKeys(rows: seq<Row>)
  {
    forall j1, j2 :: 0 <= j1 < j2 < |rows| ==>
      Cvegeo in rows[j1] && Cvegeo in rows[j2] && rows[j1][Cvegeo] != rows[j2][Cvegeo]
  }

  /** Distinct kept rows have distinct keys, so the selected rows have distinct CVEGEO. */
  lemma {:induction false} SelectUniqueKeys(layer: Layer, mun: string, rows: seq<Row>)
    requires forall i :: 0 <= i < |rows| ==> HasColumns(rows[i], KeyColumns(layer))
    requires UniqueKeptKeys(rows, layer, mun)
    ensures DistinctKeys(Select(layer, mun, rows))
  {
    if rows != [] {
      var init := rows[..|rows| - 1];
      var last := rows[|rows| - 1];
      var s := Select(layer, mun, init);
      var r := Select(layer, mun, rows);
      assert r == s + (if Keep(layer, mun, last) then [Keyed(layer, last)] else []);
      assert UniqueKeptKeys(init, layer, mun) by {
        assert forall i :: 0 <= i < |init| ==> init[i] == rows[i];
      }
      SelectUniqueKeys(layer, mun, init);
      SelectSound(layer, mun, init);
      forall j1, j2 | 0 <= j1 < j2 < |r|
        ensures Cvegeo in r[j1] && Cvegeo in r[j2] && r[j1][Cvegeo] != r[j2][Cvegeo]
      {
        if j2 >= |s| {
          assert KeptKeyed(layer, mun, init, s[j1]);
          var i :| 0 <= i < |init| && Keep(layer, mun, init[i]) && s[j1] == Keyed(layer, init[i]);
          assert rows[i] == init[i];
          assert Keep(layer, mun, last) && r[j2] == Keyed(layer, last);
          assert Key(layer, rows[i]) != Key(layer, rows[|rows| - 1]);
          assert r[j1][Cvegeo] == Key(layer, rows[i]) && r[j2][Cvegeo] == Key(layer, last);
        } else {
          assert r[j1] == s[j1] && r[j2] == s[j2];
        }
      }
    }
  }

  /** The key of a prepared census row is the key of a kept row. */
  lemma RightKeyIsKept(t: Table, sel: Table, layer: Layer, mun: string,
                       scored: seq<Scored>, right: seq<(string, (Row, Scored))>, j: nat)
    requires Prepared(t, sel, layer, mun, scored, right)
    requires j < |right|
    ensures KeptKey(t.rows, layer, mun, right[j].0)
  {
    KeyedRows(t, layer);
    SelectSound(layer, mun, t.rows);
    assert KeptKeyed(layer, mun, t.rows, sel.rows[j]);
    var k :| 0 <= k < |t.rows| && Keep(layer, mun, t.rows[k]) && sel.rows[j] == Keyed(layer, t.rows[k]);
    assert Key(layer, t.rows[k]) == right[j].0;
  }

  /** The key of a kept row is the key of a prepared census row. */
  lemma KeptKeyIsRight(t: Table, sel: Table, layer: Layer, mun: string,
                       scored: seq<Scored>, right: seq<(string, (Row, Scored))>, k: nat)
    requires Prepared(t, sel, layer, mun, scored, right)
    requires k < |t.rows| && HasColumns(t.rows[k], KeyColumns(layer)) && Keep(layer, mun, t.rows[k])
    ensures HasKey(Key(layer, t.rows[k]), right)
  {
    KeyedRows(t, layer);
    KeptRowSelected(t.rows, layer, mun, k);
    var j :| 0 <= j < |sel.rows| && sel.rows[j] == Keyed(layer, t.rows[k]);
    assert right[j].0 == Key(layer, t.rows[k]);
  }

  /** The keys of the prepared census side are exactly the keys of the kept rows. */
  lemma RightKeysAreKeptKeys(t: Table, sel: Table, layer: Layer, mun: string,
                             scored: seq<Scored>, right: seq<(string, (Row, Scored))>)
    requires Prepared(t, sel, layer, mun, scored, right)
    ensures forall key :: HasKey(key, right) <==> KeptKey(t.rows, layer, mun, key)
  {
    forall key
      ensures HasKey(key, right) <==> KeptKey(t.rows, layer, mun, key)
    {
      if HasKey(key, right) {
        var j :| 0 <= j < |right| && right[j].0 == key;
        RightKeyIsKept(t, sel, layer, mun, scored, right, j);
      }
      if KeptKey(t.rows, layer, mun, key) {
        var k :| 0 <= k < |t.rows| && HasColumns(t.rows[k], KeyColumns(layer)) &&
                 Keep(layer, mun, t.rows[k]) && Key(layer, t.rows[k]) == key;
        KeptKeyIsRight(t, sel, layer, mun, scored, right, k);
      }
    }
  }

  /** Counting the polygons matched on the census side is counting those with a kept row. */
  lemma {:induction false} CountsAgree<G, B>(shapes: seq<(string, G)>, right: seq<(string, B)>,
                                             rows: seq<Row>, layer: Layer, mun: string)
    requires forall key :: HasKey(key, right) <==> KeptKey(rows, layer, mun, key)
    ensures CountMatched(shapes, right) == PolygonsWithCensus(shapes, rows, layer, mun)
  {
    if shapes != [] {
      CountsAgree(shapes[..|shapes| - 1], right, rows, layer, mun);
    }
  }

  /** With unique census keys the join yields exactly one row per polygon whose key a
      kept census row carries. */
  lemma ZoneCount<G>(shapes: seq<(string, G)>, t: Table, sel: Table, layer: Layer, mun: string,
                     scored: seq<Scored>, right: seq<(string, (Row, Scored))>)
    requires Prepared(t, sel, layer, mun, scored, right)
    requires UniqueKeptKeys(t.rows, layer, mun)
    ensures |InnerJoin(shapes, right)| == PolygonsWithCensus(shapes, t.rows, layer, mun)
  {
    KeyedRows(t, layer);
    SelectUniqueKeys(layer, mun, t.rows);
    assert forall j1, j2 :: 0 <= j1 < j2 < |right| ==> right[j1].0 != right[j2].0;
    UniqueRightJoinCount(shapes, right);
    RightKeysAreKeptKeys(t, sel, layer, mun, scored, right);
    CountsAgree(shapes, right, t.rows, layer, mun);
  }
}
