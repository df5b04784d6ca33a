/**
  The indicator engine (`procesar_indicadores`): census counts become five
  deprivation sub-indices (CAR_*_20), the composite SITS_INDEX, three
  MCR2030 resilience indices (IND_*) and three Sendai-framework indices
  (SENDAI_*).

  The engine first coerces every census variable it knows to a number
  (text that does not parse counts as 0), then replaces a zero POBTOT,
  TVIVPARHAB, P_15YMAS or PEA by 1 so that no division is by zero, reads an
  absent variable as 0, and clips every index to [0, 1]. The composite is the
  mean of the five clipped sub-indices and is not clipped again.
  Float arithmetic is modelled as exact rational arithmetic.
 */
module Indicators {
  import opened Util

  /** Census variables coerced to numbers (`VARS`). */
  const Vars: seq<string> := [
    "POBTOT", "POBFEM", "POBMAS", "P_15YMAS", "P15YM_AN", "P15YM_SE",
    "PDER_SS", "TVIVPARHAB", "POB0_14", "P_60YMAS", "P3YM_HLI", "POB_AFRO", "PCON_DISC", "HOGJEF_F",
    "VPH_PISOTI", "VPH_NODREN", "VPH_AGUAFV", "VPH_S_ELEC",
    "VPH_REFRI", "VPH_LAVAD", "VPH_AUTOM", "VPH_PC", "VPH_1CUARTO",
    "VPH_TECHOLAM", "VPH_TECHOPAL", "VPH_TECHOPEC",
    "VPH_PAREDLAM", "VPH_PAREDDES", "VPH_PAREDBAJ",
    "VPH_LENA", "VPH_CARBON", "VPH_CIST", "VPH_TINACO",
    "PEA", "PDESOCUP", "PE_INAC",
    "VPH_INTER", "VPH_CEL"]

  /** Denominators whose zeros are replaced by 1, in the order they are treated. */
  const Denominators: seq<string> := ["POBTOT", "TVIVPARHAB", "P_15YMAS", "PEA"]

  /** The numeric part of a row after coercion. */
  type NumRow = map<string, real>

  /** `pd.to_numeric(..., errors='coerce').fillna(0)` on one cell; `parse` is the
      numeric reading of a text, `None` when pandas would produce NaN. */
  function Coerce(parse: string -> Option<real>, s: string): real
  {
    match parse(s)
    case Some(x) => x
    case None => 0.0
  }

  /** The numeric row after the first `k` passes of the coercion loop. */
  function CoercedUpTo(row: Row, parse: string -> Option<real>, k: nat): NumRow
    requires k <= |Vars|
  {
    if k == 0 then map[]
    else
      var m := CoercedUpTo(row, parse, k - 1);
      if Vars[k - 1] in row then m[Vars[k - 1] := Coerce(parse, row[Vars[k - 1]])] else m
  }

  /** After `k` passes the row holds exactly the first `k` variables it has, each
      coerced from its text. */
  lemma {:induction false} CoercedUpToContents(row: Row, parse: string -> Option<real>, k: nat)
    requires k <= |Vars|
    ensures forall c :: c in CoercedUpTo(row, parse, k) <==> c in Vars[..k] && c in row
    ensures forall c :: c in CoercedUpTo(row, parse, k) ==> CoercedUpTo(row, parse, k)[c] == Coerce(parse, row[c])
  {
    if k > 0 {
      CoercedUpToContents(row, parse, k - 1);
      assert Vars[..k] == Vars[..k - 1] + [Vars[k - 1]];
    }
  }

  /** One pass of the coercion loop adds the next variable when the row has it. */
  lemma CoercedStep(row: Row, parse: string -> Option<real>, k: nat)
    requires k < |Vars|
    ensures CoercedUpTo(row, parse, k + 1) ==
      if Vars[k] in row then CoercedUpTo(row, parse, k)[Vars[k] := Coerce(parse, row[Vars[k]])]
      else CoercedUpTo(row, parse, k)
  {
  }

  /** The numeric row after the whole coercion loop: exactly the census variables
      the row has, each coerced. */
  function Coerced(row: Row, parse: string -> Option<real>): (n: NumRow)
    ensures forall c :: c in n <==> c in Vars && c in row
    ensures forall c :: c in n ==> n[c] == Coerce(parse, row[c])
  {
    CoercedUpToContents(row, parse, |Vars|);
    assert Vars[..|Vars|] == Vars;
    CoercedUpTo(row, parse, |Vars|)
  }

  /** `df[col].replace(0, 1)` on one value of a present column. */
  function ReplaceZero(n: NumRow, col: string): NumRow
  {
    if col in n && n[col] == 0.0 then n[col := 1.0] else n
  }

  /** The row after the first `k` passes of the denominator loop. */
  function SafeUpTo(n: NumRow, k: nat): (r: NumRow)
    requires k <= |Denominators|
    ensures r.Keys == n.Keys
    ensures forall c :: c in n ==>
      r[c] == if c in Denominators[..k] && n[c] == 0.0 then 1.0 else n[c]
  {
    if k == 0 then n
    else
      assert Denominators[..k] == Denominators[..k - 1] + [Denominators[k - 1]];
      ReplaceZero(SafeUpTo(n, k - 1), Denominators[k - 1])
  }

  /** The row after the denominator loop: same columns, zero denominators become 1,
      every other value untouched. */
  function Safe(n: NumRow): (r: NumRow)
    ensures r.Keys == n.Keys
    ensures forall c :: c in n ==>
      r[c] == if c in Denominators && n[c] == 0.0 then 1.0 else n[c]
  {
    assert Denominators[..|Denominators|] == Denominators;
    SafeUpTo(n, |Denominators|)
  }

  /** `g(c)`: a column the row lacks reads as 0. */
  function G(n: NumRow, c: string): real
  {
    if c in n then n[c] else 0.0
  }

  /** The three denominators the engine reads directly are present and non-zero,
      and PEA, when present, is non-zero. */
  predicate SafeDenominators(n: NumRow)
  {
    && "P_15YMAS" in n && n["P_15YMAS"] != 0.0
    && "POBTOT" in n && n["POBTOT"] != 0.0
    && "TVIVPARHAB" in n && n["TVIVPARHAB"] != 0.0
    && ("PEA" in n ==> n["PEA"] != 0.0)
  }

  /** The twelve per-zone indices. */
  datatype Indices = Indices(
    edu: real,          // CAR_EDU_20
    health: real,       // CAR_SALUD_20
    housing: real,      // CAR_VIV_20
    services: real,     // CAR_SERV_20
    income: real,       // CAR_POBREZA_20
    sits: real,         // SITS_INDEX
    water: real,        // IND_RESILIENCIA_HIDRICA
    environment: real,  // IND_PRESION_AMBIENTAL
    social: real,       // IND_RIESGO_SOCIAL
    p1: real,           // SENDAI_P1_VULNERABILIDAD
    p3: real,           // SENDAI_P3_FRAGILIDAD
    p4: real)           // SENDAI_P4_FALTACAPACIDAD

  predicate Unit(x: real)
  {
    0.0 <= x <= 1.0
  }

  /** Every index of a zone lies in [0, 1]. */
  predicate InUnitRange(ix: Indices)
  {
    && Unit(ix.edu) && Unit(ix.health) && Unit(ix.housing) && Unit(ix.services) && Unit(ix.income)
    && Unit(ix.sits)
    && Unit(ix.water) && Unit(ix.environment) && Unit(ix.social)
    && Unit(ix.p1) && Unit(ix.p3) && Unit(ix.p4)
  }

  /** Education lag: illiterate and unschooled adults over the population aged 15+. */
  function EduRaw(n: NumRow): real
    requires SafeDenominators(n)
  {
    (G(n, "P15YM_AN") + G(n, "P15YM_SE")) / n["P_15YMAS"]
  }

  /** Health access: one minus the insured share of the population. */
  function HealthRaw(n: NumRow): real
    requires SafeDenominators(n)
  {
    1.0 - G(n, "PDER_SS") / n["POBTOT"]
  }

  /** Housing quality: poor floors, roofs and walls plus single-room dwellings weighted 1.2. */
  function HousingRaw(n: NumRow): real
    requires SafeDenominators(n)
  {
    (G(n, "VPH_PISOTI") + G(n, "VPH_TECHOLAM") + G(n, "VPH_TECHOPAL")
     + G(n, "VPH_PAREDLAM") + G(n, "VPH_PAREDDES") + G(n, "VPH_1CUARTO") * 1.2)
    / n["TVIVPARHAB"]
  }

  /** Basic services: a quarter of the four service shortfalls, per dwelling. */
  function ServicesRaw(n: NumRow): real
    requires SafeDenominators(n)
  {
    ((G(n, "VPH_AGUAFV") + G(n, "VPH_NODREN") + G(n, "VPH_S_ELEC") + G(n, "VPH_LENA")) / 4.0)
    / n["TVIVPARHAB"]
  }

  /** Income proxy: one minus the asset count over four assets per dwelling. */
  function IncomeRaw(n: NumRow): real
    requires SafeDenominators(n)
  {
    1.0 - (G(n, "VPH_REFRI") + G(n, "VPH_LAVAD") + G(n, "VPH_AUTOM") + G(n, "VPH_PC"))
          / (4.0 * n["TVIVPARHAB"])
  }

  /** Water resilience: storage and supply shortfall, halved, per dwelling. */
  function WaterRaw(n: NumRow): real
    requires SafeDenominators(n)
  {
    ((G(n, "VPH_AGUAFV") + G(n, "VPH_CIST") + G(n, "VPH_TINACO")) / 2.0) / n["TVIVPARHAB"]
  }

  /** Environmental pressure: wood or charcoal fuel and missing drainage per dwelling. */
  function EnvironmentRaw(n: NumRow): real
    requires SafeDenominators(n)
  {
    (G(n, "VPH_LENA") + G(n, "VPH_CARBON") + G(n, "VPH_NODREN")) / n["TVIVPARHAB"]
  }

  /** Unemployment over PEA, or over the population aged 15+ when PEA is not a column. */
  function UnemploymentRate(n: NumRow): real
    requires SafeDenominators(n)
  {
    G(n, "PDESOCUP") / (if "PEA" in n then n["PEA"] else n["P_15YMAS"])
  }

  /** Sendai priority 1: dependent population (disability, indigenous language,
      elderly, half of the children) over the population. */
  function P1Raw(n: NumRow): real
    requires SafeDenominators(n)
  {
    (G(n, "PCON_DISC") + G(n, "P3YM_HLI") + G(n, "P_60YMAS") + G(n, "POB0_14") * 0.5) / n["POBTOT"]
  }

  /** Sendai priority 3: fragile walls and roofs and missing drainage per dwelling. */
  function P3Raw(n: NumRow): real
    requires SafeDenominators(n)
  {
    (G(n, "VPH_PAREDDES") + G(n, "VPH_TECHOPAL") + G(n, "VPH_TECHOPEC") + G(n, "VPH_NODREN"))
    / n["TVIVPARHAB"]
  }

  /** Sendai priority 4: one minus a fifth of the response assets per dwelling. */
  function P4Raw(n: NumRow): real
    requires SafeDenominators(n)
  {
    1.0 - ((G(n, "VPH_CEL") + G(n, "VPH_INTER") + G(n, "VPH_AUTOM") + G(n, "VPH_CIST") + G(n, "VPH_TINACO")) / 5.0)
          / n["TVIVPARHAB"]
  }

  /** The indices of one zone. The five sub-indices are clipped first; the composite is
      their mean and lies in [0, 1] without a clip of its own; social risk is built
      from the clipped housing and education sub-indices; the six remaining indices
      are clipped last. */
  function Score(n: NumRow): (ix: Indices)
    requires SafeDenominators(n)
    ensures InUnitRange(ix)
    ensures ix.sits == (ix.edu + ix.health + ix.housing + ix.services + ix.income) / 5.0
  {
    var edu := Clip01(EduRaw(n));
    var health := Clip01(HealthRaw(n));
    var housing := Clip01(HousingRaw(n));
    var services := Clip01(ServicesRaw(n));
    var income := Clip01(IncomeRaw(n));
    var sits := (edu + health + housing + services + income) / 5.0;
    Indices(edu, health, housing, services, income, sits,
            Clip01(WaterRaw(n)), Clip01(EnvironmentRaw(n)),
            Clip01((UnemploymentRate(n) + housing + edu) / 3.0),
            Clip01(P1Raw(n)), Clip01(P3Raw(n)), Clip01(P4Raw(n)))
  }

  /** After the two passes a row whose three directly-read denominators are present
      can be scored: none of the four denominators is zero. */
  lemma SafeRowIsScorable(row: Row, parse: string -> Option<real>)
    requires "P_15YMAS" in row && "POBTOT" in row && "TVIVPARHAB" in row
    ensures SafeDenominators(Safe(Coerced(row, parse)))
  {
    CoercedKeepsKeys(row, parse);
    SafeOfPresent(Coerced(row, parse));
  }

  /** The three directly-read denominators survive coercion. */
  lemma CoercedKeepsKeys(row: Row, parse: string -> Option<real>)
    requires "P_15YMAS" in row && "POBTOT" in row && "TVIVPARHAB" in row
    ensures "P_15YMAS" in Coerced(row, parse) && "POBTOT" in Coerced(row, parse)
    ensures "TVIVPARHAB" in Coerced(row, parse)
  {
    assert Vars[0] == "POBTOT" && Vars[3] == "P_15YMAS" && Vars[7] == "TVIVPARHAB";
  }

  /** A row holding the three directly-read denominators has none of the four
      denominators at zero after the denominator loop. */
  lemma SafeOfPresent(n: NumRow)
    requires "P_15YMAS" in n && "POBTOT" in n && "TVIVPARHAB" in n
    ensures SafeDenominators(Safe(n))
  {
    assert "P_15YMAS" in Denominators && "POBTOT" in Denominators;
    assert "TVIVPARHAB" in Denominators && "PEA" in Denominators;
  }

  /** One scored zone: its numeric census row (after both passes) and its indices. */
  datatype Scored = Scored(num: NumRow, idx: Indices)

  function ScoreRow(row: Row, parse: string -> Option<real>): Scored
    requires "P_15YMAS" in row && "POBTOT" in row && "TVIVPARHAB" in row
  {
    SafeRowIsScorable(row, parse);
    var n := Safe(Coerced(row, parse));
    Scored(n, Score(n))
  }

  /** A variable the census table lacks contributes exactly what a present 0 would:
      for every variable other than the four denominators, leaving it out or
      setting it to 0 gives the same indices. */
  lemma AbsentCountsAsZero(n: NumRow, v: string)
    requires SafeDenominators(n)
    requires v !in n && v !in Denominators
    ensures SafeDenominators(n[v := 0.0])
    ensures Score(n[v := 0.0]) == Score(n)
  {
    assert v != "P_15YMAS" && v != "POBTOT" && v != "TVIVPARHAB" && v != "PEA";
    var m := n[v := 0.0];
    forall c ensures G(m, c) == G(n, c) {
    }
    SameReadsSameDeprivation(m, n);
    SameReadsSameResilience(m, n);
  }

  /** Two rows that read alike (through `g` and in their denominators) have the same
      deprivation sub-indices. */
  lemma SameReadsSameDeprivation(m: NumRow, n: NumRow)
    requires SafeDenominators(m) && SafeDenominators(n)
    requires forall c :: G(m, c) == G(n, c)
    ensures EduRaw(m) == EduRaw(n) && HealthRaw(m) == HealthRaw(n)
    ensures HousingRaw(m) == HousingRaw(n) && ServicesRaw(m) == ServicesRaw(n)
    ensures IncomeRaw(m) == IncomeRaw(n)
  {
    assert m["P_15YMAS"] == G(m, "P_15YMAS") && m["POBTOT"] == G(m, "POBTOT");
    assert m["TVIVPARHAB"] == G(m, "TVIVPARHAB");
  }

  /** Two rows that read alike and agree on having PEA have the same resilience and
      Sendai raw values. */
  lemma SameReadsSameResilience(m: NumRow, n: NumRow)
    requires SafeDenominators(m) && SafeDenominators(n)
    requires forall c :: G(m, c) == G(n, c)
    requires "PEA" in m <==> "PEA" in n
    ensures WaterRaw(m) == WaterRaw(n) && EnvironmentRaw(m) == EnvironmentRaw(n)
    ensures UnemploymentRate(m) == UnemploymentRate(n)
    ensures P1Raw(m) == P1Raw(n) && P3Raw(m) == P3Raw(n) && P4Raw(m) == P4Raw(n)
  {
    assert m["P_15YMAS"] == G(m, "P_15YMAS") && m["POBTOT"] == G(m, "POBTOT");
    assert m["TVIVPARHAB"] == G(m, "TVIVPARHAB");
    assert "PEA" in m ==> m["PEA"] == G(m, "PEA");
  }

  /** Health deprivation is 0 for a zone whose whole population is insured and 1
      for a zone with no insured person. */
  lemma HealthExtremes(n: NumRow)
    requires SafeDenominators(n)
    ensures G(n, "PDER_SS") == n["POBTOT"] ==> Score(n).health == 0.0
    ensures G(n, "PDER_SS") == 0.0 ==> Score(n).health == 1.0
  {
    assert Score(n).health == Clip01(HealthRaw(n));
  }

  /** The coercion loop of `procesar_indicadores`: for each `VARS` name that is a
      column of the frame, the whole column is coerced to numbers. Afterwards each
      row holds exactly its census variables, coerced. */
  method CoerceColumns(t: Table, parse: string -> Option<real>) returns (nums: seq<NumRow>)
    requires Rectangular(t)
    ensures |nums| == |t.rows|
    ensures forall i :: 0 <= i < |t.rows| ==> nums[i] == Coerced(t.rows[i], parse)
  {
    nums := seq(|t.rows|, i => map[]);
    for k := 0 to |Vars|
      invariant |nums| == |t.rows|
      invariant forall i :: 0 <= i < |t.rows| ==> nums[i] == CoercedUpTo(t.rows[i], parse, k)
    {
      var col := Vars[k];
      if col in t.header {
        nums := seq(|nums|, i requires 0 <= i < |nums| =>
                      nums[i][col := Coerce(parse, t.rows[i][col])]);
      }
      forall i | 0 <= i < |t.rows| ensures nums[i] == CoercedUpTo(t.rows[i], parse, k + 1) {
        assert col in t.header <==> col in t.rows[i];
        CoercedStep(t.rows[i], parse, k);
      }
    }
    assert Vars[..|Vars|] == Vars;
  }

  /** The zero-denominator loop of `procesar_indicadores`: for each of POBTOT,
      TVIVPARHAB, P_15YMAS, PEA that is a column, its zeros become 1. */
  method ReplaceZeroDenominators(t: Table, nums: seq<NumRow>) returns (safe: seq<NumRow>)
    requires Rectangular(t) && |nums| == |t.rows|
    requires forall i :: 0 <= i < |nums| ==> nums[i].Keys == t.rows[i].Keys * set c | c in Vars
    ensures |safe| == |nums|
    ensures forall i :: 0 <= i < |nums| ==> safe[i] == Safe(nums[i])
  {
    safe := nums;
    for k := 0 to |Denominators|
      invariant |safe| == |nums|
      invariant forall i :: 0 <= i < |nums| ==> safe[i] == SafeUpTo(nums[i], k)
    {
      var col := Denominators[k];
      ghost var before := safe;
      if col in t.header {
        safe := seq(|safe|, i requires 0 <= i < |safe| => ReplaceZero(safe[i], col));
      }
      forall i | 0 <= i < |nums| ensures safe[i] == SafeUpTo(nums[i], k + 1) {
        assert before[i] == SafeUpTo(nums[i], k);
        assert col in t.header <==> col in t.rows[i];
        assert col in Vars;
      }
    }
    assert Denominators[..|Denominators|] == Denominators;
  }

  /** `procesar_indicadores` over a census frame: the coercion loop, the
      zero-denominator loop, then the indices of every row. The frame fails with
      the first of P_15YMAS, POBTOT, TVIVPARHAB that is not a column (the engine
      indexes those three directly); otherwise every row is scored and every
      index lies in [0, 1]. */
  method ProcessIndicators(t: Table, parse: string -> Option<real>) returns (r: Result<seq<Scored>, Error>)
    requires Rectangular(t)
    ensures r.Err? <==> !("P_15YMAS" in t.header && "POBTOT" in t.header && "TVIVPARHAB" in t.header)
    ensures r.Err? ==> r.error == MissingColumn(
      if "P_15YMAS" !in t.header then "P_15YMAS"
      else if "POBTOT" !in t.header then "POBTOT" else "TVIVPARHAB")
    ensures r.Ok? ==> |r.value| == |t.rows|
    ensures r.Ok? ==> forall i :: 0 <= i < |t.rows| ==>
      && r.value[i] == ScoreRow(t.rows[i], parse)
      && InUnitRange(r.value[i].idx)
  {
    var nums := CoerceColumns(t, parse);
    nums := ReplaceZeroDenominators(t, nums);
    if "P_15YMAS" !in t.header {
      return Err(MissingColumn("P_15YMAS"));
    }
    if "POBTOT" !in t.header {
      return Err(MissingColumn("POBTOT"));
    }
    if "TVIVPARHAB" !in t.header {
      return Err(MissingColumn("TVIVPARHAB"));
    }
    forall i | 0 <= i < |t.rows|
      ensures SafeDenominators(nums[i]) && nums[i] == ScoreRow(t.rows[i], parse).num
    {
      SafeRowIsScorable(t.rows[i], parse);
    }
    var scored := seq(|nums|, i requires 0 <= i < |nums| && SafeDenominators(nums[i]) =>
                    Scored(nums[i], Score(nums[i])));
    return Ok(scored);
  }
}
