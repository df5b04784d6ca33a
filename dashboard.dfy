/**
  The dashboard's decision logic (`app.py`): the column shield that lets the
  engineering views run on data produced before the engineering modules
  existed, the operational status of each zone on the axis in view, the
  overall priority, the dominant vocation and the suggested public-works
  action, the semaphore colours and opacities of the maps, and the
  informality, incidence and family estimates.

  Labels are written without their leading or trailing emoji; every substring
  test the dashboard makes on them reads the same with or without the emoji.
 */
module Dashboard {
  import opened Util
  import Indicators
  import Economy
  import Topography
  import Restrictions

  // ---------------------------------------------------------------------------
  // Column shield
  // ---------------------------------------------------------------------------

  /** A DataFrame cell after reading: a number or a text. */
  datatype Value = Num(x: real) | Text(s: string)

  /** A DataFrame as its row count and its columns. */
  datatype Frame = Frame(rows: nat, cols: map<string, seq<Value>>)

  /** Every column has one cell per row. */
  predicate WellFormed(f: Frame)
  {
    forall c :: c in f.cols ==> |f.cols[c]| == f.rows
  }

  /** The engineering columns the technical views read. */
  const EngineeringColumns: seq<string> :=
    ["PENDIENTE_PROMEDIO", "RESTRICCION_GAS", "RESTRICCION_AGUA", "DICTAMEN_VIABILIDAD", "CLASIFICACION_TOPOGRAFICA"]

  /** The stand-in for a missing engineering column: 0 for slopes and restriction
      flags, "Sin Análisis" for everything else. */
  function ShieldDefault(col: string): Value
  {
    if Contains(col, "PENDIENTE") || Contains(col, "RESTRICCION") then Num(0.0) else Text("Sin Análisis")
  }

  /** `df[col] = val`: a scalar broadcast to every row. */
  function Filled(rows: nat, col: string): (cells: seq<Value>)
    ensures |cells| == rows
    ensures forall i :: 0 <= i < rows ==> cells[i] == ShieldDefault(col)
  {
    seq(rows, _ => ShieldDefault(col))
  }

  /** `g` is `f` after the shield has looked at the first `n` engineering columns:
      the same rows, the same columns plus those of the `n` that were missing,
      the existing columns untouched and each added one filled with its default. */
  ghost predicate ShieldedUpTo(f: Frame, g: Frame, n: nat)
    requires n <= |EngineeringColumns|
  {
    && g.rows == f.rows
    && (forall c :: c in g.cols <==> c in f.cols || c in EngineeringColumns[..n])
    && (forall c :: c in f.cols ==> g.cols[c] == f.cols[c])
    && (forall c :: c in g.cols && c !in f.cols ==> g.cols[c] == Filled(f.rows, c))
  }

  ghost predicate Shielded(f: Frame, g: Frame)
  {
    ShieldedUpTo(f, g, |EngineeringColumns|)
  }

  /** `if col not in df.columns: df[col] = default`. */
  function AddMissing(f: Frame, col: string): Frame
  {
    if col in f.cols then f else f.(cols := f.cols[col := Filled(f.rows, col)])
  }

  /** One step of the shield loop extends the columns it has looked at by one. */
  lemma ShieldStep(f: Frame, g: Frame, k: nat)
    requires k < |EngineeringColumns| && ShieldedUpTo(f, g, k)
    ensures ShieldedUpTo(f, AddMissing(g, EngineeringColumns[k]), k + 1)
  {
    assert EngineeringColumns[..k + 1] == EngineeringColumns[..k] + [EngineeringColumns[k]];
  }

  /** The shield loop over the zone frame and both map copies: every missing
      engineering column is added with its default, and nothing else changes. */
  method ShieldColumns(zona: Frame, du: Frame, dr: Frame) returns (zona': Frame, du': Frame, dr': Frame)
    ensures Shielded(zona, zona') && Shielded(du, du') && Shielded(dr, dr')
  {
    zona', du', dr' := zona, du, dr;
    for k := 0 to |EngineeringColumns|
      invariant ShieldedUpTo(zona, zona', k)
      invariant ShieldedUpTo(du, du', k)
      invariant ShieldedUpTo(dr, dr', k)
    {
      var col := EngineeringColumns[k];
      ShieldStep(zona, zona', k);
      ShieldStep(du, du', k);
      ShieldStep(dr, dr', k);
      zona' := AddMissing(zona', col);
      du' := AddMissing(du', col);
      dr' := AddMissing(dr', col);
    }
  }

  /** After the shield every engineering column is present with one cell per row,
      and shielding again changes nothing. */
  lemma ShieldCompletes(f: Frame, g: Frame)
    requires WellFormed(f) && Shielded(f, g)
    ensures WellFormed(g)
    ensures forall k :: 0 <= k < |EngineeringColumns| ==> EngineeringColumns[k] in g.cols
    ensures Shielded(g, g)
  {
    assert EngineeringColumns[..|EngineeringColumns|] == EngineeringColumns;
    forall k | 0 <= k < |EngineeringColumns|
      ensures EngineeringColumns[k] in g.cols
    {
      assert EngineeringColumns[k] in EngineeringColumns[..|EngineeringColumns|];
    }
  }

  /** Slope and restriction columns default to the number 0, the verdict and the
      terrain class to the text "Sin Análisis". */
  lemma ShieldDefaults(k: nat)
    requires k < |EngineeringColumns|
    ensures ShieldDefault(EngineeringColumns[k]) == if k < 3 then Num(0.0) else Text("Sin Análisis")
  {
    if k == 0 {
      ContainsAt("PENDIENTE_PROMEDIO", "PENDIENTE", 0);
    } else if k == 1 {
      ContainsAt("RESTRICCION_GAS", "RESTRICCION", 0);
    } else if k == 2 {
      ContainsAt("RESTRICCION_AGUA", "RESTRICCION", 0);
    } else if k == 3 {
      MissingCharRulesOut("DICTAMEN_VIABILIDAD", "PENDIENTE", 0);
      MissingCharRulesOut("DICTAMEN_VIABILIDAD", "RESTRICCION", 0);
    } else {
      MissingCharRulesOut("CLASIFICACION_TOPOGRAFICA", "PENDIENTE", 1);
      MissingCharRulesOut("CLASIFICACION_TOPOGRAFICA", "RESTRICCION", 1);
    }
  }

  // ---------------------------------------------------------------------------
  // Operational status per axis
  // ---------------------------------------------------------------------------

  /** The semaphore of an operational status. */
  datatype Alert = Rojo | Amarillo | Verde

  function Urgency(a: Alert): nat
  {
    match a
    case Rojo => 2
    case Amarillo => 1
    case Verde => 0
  }

  /** `status_hidrico`: the water-resilience index; low resilience is urgent. */
  function StatusHidrico(val: real): Alert
  {
    if val < 0.4 then Rojo else if val < 0.7 then Amarillo else Verde
  }

  function HidricoLabel(a: Alert): string
  {
    match a
    case Rojo => "URGENTE (24 HRS - Sin Tinaco)"
    case Amarillo => "PROGRAMADA (48 HRS)"
    case Verde => "RESILIENTE (Tiene Cisterna)"
  }

  /** `status_ambiental`: the environmental-pressure index; high pressure is urgent. */
  function StatusAmbiental(val: real): Alert
  {
    if val > 0.4 then Rojo else if val > 0.2 then Amarillo else Verde
  }

  function AmbientalLabel(a: Alert): string
  {
    match a
    case Rojo => "FOCO INFECCIÓN (Drenaje/Humo)"
    case Amarillo => "RIESGO LATENTE"
    case Verde => "SANEADO"
  }

  /** `status_social`: the social-risk index; high risk is urgent. */
  function StatusSocial(val: real): Alert
  {
    if val > 0.3 then Rojo else if val > 0.15 then Amarillo else Verde
  }

  function SocialLabel(a: Alert): string
  {
    match a
    case Rojo => "PROGRAMA EMPLEO TEMPORAL"
    case Amarillo => "CAPACITACIÓN/MICROCRÉDITO"
    case Verde => "ESTABLE"
  }

  /** Water status: each semaphore is exactly its band, and more resilience never
      makes a zone more urgent. */
  lemma StatusHidricoBands(a: real, b: real)
    ensures StatusHidrico(a) == Rojo <==> a < 0.4
    ensures StatusHidrico(a) == Amarillo <==> 0.4 <= a < 0.7
    ensures StatusHidrico(a) == Verde <==> 0.7 <= a
    ensures a <= b ==> Urgency(StatusHidrico(b)) <= Urgency(StatusHidrico(a))
  {
  }

  /** Environmental status: each semaphore is exactly its band, and more pressure
      never makes a zone less urgent. */
  lemma StatusAmbientalBands(a: real, b: real)
    ensures StatusAmbiental(a) == Rojo <==> a > 0.4
    ensures StatusAmbiental(a) == Amarillo <==> 0.2 < a <= 0.4
    ensures StatusAmbiental(a) == Verde <==> a <= 0.2
    ensures a <= b ==> Urgency(StatusAmbiental(a)) <= Urgency(StatusAmbiental(b))
  {
  }

  /** Social status: each semaphore is exactly its band, and more risk never makes
      a zone less urgent. */
  lemma StatusSocialBands(a: real, b: real)
    ensures StatusSocial(a) == Rojo <==> a > 0.3
    ensures StatusSocial(a) == Amarillo <==> 0.15 < a <= 0.3
    ensures StatusSocial(a) == Verde <==> a <= 0.15
    ensures a <= b ==> Urgency(StatusSocial(a)) <= Urgency(StatusSocial(b))
  {
  }

  // ---------------------------------------------------------------------------
  // Priority, vocation and suggested action
  // ---------------------------------------------------------------------------

  /** `IND_PRIORIDAD_TOTAL`: the mean of the quality-of-life, social-risk and
      vulnerability indices. It lies between the smallest and the largest of the
      three, hence in [0, 1] for scored indices. */
  function Priority(ix: Indicators.Indices): (p: real)
    ensures Indicators.InUnitRange(ix) ==> 0.0 <= p <= 1.0
    ensures ix.sits <= ix.social && ix.sits <= ix.p1 ==> ix.sits <= p
    ensures ix.sits >= ix.social && ix.sits >= ix.p1 ==> p <= ix.sits
    ensures ix.sits == ix.social == ix.p1 ==> p == ix.sits
  {
    (ix.sits + ix.social + ix.p1) / 3.0
  }

  /** `VOCACION_DOMINANTE`. */
  datatype Vocation = Rezago | SinActividad | Turismo | Comercio | Industria | Servicios

  function VocationLabel(v: Vocation): string
  {
    match v
    case Rezago => "Zona Habitacional Rezago"
    case SinActividad => "Sin Actividad"
    case Turismo => "TURISMO"
    case Comercio => "COMERCIO"
    case Industria => "INDUSTRIA"
    case Servicios => "SERVICIOS"
  }

  /** `row.get(column, 0)` on the economic columns: all 0 when the economic module
      left the frame without them. */
  function EconRead(eco: Option<Economy.EconCols>): Economy.EconCols
  {
    if eco.Some? then eco.value else Economy.ZeroEcon
  }

  /** The business count of a sector vocation; the other vocations count nothing. */
  function CountOf(e: Economy.EconCols, v: Vocation): nat
  {
    match v
    case Turismo => e.turismo
    case Comercio => e.comercio
    case Industria => e.industria
    case Servicios => e.servicios
    case _ => 0
  }

  /** Position of a sector vocation in the dictionary `max` scans. */
  function Rank(v: Vocation): nat
  {
    match v
    case Turismo => 0
    case Comercio => 1
    case Industria => 2
    case Servicios => 3
    case _ => 4
  }

  predicate IsSector(v: Vocation)
  {
    v.Turismo? || v.Comercio? || v.Industria? || v.Servicios?
  }

  /** `max(sectores, key=sectores.get)`: Python keeps the first maximal key in
      insertion order, replacing it only by a strictly larger count. */
  function ArgMaxSector(e: Economy.EconCols): Vocation
  {
    var b1 := if e.comercio > e.turismo then Comercio else Turismo;
    var b2 := if e.industria > CountOf(e, b1) then Industria else b1;
    if e.servicios > CountOf(e, b2) then Servicios else b2
  }

  /** The chosen sector has the largest count of the four, and every sector listed
      before it has a strictly smaller one: ties go to the earliest. */
  lemma ArgMaxIsFirstMaximum(e: Economy.EconCols, w: Vocation)
    requires IsSector(w)
    ensures IsSector(ArgMaxSector(e))
    ensures CountOf(e, w) <= CountOf(e, ArgMaxSector(e))
    ensures Rank(w) < Rank(ArgMaxSector(e)) ==> CountOf(e, w) < CountOf(e, ArgMaxSector(e))
  {
  }

  /** `determinar_vocacion`: a zone without businesses is a poor dormitory when
      more than 50 people are projected there and without activity otherwise;
      else its vocation is its sector with most businesses. */
  function DominantVocation(eco: Option<Economy.EconCols>, p25: real): Vocation
  {
    var e := EconRead(eco);
    if e.total == 0 && p25 > 50.0 then Rezago
    else if e.total == 0 then SinActividad
    else ArgMaxSector(e)
  }

  /** The vocation cases: no business gives Rezago or Sin Actividad by population,
      any business a sector; and a zone whose businesses all fall outside the four
      listed sectors (Otros only) still reads as TURISMO, the first key. */
  lemma VocationCases(eco: Option<Economy.EconCols>, p25: real)
    ensures DominantVocation(eco, p25) == Rezago <==> EconRead(eco).total == 0 && p25 > 50.0
    ensures DominantVocation(eco, p25) == SinActividad <==> EconRead(eco).total == 0 && p25 <= 50.0
    ensures IsSector(DominantVocation(eco, p25)) <==> EconRead(eco).total > 0
    ensures eco.None? ==> !IsSector(DominantVocation(eco, p25))
    ensures (var e := EconRead(eco);
             e.total > 0 && e.turismo == 0 && e.comercio == 0 && e.industria == 0 && e.servicios == 0
             ==> DominantVocation(eco, p25) == Turismo)
  {
    ArgMaxIsFirstMaximum(EconRead(eco), Turismo);
  }

  /** `ACCION_OBRA_PUBLICA`. */
  datatype Action = RescateUrbano | InfraestructuraBasica | SeguridadIluminacion
                  | IntervencionSocial | Mantenimiento | Monitoreo

  function ActionLabel(a: Action): string
  {
    match a
    case RescateUrbano => "Rescate Urbano (Imagen + Drenaje)"
    case InfraestructuraBasica => "Infraestructura Básica (Ramo 033)"
    case SeguridadIluminacion => "Seguridad e Iluminación"
    case IntervencionSocial => "Intervención Social Integral"
    case Mantenimiento => "Mantenimiento Preventivo"
    case Monitoreo => "Monitoreo"
  }

  /** `sugerir_accion` on a zone's priority and the text of its vocation. */
  function SuggestAction(prio: real, voc: string): Action
  {
    if prio > 0.40 then
      if Contains(voc, "TURISMO") then RescateUrbano
      else if Contains(voc, "Rezago") then InfraestructuraBasica
      else if Contains(voc, "COMERCIO") then SeguridadIluminacion
      else IntervencionSocial
    else if prio > 0.25 then Mantenimiento
    else Monitoreo
  }

  /** The action a critical zone of each vocation calls for. */
  function CriticalAction(v: Vocation): Action
  {
    match v
    case Turismo => RescateUrbano
    case Rezago => InfraestructuraBasica
    case Comercio => SeguridadIluminacion
    case _ => IntervencionSocial
  }

  /** Zones at or below 0.25 are monitored and zones in (0.25, 0.40] get
      preventive maintenance, whatever their vocation; only zones above 0.40 get
      one of the four critical actions. */
  lemma ActionBands(prio: real, voc: string)
    ensures SuggestAction(prio, voc) == Monitoreo <==> prio <= 0.25
    ensures SuggestAction(prio, voc) == Mantenimiento <==> 0.25 < prio <= 0.40
    ensures prio > 0.40 <==>
      SuggestAction(prio, voc) in {RescateUrbano, InfraestructuraBasica, SeguridadIluminacion, IntervencionSocial}
  {
  }

  /** On the labels the vocation step produces, the substring tests of a critical
      zone pick exactly one action per vocation: urban rescue for tourism, basic
      infrastructure for the poor dormitory, security for commerce, and the
      integral social intervention for industry, services and no activity. */
  lemma ActionForVocation(prio: real, v: Vocation)
    requires prio > 0.40
    ensures SuggestAction(prio, VocationLabel(v)) == CriticalAction(v)
  {
    match v {
      case Turismo => ContainsAt("TURISMO", "TURISMO", 0);
      case Rezago => RezagoWords(VocationLabel(v));
      case Comercio => CommerceWords(VocationLabel(v));
      case Industria => IndustryWords(VocationLabel(v));
      case Servicios => ServicesWords(VocationLabel(v));
      case SinActividad => NoActivityWords(VocationLabel(v));
    }
  }

  lemma RezagoWords(s: string)
    requires s == "Zona Habitacional Rezago"
    ensures !Contains(s, "TURISMO") && Contains(s, "Rezago")
  {
    assert s[18..24] == "Rezago";
    MissingCharRulesOut(s, "TURISMO", 0);
    ContainsAt(s, "Rezago", 18);
  }

  lemma CommerceWords(s: string)
    requires s == "COMERCIO"
    ensures !Contains(s, "TURISMO") && !Contains(s, "Rezago") && Contains(s, "COMERCIO")
  {
    MissingCharRulesOut(s, "TURISMO", 0);
    MissingCharRulesOut(s, "Rezago", 1);
    ContainsAt(s, "COMERCIO", 0);
  }

  lemma IndustryWords(s: string)
    requires s == "INDUSTRIA"
    ensures !Contains(s, "TURISMO") && !Contains(s, "Rezago") && !Contains(s, "COMERCIO")
  {
    MissingCharRulesOut(s, "TURISMO", 5);
    MissingCharRulesOut(s, "Rezago", 1);
    MissingCharRulesOut(s, "COMERCIO", 0);
  }

  lemma ServicesWords(s: string)
    requires s == "SERVICIOS"
    ensures !Contains(s, "TURISMO") && !Contains(s, "Rezago") && !Contains(s, "COMERCIO")
  {
    MissingCharRulesOut(s, "TURISMO", 0);
    MissingCharRulesOut(s, "Rezago", 1);
    MissingCharRulesOut(s, "COMERCIO", 2);
  }

  lemma NoActivityWords(s: string)
    requires s == "Sin Actividad"
    ensures !Contains(s, "TURISMO") && !Contains(s, "Rezago") && !Contains(s, "COMERCIO")
  {
    MissingCharRulesOut(s, "TURISMO", 0);
    MissingCharRulesOut(s, "Rezago", 0);
    MissingCharRulesOut(s, "COMERCIO", 0);
  }

  // ---------------------------------------------------------------------------
  // Map colours and opacities
  // ---------------------------------------------------------------------------

  const Red: string := "#b71c1c"
  const Orange: string := "#e65100"
  const Green: string := "#2e7d32"

  /** `color_dictamen` as written: risk or federal zone red, then no-urbanizable
      or landslide orange, else green. */
  function ColorDictamen(val: string): string
  {
    if Contains(val, "RIESGO") || Contains(val, "FEDERAL") then Red
    else if Contains(val, "NO URBANIZABLE") || Contains(val, "DESLAVE") then Orange
    else Green
  }

  /** Which of the words the colouring looks for each verdict label contains:
      "RIESGO" the chemical and the landslide risk, "FEDERAL" the federal zone,
      "DESLAVE" the landslide risk, and "NO URBANIZABLE" none of them. */
  lemma VerdictWords(v: Restrictions.Verdict)
    ensures Contains(Restrictions.VerdictLabel(v), "RIESGO") <==> v.RiesgoQuimico? || v.RiesgoDeslave?
    ensures Contains(Restrictions.VerdictLabel(v), "FEDERAL") <==> v.ZonaFederal?
    ensures Contains(Restrictions.VerdictLabel(v), "DESLAVE") <==> v.RiesgoDeslave?
    ensures !Contains(Restrictions.VerdictLabel(v), "NO URBANIZABLE")
  {
    match v {
      case RiesgoQuimico => ChemicalRiskWords(Restrictions.VerdictLabel(v));
      case ZonaFederal => FederalZoneWords(Restrictions.VerdictLabel(v));
      case RiesgoDeslave => LandslideWords(Restrictions.VerdictLabel(v));
      case Factible => FeasibleWords(Restrictions.VerdictLabel(v));
    }
  }

  lemma ChemicalRiskWords(s: string)
    requires s == "RIESGO QUÍMICO (Gasolinera)"
    ensures Contains(s, "RIESGO") && !Contains(s, "FEDERAL")
    ensures !Contains(s, "DESLAVE") && !Contains(s, "NO URBANIZABLE")
  {
    ChemicalRiskNoTerrain(s);
    MissingCharRulesOut(s, "FEDERAL", 0);
    ContainsAt(s, "RIESGO", 0);
  }

  lemma ChemicalRiskNoTerrain(s: string)
    requires s == "RIESGO QUÍMICO (Gasolinera)"
    ensures !Contains(s, "DESLAVE") && !Contains(s, "NO URBANIZABLE")
  {
    MissingCharRulesOut(s, "DESLAVE", 0);
    MissingCharRulesOut(s, "NO URBANIZABLE", 9);
  }

  lemma FederalZoneWords(s: string)
    requires s == "ZONA FEDERAL (Río)"
    ensures !Contains(s, "RIESGO") && Contains(s, "FEDERAL")
    ensures !Contains(s, "DESLAVE") && !Contains(s, "NO URBANIZABLE")
  {
    assert s[5..12] == "FEDERAL";
    MissingCharRulesOut(s, "RIESGO", 4);
    MissingCharRulesOut(s, "DESLAVE", 2);
    MissingCharRulesOut(s, "NO URBANIZABLE", 3);
    ContainsAt(s, "FEDERAL", 5);
  }

  lemma LandslideWords(s: string)
    requires s == "RIESGO DESLAVE"
    ensures Contains(s, "RIESGO") && !Contains(s, "FEDERAL")
    ensures Contains(s, "DESLAVE") && !Contains(s, "NO URBANIZABLE")
  {
    assert s[0..6] == "RIESGO" && s[7..14] == "DESLAVE";
    MissingCharRulesOut(s, "FEDERAL", 0);
    MissingCharRulesOut(s, "NO URBANIZABLE", 0);
    ContainsAt(s, "RIESGO", 0);
    ContainsAt(s, "DESLAVE", 7);
  }

  lemma FeasibleWords(s: string)
    requires s == "FACTIBLE"
    ensures !Contains(s, "RIESGO") && !Contains(s, "FEDERAL")
    ensures !Contains(s, "DESLAVE") && !Contains(s, "NO URBANIZABLE")
  {
    MissingCharRulesOut(s, "RIESGO", 0);
    MissingCharRulesOut(s, "FEDERAL", 2);
    MissingCharRulesOut(s, "DESLAVE", 0);
    MissingCharRulesOut(s, "NO URBANIZABLE", 0);
  }

  /** On the verdicts the engine writes, the colouring as written is red for every
      verdict but FACTIBLE: "RIESGO DESLAVE" contains "RIESGO", so the orange
      branch meant for difficult terrain is never reached. */
  lemma ColorDictamenOfVerdicts(v: Restrictions.Verdict)
    ensures ColorDictamen(Restrictions.VerdictLabel(v)) == (if v.Factible? then Green else Red)
    ensures ColorDictamen(Restrictions.VerdictLabel(v)) != Orange
  {
    VerdictWords(v);
  }

  /** A zone whose verdict column the shield filled with "Sin Análisis" is painted
      green, the colour of buildable land. */
  lemma UnanalysedIsGreen()
    ensures ColorDictamen("Sin Análisis") == Green
  {
    MissingCharRulesOut("Sin Análisis", "RIESGO", 0);
    MissingCharRulesOut("Sin Análisis", "FEDERAL", 0);
    MissingCharRulesOut("Sin Análisis", "NO URBANIZABLE", 0);
    MissingCharRulesOut("Sin Análisis", "DESLAVE", 0);
  }

  /** The verdict colouring the legend describes: terrain verdicts (no-urbanizable,
      landslide) are tested before the general risk words. */
  function ColorDictamenIntended(val: string): string
  {
    if Contains(val, "NO URBANIZABLE") || Contains(val, "DESLAVE") then Orange
    else if Contains(val, "RIESGO") || Contains(val, "FEDERAL") then Red
    else Green
  }

  /** With the terrain test first, each verdict gets its legend colour: chemical
      risk and federal zone red, landslide orange, feasible green. */
  lemma ColorDictamenIntendedOfVerdicts(v: Restrictions.Verdict)
    ensures ColorDictamenIntended(Restrictions.VerdictLabel(v)) ==
      match v
      case RiesgoQuimico => Red
      case ZonaFederal => Red
      case RiesgoDeslave => Orange
      case Factible => Green
  {
    VerdictWords(v);
  }

  const GasRed: string := "#d32f2f"
  const RiverBlue: string := "#1976d2"
  const Blank: string := "#eeeeee"

  /** `color_peligro` on the restriction columns (`get(..., 0) == 1`). */
  function ColorPeligro(gas: real, water: real): string
  {
    if gas == 1.0 then GasRed else if water == 1.0 then RiverBlue else Blank
  }

  /** A restriction flag as the engine writes it. */
  function FlagValue(b: bool): real
  {
    if b then 1.0 else 0.0
  }

  /** Urban polygons of the hazard view: opaque when either flag is 1. */
  function HazardOpacity(gas: real, water: real): real
  {
    if gas == 1.0 || water == 1.0 then 0.8 else 0.0
  }

  /** Rural points of the hazard view: a point whose colour is blank is skipped. */
  function RuralHazardMarker(gas: real, water: real): Option<string>
  {
    var c := ColorPeligro(gas, water);
    if c == Blank then None else Some(c)
  }

  /** Gas wins over water; a zone is drawn (polygon opaque, point shown) exactly when
      one of its flags is set; and on the engine's flags the colour is red exactly
      for the chemical-risk verdict. */
  lemma HazardColors(gas: bool, water: bool, slope: real)
    ensures ColorPeligro(FlagValue(gas), FlagValue(water)) ==
      (if gas then GasRed else if water then RiverBlue else Blank)
    ensures RuralHazardMarker(FlagValue(gas), FlagValue(water)).Some? <==> gas || water
    ensures HazardOpacity(FlagValue(gas), FlagValue(water)) > 0.0 <==> gas || water
    ensures ColorPeligro(FlagValue(gas), FlagValue(water)) == GasRed <==>
      Restrictions.Dictaminar(gas, water, slope) == Restrictions.RiesgoQuimico
    ensures ColorPeligro(FlagValue(gas), FlagValue(water)) == RiverBlue <==>
      Restrictions.Dictaminar(gas, water, slope) == Restrictions.ZonaFederal
  {
  }

  /** Shielded frames (flags 0) draw nothing in the hazard view. */
  lemma ShieldedFlagsDrawNothing()
    ensures RuralHazardMarker(0.0, 0.0).None? && HazardOpacity(0.0, 0.0) == 0.0
  {
  }

  /** Rural points of the deprivation map, worst band first. */
  function DeprivationColor(val: real): string
  {
    if val >= 0.4 then "#800000"
    else if val >= 0.25 then "#ff0000"
    else if val >= 0.15 then "#ffa500"
    else "#27ae60"
  }

  function DeprivationLevel(c: string): nat
  {
    if c == "#800000" then 3 else if c == "#ff0000" then 2 else if c == "#ffa500" then 1 else 0
  }

  /** The deprivation colour never gets milder as the deprivation grows, and each
      colour is exactly its band. */
  lemma DeprivationColorBands(a: real, b: real)
    ensures a <= b ==> DeprivationLevel(DeprivationColor(a)) <= DeprivationLevel(DeprivationColor(b))
    ensures DeprivationColor(a) == "#800000" <==> a >= 0.4
    ensures DeprivationColor(a) == "#ff0000" <==> 0.25 <= a < 0.4
    ensures DeprivationColor(a) == "#ffa500" <==> 0.15 <= a < 0.25
    ensures DeprivationColor(a) == "#27ae60" <==> a < 0.15
  {
  }

  /** `estilo_dinamico`: the fill opacity of a zone from the value mapped (0 when the
      property is missing). */
  function PriorityOpacity(val: real): real
  {
    if val > 0.4 then 0.8 else if val > 0.2 then 0.5 else if val > 0.1 then 0.3 else 0.1
  }

  /** Opacity grows with the value, from 0.1 to 0.8, and a missing value is drawn
      faintest. */
  lemma PriorityOpacityMonotone(a: real, b: real)
    ensures a <= b ==> PriorityOpacity(a) <= PriorityOpacity(b)
    ensures 0.1 <= PriorityOpacity(a) <= 0.8
    ensures PriorityOpacity(0.0) == 0.1
  {
  }

  const Yellow: string := "#fbc02d"

  /** Rural points of the terrain view, from the mean slope (0 when missing). */
  function SlopeColor(p: real): string
  {
    if p < 5.0 then Green else if p < 15.0 then Yellow else Red
  }

  /** The colour of a terrain class. */
  function ClassColor(c: Topography.TopoClass): string
  {
    match c
    case NoUrbanizable => Red
    case Lomerio => Yellow
    case _ => Green
  }

  /** The terrain view paints each point with the colour of the slope's normative
      class: green flat, yellow hilly, red not urbanizable. */
  lemma SlopeColorFollowsClass(p: real)
    ensures SlopeColor(p) == ClassColor(Topography.ClassifySlope(p))
  {
  }

  // ---------------------------------------------------------------------------
  // Economic and social estimates
  // ---------------------------------------------------------------------------

  /** Formal jobs assumed per business. */
  const JobsPerBusiness: nat := 3

  /** `ESTIMACION_INFORMALIDAD`: the active population not covered by three formal
      jobs per business, never negative. */
  function Informality(pea: real, ecoTotal: nat): (r: real)
    ensures 0.0 <= r && pea - (ecoTotal * JobsPerBusiness) as real <= r
    ensures r == 0.0 || r == pea - (ecoTotal * JobsPerBusiness) as real
  {
    var gap := pea - (ecoTotal * JobsPerBusiness) as real;
    if gap < 0.0 then 0.0 else gap
  }

  /** More businesses never raise the informality estimate, and once the formal
      jobs cover the active population it is 0. */
  lemma InformalityMonotone(pea: real, a: nat, b: nat)
    ensures a <= b ==> Informality(pea, b) <= Informality(pea, a)
    ensures pea <= (a * JobsPerBusiness) as real ==> Informality(pea, a) == 0.0
  {
  }

  /** `pct_afec`: the share of the group affected by the deprivation, weighted by
      each zone's deprivation rate, as a percentage; 0 for an empty group. */
  function Incidence(group: seq<real>, rate: seq<real>): real
    requires |group| == |rate|
  {
    var tot := Sum(group);
    if tot > 0.0 then SumProduct(group, rate) / tot * 100.0 else 0.0
  }

  /** The affected people of a group are between none and all of it when every
      rate is a fraction. */
  lemma {:induction false} AffectedWithinGroup(group: seq<real>, rate: seq<real>)
    requires |group| == |rate|
    requires forall i :: 0 <= i < |group| ==> 0.0 <= group[i]
    requires forall i :: 0 <= i < |rate| ==> 0.0 <= rate[i] <= 1.0
    ensures 0.0 <= SumProduct(group, rate) <= Sum(group)
  {
    if group != [] {
      var n := |group| - 1;
      AffectedWithinGroup(group[..n], rate[..n]);
      ProductWithinFactor(group[n], rate[n]);
      assert SumProduct(group, rate) == SumProduct(group[..n], rate[..n]) + group[n] * rate[n];
      assert Sum(group) == Sum(group[..n]) + group[n];
      assert SumProduct(group[..n], rate[..n]) <= Sum(group[..n]);
      assert group[n] * rate[n] <= group[n];
    }
  }

  /** The incidence is a percentage in [0, 100]. */
  lemma IncidenceIsPercentage(group: seq<real>, rate: seq<real>)
    requires |group| == |rate|
    requires forall i :: 0 <= i < |group| ==> 0.0 <= group[i]
    requires forall i :: 0 <= i < |rate| ==> 0.0 <= rate[i] <= 1.0
    ensures 0.0 <= Incidence(group, rate) <= 100.0
    ensures Sum(group) > 0.0 ==> Incidence(group, rate) * Sum(group) == SumProduct(group, rate) * 100.0
  {
    AffectedWithinGroup(group, rate);
    if Sum(group) > 0.0 {
      Economy.RatioBounds(SumProduct(group, rate), Sum(group));
    }
  }

  /** People per household assumed for the state. */
  const HouseholdSize: real := 3.6

  /** `PERSONAS_PRIORITARIAS` and `FAMILIAS_ESTIMADAS` of one zone. */
  function PriorityPeople(group: real, rate: real): real
  {
    group * rate
  }

  function EstimatedFamilies(group: real, rate: real): (f: real)
    ensures f * HouseholdSize == PriorityPeople(group, rate)
  {
    PriorityPeople(group, rate) / HouseholdSize
  }

  /** With a fractional rate the priority people are part of the group, and the
      families at most the group's households. */
  lemma FamiliesBounded(group: real, rate: real)
    requires 0.0 <= group && 0.0 <= rate <= 1.0
    ensures 0.0 <= PriorityPeople(group, rate) <= group
    ensures 0.0 <= EstimatedFamilies(group, rate) <= group / HouseholdSize
  {
    ProductWithinFactor(group, rate);
  }

  /** A fraction of a non-negative quantity lies between 0 and the quantity. */
  lemma ProductWithinFactor(x: real, f: real)
    requires 0.0 <= x && 0.0 <= f <= 1.0
    ensures 0.0 <= x * f <= x
  {
    assert x * (1.0 - f) >= 0.0;
  }
}
