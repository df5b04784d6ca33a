/**
  Normative restrictions (`procesar_restricciones`): a zone is flagged for
  chemical risk when it intersects a buffer around a fuel or gas business of
  the DENUE directory, and for the federal river zone when it intersects a
  buffer around a river; the viability verdict then takes the first matching
  rule in the order gas, water, landslide (slope over 15), feasible.

  Buffering and intersection are library geometry: they are the parameters
  `buffer` and `intersects` over an abstract geometry type `G`. Both layers
  are assumed already in the zones' coordinate system.
 */
module Restrictions {
  import opened Util

  /** Buffer radius around fuel and gas businesses, in degrees (about 100 m). */
  const GasRadius: real := 0.001

  /** Buffer radius around rivers, in degrees (about 20 m). */
  const RiverRadius: real := 0.0002

  /** A business of the directory: its location and its activity code as text. */
  datatype Business<G> = Business(geom: G, code: string)

  /** The directory as read: whether it has a `codigo_act` column, and its points. */
  datatype Directory<G> = Directory(hasCode: bool, businesses: seq<Business<G>>)

  /** `str.startswith(('464', '473'))`: fuel retail or gas distribution. */
  predicate IsGasCode(code: string)
  {
    StartsWith(code, "464") || StartsWith(code, "473")
  }

  /** The fuel and gas businesses, in directory order. */
  function GasStations<G(==)>(bs: seq<Business<G>>): (r: seq<G>)
    ensures forall j :: 0 <= j < |bs| && IsGasCode(bs[j].code) ==> bs[j].geom in r
    ensures forall k :: 0 <= k < |r| ==> exists j :: 0 <= j < |bs| && IsGasCode(bs[j].code) && bs[j].geom == r[k]
  {
    if bs == [] then []
    else
      var b := bs[|bs| - 1];
      GasStations(bs[..|bs| - 1]) + (if IsGasCode(b.code) then [b.geom] else [])
  }

  /** A zone is within `radius` of a hazard: it intersects the hazard's buffer. */
  predicate NearAny<G>(zone: G, hazards: seq<G>, radius: real, buffer: (G, real) -> G,
                       intersects: (G, G) -> bool)
  {
    exists k :: 0 <= k < |hazards| && intersects(zone, buffer(hazards[k], radius))
  }

  /** `DICTAMEN_VIABILIDAD`. */
  datatype Verdict = RiesgoQuimico | ZonaFederal | RiesgoDeslave | Factible

  function VerdictLabel(v: Verdict): string
  {
    match v
    case RiesgoQuimico => "RIESGO QUÍMICO (Gasolinera)"
    case ZonaFederal => "ZONA FEDERAL (Río)"
    case RiesgoDeslave => "RIESGO DESLAVE"
    case Factible => "FACTIBLE"
  }

  /** `dictaminar` on one row. */
  function Dictaminar(gas: bool, water: bool, slope: real): Verdict
  {
    if gas then RiesgoQuimico
    else if water then ZonaFederal
    else if slope > 15.0 then RiesgoDeslave
    else Factible
  }

  /** Each verdict holds exactly under its rule, earlier rules winning: gas risk
      whenever the gas flag is set, the federal zone when only the water flag is,
      landslide risk when no flag is set and the slope exceeds 15, and feasible
      otherwise. A slope of exactly 15 is feasible here although the terrain
      class already calls it not urbanizable. */
  lemma VerdictRules(gas: bool, water: bool, slope: real)
    ensures Dictaminar(gas, water, slope) == RiesgoQuimico <==> gas
    ensures Dictaminar(gas, water, slope) == ZonaFederal <==> !gas && water
    ensures Dictaminar(gas, water, slope) == RiesgoDeslave <==> !gas && !water && slope > 15.0
    ensures Dictaminar(gas, water, slope) == Factible <==> !gas && !water && slope <= 15.0
    ensures Dictaminar(false, false, 15.0) == Factible
  {
  }

  /** A worse slope never improves a verdict. */
  lemma VerdictMonotoneInSlope(gas: bool, water: bool, a: real, b: real)
    requires a <= b
    ensures Dictaminar(gas, water, a) == RiesgoDeslave ==> Dictaminar(gas, water, b) == RiesgoDeslave
    ensures Dictaminar(gas, water, b) == Factible ==> Dictaminar(gas, water, a) == Factible
  {
  }

  /** `gdf.loc[gdf.index.isin(ids), flag] = 1`: the zones near a hazard get the flag,
      and a flag already set is never cleared. */
  function MarkNear<G>(flags: seq<bool>, zones: seq<G>, hazards: seq<G>, radius: real,
                       buffer: (G, real) -> G, intersects: (G, G) -> bool): (r: seq<bool>)
    requires |flags| == |zones|
    ensures |r| == |zones|
    ensures forall i :: 0 <= i < |zones| ==>
      (r[i] <==> flags[i] || exists k :: 0 <= k < |hazards| && intersects(zones[i], buffer(hazards[k], radius)))
  {
    seq(|zones|, i requires 0 <= i < |zones| => flags[i] || NearAny(zones[i], hazards, radius, buffer, intersects))
  }

  /** Marking the same hazards again changes nothing. */
  lemma MarkNearTwice<G>(flags: seq<bool>, zones: seq<G>, hazards: seq<G>, radius: real,
                         buffer: (G, real) -> G, intersects: (G, G) -> bool)
    requires |flags| == |zones|
    ensures var once := MarkNear(flags, zones, hazards, radius, buffer, intersects);
      MarkNear(once, zones, hazards, radius, buffer, intersects) == once
  {
  }

  /** Marking with one hazard list and then another is marking with both at once: a
      zone is near the concatenation exactly when it is near one of the parts. */
  lemma MarkNearConcat<G>(flags: seq<bool>, zones: seq<G>, h1: seq<G>, h2: seq<G>, radius: real,
                          buffer: (G, real) -> G, intersects: (G, G) -> bool)
    requires |flags| == |zones|
    ensures MarkNear(MarkNear(flags, zones, h1, radius, buffer, intersects), zones, h2, radius, buffer, intersects)
            == MarkNear(flags, zones, h1 + h2, radius, buffer, intersects)
  {
    forall i | 0 <= i < |zones|
      ensures NearAny(zones[i], h1 + h2, radius, buffer, intersects) <==>
              NearAny(zones[i], h1, radius, buffer, intersects) || NearAny(zones[i], h2, radius, buffer, intersects)
    {
      NearConcat(zones[i], h1, h2, radius, buffer, intersects);
    }
  }

  lemma NearConcat<G>(zone: G, h1: seq<G>, h2: seq<G>, radius: real,
                      buffer: (G, real) -> G, intersects: (G, G) -> bool)
    ensures NearAny(zone, h1 + h2, radius, buffer, intersects) <==>
            NearAny(zone, h1, radius, buffer, intersects) || NearAny(zone, h2, radius, buffer, intersects)
  {
    var h := h1 + h2;
    if NearAny(zone, h, radius, buffer, intersects) {
      var k :| 0 <= k < |h| && intersects(zone, buffer(h[k], radius));
      if k >= |h1| {
        assert h2[k - |h1|] == h[k];
      }
    }
    if NearAny(zone, h1, radius, buffer, intersects) {
      var k :| 0 <= k < |h1| && intersects(zone, buffer(h1[k], radius));
      assert h[k] == h1[k];
    }
    if NearAny(zone, h2, radius, buffer, intersects) {
      var k :| 0 <= k < |h2| && intersects(zone, buffer(h2[k], radius));
      assert h[|h1| + k] == h2[k];
    }
  }

  /** `procesar_restricciones`. Both flags start unset and the verdict feasible. The
      gas flag is set on the zones near a business whose code starts with 464 or
      473, unless the directory is missing, unreadable or has no code column; the
      water flag on the zones near a river, unless the river layer is missing or
      unreadable. The verdict of each zone then follows from its flags and its
      slope (0 when the layer has no slope column). */
  method ProcessRestrictions<G(==)>(zones: seq<G>, slopes: Option<seq<real>>,
                                    denue: Source<Directory<G>>, rivers: Source<seq<G>>,
                                    buffer: (G, real) -> G, intersects: (G, G) -> bool)
    returns (gas: seq<bool>, water: seq<bool>, verdict: seq<Verdict>)
    requires slopes.Some? ==> |slopes.value| == |zones|
    ensures |gas| == |zones| && |water| == |zones| && |verdict| == |zones|
    ensures forall i :: 0 <= i < |zones| ==>
      (gas[i] <==>
        (denue.Loaded? && denue.data.hasCode &&
         exists j :: 0 <= j < |denue.data.businesses| && IsGasCode(denue.data.businesses[j].code) &&
           intersects(zones[i], buffer(denue.data.businesses[j].geom, GasRadius))))
    ensures forall i :: 0 <= i < |zones| ==>
      (water[i] <==>
        (rivers.Loaded? && exists k :: 0 <= k < |rivers.data| &&
                              intersects(zones[i], buffer(rivers.data[k], RiverRadius))))
    ensures forall i :: 0 <= i < |zones| ==>
      verdict[i] == Dictaminar(gas[i], water[i], if slopes.Some? then slopes.value[i] else 0.0)
  {
    gas := seq(|zones|, _ => false);
    water := seq(|zones|, _ => false);
    if denue.Loaded? && denue.data.hasCode {
      gas := MarkNear(gas, zones, GasStations(denue.data.businesses), GasRadius, buffer, intersects);
    }
    if rivers.Loaded? {
      water := MarkNear(water, zones, rivers.data, RiverRadius, buffer, intersects);
    }
    verdict := seq(|zones|, i requires 0 <= i < |zones| =>
      Dictaminar(gas[i], water[i], if slopes.Some? then slopes.value[i] else 0.0));
  }
}
