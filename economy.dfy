/**
  The economic integrator (`integrar_economia`): each business point of the
  DENUE directory gets a sector from the first two characters of its SCIAN
  code, points are counted per (zone, sector), a zone total is formed over
  all sectors, and the tourism-dependency ratio is the tourism count over the
  total (over 1 when the total is 0).

  The point-within-polygon spatial join is library geometry: it is given as the
  list of (CVEGEO of the containing zone, activity code) pairs it produces.
 */
module Economy {
  import opened Util

  datatype Sector = Turismo | Comercio | Industria | Servicios | Otros

  /** `clasificar_scian`: the sector of an activity code, read off its first two
      characters (`str(code)[0:2]`). */
  function ClassifyScian(code: string): Sector
  {
    var p := Prefix(code, 2);
    if p == "72" then Turismo
    else if p == "46" || p == "43" then Comercio
    else if p == "31" || p == "32" || p == "33" then Industria
    else if p == "81" || p == "54" || p == "61" || p == "62" then Servicios
    else Otros
  }

  /** The sector table as data: two-character prefix to sector. */
  const ScianTable: map<string, Sector> := map[
    "72" := Turismo,
    "46" := Comercio, "43" := Comercio,
    "31" := Industria, "32" := Industria, "33" := Industria,
    "81" := Servicios, "54" := Servicios, "61" := Servicios, "62" := Servicios]

  /** Classification is the table lookup of the two-character prefix, with every
      prefix outside the table (including codes shorter than two characters)
      falling to Otros; so codes that agree on their first two characters
      always share a sector. */
  lemma ClassifyIsTableLookup(code: string, other: string)
    ensures ClassifyScian(code) ==
      if Prefix(code, 2) in ScianTable then ScianTable[Prefix(code, 2)] else Otros
    ensures |code| < 2 ==> ClassifyScian(code) == Otros
    ensures Prefix(code, 2) == Prefix(other, 2) ==> ClassifyScian(code) == ClassifyScian(other)
  {
    var p := Prefix(code, 2);
    if |code| < 2 {
      assert |p| < 2;
      assert p !in ScianTable;
    }
  }

  /** Hotel/restaurant codes are tourism, fuel retail (464...) is commerce, and the
      gas-distribution prefix 473 falls to Otros. */
  lemma ClassifyExamples()
    ensures ClassifyScian("721111") == Turismo
    ensures ClassifyScian("464111") == Comercio
    ensures ClassifyScian("473") == Otros
    ensures ClassifyScian("999") == Otros
    ensures ClassifyScian("7") == Otros
  {
    assert Prefix("721111", 2) == "72";
    assert Prefix("464111", 2) == "46";
    assert Prefix("473", 2) == "47";
    assert Prefix("999", 2) == "99";
  }

  /** Business counts of one zone, one per sector. */
  datatype SectorCounts = SectorCounts(turismo: nat, comercio: nat, industria: nat, servicios: nat, otros: nat)
  {
    function Get(s: Sector): nat
    {
      match s
      case Turismo => turismo
      case Comercio => comercio
      case Industria => industria
      case Servicios => servicios
      case Otros => otros
    }

    function Inc(s: Sector): SectorCounts
    {
      match s
      case Turismo => this.(turismo := turismo + 1)
      case Comercio => this.(comercio := comercio + 1)
      case Industria => this.(industria := industria + 1)
      case Servicios => this.(servicios := servicios + 1)
      case Otros => this.(otros := otros + 1)
    }

    /** `ECO_TOTAL`: the row sum over every sector column, Otros included. */
    function Total(): nat
    {
      turismo + comercio + industria + servicios + otros
    }
  }

  const NoCounts := SectorCounts(0, 0, 0, 0, 0)

  /** One row of the within-join: the CVEGEO of the containing zone and the code. */
  type Hit = (string, string)

  /** Number of joined points in `zone`. */
  function PointsIn(hits: seq<Hit>, zone: string): nat
  {
    if hits == [] then 0
    else PointsIn(hits[..|hits| - 1], zone) + (if hits[|hits| - 1].0 == zone then 1 else 0)
  }

  /** Number of joined points in `zone` whose code classifies as `s`. */
  function PointsOfSector(hits: seq<Hit>, zone: string, s: Sector): nat
  {
    if hits == [] then 0
    else
      var h := hits[|hits| - 1];
      PointsOfSector(hits[..|hits| - 1], zone, s) +
        (if h.0 == zone && ClassifyScian(h.1) == s then 1 else 0)
  }

  /** The counts of `zone` built point by point, as the group-by does. */
  function CountsOf(hits: seq<Hit>, zone: string): SectorCounts
  {
    if hits == [] then NoCounts
    else
      var h := hits[|hits| - 1];
      var c := CountsOf(hits[..|hits| - 1], zone);
      if h.0 == zone then c.Inc(ClassifyScian(h.1)) else c
  }

  /** Each sector count is the number of the zone's points in that sector, and the
      zone total is the number of the zone's points: every point is counted once,
      in exactly one sector. */
  lemma {:induction false} CountsAreFaithful(hits: seq<Hit>, zone: string)
    ensures forall s :: CountsOf(hits, zone).Get(s) == PointsOfSector(hits, zone, s)
    ensures CountsOf(hits, zone).Total() == PointsIn(hits, zone)
  {
    if hits != [] {
      var h := hits[|hits| - 1];
      CountsAreFaithful(hits[..|hits| - 1], zone);
      if h.0 == zone {
        IncCountsOne(CountsOf(hits[..|hits| - 1], zone), ClassifyScian(h.1));
      }
    }
  }

  /** Incrementing a sector adds one to that sector and to the total, nothing else. */
  lemma IncCountsOne(c: SectorCounts, t: Sector)
    ensures forall s :: c.Inc(t).Get(s) == c.Get(s) + (if s == t then 1 else 0)
    ensures c.Inc(t).Total() == c.Total() + 1
  {
  }

  /** The group-by count of `integrar_economia`: one entry per zone that holds at
      least one point, with that zone's counts. */
  method CountBySector(hits: seq<Hit>) returns (table: map<string, SectorCounts>)
    ensures forall z :: z in table <==> PointsIn(hits, z) > 0
    ensures forall z :: z in table ==> table[z] == CountsOf(hits, z)
  {
    table := map[];
    for k := 0 to |hits|
      invariant forall z :: z in table <==> PointsIn(hits[..k], z) > 0
      invariant forall z :: z in table ==> table[z] == CountsOf(hits[..k], z)
    {
      var (zone, code) := hits[k];
      if zone !in table {
        NoPointsNoCounts(hits[..k], zone);
      }
      var before := if zone in table then table[zone] else NoCounts;
      table := table[zone := before.Inc(ClassifyScian(code))];
      assert hits[..k + 1][..k] == hits[..k];
    }
    assert hits[..|hits|] == hits;
  }

  lemma {:induction false} NoPointsNoCounts(hits: seq<Hit>, zone: string)
    requires PointsIn(hits, zone) == 0
    ensures CountsOf(hits, zone) == NoCounts
  {
    if hits != [] {
      NoPointsNoCounts(hits[..|hits| - 1], zone);
    }
  }

  /** The six economic columns of a zone. */
  datatype EconCols = EconCols(
    total: nat,           // ECO_TOTAL
    turismo: nat,         // ECO_TURISMO
    comercio: nat,        // ECO_COMERCIO
    industria: nat,       // ECO_INDUSTRIA
    servicios: nat,       // ECO_SERVICIOS
    tourismRatio: real)   // IND_VOCACION_TURISTICA

  const ZeroEcon := EconCols(0, 0, 0, 0, 0, 0.0)

  /** The columns of a zone from its counts: the total over all five sectors and the
      tourism share, which lies in [0, 1], is 0 when the zone has no business, and
      otherwise times the total gives back the tourism count. */
  function EconOf(c: SectorCounts): (e: EconCols)
    ensures e.total == c.Total() && e.turismo == c.turismo && e.comercio == c.comercio
    ensures e.industria == c.industria && e.servicios == c.servicios
    ensures 0.0 <= e.tourismRatio <= 1.0
    ensures e.total == 0 ==> e.tourismRatio == 0.0
    ensures e.total > 0 ==> e.tourismRatio * e.total as real == e.turismo as real
  {
    var total := c.Total();
    // the denominator is the total with 0 replaced by 1; then the tourism count is 0 too
    var ratio := if total == 0 then 0.0 else
      (RatioBounds(c.turismo as real, total as real);
       c.turismo as real / total as real);
    EconCols(total, c.turismo, c.comercio, c.industria, c.servicios, ratio)
  }

  /** A count over a total it is part of is a share in [0, 1]. */
  lemma RatioBounds(part: real, whole: real)
    requires 0.0 <= part <= whole && 0.0 < whole
    ensures 0.0 <= part / whole <= 1.0
    ensures part / whole * whole == part
  {
    assert part / whole * whole == part;
  }

  /** The economic columns a zone with point list `hits` gets: one count per sector
      (Otros only in the total), the total of its points, and the tourism ratio in
      [0, 1], which is 0 without businesses and otherwise the tourism count over the
      total; that is, the columns `EconOf` derives from the zone's counts. */
  ghost predicate ZoneColumns(hits: seq<Hit>, zone: string, e: EconCols)
  {
    && e.total == PointsIn(hits, zone)
    && e.turismo == PointsOfSector(hits, zone, Turismo)
    && e.comercio == PointsOfSector(hits, zone, Comercio)
    && e.industria == PointsOfSector(hits, zone, Industria)
    && e.servicios == PointsOfSector(hits, zone, Servicios)
    && 0.0 <= e.tourismRatio <= 1.0
    && (e.total == 0 ==> e.tourismRatio == 0.0)
    && (e.total > 0 ==> e.tourismRatio * e.total as real == e.turismo as real)
    && e == EconOf(CountsOf(hits, zone))
  }

  /** The columns derived from a zone's counts are its point counts and ratio. */
  lemma {:induction false} ZoneColumnsOfCounts(hits: seq<Hit>, zone: string)
    ensures ZoneColumns(hits, zone, EconOf(CountsOf(hits, zone)))
  {
    var c := CountsOf(hits, zone);
    var e := EconOf(c);
    assert e.total == PointsIn(hits, zone) && e.turismo == PointsOfSector(hits, zone, Turismo) &&
           e.comercio == PointsOfSector(hits, zone, Comercio) &&
           e.industria == PointsOfSector(hits, zone, Industria) &&
           e.servicios == PointsOfSector(hits, zone, Servicios) by {
      CountsAreFaithful(hits, zone);
      assert c.Get(Turismo) == PointsOfSector(hits, zone, Turismo);
      assert c.Get(Comercio) == PointsOfSector(hits, zone, Comercio);
      assert c.Get(Industria) == PointsOfSector(hits, zone, Industria);
      assert c.Get(Servicios) == PointsOfSector(hits, zone, Servicios);
    }
  }

  /** `integrar_economia` on the zones of a layer, given by their CVEGEO in frame order.
      No DENUE path: every column is 0. A directory whose reading or joining raised:
      the frame comes back unchanged, without the columns (`None`). Otherwise every
      zone gets the counts of the points within it (0 when none), the total over
      all sectors and the tourism ratio, the tourism count over the total. */
  method IntegrateEconomy(zones: seq<string>, denue: Source<seq<Hit>>) returns (r: Option<seq<EconCols>>)
    ensures denue.Unreadable? <==> r.None?
    ensures r.Some? ==> |r.value| == |zones|
    ensures denue.Absent? ==> forall i :: 0 <= i < |zones| ==> r.value[i] == ZeroEcon
    ensures denue.Loaded? ==> forall i :: 0 <= i < |zones| ==> ZoneColumns(denue.data, zones[i], r.value[i])
  {
    match denue
    case Absent =>
      return Some(seq(|zones|, _ => ZeroEcon));
    case Unreadable =>
      return None;
    case Loaded(hits) =>
      var table := CountBySector(hits);
      var cols := seq(|zones|, i requires 0 <= i < |zones| =>
                    if zones[i] in table then EconOf(table[zones[i]]) else EconOf(NoCounts));
      forall i | 0 <= i < |zones|
        ensures cols[i] == EconOf(CountsOf(hits, zones[i]))
      {
        if zones[i] !in table {
          NoPointsNoCounts(hits, zones[i]);
        }
      }
      forall i | 0 <= i < |zones|
        ensures ZoneColumns(hits, zones[i], cols[i])
      {
        ZoneColumnsOfCounts(hits, zones[i]);
      }
      return Some(cols);
  }
}
