/**
  The terrain module (`calcular_pendiente_zonal`, `procesar_topografia`): each
  zone's slope index is five times the standard deviation of the elevation
  cells of the DEM that fall inside it (no-data cells, at or below -9999,
  dropped); when the raster cannot be used, a seeded uniform draw in [1, 30)
  stands in. Every slope then gets the normative class.

  Masking the raster with a polygon and `np.std` are library numerics: they
  are the parameters `mask` (the cells, or `None` when masking raised) and
  `std`. The seeded random draw is the parameter `draws`.
 */
module Topography {
  import opened Util

  /** Cells at or below this elevation are treated as no data. */
  const NoData: real := -9999.0

  /** Factor turning an elevation standard deviation into a percentage-like slope. */
  const SlopeFactor: real := 5.0

  /** `out_image[out_image > -9999]`: the valid cells, in order. Every cell above
      the no-data value is kept as often as it occurs, and no other. */
  function ValidCells(cells: seq<real>): (v: seq<real>)
    ensures |v| <= |cells|
    ensures forall x :: x in v <==> x in cells && x > NoData
    ensures forall x :: multiset(v)[x] == if x > NoData then multiset(cells)[x] else 0
  {
    if cells == [] then []
    else
      var last := cells[|cells| - 1];
      assert cells == cells[..|cells| - 1] + [last];
      ValidCells(cells[..|cells| - 1]) + (if last > NoData then [last] else [])
  }

  /** The valid cells of a concatenation are the valid cells of each part, in
      order, and a single cell is kept exactly when it is above the no-data value:
      together, `ValidCells` is the order-preserving filter of the valid cells. */
  lemma {:induction false} ValidCellsIsFilter(a: seq<real>, b: seq<real>, x: real)
    ensures ValidCells(a + b) == ValidCells(a) + ValidCells(b)
    ensures ValidCells([x]) == if x > NoData then [x] else []
  {
    if b == [] {
      assert a + b == a;
    } else {
      var init := b[..|b| - 1];
      ValidCellsIsFilter(a, init, x);
      assert (a + b)[..|a + b| - 1] == a + init;
      assert (a + b)[|a + b| - 1] == b[|b| - 1];
    }
    assert [x][..0] == [];
  }

  /** The slope of one zone: five standard deviations of its valid cells, or 0 when
      it has no valid cell or masking raised. */
  function ZoneSlope(masked: Option<seq<real>>, std: seq<real> -> real): real
  {
    match masked
    case None => 0.0
    case Some(cells) =>
      var v := ValidCells(cells);
      if |v| > 0 then std(v) * SlopeFactor else 0.0
  }

  /** No-data cells never change a zone's valid cells or its slope, whether they come
      first or last. */
  lemma NoDataIgnored(cells: seq<real>, x: real, std: seq<real> -> real)
    requires x <= NoData
    ensures ValidCells(cells + [x]) == ValidCells(cells)
    ensures ValidCells([x] + cells) == ValidCells(cells)
    ensures ZoneSlope(Some(cells + [x]), std) == ZoneSlope(Some(cells), std)
    ensures ZoneSlope(Some([x] + cells), std) == ZoneSlope(Some(cells), std)
  {
    assert (cells + [x])[..|cells|] == cells;
    LeadingNoDataIgnored(cells, x);
  }

  lemma {:induction false} LeadingNoDataIgnored(cells: seq<real>, x: real)
    requires x <= NoData
    ensures ValidCells([x] + cells) == ValidCells(cells)
  {
    if cells != [] {
      var init := cells[..|cells| - 1];
      LeadingNoDataIgnored(init, x);
      assert ([x] + cells)[..|cells|] == [x] + init;
    } else {
      assert [x] + cells == [x];
      assert [x][..0] == [];
    }
  }

  /** A zone whose cells are all no-data has no valid cell and slope 0. */
  lemma {:induction false} AllNoDataIsFlat(cells: seq<real>, std: seq<real> -> real)
    requires forall k :: 0 <= k < |cells| ==> cells[k] <= NoData
    ensures ValidCells(cells) == []
    ensures ZoneSlope(Some(cells), std) == 0.0
  {
    if cells != [] {
      AllNoDataIsFlat(cells[..|cells| - 1], std);
    }
  }

  /** A slope is never negative when the spread is not. */
  lemma SlopeNonNegative(masked: Option<seq<real>>, std: seq<real> -> real)
    requires forall v :: 0.0 <= std(v)
    ensures 0.0 <= ZoneSlope(masked, std)
  {
  }

  /** `calcular_pendiente_zonal`: `None` when the raster cannot be opened (or no
      raster library or path), otherwise one slope per zone, in zone order. */
  method ZonalSlopes<Z>(zones: seq<Z>, rasterOpens: bool, mask: Z -> Option<seq<real>>,
                        std: seq<real> -> real)
    returns (r: Option<seq<real>>)
    ensures r.Some? <==> rasterOpens
    ensures r.Some? ==> |r.value| == |zones|
    ensures r.Some? ==> forall i :: 0 <= i < |zones| ==> r.value[i] == ZoneSlope(mask(zones[i]), std)
  {
    if !rasterOpens {
      return None;
    }
    var values: seq<real> := [];
    for i := 0 to |zones|
      invariant |values| == i
      invariant forall k :: 0 <= k < i ==> values[k] == ZoneSlope(mask(zones[k]), std)
    {
      var val: real;
      match mask(zones[i]) {
        case None =>
          val := 0.0;
        case Some(cells) =>
          var valid := ValidCells(cells);
          if |valid| > 0 {
            val := std(valid) * SlopeFactor;
          } else {
            val := 0.0;
          }
      }
      values := values + [val];
    }
    return Some(values);
  }

  /** `CLASIFICACION_TOPOGRAFICA`. */
  datatype TopoClass = SinDato | Plano | Lomerio | NoUrbanizable

  function TopoLabel(c: TopoClass): string
  {
    match c
    case SinDato => "Plano (Sin Dato)"
    case Plano => "Plano (Viable)"
    case Lomerio => "Lomerío (Condicionado)"
    case NoUrbanizable => "NO URBANIZABLE (>15%)"
  }

  /** Classes in order of severity. */
  function Severity(c: TopoClass): nat
  {
    match c
    case SinDato => 0
    case Plano => 0
    case Lomerio => 1
    case NoUrbanizable => 2
  }

  /** `clasificar_pendiente`. */
  function ClassifySlope(val: real): TopoClass
  {
    if val < 5.0 then Plano
    else if val < 15.0 then Lomerio
    else NoUrbanizable
  }

  /** The classification is monotone in the slope, each class is exactly its band,
      and the band of NO URBANIZABLE starts at 15 itself although its label reads
      ">15%". */
  lemma ClassifySlopeBands(a: real, b: real)
    ensures a <= b ==> Severity(ClassifySlope(a)) <= Severity(ClassifySlope(b))
    ensures ClassifySlope(a) == Plano <==> a < 5.0
    ensures ClassifySlope(a) == Lomerio <==> 5.0 <= a < 15.0
    ensures ClassifySlope(a) == NoUrbanizable <==> 15.0 <= a
    ensures ClassifySlope(a) != SinDato
    ensures ClassifySlope(15.0) == NoUrbanizable
  {
  }

  /** `procesar_topografia` on a layer of zones. Without a DEM path the slope stays
      0 and the class "Plano (Sin Dato)". Otherwise the zonal slopes are used when
      they came back as a non-empty list, and the random draws (uniform in [1, 30))
      when they did not; every zone is then classified by its slope. Since a
      standard deviation is never negative, no slope is. */
  method ProcessTopography<Z>(zones: seq<Z>, demPath: bool, rasterOpens: bool,
                              mask: Z -> Option<seq<real>>, std: seq<real> -> real,
                              draws: seq<real>)
    returns (slopes: seq<real>, classes: seq<TopoClass>)
    requires |draws| == |zones|
    requires forall i :: 0 <= i < |draws| ==> 1.0 <= draws[i] < 30.0
    requires forall v :: 0.0 <= std(v)
    ensures |slopes| == |zones| && |classes| == |zones|
    ensures forall i :: 0 <= i < |zones| ==> 0.0 <= slopes[i]
    ensures !demPath ==> forall i :: 0 <= i < |zones| ==> slopes[i] == 0.0 && classes[i] == SinDato
    ensures demPath ==> forall i :: 0 <= i < |zones| ==> classes[i] == ClassifySlope(slopes[i])
    ensures demPath && rasterOpens && |zones| > 0 ==>
      forall i :: 0 <= i < |zones| ==> slopes[i] == ZoneSlope(mask(zones[i]), std)
    ensures demPath && !(rasterOpens && |zones| > 0) ==> slopes == draws
  {
    slopes := seq(|zones|, _ => 0.0);
    classes := seq(|zones|, _ => SinDato);
    if !demPath {
      return;
    }
    var zonal := ZonalSlopes(zones, rasterOpens, mask, std);
    if zonal.Some? && |zonal.value| > 0 {
      slopes := zonal.value;
      forall i | 0 <= i < |zones| ensures 0.0 <= slopes[i] {
        SlopeNonNegative(mask(zones[i]), std);
      }
    } else {
      slopes := draws;
    }
    classes := seq(|slopes|, i requires 0 <= i < |slopes| => ClassifySlope(slopes[i]));
  }
}
