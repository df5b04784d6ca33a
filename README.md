# Territorial vulnerability engine of Catemaco, modelled in Dafny

This project models the core of a territorial-analysis system for the
municipality of Catemaco (Veracruz). A batch engine reads the 2020 census
tables of city blocks and rural localities and produces one scored zone per
polygon of the map. A dashboard then applies decision rules to those zones.

The batch engine (`generar_datos_final.py`) does the following:

- It normalises column names.
- It computes five deprivation sub-indices (`CAR_*_20`). Their mean is the
  composite `SITS_INDEX`.
- It computes three MCR2030 resilience indices (`IND_*`) and three
  Sendai-framework indices (`SENDAI_*`). Zero denominators become 1, absent
  variables count as 0, and every index is clipped to [0, 1].
- It classifies the businesses of the DENUE directory by SCIAN prefix and
  counts them per zone and sector.
- It derives a slope per zone from the elevation model and classifies it.
- It flags zones near fuel stations or rivers and issues a viability verdict.
- It selects the rows of the municipality, keys them by CVEGEO, joins them
  to the polygons and projects the population to 2025.

The dashboard (`app.py`) does the following:

- It shields the frames against missing engineering columns.
- It labels operational status per axis.
- It derives each zone's priority, dominant vocation and suggested
  public-works action.
- It colours the verdict, hazard, deprivation and slope maps.
- It estimates informality, the weighted incidence of a deprivation and the
  number of affected families.

Modules:

- `Util`: options, results, the census table and string helpers.
- `Columns`: column-name cleaning.
- `Indicators`: the indicator engine.
- `Economy`: the economic integrator.
- `Topography`: zonal slopes and the terrain class.
- `Restrictions`: flags and the verdict.
- `Assembly`: selection, keying, join and projection.
- `Dashboard`: the rules of the dashboard.

Census cells are text, because the CSV is read as strings. The numeric
reading of a text (`pd.to_numeric`) is a parameter `parse` that returns
`None` where pandas would give NaN. Floating-point arithmetic is modelled as
exact rational arithmetic. Frames that the source mutates and returns are
values that flow in and out of methods.

## Model

| member | source | states |
|---|---|---|
| Columns.UpperNormalises | generar_datos_final.py:126 | upper-casing keeps the length, leaves no lower-case ASCII letter and is idempotent |
| Columns.LeadingSpaces | generar_datos_final.py:126 | the count covers exactly the whitespace run before the first non-space character |
| Columns.TrailingSpaces | generar_datos_final.py:126 | the count covers exactly the whitespace run after the last non-space character |
| Columns.StripTrims | generar_datos_final.py:126 | strip returns a slice of the input; everything cut away is whitespace; the result neither starts nor ends with whitespace |
| Columns.StripIdempotent | generar_datos_final.py:126 | stripping twice equals stripping once |
| Columns.CleanColumnNames | generar_datos_final.py:122-136 | when no cleaned name is "ENTIDAD" and the first contains it, every column named like the first becomes "ENTIDAD"; otherwise the names are the cleaned ones. "ENTIDAD" is then a column iff it already was or the first name contains it |
| Indicators.CoercedUpToContents | generar_datos_final.py:162-164 | after k passes a row holds exactly the first k census variables it has, each coerced, with non-numbers read as 0 |
| Indicators.Coerced | generar_datos_final.py:162-164 | the coerced row holds exactly the census variables the row has, each coerced from its text |
| Indicators.SafeUpTo | generar_datos_final.py:167-168 | no key is added or dropped; only the treated denominators change, and only a 0 (which becomes 1) |
| Indicators.Safe | generar_datos_final.py:167-168 | the keys are unchanged; a 0 in POBTOT, TVIVPARHAB, P_15YMAS or PEA becomes 1; every other value is untouched |
| Indicators.CoerceColumns | generar_datos_final.py:162-164 | the coercion loop gives every row exactly its coerced census variables |
| Indicators.ReplaceZeroDenominators | generar_datos_final.py:166-168 | the denominator loop gives every row its zero-free version |
| Indicators.Score | generar_datos_final.py:171-237 | all eleven indices lie in [0, 1]; SITS_INDEX is the mean of the five clipped sub-indices and is not clipped again |
| Indicators.SafeRowIsScorable | generar_datos_final.py:162-168 | when P_15YMAS, POBTOT and TVIVPARHAB are present, after both passes none of the four denominators is 0 |
| Indicators.CoercedKeepsKeys | generar_datos_final.py:162-164 | the three directly indexed denominators survive coercion |
| Indicators.SafeOfPresent | generar_datos_final.py:167-168 | a row with those three columns has no zero denominator after the replacement loop |
| Indicators.AbsentCountsAsZero | generar_datos_final.py:171 | any variable other than a denominator gives the same indices whether it is absent or 0 |
| Indicators.SameReadsSameDeprivation | generar_datos_final.py:177-194 | rows that read alike through `g` have equal raw deprivation sub-indices |
| Indicators.SameReadsSameResilience | generar_datos_final.py:205-232 | rows that read alike and agree on having PEA have equal raw resilience and Sendai values |
| Indicators.HealthExtremes | generar_datos_final.py:181 | health deprivation is 0 when everyone is insured and 1 when nobody is |
| Indicators.ProcessIndicators | generar_datos_final.py:141-239 | fails iff P_15YMAS, POBTOT or TVIVPARHAB is missing, naming the first one read; otherwise scores every row, with every index in [0, 1] |
| Economy.ClassifyIsTableLookup | generar_datos_final.py:267-275 | the sector is the table lookup of the two-character prefix; anything else, including codes shorter than 2, is Otros; codes sharing a prefix share a sector |
| Economy.ClassifyExamples | generar_datos_final.py:267-275 | 72… is tourism, 464… is commerce, and 473, 999 and 7 are Otros |
| Economy.CountsAreFaithful | generar_datos_final.py:283-284 | each sector count is the number of the zone's points in that sector; the total counts every point of the zone once, Otros included |
| Economy.IncCountsOne | generar_datos_final.py:283 | a point adds one to its own sector and to the total, and nothing else |
| Economy.CountBySector | generar_datos_final.py:283-284 | the group-by table has an entry exactly for the zones with a point, holding their counts |
| Economy.NoPointsNoCounts | generar_datos_final.py:287 | a zone without points gets all-zero counts, as the left merge fills them with 0 |
| Economy.EconOf | generar_datos_final.py:284-296 | the total covers all five sectors; the tourism ratio lies in [0, 1], is 0 without businesses and otherwise times the total gives the tourism count |
| Economy.RatioBounds | generar_datos_final.py:296 | a part over a positive whole it belongs to is a share in [0, 1] |
| Economy.IntegrateEconomy | generar_datos_final.py:244-303 | with no path every column is 0; an unreadable directory leaves the frame without the columns; otherwise each zone gets its point counts per sector, the total of its points, and the tourism ratio: 0 without businesses, else the tourism count over the total |
| Economy.ZoneColumnsOfCounts | generar_datos_final.py:283-296 | the columns built from a zone's counts are its points per sector, its total, and a ratio in [0, 1] that times the total gives the tourism count |
| Topography.ValidCells | generar_datos_final.py:336 | the kept cells are the input cells above -9999, each as often as in the input, never more than the input |
| Topography.ValidCellsIsFilter | generar_datos_final.py:336 | filtering a concatenation is concatenating the filtered parts, and one cell is kept iff it is above -9999, so the input order is kept |
| Topography.NoDataIgnored | generar_datos_final.py:336-349 | a no-data cell at either end changes neither the valid cells nor the zone's slope |
| Topography.LeadingNoDataIgnored | generar_datos_final.py:336 | a leading no-data cell is dropped |
| Topography.AllNoDataIsFlat | generar_datos_final.py:338-349 | a zone whose cells are all no-data has no valid cell and slope 0 |
| Topography.SlopeNonNegative | generar_datos_final.py:347-352 | a zone's slope is never negative |
| Topography.ZonalSlopes | generar_datos_final.py:309-358 | None iff the raster cannot be opened; otherwise one slope per polygon, in polygon order: five times the std of the valid cells, or 0 when there is none or masking raised |
| Topography.ClassifySlopeBands | generar_datos_final.py:389-392 | each class is exactly its band (<5, [5, 15), ≥15); the class is monotone in the slope; 15 itself is NO URBANIZABLE |
| Topography.ProcessTopography | generar_datos_final.py:360-399 | without a DEM every zone keeps slope 0 and "Plano (Sin Dato)"; otherwise it uses the zonal slopes when they form a non-empty list and the draws in [1, 30) when they do not, every slope is non-negative, and every zone gets the class of its slope |
| Restrictions.GasStations | generar_datos_final.py:421 | the gas sources are exactly the businesses whose code starts with 464 or 473 |
| Restrictions.VerdictRules | generar_datos_final.py:456-460 | first match wins: gas is chemical risk, then water is federal zone, then a slope over 15 is landslide, else feasible; a slope of exactly 15 is feasible |
| Restrictions.VerdictMonotoneInSlope | generar_datos_final.py:459 | a steeper slope never improves the verdict |
| Restrictions.MarkNearTwice | generar_datos_final.py:429-431 | setting the flags near the same hazards a second time changes nothing |
| Restrictions.MarkNearConcat | generar_datos_final.py:429-431 | setting the flags near one hazard list and then another equals setting them near both lists at once |
| Restrictions.ProcessRestrictions | generar_datos_final.py:405-465 | the gas flag is set iff the directory loaded with codes and the zone meets a 464/473 business buffer of 0.001; the water flag iff the rivers loaded and the zone meets a 0.0002 buffer; the verdict follows the flags and the slope (0 when absent) |
| Assembly.FirstMissing | generar_datos_final.py:496-504 | None iff every listed column is present; otherwise the first absent one, as a KeyError reports it |
| Assembly.FirstMissingAppend | generar_datos_final.py:496-510 | the first missing column of a concatenation comes from the first part when it has one |
| Assembly.FirstMissingScored | generar_datos_final.py:178-186 | the indicator engine's missing columns are reported in the order it reads them |
| Assembly.Select | generar_datos_final.py:494-504 | the selection never has more rows than the frame |
| Assembly.SelectSound | generar_datos_final.py:494-504 | every selected row is a kept row of the frame with its CVEGEO set |
| Assembly.SelectComplete | generar_datos_final.py:494-504 | every kept row (urban: MUN = 032 and MZA ≠ 000; rural: MUN = 032 and LOC not 0000, 9998, 9999 or 0001) is selected with its key |
| Assembly.KeptRowSelected | generar_datos_final.py:494-504 | a kept row reaches the selection, keyed |
| Assembly.SelectRows | generar_datos_final.py:494-504 | a KeyError on the first missing key column; otherwise a rectangular frame with CVEGEO added |
| Assembly.UrbanKeySplits | generar_datos_final.py:498 | an urban CVEGEO of census widths has 16 characters and splits back into ENTIDAD, MUN, LOC, AGEB and MZA |
| Assembly.UrbanKeyInjective | generar_datos_final.py:498 | two census-width urban rows with the same CVEGEO agree on all five key parts |
| Assembly.Matching | generar_datos_final.py:513 | the matches of a key are exactly the right-hand rows that carry it |
| Assembly.MatchingCount | generar_datos_final.py:513 | with unique right keys a key has exactly one match when a right row carries it and none otherwise |
| Assembly.UniqueRightJoinCount | generar_datos_final.py:513 | with unique right keys the join has exactly one row per left row whose key the right side carries |
| Assembly.InnerJoinMembers | generar_datos_final.py:513 | a joined row is exactly a left row and a right row with the same key |
| Assembly.MatchedTail | generar_datos_final.py:513 | the rows one left row contributes are exactly its pairings with the right rows of its key |
| Assembly.UniqueRightJoinShrinks | generar_datos_final.py:513 | with unique right keys the join has at most as many rows as the left side |
| Assembly.UniqueKeyMatchesOnce | generar_datos_final.py:513 | a unique key matches at most once |
| Assembly.AbsentKeyMatchesNothing | generar_datos_final.py:513 | a key absent from the right side matches nothing, so its polygon is dropped |
| Assembly.ProjectionGrows | generar_datos_final.py:48-49 | with a factor of at least 1 (1.048 and 1.012) no non-negative group shrinks from 2020 to 2025 |
| Assembly.EmptyZoneProjection | generar_datos_final.py:518-527 | a zone whose POBTOT reads 0 gets P20_TOT = 1 and P25_TOT = factor, because the engine replaced the 0 first |
| Assembly.ProcessGeo | generar_datos_final.py:470-527 | no input gives no layer; a missing key or indicator column fails with the first one reached; otherwise every zone is a polygon joined to a kept census row with the same CVEGEO, scored, with P20_TOT = POBTOT and every P25_* = count × factor; every such pair yields a zone made of that polygon and that row; and when the kept rows have distinct CVEGEO there is exactly one zone per polygon whose key a kept row carries |
| Assembly.JoinAndProject | generar_datos_final.py:513-527 | the merged and projected zones are faithful to their polygon and census row, cover every matching pair with that pair's polygon and row, and number one per matched polygon when the kept keys are distinct |
| Assembly.ZoneOfMatch | generar_datos_final.py:513-527 | a polygon and a prepared census row with the same key form a faithful zone |
| Assembly.KeyedRows | generar_datos_final.py:496-504 | a frame with every key column has those columns in each row |
| Assembly.JoinedRowHasSources | generar_datos_final.py:513 | a joined row comes from a left row and a right row with its key |
| Assembly.MatchedPairJoined | generar_datos_final.py:513 | a left row and a right row with the same key are joined |
| Assembly.ZonesFaithful | generar_datos_final.py:513-527 | every zone of the layer is faithful to its polygon and census row |
| Assembly.ZonesCover | generar_datos_final.py:513 | every polygon and kept census row with the same key yield a zone holding that polygon and that row, keyed |
| Assembly.PolygonYieldsZone | generar_datos_final.py:513 | one polygon with a matching kept row yields a zone holding both |
| Assembly.SelectUniqueKeys | generar_datos_final.py:494-504 | when no two kept rows share a key, the selected rows have pairwise distinct CVEGEO |
| Assembly.RightKeyIsKept | generar_datos_final.py:494-513 | every key on the census side of the merge is the key of a kept row |
| Assembly.KeptKeyIsRight | generar_datos_final.py:494-513 | the key of every kept row is on the census side of the merge |
| Assembly.RightKeysAreKeptKeys | generar_datos_final.py:494-513 | a key is on the census side of the merge iff some kept row has it |
| Assembly.CountsAgree | generar_datos_final.py:513 | counting the polygons matched on the census side equals counting those whose key a kept row carries |
| Assembly.ZoneCount | generar_datos_final.py:494-513 | with distinct kept keys the merge has exactly one row per polygon whose key a kept row carries |
| Dashboard.ShieldColumns | app.py:294-303 | in each of df_zona, du and dr, every engineering column that was present is untouched and every missing one is added with its default; no other column changes |
| Dashboard.ShieldCompletes | app.py:294-303 | a shielded frame is well formed, has all five engineering columns, and a second shield pass changes nothing |
| Dashboard.ShieldDefaults | app.py:298 | PENDIENTE and RESTRICCION columns default to 0; DICTAMEN and CLASIFICACION columns default to "Sin Análisis" |
| Dashboard.StatusHidricoBands | app.py:589-592 | red iff < 0.4, yellow iff in [0.4, 0.7), green iff ≥ 0.7; more resilience is never more urgent |
| Dashboard.StatusAmbientalBands | app.py:598-601 | red iff > 0.4, yellow iff in (0.2, 0.4], green iff ≤ 0.2; more pressure is never less urgent |
| Dashboard.StatusSocialBands | app.py:607-610 | red iff > 0.3, yellow iff in (0.15, 0.3], green iff ≤ 0.15; more risk is never less urgent |
| Dashboard.Priority | app.py:752 | the mean of SITS_INDEX, social risk and Sendai P1 lies in [0, 1] for scored zones; it is at least SITS_INDEX when that is the smallest of the three, at most SITS_INDEX when that is the largest, and equal to it when all three agree |
| Dashboard.ArgMaxIsFirstMaximum | app.py:762-768 | the chosen sector has the largest count, and every sector listed before it has a strictly smaller count |
| Dashboard.VocationCases | app.py:755-769 | no business gives Rezago iff P25_TOT > 50 and Sin Actividad otherwise; a sector is chosen iff there is a business; with businesses only in Otros, TURISMO wins the tie at 0 |
| Dashboard.ActionBands | app.py:774-786 | Monitoreo iff priority ≤ 0.25; Mantenimiento iff in (0.25, 0.40]; otherwise one of the four critical actions, chosen by the substring tests in order |
| Dashboard.ActionForVocation | app.py:777-783 | above 0.40, on the vocation labels: tourism gives urban rescue, Rezago basic infrastructure, commerce security and lighting, and industry, services or no activity the integral social intervention |
| Dashboard.VerdictWords | app.py:963-967 | on the verdict labels: RIESGO appears iff the verdict is chemical or landslide risk, FEDERAL iff federal zone, DESLAVE iff landslide, and NO URBANIZABLE never |
| Dashboard.ColorDictamenOfVerdicts | app.py:963-967 | as written: green iff the verdict is FACTIBLE, red for every other verdict, never orange |
| Dashboard.UnanalysedIsGreen | app.py:963-967 | a verdict filled in by the shield is painted green ("can build") |
| Dashboard.ColorDictamenIntendedOfVerdicts | app.py:949-952 | with the terrain test first: chemical risk and federal zone red, landslide orange, feasible green, as the legend says |
| Dashboard.HazardColors | app.py:969-996 | gas is red before water is blue, else blank; a zone is drawn (polygon opaque, point kept) iff a flag is set; the colours agree with the verdict's first two rules |
| Dashboard.ShieldedFlagsDrawNothing | app.py:979-996 | zones whose flags the shield defaulted to 0 are not drawn in the hazard view |
| Dashboard.DeprivationColorBands | app.py:350-353 | each colour is exactly its band (≥0.4, [0.25, 0.4), [0.15, 0.25), <0.15), and the colour never gets milder as deprivation grows |
| Dashboard.PriorityOpacityMonotone | app.py:801-807 | opacity is monotone in the value, lies in [0.1, 0.8], and is 0.1 for a missing value |
| Dashboard.SlopeColorFollowsClass | app.py:998-999 | the rural slope colour is the colour of the normative class of the slope (5 and 15 thresholds) |
| Dashboard.Informality | app.py:897-899 | the estimate is never negative and is either 0 or PEA − 3·ECO_TOTAL, whichever is larger |
| Dashboard.InformalityMonotone | app.py:897-899 | more businesses never raise the estimate; it is 0 once three jobs per business cover the PEA |
| Dashboard.AffectedWithinGroup | app.py:419-421 | with rates in [0, 1] the affected people lie between none and the whole group |
| Dashboard.IncidenceIsPercentage | app.py:419-422 | the incidence lies in [0, 100], and times the group total it equals 100 times the affected count |
| Dashboard.EstimatedFamilies | app.py:455-458 | families times 3.6 give back the priority people |
| Dashboard.FamiliesBounded | app.py:455-458 | with a rate in [0, 1] the priority people are part of the group and the families at most the group over 3.6 |

## Left out

- File discovery, CSV reading, the encoding fallback and export are not
  modelled. A layer's inputs are given (`None` when missing or unreadable).
- Geometry is not modelled: reprojection, buffers, the within and
  intersects joins, raster masking, centroids. The source calls libraries
  for these, so they are parameters or given relations over an abstract
  geometry type.
- `np.std` is an uninterpreted function. The seeded `np.random.uniform`
  fallback is a given sequence of draws.
- Upper-casing and stripping are modelled on ASCII only. The Unicode
  NFKD-and-drop-non-ASCII fold is an abstract `fold` function.
- Floating-point rounding is not modelled. Arithmetic is exact over `real`.
- Labels are modelled without their emoji. The substring tests of the
  dashboard do not depend on them.
- The `NOMGEO` rename and name collisions between shapefile and census
  columns in the merge are not modelled. Zones carry the census row and the
  polygon separately.
- Assembly.ProcessGeo: stops after the projection. Chaining the economy,
  topography and restriction steps onto the layer is modelled by their own
  methods over the zones' keys and geometries, not composed into one method.
- Assembly.ProcessGeo: key cells are text, and a NaN key cell is assumed not
  to occur. In the source an empty MZA cell reads as NaN, passes the
  `!= '000'` test and makes the CVEGEO NaN; that path is not modelled.
- Assembly.ProcessGeo: the column cleaning of generar_datos_final.py:491
  (`limpiar_nombres_columnas`) is not composed into the method. It is
  modelled on its own as Columns.CleanColumnNames, and the frame given to
  ProcessGeo is taken to be already cleaned.
- Assembly.ProcessGeo: with distinct kept keys the zone count is proved
  exactly. When two kept rows share a CVEGEO the merge may give a polygon
  several zones; only faithfulness and coverage are stated then.
- Economy.IntegrateEconomy: an exception in reading or joining returns the
  frame without the economic columns (`None`). The failure itself is not
  modelled.
- Economy.IntegrateEconomy: each business carries its activity code as text.
  When the directory has no `codigo_act` column the source classifies the
  first cell of the row instead (`row.iloc[0]`, generar_datos_final.py:269);
  that fallback is not modelled.
- Economy.IntegrateEconomy: the merge's `fillna(0)` (generar_datos_final.py:287)
  fills every column of the frame, not only the counts. Only the count
  columns are modelled, so zeroing NaN in other columns is not.
- Economy.IntegrateEconomy: the `ECO_OTROS` column that the pivot creates
  when a business falls to Otros is not carried as a zone column. Otros
  points are counted and enter `ECO_TOTAL`.
- Topography.ProcessTopography: the fallback draws are taken to lie in
  [1, 30), as `np.random.uniform(1, 30)` promises, and `np.std` to be
  non-negative. Both are requirements on the given parameters.
- Topography.ProcessTopography: an exception in the topography module
  leaves the defaults. The model has no separate exception path beyond the
  raster not opening.
- The Streamlit, folium and plotly layer is not modelled: widgets, sidebar
  filters, map layout, the pandas quantile thresholds, the simulated 5%
  target, downloads, and the Sendai resource arithmetic of the logistics
  tabs. These are UI or presentation, not decision rules.
- Propagation of `IND_PRIORIDAD_TOTAL` to the map copies by reindexing on
  CVEGEO is not modelled.
- The urban slope choropleth is not modelled. Its colour scale comes from
  the plotting library.
- The river layer loading of the dashboard is not modelled, because it is
  I/O.

## Findings

| source | as written | input that shows it | evidently intended | confidence | as-written member | corrected member |
|---|---|---|---|---|---|---|
| app.py:963-967 | `color_dictamen` tests "RIESGO" or "FEDERAL" before "NO URBANIZABLE" or "DESLAVE", so the landslide verdict is painted red and the orange branch is never reached for any verdict the engine writes | the verdict "RIESGO DESLAVE" (a zone with no flag and slope over 15) | orange, the legend's "difficult terrain" colour (app.py:951) | high, not executed | Dashboard.ColorDictamenOfVerdicts | Dashboard.ColorDictamenIntendedOfVerdicts |
