# Foundation quantity estimator: geometry and quantity engine

This project models the computational core of the foundation quantity
estimator. Ten linear dimensions describe a pad foundation:

- the pad's length and width;
- the excavation depth;
- the soling, PCC and RCC thicknesses;
- the height of the trapezoidal section;
- the column's height, width and length.

From them the estimator derives four things:

- six material quantities (excavation, soling, PCC, RCC, trapezoidal section, column);
- a plan view: the pad outline with the column section centred in it;
- an elevation view: six layers stacked bottom-up in a fixed order;
- a CAD outline: an envelope rectangle plus a column rectangle.

All of it is straight-line arithmetic. It is modelled as Dafny functions over
`real`, with lemmas stating what the formulas promise.

Modules:

- `Foundation`: the input record, the layers, the stack order, the two 0.1 m constants.
- `Series`: reference definitions of a sum and of running tops.
- `Geometry`: spans, rectangles, segments, and the closed four-sided outline.
- `Quantities`: the prism and trapezoidal formulas and the quantity set.
- `Views`: the plan and elevation coordinates.
- `Cad`: the CAD envelope and column.

Three details of the program's geometry are easy to misread; the model follows the code in each:

- The trapezoidal volume's top face is 0.1 m shorter in each plan dimension in total, not 0.1 m per side.
  The elevation view, however, draws that top edge 0.1 m in from each side, so the drawn edge is 0.2 m shorter than the pad.
  `Views.TrapezoidDrawnNarrowerThanVolumeFace` states the gap.
- The excavation is drawn as the pit from grade (0) down to its floor.
  The soling starts at that floor, not at grade.
  Contiguity therefore holds from the soling upward; the excavation shares its floor with the soling.
- Two things in the CAD geometry differ from the drawn views, and both are kept as written.
  First, the CAD column starts at `column_length/2` and is not centred on the pad.
  Second, the CAD envelope runs from 0 to the sum of all six vertical dimensions, so it is taller than the elevation view's span by the excavation depth.
  `Cad.CadColumnCentredOnlyWhenPadIsTwiceColumn`, `Cad.CadColumnOffCentreExample` and `Cad.CadEnvelopeExceedsElevation` state both discrepancies.

## Model

`Quantities.PrismVolume` models `calculate_volume` (foundation_quantity_estimator.py:128-129) and
`Quantities.TrapezoidalVolume` models `calculate_trapezoidal_volume` (foundation_quantity_estimator.py:131-134).
Their contracts are the `PrismVolume…` and `TrapezoidalVolume…` lemmas in the table below, which cite those lines.

| member | source | states |
|---|---|---|
| Quantities.PrismVolumeLinear | foundation_quantity_estimator.py:128-129 | the prism volume is linear in length, in width and in height: scaling one factor by k scales the volume by k |
| Quantities.PrismVolumeAdditive | foundation_quantity_estimator.py:128-129 | a prism of height h1 + h2 has the volume of the two prisms of heights h1 and h2 on the same footprint |
| Quantities.PrismVolumeNonNegative | foundation_quantity_estimator.py:128-129 | non-negative sides give a non-negative volume |
| Quantities.TrapezoidalVolumeDeficit | foundation_quantity_estimator.py:131-134 | the trapezoidal volume is the bottom-face prism minus h·(0.1·(L+W) − 0.01)/2, so the 0.1 reduction is absolute and does not scale with the pad |
| Quantities.TrapezoidalVolumeBetweenFaces | foundation_quantity_estimator.py:131-134 | for L, W ≥ 0.1 and h ≥ 0 the volume lies between the prism over the reduced top face and the prism over the bottom face |
| Quantities.TrapezoidalVolumeLinear | foundation_quantity_estimator.py:131-134 | the trapezoidal volume is linear in the section height |
| Quantities.TrapezoidalVolumeNonNegative | foundation_quantity_estimator.py:131-134 | for h ≥ 0 the volume is non-negative whenever (L − 0.05)·(W − 0.05) ≥ 0 |
| Quantities.TrapezoidalVolumeSign | foundation_quantity_estimator.py:131-134 | for h > 0 the volume is non-negative if and only if (L − 0.05)·(W − 0.05) ≥ −0.0025 |
| Quantities.TrapezoidalVolumeNegativeForNarrowPad | foundation_quantity_estimator.py:131-134 | no clamping: a positive 0.01 × 1.0 pad with height 1.0 gives −0.0355 |
| Quantities.ComputeQuantities | foundation_quantity_estimator.py:105-110 | the four pad quantities sum to one prism over the pad and their combined thickness; a pad layer with zero thickness or zero pad area has zero quantity |
| Quantities.PadLayersShareFootprint | foundation_quantity_estimator.py:105-108 | excavation, soling, PCC and RCC are each length × width times their own thickness |
| Quantities.QuantityLinearInThickness | foundation_quantity_estimator.py:105-123 | scaling one layer's vertical dimension by k scales exactly that stored quantity by k and leaves the other five unchanged, with no rounding |
| Quantities.ColumnQuantityIndependentOfPad | foundation_quantity_estimator.py:110 | the column quantity depends only on column length, width and height |
| Quantities.PadQuantitiesIndependentOfColumn | foundation_quantity_estimator.py:105-109 | changing the column dimensions changes none of the other five quantities |
| Quantities.QuantitiesNonNegative | foundation_quantity_estimator.py:105-110 | non-negative dimensions and a pad at least 0.05 in each direction give six non-negative quantities |
| Quantities.WorkedQuantities | foundation_quantity_estimator.py:128-134 | 2.0 × 1.5 × 0.3 = 0.9; trapezoid 2.0, 1.5, 0.4 gives exactly 1.132; column 0.4 × 0.4 × 1.0 = 0.16 |
| Geometry.Outline | foundation_quantity_estimator.py:143-146 | the four sides start at the lower-left, lower-right, upper-right and upper-left corners in that order (bottom, right, top, left), each ends where the next starts, and all are axis-aligned |
| Views.CentredSpan | foundation_quantity_estimator.py:149-152 | the inner span has the inner extent, its start plus half the extent is half the outer extent, it starts below 0 iff it is wider than the outer extent, and it lies within the outer span iff it is not wider |
| Views.Plan | foundation_quantity_estimator.py:143-157 | the pad is (0,0)-(L,W); the column rectangle has the column's extents and the pad's midpoint on both axes; it lies within the pad iff column length ≤ L and column width ≤ W |
| Views.WorkedPlan | foundation_quantity_estimator.py:149-152 | a 3.0 × 2.0 pad with a 0.5 × 0.5 column puts the column at (1.25, 0.75)-(1.75, 1.25) |
| Views.Elevation | foundation_quantity_estimator.py:173-215 | six outlines in stack order: the excavation from −depth to 0; soling from −depth; each later bottom is the previous top; each top is its bottom plus that layer's thickness; full-width edges except the trapezoid top and the column, drawn 0.1 in from each side |
| Series.Accumulate | foundation_quantity_estimator.py:183-211 | reference running tops: the first is base plus the first thickness, each later one the previous top plus its thickness |
| Series.AccumulateLast | foundation_quantity_estimator.py:183-211 | the last running top is the base plus the sum of the thicknesses |
| Series.AccumulateMonotone | foundation_quantity_estimator.py:183-211 | with no negative thickness the running tops are at least the base and never decrease |
| Views.ElevationTopsAccumulate | foundation_quantity_estimator.py:183-211 | the soling, PCC, RCC, trapezoid and column tops are exactly the running tops of the five built thicknesses from the excavation floor |
| Views.ColumnTopIsStackHeight | foundation_quantity_estimator.py:204-211 | the column top is −depth + soling + PCC + RCC + trapezoid height + column height |
| Views.ElevationMonotone | foundation_quantity_estimator.py:183-215 | with non-negative thicknesses every layer's bottom is at most its top and the built layers' bottoms never decrease from the excavation floor up |
| Views.ElevationIgnoresColumnSection | foundation_quantity_estimator.py:206-215 | the column's width and length do not affect the elevation; the column is drawn L − 0.2 wide |
| Views.TrapezoidDrawnNarrowerThanVolumeFace | foundation_quantity_estimator.py:132-134 | the drawn trapezoid top edge is 0.1 shorter than the top face used for the volume |
| Views.QuantitiesMatchElevation | foundation_quantity_estimator.py:105-110 | every quantity is its footprint formula applied to the height between that layer's drawn bottom and top |
| Views.WorkedElevation | foundation_quantity_estimator.py:183-194 | depth 0.3, soling 0.1 and PCC 0.05 give soling [−0.3, −0.2] and PCC [−0.2, −0.15] |
| Cad.Cad | foundation_quantity_estimator.py:264-282 | the envelope is (0,0)-(L, total height); the column rectangle has its top at the total height, height equal to the column height, starts at x = column length/2 and is one column length wide |
| Cad.CadLines | foundation_quantity_estimator.py:272-282 | eight segments: the envelope's four sides, then the column's four sides, each a closed loop through its rectangle's four corners in the order lower-left, lower-right, upper-right, upper-left |
| Cad.CadLinesCoordinates | foundation_quantity_estimator.py:268-282 | the eight segment start points are (0,0), (L,0), (L,H), (0,H) for the envelope and (cl/2, H − ch), (3cl/2, H − ch), (3cl/2, H), (cl/2, H) for the column, where H is the sum of the six vertical dimensions |
| Cad.CadHeightIsSumOfThicknesses | foundation_quantity_estimator.py:268-270 | the total height is the sum of the six vertical dimensions in stack order |
| Cad.CadColumnCentredOnlyWhenPadIsTwiceColumn | foundation_quantity_estimator.py:279-282 | the CAD column's x-range equals the plan column's iff L = 2 × column length; its midpoint is column length − L/2 away from the plan column's |
| Cad.CadColumnOffCentreExample | foundation_quantity_estimator.py:279-282 | for a 3.0 pad and a 0.5 column the plan puts the column at [1.25, 1.75] and the CAD file at [0.25, 0.75] |
| Cad.CadEnvelopeExceedsElevation | foundation_quantity_estimator.py:268-282 | the envelope height is the elevation span plus the excavation depth; total height − column top = 2 × depth; the CAD column is the elevation column moved up by 2 × depth |
| Cad.CadIgnoresWidths | foundation_quantity_estimator.py:264-282 | the pad width and column width do not affect the CAD geometry |

## Left out

- Window, form and button construction and wiring (foundation_quantity_estimator.py:12-89, 227-232, 252-257, 288-292): user-interface glue.
- Parsing the entry fields with `float(...)` and its exceptions: the inputs are modelled as already-parsed reals.
- The on-screen result text, which rounds each quantity to two decimals: string formatting. The quantity set itself is kept unrounded.
- The plotting calls, axis limits, annotations and line styles: presentation only. Only the coordinates they receive are modelled.
- The spreadsheet export (foundation_quantity_estimator.py:234-250): file output. Its rows list the six layers in stack order.
- Creating and saving the CAD document: file output. Only the segment endpoints are modelled.
- The CAD export re-reads the entry fields when it runs (foundation_quantity_estimator.py:264-270) instead of reusing the dimensions of the last calculation, so in the program the CAD geometry and the drawn views can come from different inputs. The model gives both the same `Dimensions`, and `Cad.CadEnvelopeExceedsElevation` compares them only in that case.
- Floating-point rounding: arithmetic is over `real`, so the exact equalities above hold as stated.
- The cached quantity dictionary on the window object (foundation_quantity_estimator.py:116-123): modelled as the returned `QuantitySet` value rather than as mutable state.
