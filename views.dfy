/**
  The coordinates of the two drawn views: the plan (pad outline with the
  column section centred in it) and the elevation (the six layers stacked from
  the excavation floor up).
*/
module Views {
  import opened Foundation
  import opened Geometry
  import Series
  import Quantities

  // ---------------------------------------------------------------------------
  // Plan view

  /** The pad outline and the column section as drawn in plan. */
  datatype PlanView = PlanView(pad: Rect, column: Rect)

  /**
    Places an inner extent centred in an outer one starting at 0. Nothing is
    clamped: an inner extent wider than the outer one starts below 0.
  */
  function CentredSpan(outer: real, inner: real): (s: Span)
    ensures s.Extent() == inner
    ensures s.lo + inner / 2.0 == outer / 2.0
    ensures s.Mid() == Span(0.0, outer).Mid()
    ensures s.lo < 0.0 <==> inner > outer
    ensures s.Within(Span(0.0, outer)) <==> inner <= outer
  {
    var start := (outer - inner) / 2.0;
    Span(start, start + inner)
  }

  /** The plan view: the pad from the origin, the column section centred on both axes. */
  function Plan(d: Dimensions): (p: PlanView)
    ensures p.pad == Rect(Span(0.0, d.length), Span(0.0, d.width))
    ensures p.column.x.Extent() == d.columnLength && p.column.y.Extent() == d.columnWidth
    ensures p.column.x.Mid() == p.pad.x.Mid() && p.column.y.Mid() == p.pad.y.Mid()
    ensures p.column.Within(p.pad) <==> d.columnLength <= d.length && d.columnWidth <= d.width
  {
    PlanView(
      Rect(Span(0.0, d.length), Span(0.0, d.width)),
      Rect(CentredSpan(d.length, d.columnLength), CentredSpan(d.width, d.columnWidth)))
  }

  /** A 3.0 by 2.0 pad with a 0.5 by 0.5 column section; the vertical dimensions do not matter here. */
  const WorkedPlanDimensions := Dimensions(3.0, 2.0, 0.0, 0.0, 0.0, 0.0, 0.0, 0.0, 0.5, 0.5)

  /** The worked plan figures. */
  lemma WorkedPlan()
    ensures Plan(WorkedPlanDimensions).column == Rect(Span(1.25, 1.75), Span(0.75, 1.25))
  {
  }

  // ---------------------------------------------------------------------------
  // Elevation view

  /**
    One layer as drawn in elevation: its bottom and top elevations and the
    horizontal extent of its bottom and top edges.
  */
  datatype LayerOutline = LayerOutline(layer: Layer, bottom: real, top: real, bottomEdge: Span, topEdge: Span)

  /**
    The elevation view. The excavation is the pit from grade (elevation 0)
    down to its floor; the five built layers are stacked from that floor,
    each on the top of the one before.
  */
  function Elevation(d: Dimensions): (e: seq<LayerOutline>)
    ensures |e| == |StackOrder|
    ensures forall i :: 0 <= i < |e| ==> e[i].layer == StackOrder[i]
    ensures e[0].bottom == -d.depthExcavation && e[0].top == 0.0
    ensures e[1].bottom == e[0].bottom
    ensures forall i :: 1 <= i < |e| - 1 ==> e[i].top == e[i + 1].bottom
    ensures forall i :: 1 <= i < |e| ==> e[i].top == e[i].bottom + Thickness(d, e[i].layer)
    ensures forall i :: 0 <= i < 5 ==> e[i].bottomEdge == Span(0.0, d.length)
    ensures forall i :: 0 <= i < 4 ==> e[i].topEdge == Span(0.0, d.length)
    ensures e[4].topEdge == e[5].bottomEdge == e[5].topEdge
         == Span(ElevationSideInset, d.length - ElevationSideInset)
  {
    var floor := -d.depthExcavation;
    var solingTop := floor + d.solingThickness;
    var pccTop := solingTop + d.pccThickness;
    var rccTop := pccTop + d.rccThickness;
    var trapTop := rccTop + d.trapHeight;
    var columnTop := trapTop + d.columnHeight;
    var full := Span(0.0, d.length);
    var inset := Span(ElevationSideInset, d.length - ElevationSideInset);
    [ LayerOutline(Excavation, floor, 0.0, full, full),
      LayerOutline(Soling, floor, solingTop, full, full),
      LayerOutline(Pcc, solingTop, pccTop, full, full),
      LayerOutline(Rcc, pccTop, rccTop, full, full),
      LayerOutline(Trapezoid, rccTop, trapTop, full, inset),
      LayerOutline(Column, trapTop, columnTop, inset, inset) ]
  }

  /** The tops of the five built layers, bottom-up. */
  function BuiltTops(e: seq<LayerOutline>): (tops: seq<real>)
    requires |e| == |StackOrder|
    ensures |tops| == 5
    ensures forall i :: 0 <= i < 5 ==> tops[i] == e[i + 1].top
  {
    [e[1].top, e[2].top, e[3].top, e[4].top, e[5].top]
  }

  /**
    The elevation's chain of tops is exactly the running sum of the built
    layers' thicknesses, taken in stack order from the excavation floor.
  */
  lemma ElevationTopsAccumulate(d: Dimensions)
    ensures BuiltTops(Elevation(d)) == Series.Accumulate(-d.depthExcavation, Thicknesses(d)[1..])
  {
    var ts := Thicknesses(d)[1..];
    var acc := Series.Accumulate(-d.depthExcavation, ts);
    var tops := BuiltTops(Elevation(d));
    forall i | 0 <= i < 5
      ensures tops[i] == acc[i]
    {
      assert ts[i] == Thicknesses(d)[i + 1];
    }
  }

  /** The column's top is the excavation floor plus the five built thicknesses. */
  lemma ColumnTopIsStackHeight(d: Dimensions)
    ensures Elevation(d)[5].top
         == -d.depthExcavation + Series.Sum(Thicknesses(d)[1..])
    ensures Elevation(d)[5].top
         == -d.depthExcavation + d.solingThickness + d.pccThickness + d.rccThickness + d.trapHeight + d.columnHeight
  {
    ElevationTopsAccumulate(d);
    Series.AccumulateLast(-d.depthExcavation, Thicknesses(d)[1..]);
  }

  /**
    With no negative thickness the elevation boundaries never go down: every
    layer's bottom is at most its top, and no built layer lies below the
    excavation floor or below a layer beneath it.
  */
  lemma ElevationMonotone(d: Dimensions)
    requires NonNegativeThicknesses(d)
    ensures var e := Elevation(d);
      && (forall i :: 0 <= i < |e| ==> e[i].bottom <= e[i].top)
      && (forall i, j :: 1 <= i <= j < |e| ==> e[0].bottom <= e[i].bottom <= e[j].bottom)
  {
    var e := Elevation(d);
    var ts := Thicknesses(d)[1..];
    forall i | 0 <= i < |ts|
      ensures ts[i] >= 0.0
    {
      assert ts[i] == Thickness(d, StackOrder[i + 1]);
    }
    var floor := -d.depthExcavation;
    var tops := Series.Accumulate(floor, ts);
    Series.AccumulateMonotone(floor, ts);
    ElevationTopsAccumulate(d);
    // the built layers' bottoms, in terms of the running tops
    assert e[2].bottom == tops[0] && e[3].bottom == tops[1] && e[4].bottom == tops[2] && e[5].bottom == tops[3];
    assert floor <= tops[0] <= tops[1] <= tops[2] <= tops[3] <= tops[4];
    assert Thickness(d, Excavation) >= 0.0;
  }

  /**
    The column section's plan dimensions play no part in the elevation: the
    column is always drawn `ElevationSideInset` in from each side of the pad.
  */
  lemma ElevationIgnoresColumnSection(d: Dimensions, columnWidth: real, columnLength: real)
    ensures Elevation(d.(columnWidth := columnWidth, columnLength := columnLength)) == Elevation(d)
    ensures Elevation(d)[5].bottomEdge.Extent() == d.length - 2.0 * ElevationSideInset
  {
  }

  /**
    The drawn top edge of the trapezoidal section is narrower, by one more
    inset, than the top face its volume is computed with.
  */
  lemma TrapezoidDrawnNarrowerThanVolumeFace(d: Dimensions)
    ensures Elevation(d)[4].topEdge.Extent() == (d.length - TrapezoidTopReduction) - ElevationSideInset
  {
  }

  /**
    Quantities and elevation agree: each layer's quantity is its footprint
    measure times the height between its drawn bottom and top.
  */
  lemma QuantitiesMatchElevation(d: Dimensions)
    ensures var q := Quantities.ComputeQuantities(d);
            var e := Elevation(d);
      && (forall i :: 0 <= i < 4 ==>
            Quantities.Quantity(q, e[i].layer) == Quantities.PrismVolume(d.length, d.width, e[i].top - e[i].bottom))
      && q.trapezoidal == Quantities.TrapezoidalVolume(d.length, d.width, e[4].top - e[4].bottom)
      && q.column == Quantities.PrismVolume(d.columnLength, d.columnWidth, e[5].top - e[5].bottom)
  {
  }

  /** The worked elevation figures. */
  lemma WorkedElevation()
    ensures var e := Elevation(Dimensions(2.0, 1.5, 0.3, 0.1, 0.05, 0.0, 0.0, 0.0, 0.4, 0.4));
      && e[1].bottom == -0.3 && e[1].top == -0.2
      && e[2].bottom == -0.2 && e[2].top == -0.15
  {
  }
}
