/**
  The geometry written to the CAD file: an outer envelope as tall as all six
  vertical dimensions together, and a column rectangle at its top. This
  convention differs from the drawn views and is kept as it is: the column is
  not centred on the pad, and the envelope is measured from 0 rather than from
  the excavation floor.
*/
module Cad {
  import opened Foundation
  import opened Geometry
  import Series
  import Views

  /** The CAD geometry: the envelope's height and the two rectangles drawn. */
  datatype CadDrawing = CadDrawing(totalHeight: real, envelope: Rect, column: Rect)

  /** The CAD geometry for one set of dimensions. */
  function Cad(d: Dimensions): (c: CadDrawing)
    ensures c.envelope.x == Span(0.0, d.length) && c.envelope.y == Span(0.0, c.totalHeight)
    ensures c.column.y.hi == c.totalHeight && c.column.y.Extent() == d.columnHeight
    ensures c.column.x.lo == d.columnLength / 2.0 && c.column.x.Extent() == d.columnLength
  {
    var totalHeight := d.depthExcavation + d.solingThickness + d.pccThickness
                       + d.rccThickness + d.trapHeight + d.columnHeight;
    var columnBottom := totalHeight - d.columnHeight;
    CadDrawing(
      totalHeight,
      Rect(Span(0.0, d.length), Span(0.0, totalHeight)),
      Rect(Span(d.columnLength / 2.0, d.columnLength / 2.0 + d.columnLength), Span(columnBottom, totalHeight)))
  }

  /** The eight line segments written to the CAD file: the envelope, then the column. */
  function CadLines(c: CadDrawing): (lines: seq<Segment>)
    ensures |lines| == 8
    ensures forall i :: 0 <= i < 4 ==> lines[i].end == lines[(i + 1) % 4].start
    ensures forall i :: 4 <= i < 8 ==> lines[i].end == lines[4 + (i - 3) % 4].start
    ensures lines[0].start == Point(c.envelope.x.lo, c.envelope.y.lo) && lines[1].start == Point(c.envelope.x.hi, c.envelope.y.lo)
    ensures lines[2].start == Point(c.envelope.x.hi, c.envelope.y.hi) && lines[3].start == Point(c.envelope.x.lo, c.envelope.y.hi)
    ensures lines[4].start == Point(c.column.x.lo, c.column.y.lo) && lines[5].start == Point(c.column.x.hi, c.column.y.lo)
    ensures lines[6].start == Point(c.column.x.hi, c.column.y.hi) && lines[7].start == Point(c.column.x.lo, c.column.y.hi)
  {
    Outline(c.envelope) + Outline(c.column)
  }

  /** The envelope's height is the sum of all six vertical dimensions, in stack order. */
  lemma CadHeightIsSumOfThicknesses(d: Dimensions)
    ensures Cad(d).totalHeight == Series.Sum(Thicknesses(d))
  {
    var ts := Thicknesses(d);
    assert Series.Sum(ts[5..]) == d.columnHeight by { assert ts[5..][1..] == []; }
    assert Series.Sum(ts[4..]) == d.trapHeight + d.columnHeight by { assert ts[4..][1..] == ts[5..]; }
    assert Series.Sum(ts[3..]) == d.rccThickness + d.trapHeight + d.columnHeight by { assert ts[3..][1..] == ts[4..]; }
    assert Series.Sum(ts[2..]) == d.pccThickness + d.rccThickness + d.trapHeight + d.columnHeight by {
      assert ts[2..][1..] == ts[3..];
    }
    assert Series.Sum(ts[1..]) == d.solingThickness + d.pccThickness + d.rccThickness + d.trapHeight + d.columnHeight by {
      assert ts[1..][1..] == ts[2..];
    }
  }

  /**
    The segments written for one set of dimensions, corner by corner: the
    envelope from the origin to (length, sum of the six vertical dimensions),
    then the column from (column length / 2, that sum less the column height)
    to (3 * column length / 2, that sum).
  */
  lemma CadLinesCoordinates(d: Dimensions)
    ensures var lines := CadLines(Cad(d));
            var h := Series.Sum(Thicknesses(d));
      && lines[0].start == Point(0.0, 0.0)
      && lines[1].start == Point(d.length, 0.0)
      && lines[2].start == Point(d.length, h)
      && lines[3].start == Point(0.0, h)
      && lines[4].start == Point(d.columnLength / 2.0, h - d.columnHeight)
      && lines[5].start == Point(3.0 * d.columnLength / 2.0, h - d.columnHeight)
      && lines[6].start == Point(3.0 * d.columnLength / 2.0, h)
      && lines[7].start == Point(d.columnLength / 2.0, h)
  {
    CadHeightIsSumOfThicknesses(d);
  }

  /**
    The CAD column spans the same x-range as the plan view's centred column
    exactly when the pad is twice as long as the column section.
  */
  lemma CadColumnCentredOnlyWhenPadIsTwiceColumn(d: Dimensions)
    ensures Cad(d).column.x == Views.Plan(d).column.x <==> d.length == 2.0 * d.columnLength
    ensures Cad(d).column.x.Mid() - Views.Plan(d).column.x.Mid() == d.columnLength - d.length / 2.0
  {
  }

  /** On the worked plan figures the CAD column lies a whole metre left of the plan's. */
  lemma CadColumnOffCentreExample()
    ensures Views.Plan(Views.WorkedPlanDimensions).column.x == Span(1.25, 1.75)
    ensures Cad(Views.WorkedPlanDimensions).column.x == Span(0.25, 0.75)
  {
    var d := Views.WorkedPlanDimensions;
    assert d.columnLength == 0.5;
    assert Cad(d).column.x == Span(d.columnLength / 2.0, d.columnLength / 2.0 + d.columnLength);
  }

  /**
    The envelope's height exceeds the elevation view's span (from the
    excavation floor to the column's top) by the excavation depth, and the
    CAD column is the elevation's column moved up by twice that depth.
  */
  lemma CadEnvelopeExceedsElevation(d: Dimensions)
    ensures var c := Cad(d);
            var e := Views.Elevation(d);
      && c.envelope.y.Extent() == (e[5].top - e[0].bottom) + d.depthExcavation
      && c.totalHeight - e[5].top == 2.0 * d.depthExcavation
      && c.column.y == Span(e[5].bottom + 2.0 * d.depthExcavation, e[5].top + 2.0 * d.depthExcavation)
  {
    Views.ColumnTopIsStackHeight(d);
  }

  /** The pad width and the column width play no part in the CAD geometry. */
  lemma CadIgnoresWidths(d: Dimensions, width: real, columnWidth: real)
    ensures Cad(d.(width := width, columnWidth := columnWidth)) == Cad(d)
  {
  }
}
