/**
  The input record of the foundation estimator and the fixed bottom-up order
  of the six layers it reports on.
*/
module Foundation {

  /** The ten dimensions read from the entry form, already parsed; all in metres. */
  datatype Dimensions = Dimensions(
    length: real,
    width: real,
    depthExcavation: real,
    solingThickness: real,
    pccThickness: real,
    rccThickness: real,
    trapHeight: real,
    columnHeight: real,
    columnWidth: real,
    columnLength: real)

  /** The six layers of the foundation, from the excavation pit up to the column. */
  datatype Layer = Excavation | Soling | Pcc | Rcc | Trapezoid | Column

  /** Construction order, bottom-up: the elevation view and the bill of quantities follow it. */
  const StackOrder: seq<Layer> := [Excavation, Soling, Pcc, Rcc, Trapezoid, Column]

  /** How much shorter, in each plan dimension, the trapezoidal section's top face is taken for its volume. */
  const TrapezoidTopReduction: real := 0.1

  /** How far in from each side of the pad the elevation view draws the trapezoid's top edge and the column. */
  const ElevationSideInset: real := 0.1

  /** The vertical dimension of a layer: the excavation depth, a layer thickness or a height. */
  function Thickness(d: Dimensions, layer: Layer): real
  {
    match layer
    case Excavation => d.depthExcavation
    case Soling => d.solingThickness
    case Pcc => d.pccThickness
    case Rcc => d.rccThickness
    case Trapezoid => d.trapHeight
    case Column => d.columnHeight
  }

  /** The same dimensions with one layer's vertical dimension replaced. */
  function WithThickness(d: Dimensions, layer: Layer, t: real): (d': Dimensions)
    ensures Thickness(d', layer) == t
    ensures forall other :: other != layer ==> Thickness(d', other) == Thickness(d, other)
    ensures d'.length == d.length && d'.width == d.width
    ensures d'.columnLength == d.columnLength && d'.columnWidth == d.columnWidth
  {
    match layer
    case Excavation => d.(depthExcavation := t)
    case Soling => d.(solingThickness := t)
    case Pcc => d.(pccThickness := t)
    case Rcc => d.(rccThickness := t)
    case Trapezoid => d.(trapHeight := t)
    case Column => d.(columnHeight := t)
  }

  /** The six vertical dimensions, in stack order. */
  function Thicknesses(d: Dimensions): (ts: seq<real>)
    ensures |ts| == |StackOrder|
    ensures forall i :: 0 <= i < |ts| ==> ts[i] == Thickness(d, StackOrder[i])
  {
    [d.depthExcavation, d.solingThickness, d.pccThickness, d.rccThickness, d.trapHeight, d.columnHeight]
  }

  /** No vertical dimension is negative. */
  predicate NonNegativeThicknesses(d: Dimensions)
  {
    forall layer :: Thickness(d, layer) >= 0.0
  }
}
