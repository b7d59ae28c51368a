/**
  The quantity calculator: the two volume formulas and the six material
  quantities assembled from them. Nothing is rounded here; rounding to two
  decimals happens only in the on-screen text, which is not part of this model.
*/
module Quantities {
  import opened Foundation

  /** Volume of a rectangular prism. */
  function PrismVolume(length: real, width: real, height: real): real
  {
    length * width * height
  }

  /**
    Volume of the trapezoidal section: its height times the mean of the bottom
    face and a top face `TrapezoidTopReduction` shorter in each plan dimension.
  */
  function TrapezoidalVolume(length: real, width: real, height: real): real
  {
    var topLength := length - TrapezoidTopReduction;
    var topWidth := width - TrapezoidTopReduction;
    height * (length * width + topLength * topWidth) / 2.0
  }

  /** The six quantities kept after a calculation, in cubic metres. */
  datatype QuantitySet = QuantitySet(
    excavation: real,
    soling: real,
    pcc: real,
    rcc: real,
    trapezoidal: real,
    column: real)

  /** The quantity a set records for one layer. */
  function Quantity(q: QuantitySet, layer: Layer): real
  {
    match layer
    case Excavation => q.excavation
    case Soling => q.soling
    case Pcc => q.pcc
    case Rcc => q.rcc
    case Trapezoid => q.trapezoidal
    case Column => q.column
  }

  /** The layers whose quantity is a prism over the pad footprint. */
  predicate IsPadLayer(layer: Layer)
  {
    layer == Excavation || layer == Soling || layer == Pcc || layer == Rcc
  }

  /**
    The quantity calculation: four prisms over the pad footprint, the
    trapezoidal section over the same pad, and the column over its own section.
  */
  function ComputeQuantities(d: Dimensions): (q: QuantitySet)
    // the four pad layers together are one prism over their combined thickness
    ensures q.excavation + q.soling + q.pcc + q.rcc
         == PrismVolume(d.length, d.width, d.depthExcavation + d.solingThickness + d.pccThickness + d.rccThickness)
    // a pad layer of zero thickness, or a pad of zero area, has no quantity
    ensures forall layer :: IsPadLayer(layer) && (Thickness(d, layer) == 0.0 || d.length * d.width == 0.0)
              ==> Quantity(q, layer) == 0.0
  {
    QuantitySet(
      PrismVolume(d.length, d.width, d.depthExcavation),
      PrismVolume(d.length, d.width, d.solingThickness),
      PrismVolume(d.length, d.width, d.pccThickness),
      PrismVolume(d.length, d.width, d.rccThickness),
      TrapezoidalVolume(d.length, d.width, d.trapHeight),
      PrismVolume(d.columnLength, d.columnWidth, d.columnHeight))
  }

  // ---------------------------------------------------------------------------
  // The prism formula

  /** The prism volume is linear in each of its three factors. */
  lemma PrismVolumeLinear(length: real, width: real, height: real, k: real)
    ensures PrismVolume(k * length, width, height) == k * PrismVolume(length, width, height)
    ensures PrismVolume(length, k * width, height) == k * PrismVolume(length, width, height)
    ensures PrismVolume(length, width, k * height) == k * PrismVolume(length, width, height)
  {
  }

  /** Two slabs on the same footprint stacked together have the volume of one slab of their combined height. */
  lemma PrismVolumeAdditive(length: real, width: real, h1: real, h2: real)
    ensures PrismVolume(length, width, h1 + h2) == PrismVolume(length, width, h1) + PrismVolume(length, width, h2)
  {
  }

  /** A prism with no negative side has no negative volume. */
  lemma PrismVolumeNonNegative(length: real, width: real, height: real)
    requires length >= 0.0 && width >= 0.0 && height >= 0.0
    ensures PrismVolume(length, width, height) >= 0.0
  {
  }

  // ---------------------------------------------------------------------------
  // The trapezoidal formula

  /**
    The trapezoidal volume falls short of the prism over its bottom face by an
    amount that depends on the fixed 0.1 reduction and not on the footprint's
    scale: the reduction is an absolute length, not a proportion.
  */
  lemma TrapezoidalVolumeDeficit(length: real, width: real, height: real)
    ensures PrismVolume(length, width, height) - TrapezoidalVolume(length, width, height)
         == height * (TrapezoidTopReduction * (length + width) - TrapezoidTopReduction * TrapezoidTopReduction) / 2.0
  {
  }

  /**
    With the top face no smaller than zero in each dimension and a non-negative
    height, the trapezoidal volume lies between the prism over the top face and
    the prism over the bottom face.
  */
  lemma TrapezoidalVolumeBetweenFaces(length: real, width: real, height: real)
    requires length >= TrapezoidTopReduction && width >= TrapezoidTopReduction && height >= 0.0
    ensures PrismVolume(length - TrapezoidTopReduction, width - TrapezoidTopReduction, height)
         <= TrapezoidalVolume(length, width, height)
         <= PrismVolume(length, width, height)
  {
    var t := TrapezoidTopReduction;
    var top := (length - t) * (width - t);
    assert 0.0 <= top by {
      assert length - t >= 0.0 && width - t >= 0.0;
    }
    assert top <= length * width by {
      assert top == length * width - t * (length + width) + t * t;
      assert t * (length + width) >= t * t;
    }
    assert height * top <= height * (length * width + top) / 2.0 <= height * (length * width) by {
      assert height * top <= height * (length * width);
    }
    assert PrismVolume(length - t, width - t, height) == height * top;
    assert PrismVolume(length, width, height) == height * (length * width);
  }

  /** The trapezoidal volume is linear in the section's height. */
  lemma TrapezoidalVolumeLinear(length: real, width: real, height: real, k: real)
    ensures TrapezoidalVolume(length, width, k * height) == k * TrapezoidalVolume(length, width, height)
  {
  }

  /**
    For a non-negative height the trapezoidal volume is non-negative whenever
    both plan dimensions lie on the same side of half the reduction.
  */
  lemma TrapezoidalVolumeNonNegative(length: real, width: real, height: real)
    requires height >= 0.0
    requires (length - TrapezoidTopReduction / 2.0) * (width - TrapezoidTopReduction / 2.0) >= 0.0
    ensures TrapezoidalVolume(length, width, height) >= 0.0
  {
  }

  /**
    The exact sign condition: for a positive height the trapezoidal volume is
    non-negative if and only if (L - 0.05) * (W - 0.05) is at least -0.0025,
    since the two faces together measure 2 * (L - 0.05) * (W - 0.05) + 0.005.
  */
  lemma TrapezoidalVolumeSign(length: real, width: real, height: real)
    requires height > 0.0
    ensures TrapezoidalVolume(length, width, height) >= 0.0
        <==> (length - TrapezoidTopReduction / 2.0) * (width - TrapezoidTopReduction / 2.0) >= -0.0025
  {
    var t := TrapezoidTopReduction;
    var faces := length * width + (length - t) * (width - t);
    assert faces == 2.0 * ((length - t / 2.0) * (width - t / 2.0)) + t * t / 2.0;
    assert TrapezoidalVolume(length, width, height) == height * faces / 2.0;
    if faces >= 0.0 {
      assert height * faces >= 0.0;
    } else {
      assert height * faces < 0.0;
    }
  }

  /** A positive pad can still give a negative trapezoidal volume: the formula does not clamp. */
  lemma TrapezoidalVolumeNegativeForNarrowPad()
    ensures TrapezoidalVolume(0.01, 1.0, 1.0) < 0.0
    ensures TrapezoidalVolume(0.01, 1.0, 1.0) == -0.0355
  {
  }

  // ---------------------------------------------------------------------------
  // The assembled quantity set

  /** Each pad layer's quantity is the pad area times that layer's own vertical dimension. */
  lemma PadLayersShareFootprint(d: Dimensions, layer: Layer)
    requires IsPadLayer(layer)
    ensures Quantity(ComputeQuantities(d), layer) == (d.length * d.width) * Thickness(d, layer)
  {
  }

  /**
    Scaling one layer's vertical dimension by `k` scales that layer's quantity
    by `k` and leaves the other five quantities unchanged.
  */
  lemma QuantityLinearInThickness(d: Dimensions, layer: Layer, k: real)
    ensures var d' := WithThickness(d, layer, k * Thickness(d, layer));
      && Quantity(ComputeQuantities(d'), layer) == k * Quantity(ComputeQuantities(d), layer)
      && forall other :: other != layer ==> Quantity(ComputeQuantities(d'), other) == Quantity(ComputeQuantities(d), other)
  {
    var d' := WithThickness(d, layer, k * Thickness(d, layer));
    match layer
    case Trapezoid =>
      TrapezoidalVolumeLinear(d.length, d.width, d.trapHeight, k);
    case Column =>
      PrismVolumeLinear(d.columnLength, d.columnWidth, d.columnHeight, k);
    case _ =>
      PrismVolumeLinear(d.length, d.width, Thickness(d, layer), k);
  }

  /** The column quantity depends only on the column's own three dimensions. */
  lemma ColumnQuantityIndependentOfPad(d: Dimensions, e: Dimensions)
    requires d.columnLength == e.columnLength && d.columnWidth == e.columnWidth && d.columnHeight == e.columnHeight
    ensures ComputeQuantities(d).column == ComputeQuantities(e).column
  {
  }

  /** The pad quantities do not depend on the column's dimensions. */
  lemma PadQuantitiesIndependentOfColumn(d: Dimensions, columnHeight: real, columnWidth: real, columnLength: real)
    ensures var e := d.(columnHeight := columnHeight, columnWidth := columnWidth, columnLength := columnLength);
      forall layer :: layer != Column ==> Quantity(ComputeQuantities(e), layer) == Quantity(ComputeQuantities(d), layer)
  {
  }

  /**
    With no negative dimension and a pad of at least half the reduction in each
    direction, no quantity is negative.
  */
  lemma QuantitiesNonNegative(d: Dimensions)
    requires NonNegativeThicknesses(d)
    requires d.length >= TrapezoidTopReduction / 2.0 && d.width >= TrapezoidTopReduction / 2.0
    requires d.columnLength >= 0.0 && d.columnWidth >= 0.0
    ensures forall layer :: Quantity(ComputeQuantities(d), layer) >= 0.0
  {
    forall layer | IsPadLayer(layer)
      ensures Quantity(ComputeQuantities(d), layer) >= 0.0
    {
      assert Thickness(d, layer) >= 0.0;
      PrismVolumeNonNegative(d.length, d.width, Thickness(d, layer));
    }
    assert Thickness(d, Trapezoid) >= 0.0 && Thickness(d, Column) >= 0.0;
    PrismVolumeNonNegative(d.columnLength, d.columnWidth, d.columnHeight);
    TrapezoidalVolumeNonNegative(d.length, d.width, d.trapHeight);
  }

  /** The worked figures: every quantity is kept exactly, with no rounding. */
  lemma WorkedQuantities()
    ensures PrismVolume(2.0, 1.5, 0.3) == 0.9
    ensures TrapezoidalVolume(2.0, 1.5, 0.4) == 1.132
    ensures PrismVolume(0.4, 0.4, 1.0) == 0.16
  {
  }
}
