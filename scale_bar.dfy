/**
 * The scale-bar overlay of the canvas. As the camera zooms, the overlay turns
 * a target on-screen length of 150 pixels into a world length, expresses it
 * in a compact unit, snaps the magnitude down to a "nice" value from a sorted
 * table of preferred values and redraws the bar at the matching pixel length
 * with that quantity as its caption.
 */
module ScaleBar {
  import opened Common

  /** A pint quantity: a magnitude with a unit symbol. */
  datatype Quantity = Quantity(magnitude: real, unit: string)

  /**
   * The choice pint's `to_compact` makes for one quantity: the magnitude is
   * divided by `factor` (how many of the original unit make one of `unit`)
   * and expressed in `unit`.
   */
  datatype Compaction = Compaction(factor: real, unit: string)

  /** The Python exceptions the handlers can raise. */
  datatype Error = ZeroDivisionError | TypeError | ValueError

  datatype Result<T> = Ok(value: T) | Err(error: Error)

  /** How an event handler ended: normally, or by raising. */
  datatype Outcome = Pass | Fail(error: Error)

  /** The corner the viewer model asks the bar to sit in. */
  datatype Position = TopLeft | TopRight | BottomRight | BottomLeft | Unrecognized(name: string)

  /** A vertex of the bar's line visual. */
  datatype Point = Point(x: int, y: int, z: int)

  /** A length (world units or canvas pixels) together with its caption quantity. */
  datatype BestLength = BestLength(length: real, quantity: Quantity)

  /** Where and which way the bar is drawn for one corner. */
  datatype Layout = Layout(sign: int, translate: seq<int>)

  /** The x-scale of the bar transform and the caption text after a redraw. */
  datatype Drawn = Drawn(barScale: real, caption: Quantity)

  /** The unit registry, created lazily. */
  datatype Registry = PintRegistry

  /** The on-screen length the bar aims for, in canvas pixels. */
  const TargetLength: real := 150.0

  /** Distance of the bar from the left or right canvas edge. */
  const XBarOffset: int := 10

  /** Distance of the bar from the bottom canvas edge. */
  const YBarOffset: int := 30

  /** The bar from (0, 0) to (1, 0), then a tick at each end. */
  const BarPoints: seq<Point> :=
    [Point(0, 0, -1), Point(1, 0, -1), Point(0, -5, -1), Point(0, 5, -1), Point(1, -5, -1), Point(1, 5, -1)]

  predicate Sorted(s: seq<real>) {
    forall i, j :: 0 <= i < j < |s| ==> s[i] <= s[j]
  }

  /** What the preferred-values table guarantees: non-empty, positive, strictly increasing. */
  predicate ValidTable(t: seq<real>) {
    |t| > 0 && 0.0 < t[0] && forall i, j :: 0 <= i < j < |t| ==> t[i] < t[j]
  }

  /** Python's `bisect.bisect_left(a, x)`: the leftmost insertion point for `x`. */
  function BisectLeft(a: seq<real>, x: real): (i: nat)
    requires Sorted(a)
    ensures i <= |a|
    ensures forall j :: 0 <= j < i ==> a[j] < x
    ensures forall j :: i <= j < |a| ==> x <= a[j]
  {
    if |a| == 0 || x <= a[0] then 0 else 1 + BisectLeft(a[1..], x)
  }

  /**
   * The table index `_calculate_best_length` picks for a compact magnitude
   * `m`: the insertion point, stepped down by one unless it is already 0.
   */
  function PreferredIndex(prefs: seq<real>, m: real): (k: nat)
    requires ValidTable(prefs)
    ensures k < |prefs|
    ensures m <= prefs[0] ==> k == 0
    ensures prefs[0] < m ==> prefs[k] < m && (k + 1 == |prefs| || m <= prefs[k + 1])
  {
    var i := BisectLeft(prefs, m);
    if i > 0 then i - 1 else i
  }

  /** Above the first entry the pick is the largest entry strictly below `m`. */
  lemma PreferredIsLargestBelow(prefs: seq<real>, m: real, j: nat)
    requires ValidTable(prefs) && prefs[0] < m
    requires j < |prefs| && prefs[j] < m
    ensures prefs[j] <= prefs[PreferredIndex(prefs, m)] < m
  {
  }

  /** An exact hit on entry k > 0 steps down to entry k - 1. */
  lemma ExactHitStepsDown(prefs: seq<real>, k: nat)
    requires ValidTable(prefs) && 0 < k < |prefs|
    ensures PreferredIndex(prefs, prefs[k]) == k - 1
  {
    assert prefs[0] < prefs[k];
  }

  /** A magnitude above every entry picks the last entry. */
  lemma AboveAllPicksLast(prefs: seq<real>, m: real)
    requires ValidTable(prefs) && prefs[|prefs| - 1] < m
    ensures PreferredIndex(prefs, m) == |prefs| - 1
  {
  }

  /** A larger compact magnitude never picks a smaller index. */
  lemma PreferredIndexMonotone(prefs: seq<real>, m1: real, m2: real)
    requires ValidTable(prefs) && m1 <= m2
    ensures PreferredIndex(prefs, m1) <= PreferredIndex(prefs, m2)
  {
  }

  /** pint's `to_compact`, reduced to dividing by the chosen positive factor. */
  function ToCompact(q: Quantity, c: Compaction): Quantity
    requires 0.0 < c.factor
  {
    Quantity(q.magnitude / c.factor, c.unit)
  }

  /** The compact magnitude of `desired` world units of `base`. */
  function CompactMagnitude(base: Quantity, desired: real, c: Compaction): real
    requires 0.0 < c.factor
  {
    base.magnitude * desired / c.factor
  }

  /**
   * `_calculate_best_length`: the world length `desired` (in multiples of the
   * `base` quantity) snapped to a preferred value in the compact unit. The
   * division `current / new` raises when the current magnitude is zero.
   */
  function CalculateBestLength(prefs: seq<real>, base: Quantity, desired: real, c: Compaction): (r: Result<BestLength>)
    requires ValidTable(prefs) && 0.0 < c.factor
    ensures r.Err? <==> base.magnitude == 0.0 || desired == 0.0
    ensures r.Err? ==> r.error == ZeroDivisionError
    ensures r.Ok? ==> r.value.quantity.unit == c.unit && r.value.quantity.magnitude in prefs
    ensures r.Ok? ==> r.value.length * base.magnitude == r.value.quantity.magnitude * c.factor
    ensures r.Ok? ==>
      var m, v := CompactMagnitude(base, desired, c), r.value.quantity.magnitude;
      && (m <= prefs[0] ==> v == prefs[0])
      && (prefs[0] < m ==> v < m && forall j :: 0 <= j < |prefs| && prefs[j] < m ==> prefs[j] <= v)
  {
    var current := Quantity(base.magnitude * desired, base.unit);
    ZeroProduct(base.magnitude, desired);
    if current.magnitude == 0.0 then Err(ZeroDivisionError)
    else
      var compact := ToCompact(current, c);
      assert compact.magnitude == CompactMagnitude(base, desired, c);
      // the ratio `current / new` of the two magnitudes is the compaction factor
      CompactNonZero(current.magnitude, c.factor);
      Ok(Snapped(prefs, compact, c.factor, base.magnitude))
  }

  /**
   * Lines 130-141 of `_calculate_best_length`: snap the compact magnitude to
   * a preferred value and rescale the length by `factor`, the ratio of the
   * current to the compact magnitude, in multiples of the base quantity.
   */
  function Snapped(prefs: seq<real>, compact: Quantity, factor: real, baseMagnitude: real): (r: BestLength)
    requires ValidTable(prefs) && baseMagnitude != 0.0
    ensures r.quantity.unit == compact.unit && r.quantity.magnitude in prefs && 0.0 < r.quantity.magnitude
    ensures r.length * baseMagnitude == r.quantity.magnitude * factor
    ensures var m, v := compact.magnitude, r.quantity.magnitude;
      && (m <= prefs[0] ==> v == prefs[0])
      && (prefs[0] < m ==> v < m && forall j :: 0 <= j < |prefs| && prefs[j] < m ==> prefs[j] <= v)
  {
    var value := prefs[PreferredIndex(prefs, compact.magnitude)];
    if prefs[0] < compact.magnitude then
      assert forall j :: 0 <= j < |prefs| && prefs[j] < compact.magnitude ==> prefs[j] <= value by {
        forall j | 0 <= j < |prefs| && prefs[j] < compact.magnitude
          ensures prefs[j] <= value
        {
          PreferredIsLargestBelow(prefs, compact.magnitude, j);
        }
      }
      BestLength((value * factor) / baseMagnitude, Quantity(value, compact.unit))
    else
      BestLength((value * factor) / baseMagnitude, Quantity(value, compact.unit))
  }

  /** A product of reals is zero exactly when a factor is. */
  lemma ZeroProduct(a: real, b: real)
    ensures a * b == 0.0 <==> a == 0.0 || b == 0.0
  {
  }

  lemma CompactNonZero(x: real, f: real)
    requires x != 0.0 && 0.0 < f
    ensures x / f != 0.0 && x / (x / f) == f
  {
    var m := x / f;
    assert m * f == x;
  }

  /**
   * The new length is the desired length rescaled by the ratio of the
   * snapped value to the compact magnitude, and it is positive for positive
   * inputs.
   */
  lemma BestLengthRescales(prefs: seq<real>, base: Quantity, desired: real, c: Compaction)
    requires ValidTable(prefs) && 0.0 < c.factor && base.magnitude != 0.0 && desired != 0.0
    ensures var r := CalculateBestLength(prefs, base, desired, c).value;
      && r.length * CompactMagnitude(base, desired, c) == desired * r.quantity.magnitude
      && (0.0 < base.magnitude ==> 0.0 < r.length)
  {
    var r := CalculateBestLength(prefs, base, desired, c).value;
    RescaleFacts(base.magnitude, desired, c.factor, r.quantity.magnitude, r.length);
  }

  /** The arithmetic of `BestLengthRescales`. */
  lemma RescaleFacts(b: real, d: real, f: real, v: real, len: real)
    requires b != 0.0 && 0.0 < f && 0.0 < v && len * b == v * f
    ensures len * ((b * d) / f) == d * v
    ensures 0.0 < b ==> 0.0 < len
  {
    var m := (b * d) / f;
    assert m * f == b * d;
    assert len * m * f == len * b * d;
    assert len * m * f == d * v * f;
    if 0.0 < b {
      assert 0.0 < v * f;
    }
  }

  /**
   * The canvas length of the bar and its caption for a canvas-to-world
   * `scale`: the target length converted to world units, snapped, and
   * converted back to canvas pixels.
   */
  function DrawnBar(prefs: seq<real>, base: Quantity, scale: real, c: Compaction): (r: Result<BestLength>)
    requires ValidTable(prefs) && 0.0 < c.factor && scale != 0.0
    ensures r.Err? <==> base.magnitude == 0.0
    ensures r.Ok? ==> r.value.quantity.unit == c.unit && r.value.quantity.magnitude in prefs
  {
    ZeroProduct(scale, TargetLength);
    match CalculateBestLength(prefs, base, scale * TargetLength, c)
    case Err(e) => Err(e)
    case Ok(b) => Ok(BestLength(b.length / scale, b.quantity))
  }

  /**
   * The drawn length is the target length scaled by the snapped value over the
   * compact magnitude; for positive inputs it is positive, and never longer
   * than the target unless the compact magnitude is at or below the first
   * preferred value.
   */
  lemma DrawnBarBounds(prefs: seq<real>, base: Quantity, scale: real, c: Compaction, b: BestLength)
    requires ValidTable(prefs) && 0.0 < c.factor && scale != 0.0 && DrawnBar(prefs, base, scale, c) == Ok(b)
    ensures var m := CompactMagnitude(base, scale * TargetLength, c);
      && b.length * m == TargetLength * b.quantity.magnitude
      && (0.0 < scale && 0.0 < base.magnitude ==>
            && 0.0 < b.length
            && (prefs[0] < m ==> b.length < TargetLength)
            && (m <= prefs[0] ==> TargetLength <= b.length))
  {
    ZeroProduct(scale, TargetLength);
    BestLengthRescales(prefs, base, scale * TargetLength, c);
    ScaledBar(b, CalculateBestLength(prefs, base, scale * TargetLength, c).value, scale,
              CompactMagnitude(base, scale * TargetLength, c), base.magnitude, c.factor);
  }

  /** Dividing a world-length result by the scale keeps its ratio and, for positive inputs, its bounds. */
  lemma ScaledBar(b: BestLength, w: BestLength, scale: real, m: real, bm: real, f: real)
    requires scale != 0.0 && 0.0 < f && m == bm * (scale * TargetLength) / f
    requires b == BestLength(w.length / scale, w.quantity)
    requires w.length * m == (scale * TargetLength) * w.quantity.magnitude
    requires 0.0 < bm ==> 0.0 < w.length
    ensures b.length * m == TargetLength * b.quantity.magnitude
    ensures 0.0 < scale && 0.0 < bm ==>
      && 0.0 < m && 0.0 < b.length
      && (b.quantity.magnitude < m ==> b.length < TargetLength)
      && (m <= b.quantity.magnitude ==> TargetLength <= b.length)
  {
    LengthRatio(w.length, scale, m, w.quantity.magnitude);
    if 0.0 < scale && 0.0 < bm {
      assert 0.0 < bm * (scale * TargetLength);
      CompareWithTarget(b.length, m, b.quantity.magnitude);
    }
  }

  /** With `x * m == 150 * v` and a positive `m`, `x` is below 150 exactly when `v` is below `m`. */
  lemma CompareWithTarget(x: real, m: real, v: real)
    requires 0.0 < m && x * m == TargetLength * v
    ensures v < m ==> x < TargetLength
    ensures m <= v ==> TargetLength <= x
  {
    if v < m {
      assert TargetLength * v < TargetLength * m;
    } else {
      assert TargetLength * m <= TargetLength * v;
    }
  }

  /** Dividing the world length by the scale turns `len * m == scale * 150 * v` into the canvas ratio. */
  lemma LengthRatio(len: real, scale: real, m: real, v: real)
    requires scale != 0.0 && len * m == (scale * TargetLength) * v
    ensures (len / scale) * m == TargetLength * v
  {
    assert (len / scale) * scale == len;
    assert (len / scale) * m * scale == (scale * TargetLength) * v;
  }

  /** The horizontal direction of the bar: right-anchored bars extend leftwards. */
  function Sign(p: Position): int {
    if p == TopRight || p == BottomRight then -1 else 1
  }

  /**
   * `_on_position_change`'s choice of direction and translation for a canvas
   * of `width` by `height` pixels; an unrecognized position raises.
   */
  function PositionLayout(p: Position, width: int, height: int): (r: Result<Layout>)
    ensures r.Err? <==> p.Unrecognized?
    ensures r.Err? ==> r.error == ValueError
    ensures r.Ok? ==> r.value.sign == Sign(p)
    ensures r.Ok? ==> |r.value.translate| == 4 && r.value.translate[2..] == [0, 0]
    ensures r.Ok? && r.value.sign == 1 ==> r.value.translate[0] == XBarOffset
    ensures r.Ok? && r.value.sign == -1 ==> r.value.translate[0] == width - XBarOffset
    ensures r.Ok? && (p == TopLeft || p == TopRight) ==> r.value.translate[1] == 10
    ensures r.Ok? && (p == BottomLeft || p == BottomRight) ==> r.value.translate[1] == height - YBarOffset
  {
    match p
    case TopLeft => Ok(Layout(1, [XBarOffset, 10, 0, 0]))
    case TopRight => Ok(Layout(-1, [width - XBarOffset, 10, 0, 0]))
    case BottomRight => Ok(Layout(-1, [width - XBarOffset, height - YBarOffset, 0, 0]))
    case BottomLeft => Ok(Layout(1, [XBarOffset, height - 30, 0, 0]))
    case Unrecognized(_) => Err(ValueError)
  }

  /** The vertices `_on_data_change` hands to the line visual. */
  function TickData(ticks: bool): (d: seq<Point>)
    ensures d <= BarPoints
    ensures |d| == if ticks then 6 else 2
    ensures !ticks ==> forall i :: 0 <= i < |d| ==> d[i].y == 0
  {
    if ticks then BarPoints else BarPoints[..2]
  }

  /** What the registry makes of a unit string: one of that unit. */
  function UnitQuantity(unit: string): Quantity {
    Quantity(1.0, unit)
  }

  /**
   * The transform x-scale and caption of a redraw at `zoom`: the snapped canvas
   * length, signed by the bar's corner. Without a quantity the source's
   * `None * desired_length` raises.
   */
  function ZoomDraw(quantity: Option<Quantity>, zoom: real, p: Position, prefs: seq<real>, c: Compaction): (r: Result<Drawn>)
    requires ValidTable(prefs) && 0.0 < c.factor && zoom != 0.0
    ensures quantity.None? ==> r == Err(TypeError)
    ensures r.Ok? ==> r.value.caption.magnitude in prefs && r.value.caption.unit == c.unit
    ensures r.Ok? && 0.0 < zoom && 0.0 < quantity.value.magnitude ==>
      (r.value.barScale < 0.0 <==> (p == TopRight || p == BottomRight))
  {
    if quantity.None? then Err(TypeError)
    else
      match DrawnBar(prefs, quantity.value, 1.0 / zoom, c)
      case Err(e) => Err(e)
      case Ok(b) =>
        var d := Drawn(Sign(p) as real * b.length, b.quantity);
        if 0.0 < zoom && 0.0 < quantity.value.magnitude then
          DrawnBarBounds(prefs, quantity.value, 1.0 / zoom, c, b);
          Ok(d)
        else
          Ok(d)
  }

  function OutcomeOf<T>(r: Result<T>): Outcome {
    if r.Ok? then Pass else Fail(r.error)
  }

  /** The overlay's own state: what `VispyScaleBarVisual` keeps in its fields and node transforms. */
  class ScaleBarVisual {
    /** `_scale`: the canvas-to-world scale of the last redraw. */
    var scale: real
    /** `_quantity`: one of the display unit, once known. */
    var quantity: Option<Quantity>
    /** `_unit_reg`: the lazily created unit registry. */
    var unitReg: Option<Registry>
    /** How many registries have been created. */
    ghost var registriesCreated: nat
    /** Visibility of the line and text nodes. */
    var visible: bool
    /** The x component of the line node's transform scale. */
    var barScale: real
    /** The line node's translation. */
    var barTranslate: seq<int>
    /** The text node's translation. */
    var textTranslate: seq<int>
    /** The quantity the text node shows. */
    var caption: Quantity
    /** The vertices drawn by the line node. */
    var data: seq<Point>

    ghost predicate Valid()
      reads this
    {
      registriesCreated == (if unitReg.Some? then 1 else 0) && data <= BarPoints
    }

    /** The state `__init__` sets up before it runs the four handlers. */
    constructor ()
      ensures Valid()
      ensures scale == 1.0 && quantity == None && unitReg == None && registriesCreated == 0
      ensures visible && barScale == 1.0 && barTranslate == [0, 0, 0, 0] && textTranslate == [0, 0, 0, 0]
      ensures caption == Quantity(1.0, "px") && data == []
    {
      scale := 1.0;
      quantity := None;
      unitReg := None;
      registriesCreated := 0;
      visible := true;
      barScale := 1.0;
      barTranslate := [0, 0, 0, 0];
      textTranslate := [0, 0, 0, 0];
      caption := Quantity(1.0, "px");
      data := [];
    }

    /** The `unit_registry` property: creates the registry on first use only. */
    method UnitRegistry() returns (reg: Registry)
      requires Valid()
      modifies this`unitReg, this`registriesCreated
      ensures Valid() && unitReg == Some(reg)
      ensures old(unitReg).Some? ==> unitReg == old(unitReg) && registriesCreated == old(registriesCreated)
      ensures registriesCreated <= 1
    {
      if unitReg.None? {
        unitReg := Some(PintRegistry);
        registriesCreated := registriesCreated + 1;
      }
      reg := unitReg.value;
    }

    /**
     * `_on_zoom_change`. `barVisible` is the viewer's scale-bar visibility and
     * `withinTolerance` the result of the source's log10 comparison of the
     * old and new scale.
     */
    method OnZoomChange(force: bool, barVisible: bool, zoom: real, p: Position, withinTolerance: bool,
                        prefs: seq<real>, c: Compaction) returns (outcome: Outcome)
      requires Valid() && ValidTable(prefs) && 0.0 < c.factor
      modifies this`scale, this`barScale, this`caption
      ensures Valid()
      ensures !barVisible || (zoom != 0.0 && withinTolerance && !force) ==>
        outcome == Pass && scale == old(scale) && barScale == old(barScale) && caption == old(caption)
      ensures barVisible && zoom == 0.0 ==>
        outcome == Fail(ZeroDivisionError) && scale == old(scale) && barScale == old(barScale) && caption == old(caption)
      ensures barVisible && zoom != 0.0 && (force || !withinTolerance) ==>
        var r := ZoomDraw(quantity, zoom, p, prefs, c);
        && scale == 1.0 / zoom
        && outcome == OutcomeOf(r)
        && (r.Ok? ==> barScale == r.value.barScale && caption == r.value.caption)
        && (r.Err? ==> barScale == old(barScale) && caption == old(caption))
    {
      if !barVisible {
        return Pass;
      }
      if zoom == 0.0 {
        return Fail(ZeroDivisionError);
      }
      var newScale := 1.0 / zoom;
      if withinTolerance && !force {
        return Pass;
      }
      scale := newScale;
      var r := ZoomDraw(quantity, zoom, p, prefs, c);
      if r.Err? {
        return Fail(r.error);
      }
      barScale := r.value.barScale;
      caption := r.value.caption;
      outcome := Pass;
    }

    /**
     * `_on_position_change` for a canvas of `width` by `height` pixels: moves
     * the bar to its corner and flips only the sign of the transform's x-scale.
     */
    method OnPositionChange(p: Position, width: int, height: int) returns (outcome: Outcome)
      requires Valid()
      modifies this`barScale, this`barTranslate, this`textTranslate
      ensures Valid()
      ensures var r := PositionLayout(p, width, height);
        && outcome == OutcomeOf(r)
        && (r.Err? ==> barScale == old(barScale) && barTranslate == old(barTranslate) && textTranslate == old(textTranslate))
        && (r.Ok? ==> barTranslate == r.value.translate && textTranslate == [0, 20, 0, 0])
      ensures p.Unrecognized? || (barScale == Sign(p) as real * Abs(old(barScale)))
      ensures Abs(barScale) == Abs(old(barScale))
    {
      var r := PositionLayout(p, width, height);
      if r.Err? {
        return Fail(r.error);
      }
      barTranslate := r.value.translate;
      barScale := r.value.sign as real * Abs(barScale);
      textTranslate := [0, 20, 0, 0];
      outcome := Pass;
    }

    /** `_on_data_change`, without the colour: all six vertices with ticks, the bare bar without. */
    method OnDataChange(ticks: bool)
      requires Valid()
      modifies this`data
      ensures Valid() && data == TickData(ticks)
    {
      if ticks {
        data := BarPoints;
      } else {
        data := BarPoints[..2];
      }
    }

    /** `self._quantity = self.unit_registry(unit)`: one of `unit`, through the registry. */
    method ReadUnit(unit: string)
      requires Valid()
      modifies this`unitReg, this`registriesCreated, this`quantity
      ensures Valid() && quantity == Some(UnitQuantity(unit)) && unitReg == Some(PintRegistry)
    {
      var reg := UnitRegistry();
      assert reg.PintRegistry?;
      quantity := Some(UnitQuantity(unit));
    }

    /** `_on_visible_change`: show or hide, refresh the unit if needed, then force a redraw when visible. */
    method OnVisibleChange(barVisible: bool, unit: string, zoom: real, p: Position, withinTolerance: bool,
                           prefs: seq<real>, c: Compaction) returns (outcome: Outcome)
      requires Valid() && ValidTable(prefs) && 0.0 < c.factor
      modifies this`visible, this`unitReg, this`registriesCreated, this`quantity, this`scale, this`barScale, this`caption
      ensures Valid()
      ensures visible == barVisible && barTranslate == old(barTranslate) && textTranslate == old(textTranslate) && data == old(data)
      ensures quantity == if barVisible && (old(quantity).None? || old(quantity).value.unit != unit)
                          then Some(UnitQuantity(unit)) else old(quantity)
      ensures unitReg == if barVisible && (old(quantity).None? || old(quantity).value.unit != unit)
                         then Some(PintRegistry) else old(unitReg)
      ensures !barVisible ==>
        outcome == Pass && unitReg == old(unitReg) && scale == old(scale) && barScale == old(barScale) && caption == old(caption)
      ensures barVisible && zoom == 0.0 ==>
        outcome == Fail(ZeroDivisionError) && scale == old(scale) && barScale == old(barScale) && caption == old(caption)
      ensures barVisible && zoom != 0.0 ==>
        var r := ZoomDraw(quantity, zoom, p, prefs, c);
        && scale == 1.0 / zoom
        && outcome == OutcomeOf(r)
        && (r.Ok? ==> barScale == r.value.barScale && caption == r.value.caption)
        && (r.Err? ==> barScale == old(barScale) && caption == old(caption))
    {
      visible := barVisible;
      if barVisible && (quantity.None? || quantity.value.unit != unit) {
        ReadUnit(unit);
      }
      outcome := OnZoomChange(barVisible, barVisible, zoom, p, withinTolerance, prefs, c);
    }

    /** `_on_dimension_change`: re-read the unit (unless hidden with no registry yet) and force a redraw. */
    method OnDimensionChange(barVisible: bool, unit: string, zoom: real, p: Position, withinTolerance: bool,
                             prefs: seq<real>, c: Compaction) returns (outcome: Outcome)
      requires Valid() && ValidTable(prefs) && 0.0 < c.factor
      modifies this`unitReg, this`registriesCreated, this`quantity, this`scale, this`barScale, this`caption
      ensures Valid()
      ensures !barVisible && old(unitReg).None? ==> unitReg == None && quantity == old(quantity)
      ensures barVisible || old(unitReg).Some? ==> quantity == Some(UnitQuantity(unit)) && unitReg == Some(PintRegistry)
      ensures !barVisible ==> scale == old(scale) && barScale == old(barScale) && caption == old(caption) && outcome == Pass
      ensures barVisible && zoom == 0.0 ==>
        outcome == Fail(ZeroDivisionError) && scale == old(scale) && barScale == old(barScale) && caption == old(caption)
      ensures barVisible && zoom != 0.0 ==>
        var r := ZoomDraw(Some(UnitQuantity(unit)), zoom, p, prefs, c);
        && scale == 1.0 / zoom
        && outcome == OutcomeOf(r)
        && (r.Ok? ==> barScale == r.value.barScale && caption == r.value.caption)
        && (r.Err? ==> barScale == old(barScale) && caption == old(caption))
    {
      if !barVisible && unitReg.None? {
        return Pass;
      }
      ReadUnit(unit);
      outcome := OnZoomChange(true, barVisible, zoom, p, withinTolerance, prefs, c);
    }

    /**
     * The end of `__init__`: the visibility, vertex, unit and position
     * handlers, in this order, on the state the constructor leaves; an
     * exception in one of them ends `__init__`.
     */
    method Initialize(barVisible: bool, ticks: bool, unit: string, zoom: real, p: Position,
                      width: int, height: int, withinTolerance: bool, prefs: seq<real>, c: Compaction)
      returns (outcome: Outcome)
      requires Valid() && quantity == None && unitReg == None && ValidTable(prefs) && 0.0 < c.factor
      modifies this
      ensures Valid() && visible == barVisible
      ensures quantity == (if barVisible then Some(UnitQuantity(unit)) else None)
      ensures unitReg == (if barVisible then Some(PintRegistry) else None)
      ensures !barVisible ==>
        outcome == OutcomeOf(PositionLayout(p, width, height)) && scale == old(scale) && caption == old(caption)
      ensures barVisible && zoom == 0.0 ==> outcome == Fail(ZeroDivisionError)
      ensures barVisible && zoom != 0.0 ==>
        var r := ZoomDraw(Some(UnitQuantity(unit)), zoom, p, prefs, c);
        && scale == 1.0 / zoom
        && (r.Err? ==> outcome == Fail(r.error))
        && (r.Ok? ==> outcome == OutcomeOf(PositionLayout(p, width, height)) && caption == r.value.caption)
      ensures outcome == Pass ==>
        && data == TickData(ticks)
        && PositionLayout(p, width, height).Ok?
        && barTranslate == PositionLayout(p, width, height).value.translate
        && textTranslate == [0, 20, 0, 0]
    {
      outcome := OnVisibleChange(barVisible, unit, zoom, p, withinTolerance, prefs, c);
      if outcome.Fail? {
        return;
      }
      OnDataChange(ticks);
      outcome := OnDimensionChange(barVisible, unit, zoom, p, withinTolerance, prefs, c);
      if outcome.Fail? {
        return;
      }
      outcome := OnPositionChange(p, width, height);
    }
  }

  function Abs(x: real): (y: real)
    ensures 0.0 <= y && (y == x || y == -x)
  {
    if x < 0.0 then -x else x
  }
}
