/**
 * Transforming an object and verifying the outcome (adapter/mutators/transform_mutator.py and the transform
 * case of agent/verifier.py), over real numbers.
 */
module TransformCheck {
  import opened PyText

  const EPSILON: real := 0.001

  function Abs(x: real): real {
    if x < 0.0 then -x else x
  }

  // ------------------------------------------------------------------------
  // Rounding to four decimals
  // ------------------------------------------------------------------------

  /** The nearest integer, the even one of two. */
  function RoundEven(y: real): int {
    var n := y.Floor;
    var d := y - n as real;
    if d < 0.5 || (d == 0.5 && n % 2 == 0) then n else n + 1
  }

  /** `round(x, 4)`. */
  function Round4(x: real): real {
    RoundEven(x * 10000.0) as real / 10000.0
  }

  lemma Round4Near(x: real)
    ensures Abs(Round4(x) - x) <= 0.00005
  {
    var y := x * 10000.0;
    assert Abs(RoundEven(y) as real - y) <= 0.5;
  }

  // ------------------------------------------------------------------------
  // Angles
  // ------------------------------------------------------------------------

  function Product(a: real, b: real): real {
    a * b
  }

  /** Python's `x % m` for m > 0. */
  function Mod(x: real, m: real): real
    requires m > 0.0
  {
    x - Product(m, (x / m).Floor as real)
  }

  function NormalizeAngle(pi: real, rad: real): real
    requires pi > 0.0
  {
    Mod(rad + pi, 2.0 * pi) - pi
  }

  function AngleDifference(pi: real, actual: real, expected: real): real
    requires pi > 0.0
  {
    NormalizeAngle(pi, actual - expected)
  }

  lemma Quotient(x: real, m: real)
    requires m > 0.0
    ensures Product(x / m, m) == x
  {
  }

  /** The part of q behind the point, taken m times, stays below m. */
  lemma Fraction(q: real, n: int, m: real)
    requires m > 0.0 && n as real <= q < n as real + 1.0
    ensures 0.0 <= Product(q, m) - Product(m, n as real) < m
  {
    hide Product;
    var rest := q - n as real;
    ProductSign(rest, m);
    ProductSign(1.0 - rest, m);
    Distribute(q, n as real, m);
    Distribute(1.0, rest, m);
  }

  lemma Distribute(a: real, b: real, m: real)
    ensures Product(a - b, m) == Product(a, m) - Product(m, b) == Product(a, m) - Product(b, m)
    ensures Product(1.0, m) == m
  {
  }

  lemma ModRange(x: real, m: real)
    requires m > 0.0
    ensures 0.0 <= Mod(x, m) < m
  {
    hide Product;
    Quotient(x, m);
    Fraction(x / m, (x / m).Floor, m);
  }

  /** Normalizing takes off whole turns until the angle lies between -pi and pi, pi itself excluded. */
  lemma NormalizeRange(pi: real, rad: real) returns (turns: int)
    requires pi > 0.0
    ensures NormalizeAngle(pi, rad) == rad - 2.0 * pi * turns as real
    ensures -pi <= NormalizeAngle(pi, rad) < pi
  {
    turns := WholeTurnsIn(rad + pi, 2.0 * pi);
    ModRange(rad + pi, 2.0 * pi);
    TakeOff(pi, rad);
  }

  function WholeTurnsIn(x: real, m: real): int
    requires m > 0.0
  {
    (x / m).Floor
  }

  lemma TakeOff(pi: real, rad: real)
    requires pi > 0.0 && 0.0 <= Mod(rad + pi, 2.0 * pi) < 2.0 * pi
    ensures -pi <= NormalizeAngle(pi, rad) < pi
  {
    hide Mod;
  }

  lemma ProductSign(a: real, b: real)
    ensures a >= 0.0 && b >= 0.0 ==> Product(a, b) >= 0.0
    ensures a > 0.0 && b > 0.0 ==> Product(a, b) > 0.0
  {
  }

  lemma WholeTurns(pi: real, a: real, b: real, k: int)
    requires pi > 0.0 && -pi <= a < pi && -pi <= b < pi
    requires a - b == 2.0 * pi * k as real
    ensures a == b
  {
    var m := 2.0 * pi;
    ProductSign(m, k as real - 1.0);
    ProductSign(m, -1.0 - k as real);
    assert m * (k as real - 1.0) == m * k as real - m;
    assert m * (-1.0 - k as real) == -m - m * k as real;
  }

  /** The rotation check passes exactly when the angles agree up to whole turns, within the tolerance. */
  lemma AnglesAgreeModuloTurns(pi: real, actual: real, expected: real, epsilon: real)
    requires pi > 0.0 && 0.0 <= epsilon < pi
    ensures Abs(AngleDifference(pi, actual, expected)) <= epsilon
            <==> exists k: int :: AgreeUpTo(pi, actual, expected, epsilon, k)
  {
    var d := actual - expected;
    var turns := NormalizeRange(pi, d);
    assert OffBy(pi, d, turns) == NormalizeAngle(pi, d);
    assert Abs(AngleDifference(pi, actual, expected)) <= epsilon <==> AgreeUpTo(pi, actual, expected, epsilon, turns);
    forall k: int | AgreeUpTo(pi, actual, expected, epsilon, k)
      ensures Abs(NormalizeAngle(pi, d)) <= epsilon
    {
      assert OffBy(pi, d, k) - NormalizeAngle(pi, d) == 2.0 * pi * (turns - k) as real by {
        assert 2.0 * pi * turns as real - 2.0 * pi * k as real == 2.0 * pi * (turns - k) as real;
      }
      WholeTurns(pi, OffBy(pi, d, k), NormalizeAngle(pi, d), turns - k);
    }
  }

  predicate AgreeUpTo(pi: real, actual: real, expected: real, epsilon: real, turns: int) {
    Abs(OffBy(pi, actual - expected, turns)) <= epsilon
  }

  function OffBy(pi: real, d: real, turns: int): real {
    d - 2.0 * pi * turns as real
  }

  // ------------------------------------------------------------------------
  // The object and its transformation
  // ------------------------------------------------------------------------

  datatype Vec = Vec(x: real, y: real, z: real) {
    function Components(): seq<real> {
      [x, y, z]
    }
  }

  datatype Pose = Pose(location: Vec, rotation: Vec, scale: Vec)

  /** Arguments as the tool passes them; a vector may have any length. */
  datatype Change = Change(location: Option<seq<real>>, rotation: Option<seq<real>>, scale: Option<seq<real>>,
                           relative: bool)

  datatype Outcome =
    | NothingToDo
    | BadVector(property: Property)
    | Changed(before: Pose, after: Pose, fields: seq<Property>)

  datatype Property = LOCATION | ROTATION | SCALE

  function RoundVec(v: Vec): Vec {
    Vec(Round4(v.x), Round4(v.y), Round4(v.z))
  }

  function Snapshot(p: Pose): Pose {
    Pose(RoundVec(p.location), RoundVec(p.rotation), RoundVec(p.scale))
  }

  function ToVec(v: seq<real>): Vec
    requires |v| == 3
  {
    Vec(v[0], v[1], v[2])
  }

  function Add(a: Vec, b: Vec): Vec {
    Vec(a.x + b.x, a.y + b.y, a.z + b.z)
  }

  function Times(a: Vec, b: Vec): Vec {
    Vec(Product(a.x, b.x), Product(a.y, b.y), Product(a.z, b.z))
  }

  predicate Usable(v: Option<seq<real>>) {
    v.Some? && |v.value| == 3
  }

  predicate BadLength(v: Option<seq<real>>) {
    v.Some? && |v.value| != 3
  }

  function Shift(current: Vec, v: Option<seq<real>>, relative: bool): Vec {
    if !Usable(v) then current else if relative then Add(current, ToVec(v.value)) else ToVec(v.value)
  }

  function Rescale(current: Vec, v: Option<seq<real>>, relative: bool): Vec {
    if !Usable(v) then current else if relative then Times(current, ToVec(v.value)) else ToVec(v.value)
  }

  predicate Empty(c: Change) {
    c.location.None? && c.rotation.None? && c.scale.None?
  }

  predicate WellSized(c: Change) {
    !BadLength(c.location) && !BadLength(c.rotation) && !BadLength(c.scale)
  }

  /** What becomes of a pose: the properties before the first malformed vector are already changed when it raises. */
  function Applied(p: Pose, c: Change): Pose {
    if BadLength(c.location) then p
    else
      var p1 := p.(location := Shift(p.location, c.location, c.relative));
      if BadLength(c.rotation) then p1
      else
        p1.(rotation := Shift(p.rotation, c.rotation, c.relative), scale := Rescale(p.scale, c.scale, c.relative))
  }

  /** Component by component: shifted by the vector, or set to it; unchanged if there is none. */
  predicate Moved(before: seq<real>, after: seq<real>, v: Option<seq<real>>, relative: bool) {
    if v.None? then after == before
    else
      && |before| == |after| == |v.value|
      && forall i :: 0 <= i < |before| ==> after[i] == if relative then before[i] + v.value[i] else v.value[i]
  }

  /** Component by component: multiplied with the vector, or set to it; unchanged if there is none. */
  predicate Scaled(before: seq<real>, after: seq<real>, v: Option<seq<real>>, relative: bool) {
    if v.None? then after == before
    else
      && |before| == |after| == |v.value|
      && forall i :: 0 <= i < |before| ==> after[i] == if relative then before[i] * v.value[i] else v.value[i]
  }

  /** All three properties as the change asks for it. */
  predicate ChangedAsAsked(before: Pose, after: Pose, c: Change) {
    && Moved(before.location.Components(), after.location.Components(), c.location, c.relative)
    && Moved(before.rotation.Components(), after.rotation.Components(), c.rotation, c.relative)
    && Scaled(before.scale.Components(), after.scale.Components(), c.scale, c.relative)
  }

  /**
   * What a transformation does to a pose, component by component. Where a malformed vector raises, the
   * properties before it are changed as asked and the others stay.
   */
  lemma AppliedByComponents(p: Pose, c: Change)
    ensures var q := Applied(p, c);
            if WellSized(c) then ChangedAsAsked(p, q, c)
            else if BadLength(c.location) then q == p
            else if BadLength(c.rotation) then ChangedAsAsked(p, q, c.(rotation := None, scale := None))
            else ChangedAsAsked(p, q, c.(scale := None))
  {
    hide Moved, Scaled, Shift, Rescale;
    PropertyChanges(p.location, c.location, c.relative);
    PropertyChanges(p.rotation, c.rotation, c.relative);
    PropertyChanges(p.scale, c.scale, c.relative);
    PropertyChanges(p.rotation, None, c.relative);
    PropertyChanges(p.scale, None, c.relative);
  }

  lemma PropertyChanges(current: Vec, v: Option<seq<real>>, relative: bool)
    ensures !BadLength(v) ==>
              && Moved(current.Components(), Shift(current, v, relative).Components(), v, relative)
              && Scaled(current.Components(), Rescale(current, v, relative).Components(), v, relative)
    ensures !Usable(v) ==> Shift(current, v, relative) == current && Rescale(current, v, relative) == current
  {
  }

  /** Recorded components are off by half a unit of the fourth decimal at most. */
  lemma SnapshotNear(v: Vec, i: nat)
    requires i < 3
    ensures Abs(RoundVec(v).Components()[i] - v.Components()[i]) <= 0.00005
    ensures exists n: int :: FourDecimals(RoundVec(v).Components()[i], n)
  {
    var x := v.Components()[i];
    Round4Near(x);
    assert FourDecimals(Round4(x), RoundEven(x * 10000.0));
  }

  predicate FourDecimals(x: real, n: int) {
    x == n as real / 10000.0
  }

  class SceneObject {
    var location: Vec
    var rotation: Vec
    var scale: Vec

    function CurrentPose(): Pose
      reads this
    {
      Pose(location, rotation, scale)
    }

    method Transform(c: Change) returns (r: Outcome)
      modifies this
      ensures CurrentPose() == Applied(old(CurrentPose()), c)
      ensures r.NothingToDo? <==> Empty(c)
      ensures r.Changed? <==> !Empty(c) && WellSized(c)
      ensures r.Changed? ==> r.before == Snapshot(old(CurrentPose())) && r.after == Snapshot(CurrentPose())
      ensures r.Changed? ==>
                && (LOCATION in r.fields <==> c.location.Some?) && (ROTATION in r.fields <==> c.rotation.Some?)
                && (SCALE in r.fields <==> c.scale.Some?)
      ensures r == BadVector(LOCATION) <==> BadLength(c.location)
      ensures r == BadVector(ROTATION) <==> !BadLength(c.location) && BadLength(c.rotation)
      ensures r == BadVector(SCALE) <==> !BadLength(c.location) && !BadLength(c.rotation) && BadLength(c.scale)
    {
      if c.location.None? && c.rotation.None? && c.scale.None? {
        return NothingToDo;
      }
      var fields: seq<Property> := [];
      var before := Snapshot(CurrentPose());
      if c.location.Some? {
        var v := c.location.value;
        if |v| != 3 {
          return BadVector(LOCATION);
        }
        location := if c.relative then Add(location, ToVec(v)) else ToVec(v);
        fields := fields + [LOCATION];
      }
      if c.rotation.Some? {
        var v := c.rotation.value;
        if |v| != 3 {
          return BadVector(ROTATION);
        }
        rotation := if c.relative then Add(rotation, ToVec(v)) else ToVec(v);
        fields := fields + [ROTATION];
      }
      if c.scale.Some? {
        var v := c.scale.value;
        if |v| != 3 {
          return BadVector(SCALE);
        }
        scale := if c.relative then Times(scale, ToVec(v)) else ToVec(v);
        fields := fields + [SCALE];
      }
      r := Changed(before, Snapshot(CurrentPose()), fields);
    }
  }

  // ------------------------------------------------------------------------
  // Verification
  // ------------------------------------------------------------------------

  /** The values a transformation should have led to, reckoned from the rounded pose before it. */
  function Expected(before: Pose, c: Change): Pose
    requires WellSized(c)
  {
    Pose(Shift(before.location, c.location, c.relative), Shift(before.rotation, c.rotation, c.relative),
         Rescale(before.scale, c.scale, c.relative))
  }

  /** The expected values, component by component: as if the recorded pose had been changed as asked. */
  lemma ExpectedByComponents(before: Pose, c: Change)
    requires WellSized(c)
    ensures ChangedAsAsked(before, Expected(before, c), c)
  {
    hide Moved, Scaled, Shift, Rescale;
    PropertyChanges(before.location, c.location, c.relative);
    PropertyChanges(before.rotation, c.rotation, c.relative);
    PropertyChanges(before.scale, c.scale, c.relative);
  }

  predicate Close(pi: real, expected: real, actual: real, isRotation: bool)
    requires pi > 0.0
  {
    Abs(if isRotation then AngleDifference(pi, actual, expected) else actual - expected) <= EPSILON
  }

  /** A mismatch is reported exactly for vectors of different lengths or with a component that is too far off. */
  method CompareNumericVector(pi: real, expected: seq<real>, actual: seq<real>, isRotation: bool)
    returns (mismatch: bool)
    requires pi > 0.0
    ensures mismatch <==>
            || |expected| != |actual|
            || exists i :: 0 <= i < |expected| && !Close(pi, expected[i], actual[i], isRotation)
  {
    if |expected| != |actual| {
      return true;
    }
    mismatch := false;
    for i := 0 to |expected|
      invariant mismatch <==> exists j :: 0 <= j < i && !Close(pi, expected[j], actual[j], isRotation)
    {
      var delta := if isRotation then AngleDifference(pi, actual[i], expected[i]) else actual[i] - expected[i];
      if Abs(delta) > EPSILON {
        mismatch := true;
      }
    }
  }

  predicate CloseVec(pi: real, expected: Vec, actual: Vec, isRotation: bool)
    requires pi > 0.0
  {
    && Close(pi, expected.x, actual.x, isRotation)
    && Close(pi, expected.y, actual.y, isRotation)
    && Close(pi, expected.z, actual.z, isRotation)
  }

  /** Only the properties that were asked for are looked at. */
  predicate Passes(pi: real, c: Change, expected: Pose, actual: Pose)
    requires pi > 0.0
  {
    && (c.location.Some? ==> CloseVec(pi, expected.location, actual.location, false))
    && (c.rotation.Some? ==> CloseVec(pi, expected.rotation, actual.rotation, true))
    && (c.scale.Some? ==> CloseVec(pi, expected.scale, actual.scale, false))
  }

  method CompareVec(pi: real, expected: Vec, actual: Vec, isRotation: bool) returns (mismatch: bool)
    requires pi > 0.0
    ensures mismatch <==> !CloseVec(pi, expected, actual, isRotation)
  {
    var e, a := expected.Components(), actual.Components();
    mismatch := CompareNumericVector(pi, e, a, isRotation);
    assert e[0] == expected.x && e[1] == expected.y && e[2] == expected.z;
    assert a[0] == actual.x && a[1] == actual.y && a[2] == actual.z;
  }

  datatype Mismatch = Gone | TooFar(property: Property)

  /** `found`: the object still exists; if not, that is all that is reported. */
  method VerifyTransform(pi: real, c: Change, before: Pose, found: bool, actual: Pose)
    returns (mismatches: seq<Mismatch>)
    requires pi > 0.0 && WellSized(c)
    ensures !found ==> mismatches == [Gone]
    ensures found ==>
              var expected := Expected(before, c);
              && Gone !in mismatches
              && (TooFar(LOCATION) in mismatches <==>
                    c.location.Some? && !CloseVec(pi, expected.location, actual.location, false))
              && (TooFar(ROTATION) in mismatches <==>
                    c.rotation.Some? && !CloseVec(pi, expected.rotation, actual.rotation, true))
              && (TooFar(SCALE) in mismatches <==> c.scale.Some? && !CloseVec(pi, expected.scale, actual.scale, false))
    ensures mismatches == [] <==> found && Passes(pi, c, Expected(before, c), actual)
  {
    hide CloseVec;
    if !found {
      return [Gone];
    }
    mismatches := [];
    var expected := Expected(before, c);
    if c.location.Some? {
      var off := CompareVec(pi, expected.location, actual.location, false);
      mismatches := mismatches + if off then [TooFar(LOCATION)] else [];
    }
    if c.rotation.Some? {
      var off := CompareVec(pi, expected.rotation, actual.rotation, true);
      mismatches := mismatches + if off then [TooFar(ROTATION)] else [];
    }
    if c.scale.Some? {
      var off := CompareVec(pi, expected.scale, actual.scale, false);
      mismatches := mismatches + if off then [TooFar(SCALE)] else [];
    }
  }

  // ------------------------------------------------------------------------
  // An exact transformation passes its verification
  // ------------------------------------------------------------------------

  /** A difference within the tolerance passes as a difference of angles, too. */
  lemma CloseAnyway(pi: real, expected: real, actual: real, isRotation: bool)
    requires pi > EPSILON && Abs(actual - expected) <= EPSILON
    ensures Close(pi, expected, actual, isRotation)
  {
    var d := actual - expected;
    if isRotation {
      assert AgreeUpTo(pi, actual, expected, EPSILON, 0);
      AnglesAgreeModuloTurns(pi, actual, expected, EPSILON);
    }
  }

  lemma ShiftedClose(pi: real, b: real, v: real, relative: bool, isRotation: bool)
    requires pi > EPSILON
    ensures if relative then Close(pi, Round4(b) + v, Round4(b + v), isRotation)
            else Close(pi, v, Round4(v), isRotation)
  {
    Round4Near(b);
    Round4Near(b + v);
    Round4Near(v);
    CloseAnyway(pi, if relative then Round4(b) + v else v, if relative then Round4(b + v) else Round4(v), isRotation);
  }

  lemma ProductBound(d: real, f: real, c: real)
    requires Abs(d) <= c
    ensures Abs(d * f) <= c * Abs(f)
  {
    ProductSign(c - d, Abs(f));
    ProductSign(c + d, Abs(f));
    assert (c - d) * Abs(f) == c * Abs(f) - d * Abs(f);
    assert (c + d) * Abs(f) == c * Abs(f) + d * Abs(f);
    assert d * Abs(f) == if f < 0.0 then -(d * f) else d * f;
  }

  /** Two roundings move a scaled value by at most this much from what is expected of it. */
  lemma ScaleError(b: real, f: real)
    ensures Abs(Round4(b * f) - Round4(b) * f) <= 0.00005 * (1.0 + Abs(f))
  {
    hide Round4;
    Round4Near(b);
    Round4Near(b * f);
    var d := Round4(b) - b;
    ProductBound(d, f, 0.00005);
    var e := Round4(b * f) - b * f;
    assert Round4(b) * f == (b + d) * f == b * f + d * f;
    assert Round4(b * f) - Round4(b) * f == e - d * f;
  }

  lemma RescaledClose(pi: real, b: real, v: real, relative: bool)
    requires pi > EPSILON && (relative ==> Abs(v) <= 19.0)
    ensures if relative then Close(pi, Product(Round4(b), v), Round4(Product(b, v)), false)
            else Close(pi, v, Round4(v), false)
  {
    Round4Near(v);
    ScaleError(b, v);
  }

  lemma RescaledVecClose(pi: real, b: Vec, v: Vec, relative: bool)
    requires pi > EPSILON && (relative ==> Modest(v))
    ensures CloseVec(pi, if relative then Times(RoundVec(b), v) else v,
                     RoundVec(if relative then Times(b, v) else v), false)
  {
    hide Round4, Close, Product;
    RescaledClose(pi, b.x, v.x, relative);
    RescaledClose(pi, b.y, v.y, relative);
    RescaledClose(pi, b.z, v.z, relative);
  }

  predicate Modest(v: Vec) {
    Abs(v.x) <= 19.0 && Abs(v.y) <= 19.0 && Abs(v.z) <= 19.0
  }

  predicate ModestFactors(c: Change) {
    c.relative && Usable(c.scale) ==> Modest(ToVec(c.scale.value))
  }

  /**
   * A transformation that did exactly what was asked is never reported as a mismatch, though both poses are
   * rounded: for locations and rotations always, for scales as long as no relative factor exceeds 19.
   */
  lemma ExactTransformVerifies(pi: real, p: Pose, c: Change)
    requires pi > EPSILON && WellSized(c) && ModestFactors(c)
    ensures Passes(pi, c, Expected(Snapshot(p), c), Snapshot(Applied(p, c)))
  {
    hide Round4, Close;
    if c.location.Some? {
      var v := ToVec(c.location.value);
      ShiftedClose(pi, p.location.x, v.x, c.relative, false);
      ShiftedClose(pi, p.location.y, v.y, c.relative, false);
      ShiftedClose(pi, p.location.z, v.z, c.relative, false);
    }
    if c.rotation.Some? {
      var v := ToVec(c.rotation.value);
      ShiftedClose(pi, p.rotation.x, v.x, c.relative, true);
      ShiftedClose(pi, p.rotation.y, v.y, c.relative, true);
      ShiftedClose(pi, p.rotation.z, v.z, c.relative, true);
    }
    if c.scale.Some? {
      RescaledVecClose(pi, p.scale, ToVec(c.scale.value), c.relative);
    }
  }

  /** The factor a little above 19, and the scale, with which an exact transformation fails. */
  function BadFactor(g: real): real {
    19.0 + 4.0 * g
  }

  function BadScale(m: int): real {
    (m as real + 0.5) / 10000.0
  }

  function BadPose(m: int): Pose {
    Pose(Vec(0.0, 0.0, 0.0), Vec(0.0, 0.0, 0.0), Vec(BadScale(m), 1.0, 1.0))
  }

  function OneFactor(f: real): Change {
    Change(None, None, Some([f, 1.0, 1.0]), true)
  }

  /** The scale lies half-way and is recorded as the even neighbour below; scaled up, it is rounded up. */
  lemma BadRounding(m: int, g: real)
    requires m >= 2 && m % 2 == 0 && Product(4.0 * m as real + 1.0, g) == 1.0 && 0.0 < g <= 0.2
    ensures Round4(BadScale(m)) == m as real / 10000.0
    ensures Round4(Product(BadScale(m), BadFactor(g))) == (19 * m + 11) as real / 10000.0
    ensures Product(m as real / 10000.0, BadFactor(g)) == (19.0 * m as real + 1.0 - g) / 10000.0
  {
    var r := m as real;
    assert 4.0 * (r * g) + g == 1.0;
    assert BadScale(m) * 10000.0 == r + 0.5;
    assert (r + 0.5).Floor == m;
    var x := (r + 0.5) * BadFactor(g);
    assert x == 19.0 * r + 9.5 + 4.0 * (r * g) + 2.0 * g;
    assert x == (19 * m + 10) as real + 0.5 + g;
    assert x.Floor == 19 * m + 10;
    assert Product(BadScale(m), BadFactor(g)) * 10000.0 == x;
  }

  /** An even number whose reciprocal is small enough. */
  lemma SmallStep(e: real) returns (m: int, g: real)
    requires e > 0.0
    ensures m >= 2 && m % 2 == 0 && Product(4.0 * m as real + 1.0, g) == 1.0 && 0.0 < g <= 0.2 && 4.0 * g <= e
  {
    var n := (1.0 / e).Floor;
    assert 1.0 / e > 0.0;
    m := 2 * (n + 1);
    var q := 4.0 * m as real + 1.0;
    assert q >= 8.0 * (1.0 / e) && q >= 9.0;
    g := 1.0 / q;
    SmallReciprocal(q, e);
  }

  lemma SmallReciprocal(q: real, e: real)
    requires e > 0.0 && q >= 9.0 && q >= 8.0 * (1.0 / e)
    ensures Product(q, 1.0 / q) == 1.0 && 0.0 < 1.0 / q <= 0.2 && 4.0 * (1.0 / q) <= e
  {
    var h, g := 1.0 / e, 1.0 / q;
    assert q * g == 1.0 && h * e == 1.0;
    assert g > 0.0;
    assert q * e >= 8.0 by {
      ProductSign(q - 8.0 * h, e);
      assert (q - 8.0 * h) * e == q * e - 8.0 * (h * e);
    }
    ProductSign(q * e - 8.0, g);
    assert (q * e - 8.0) * g == e * (q * g) - 8.0 * g;
    ProductSign(q - 9.0, g);
    assert (q - 9.0) * g == q * g - 9.0 * g;
  }

  /**
   * The bound of 19 is the best: for every larger one there is a factor between the two, and a scale, with
   * which a transformation that did exactly what was asked is reported as a mismatch.
   */
  lemma NineteenIsTight(pi: real, bound: real) returns (f: real, p: Pose)
    requires pi > EPSILON && bound > 19.0
    ensures 19.0 < f <= bound && WellSized(OneFactor(f)) && !ModestFactors(OneFactor(f))
    ensures !Passes(pi, OneFactor(f), Expected(Snapshot(p), OneFactor(f)), Snapshot(Applied(p, OneFactor(f))))
  {
    hide Round4, AngleDifference, Close, ModestFactors, Product;
    var m, g := SmallStep(bound - 19.0);
    f, p := BadFactor(g), BadPose(m);
    assert OneFactor(f).scale.value[0] == f;
    TooFarOff(pi, m, g);
    Immodest(OneFactor(f));
  }

  lemma Immodest(c: Change)
    requires c.relative && Usable(c.scale) && c.scale.value[0] > 19.0
    ensures !ModestFactors(c)
  {
  }

  lemma TooFarOff(pi: real, m: int, g: real)
    requires pi > 0.0 && m >= 2 && m % 2 == 0 && Product(4.0 * m as real + 1.0, g) == 1.0 && 0.0 < g <= 0.2
    ensures !Close(pi, Product(Round4(BadScale(m)), BadFactor(g)), Round4(Product(BadScale(m), BadFactor(g))), false)
  {
    hide Round4, AngleDifference, Product;
    BadRounding(m, g);
    assert (19 * m + 11) as real == 19.0 * m as real + 11.0;
  }
}
