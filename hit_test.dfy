/** The screen-space tap hit test of HelloArActivity: every triangle of a
    rendered object is projected through the object's model-view-projection
    matrix (vertices lifted with w = 0, no perspective divide) and the
    normalised touch point is classified against it by the signs of the three
    edge cross products (isMVPMatrixHitMotionEvent2). */
module HitTest {
  import opened Geometry

  /** A triangle of an object's model-space geometry. */
  datatype Triangle = Triangle(vertex1: Vec3, vertex2: Vec3, vertex3: Vec3)

  /** What the hit test reads of an ObjectRenderer: its triangle list and its
      current model-view-projection matrix. */
  datatype RenderObject = RenderObject(triangles: seq<Triangle>, mvp: Mat4)

  /** A single-tap motion event: its position in view pixels. */
  datatype Tap = Tap(x: real, y: real)

  /** The per-triangle decision: b1, b2 and b3 say whether each edge sign is
      strictly negative, and the point counts as inside when all three agree. */
  predicate SignTest(q: Vec2, a: Vec2, b: Vec2, c: Vec2)
  {
    var b1 := Sign(q, a, b) < 0.0;
    var b2 := Sign(q, b, c) < 0.0;
    var b3 := Sign(q, c, a) < 0.0;
    (b1 == b2) && (b2 == b3)
  }

  /** The rule in plain terms: inside exactly when all three edge signs are
      strictly negative, or none is. In particular three zero signs are a hit. */
  lemma SignTestRule(q: Vec2, a: Vec2, b: Vec2, c: Vec2)
    ensures SignTest(q, a, b, c) <==>
      (Sign(q, a, b) < 0.0 && Sign(q, b, c) < 0.0 && Sign(q, c, a) < 0.0)
      || (Sign(q, a, b) >= 0.0 && Sign(q, b, c) >= 0.0 && Sign(q, c, a) >= 0.0)
  {
  }

  /** Rotating the vertices (a, b, c) to (b, c, a) does not change the result. */
  lemma SignTestRotation(q: Vec2, a: Vec2, b: Vec2, c: Vec2)
    ensures SignTest(q, a, b, c) == SignTest(q, b, c, a)
  {
  }

  /** Reversing the winding by one swap turns the rule around: the point is
      inside the reversed triangle exactly when all three original signs are
      strictly positive or none is. So the two orders agree whenever no edge
      sign is zero, and may differ only on an edge line. */
  lemma SignTestReversed(q: Vec2, a: Vec2, b: Vec2, c: Vec2)
    ensures SignTest(q, a, c, b) <==>
      (Sign(q, a, b) > 0.0 && Sign(q, b, c) > 0.0 && Sign(q, c, a) > 0.0)
      || (Sign(q, a, b) <= 0.0 && Sign(q, b, c) <= 0.0 && Sign(q, c, a) <= 0.0)
    ensures Sign(q, a, b) != 0.0 && Sign(q, b, c) != 0.0 && Sign(q, c, a) != 0.0
      ==> (SignTest(q, a, c, b) <==> SignTest(q, a, b, c))
  {
    SignSymmetries(q, c, a);
    SignSymmetries(q, b, c);
    SignSymmetries(q, a, b);
  }

  /** A counter-clockwise triangle (positive Sign) contains exactly the points
      with no negative edge sign: the closed triangle, edges included. */
  lemma WindingPositive(q: Vec2, a: Vec2, b: Vec2, c: Vec2)
    requires Sign(a, b, c) > 0.0
    ensures SignTest(q, a, b, c) <==>
      Sign(q, a, b) >= 0.0 && Sign(q, b, c) >= 0.0 && Sign(q, c, a) >= 0.0
  {
    SignSum(q, a, b, c);
  }

  /** A clockwise triangle (negative Sign) contains exactly the points with
      three strictly negative edge signs: the open triangle, edges excluded. */
  lemma WindingNegative(q: Vec2, a: Vec2, b: Vec2, c: Vec2)
    requires Sign(a, b, c) < 0.0
    ensures SignTest(q, a, b, c) <==>
      Sign(q, a, b) < 0.0 && Sign(q, b, c) < 0.0 && Sign(q, c, a) < 0.0
  {
    SignSum(q, a, b, c);
  }

  /** A degenerate triangle (zero Sign) is not a miss everywhere: it contains
      exactly the points whose three edge signs are all zero. */
  lemma DegenerateTriangle(q: Vec2, a: Vec2, b: Vec2, c: Vec2)
    requires Sign(a, b, c) == 0.0
    ensures SignTest(q, a, b, c) <==>
      Sign(q, a, b) == 0.0 && Sign(q, b, c) == 0.0 && Sign(q, c, a) == 0.0
  {
    SignSum(q, a, b, c);
  }

  /** A triangle whose three vertices coincide contains every point. */
  lemma CoincidentVerticesHit(q: Vec2, a: Vec2)
    ensures SignTest(q, a, a, a)
  {
    assert Sign(q, a, a) == 0.0;
  }

  function Centroid(a: Vec2, b: Vec2, c: Vec2): Vec2
  {
    Vec2((a.x + b.x + c.x) / 3.0, (a.y + b.y + c.y) / 3.0)
  }

  /** The centroid sees each edge with a third of the triangle's Sign. */
  lemma CentroidEdgeSigns(a: Vec2, b: Vec2, c: Vec2)
    ensures Sign(Centroid(a, b, c), a, b) == Sign(a, b, c) / 3.0
    ensures Sign(Centroid(a, b, c), b, c) == Sign(a, b, c) / 3.0
    ensures Sign(Centroid(a, b, c), c, a) == Sign(a, b, c) / 3.0
  {
  }

  /** The centroid of every triangle is classified as a hit, whatever its
      winding, and also when it is degenerate. */
  lemma CentroidIsHit(a: Vec2, b: Vec2, c: Vec2)
    ensures SignTest(Centroid(a, b, c), a, b, c)
  {
    CentroidEdgeSigns(a, b, c);
  }

  /** The point (0.5, 0.5) lies on the hypotenuse of the triangle (0, 0),
      (1, 0), (0, 1): it is a hit in this counter-clockwise order and a miss
      in the clockwise order (0, 0), (0, 1), (1, 0). */
  lemma EdgePointDependsOnWinding()
    ensures SignTest(Vec2(0.5, 0.5), Vec2(0.0, 0.0), Vec2(1.0, 0.0), Vec2(0.0, 1.0))
    ensures !SignTest(Vec2(0.5, 0.5), Vec2(0.0, 0.0), Vec2(0.0, 1.0), Vec2(1.0, 0.0))
  {
    var q, a, b, c := Vec2(0.5, 0.5), Vec2(0.0, 0.0), Vec2(1.0, 0.0), Vec2(0.0, 1.0);
    assert SignTest(q, a, b, c) by {
      assert Sign(q, a, b) == 0.5 && Sign(q, b, c) == 0.0 && Sign(q, c, a) == 0.5;
    }
    assert !SignTest(q, a, c, b) by {
      assert Sign(q, a, c) == -0.5 && Sign(q, c, b) == 0.0;
    }
  }

  /** The inner point (0.25, 0.25) of that triangle is a hit in both orders. */
  lemma InnerPointHitInBothWindings()
    ensures SignTest(Vec2(0.25, 0.25), Vec2(0.0, 0.0), Vec2(1.0, 0.0), Vec2(0.0, 1.0))
    ensures SignTest(Vec2(0.25, 0.25), Vec2(0.0, 0.0), Vec2(0.0, 1.0), Vec2(1.0, 0.0))
  {
    var q, a, b, c := Vec2(0.25, 0.25), Vec2(0.0, 0.0), Vec2(1.0, 0.0), Vec2(0.0, 1.0);
    assert Sign(q, a, b) == 0.25 && Sign(q, b, c) == 0.5 && Sign(q, c, a) == 0.25;
    assert Sign(q, a, c) == -0.25 && Sign(q, c, b) == -0.5 && Sign(q, b, a) == -0.25;
  }

  /** The point (5, 5), far outside that triangle, is a miss in both orders. */
  lemma FarPointMissInBothWindings()
    ensures !SignTest(Vec2(5.0, 5.0), Vec2(0.0, 0.0), Vec2(1.0, 0.0), Vec2(0.0, 1.0))
    ensures !SignTest(Vec2(5.0, 5.0), Vec2(0.0, 0.0), Vec2(0.0, 1.0), Vec2(1.0, 0.0))
  {
    var q, a, b, c := Vec2(5.0, 5.0), Vec2(0.0, 0.0), Vec2(1.0, 0.0), Vec2(0.0, 1.0);
    assert !SignTest(q, a, b, c) by {
      assert Sign(q, b, c) == -9.0 && Sign(q, c, a) == 5.0;
    }
    assert !SignTest(q, a, c, b) by {
      assert Sign(q, c, b) == 9.0 && Sign(q, b, a) == -5.0;
    }
  }

  /** Whether the normalised point q falls in triangle t of an object drawn
      with matrix mvp. */
  predicate TriangleHit(mvp: Mat4, t: Triangle, q: Vec2)
  {
    SignTest(q, Project(mvp, t.vertex1), Project(mvp, t.vertex2), Project(mvp, t.vertex3))
  }

  /** Whether some triangle of the object contains q. */
  predicate ObjectContains(obj: RenderObject, q: Vec2)
  {
    exists i :: 0 <= i < |obj.triangles| && TriangleHit(obj.mvp, obj.triangles[i], q)
  }

  /** An object without triangles is never hit. */
  lemma EmptyObjectMisses(mvp: Mat4, q: Vec2)
    ensures !ObjectContains(RenderObject([], mvp), q)
  {
  }

  /** isMVPMatrixHitMotionEvent2: scan the triangles in order, projecting each
      vertex and classifying the tap's normalised position against them, and
      stop at the first triangle that contains it. `firstHit` is the index of
      that triangle (the number of triangles scanned without a hit). */
  method IsMvpHit(obj: RenderObject, tap: Tap, width: real, height: real)
      returns (hit: bool, ghost firstHit: nat)
    requires width > 0.0 && height > 0.0
    ensures hit <==> ObjectContains(obj, ConvertToFrame(tap.x, tap.y, width, height))
    ensures firstHit <= |obj.triangles|
    ensures hit <==> firstHit < |obj.triangles|
    ensures hit ==> TriangleHit(obj.mvp, obj.triangles[firstHit], ConvertToFrame(tap.x, tap.y, width, height))
    ensures forall j :: 0 <= j < firstHit ==>
      !TriangleHit(obj.mvp, obj.triangles[j], ConvertToFrame(tap.x, tap.y, width, height))
  {
    var i := 0;
    while i < |obj.triangles|
      invariant i <= |obj.triangles|
      invariant forall j :: 0 <= j < i ==>
        !TriangleHit(obj.mvp, obj.triangles[j], ConvertToFrame(tap.x, tap.y, width, height))
    {
      var triangle := obj.triangles[i];
      var calculatedPoint1 := MultiplyMV(obj.mvp, Lift(triangle.vertex1));
      var calculatedPoint2 := MultiplyMV(obj.mvp, Lift(triangle.vertex2));
      var calculatedPoint3 := MultiplyMV(obj.mvp, Lift(triangle.vertex3));
      var point12D := Vec2(calculatedPoint1.x, calculatedPoint1.y);
      var point22D := Vec2(calculatedPoint2.x, calculatedPoint2.y);
      var point32D := Vec2(calculatedPoint3.x, calculatedPoint3.y);
      var convertedTouchPosition := ConvertToFrame(tap.x, tap.y, width, height);
      var b1 := Sign(convertedTouchPosition, point12D, point22D) < 0.0;
      var b2 := Sign(convertedTouchPosition, point22D, point32D) < 0.0;
      var b3 := Sign(convertedTouchPosition, point32D, point12D) < 0.0;
      if (b1 == b2) && (b2 == b3) {
        assert TriangleHit(obj.mvp, triangle, convertedTouchPosition);
        return true, i;
      }
      i := i + 1;
    }
    return false, i;
  }
}
