/**
 * One frame of the cube viewer: the model-view-projection matrix that the
 * render loop builds from the orbit controls and hands to the vertex shader.
 *
 * The projection is the perspective with near plane 0.1 and far plane 100;
 * the view moves the scene `distance` units away from the camera; the model
 * turns the cube about y and then about x. The angles come in degrees from
 * the controls; their cosines and sines are supplied by `trig`, and the
 * cotangent of half the field of view by `f`.
 */
module Render {
  import opened Matrices
  import opened Controls

  const Near: real := 0.1
  const Far: real := 100.0

  /** The homogeneous coordinates of the cube's centre. */
  const Origin: Vec4 := [0.0, 0.0, 0.0, 1.0]

  /** The render loop's projection: near plane 0.1, far plane 100, written out. */
  function ProjectionMatrix(f: real, aspect: real): (m: Mat4)
    requires aspect != 0.0
    ensures m == [f / aspect, 0.0, 0.0, 0.0,  0.0, f, 0.0, 0.0,
                  0.0, 0.0, -1001.0 / 999.0, -1.0,  0.0, 0.0, -200.0 / 999.0, 0.0]
  {
    Perspective(f, aspect, Near, Far)
  }

  /** The camera: the scene moved `distance` units away, so the cube's centre lies on the axis in front. */
  function ViewMatrix(o: Orbit): (m: Mat4)
    ensures Apply(m, Origin) == [0.0, 0.0, -o.distance, 1.0]
  {
    TranslateMovesPoints(0.0, 0.0, -o.distance, Origin);
    Translate(0.0, 0.0, -o.distance)
  }

  /** The cube's orientation: a turn about y, then about x, both about the cube's centre. */
  function ModelMatrix(o: Orbit, trig: real -> Angle): (m: Mat4)
    ensures Apply(m, Origin) == Origin
  {
    var rx, ry := RotateX(trig(o.rotationX)), RotateY(trig(o.rotationY));
    ApplyProduct(rx, ry, Origin);
    RotateYTurnsZX(trig(o.rotationY), Origin);
    assert Apply(ry, Origin) == Origin;
    RotateXTurnsYZ(trig(o.rotationX), Origin);
    Product(rx, ry)
  }

  /**
   * The matrix of one frame, grouped as the render loop groups it; the
   * grouping does not matter.
   */
  function FrameMatrix(o: Orbit, f: real, aspect: real, trig: real -> Angle): (m: Mat4)
    requires aspect != 0.0
    ensures m == Product(ProjectionMatrix(f, aspect), Product(ViewMatrix(o), ModelMatrix(o, trig)))
  {
    ProductAssociative(ProjectionMatrix(f, aspect), ViewMatrix(o), ModelMatrix(o, trig));
    Product(Product(ProjectionMatrix(f, aspect), ViewMatrix(o)), ModelMatrix(o, trig))
  }

  /**
   * Builds the frame's matrix from the controls' current state, in the
   * render loop's order. Since the controls keep their distance in range,
   * the cube's centre lands in the middle of the screen, inside the clip
   * volume.
   */
  method Render(controls: OrbitControls, f: real, aspect: real, trig: real -> Angle) returns (mvp: Mat4)
    requires aspect != 0.0 && controls.Valid()
    ensures mvp == FrameMatrix(controls.Current().orbit, f, aspect, trig)
    ensures var c := Apply(mvp, Origin); c[0] == 0.0 && c[1] == 0.0 && 0.0 < c[3] && -c[3] < c[2] < c[3]
  {
    ghost var o := controls.Current().orbit;
    var proj := Perspective(f, aspect, Near, Far);
    var view := Translate(0.0, 0.0, -controls.distance);
    var model := Multiply(RotateX(trig(controls.rotationX)), RotateY(trig(controls.rotationY)));
    assert proj == ProjectionMatrix(f, aspect) && view == ViewMatrix(o) && model == ModelMatrix(o, trig);
    mvp := Multiply(proj, view);
    mvp := Multiply(mvp, model);
    CentreInClipVolume(o, f, aspect, trig);
  }

  /**
   * A vertex is turned about y first, then about x, then moved away from
   * the camera, then projected.
   */
  lemma FrameTransformsInOrder(o: Orbit, f: real, aspect: real, trig: real -> Angle, v: Vec4)
    requires aspect != 0.0
    ensures Apply(FrameMatrix(o, f, aspect, trig), v) ==
      Apply(ProjectionMatrix(f, aspect), Apply(ViewMatrix(o),
        Apply(RotateX(trig(o.rotationX)), Apply(RotateY(trig(o.rotationY)), v))))
  {
    var p, w, rx, ry := ProjectionMatrix(f, aspect), ViewMatrix(o), RotateX(trig(o.rotationX)), RotateY(trig(o.rotationY));
    ApplyProduct(Product(p, w), Product(rx, ry), v);
    ApplyProduct(rx, ry, v);
    ApplyProduct(p, w, Apply(rx, Apply(ry, v)));
  }

  /** With both angles at zero, as the controls start, the model matrix is the identity. */
  lemma InitialModelIsIdentity(trig: real -> Angle)
    requires trig(0.0) == ZeroAngle
    ensures ModelMatrix(Initial().orbit, trig) == Identity
  {
    RotationsAtZeroAreIdentity();
    ProductIdentityLeft(Identity);
  }

  /**
   * The first frame, with the controls as set up (no rotation, distance 5),
   * written out entry by entry: the perspective matrix with its last column
   * replaced by the image of the point five units in front of the camera.
   */
  lemma InitialFrame(f: real, aspect: real, trig: real -> Angle)
    requires aspect != 0.0 && trig(0.0) == ZeroAngle
    ensures FrameMatrix(Initial().orbit, f, aspect, trig) ==
      [f / aspect, 0.0, 0.0, 0.0,  0.0, f, 0.0, 0.0,
       0.0, 0.0, -1001.0 / 999.0, -1.0,  0.0, 0.0, 4805.0 / 999.0, 5.0]
  {
    var m := Product(ProjectionMatrix(f, aspect), ViewMatrix(Initial().orbit));
    InitialModelIsIdentity(trig);
    ProductIdentityRight(m);
    InitialViewProjection(f, aspect);
  }

  /** Projection times the initial view, entry by entry. */
  lemma InitialViewProjection(f: real, aspect: real)
    requires aspect != 0.0
    ensures Product(ProjectionMatrix(f, aspect), Translate(0.0, 0.0, -5.0)) ==
      [f / aspect, 0.0, 0.0, 0.0,  0.0, f, 0.0, 0.0,
       0.0, 0.0, -1001.0 / 999.0, -1.0,  0.0, 0.0, 4805.0 / 999.0, 5.0]
  {
    var p, w := ProjectionMatrix(f, aspect), Translate(0.0, 0.0, -5.0);
    ProductByEntries(p, w, [f / aspect, 0.0, 0.0, 0.0,  0.0, f, 0.0, 0.0,
       0.0, 0.0, -1001.0 / 999.0, -1.0,  0.0, 0.0, 4805.0 / 999.0, 5.0]);
  }

  /** The projection of a point on the viewing axis, depth d in front of the camera. */
  lemma ProjectOnAxis(f: real, aspect: real, d: real)
    requires aspect != 0.0
    ensures var c := Apply(ProjectionMatrix(f, aspect), [0.0, 0.0, -d, 1.0]);
      c[0] == 0.0 && c[1] == 0.0 && c[2] * 999.0 == 1001.0 * d - 200.0 && c[3] == d
  {
    var p := ProjectionMatrix(f, aspect);
    var c := Apply(p, [0.0, 0.0, -d, 1.0]);
    assert c[2] == p[10] * -d + p[14];
  }

  /**
   * Whatever the rotation, the cube's centre stays in the middle of the
   * screen at clip depth w = distance, and the zoom range 2 .. 20 keeps it
   * strictly between the near and far planes.
   */
  lemma CentreInClipVolume(o: Orbit, f: real, aspect: real, trig: real -> Angle)
    requires aspect != 0.0 && DistanceInRange(o.distance)
    ensures var c := Apply(FrameMatrix(o, f, aspect, trig), Origin);
      c[0] == 0.0 && c[1] == 0.0 && c[3] == o.distance && -c[3] < c[2] < c[3]
  {
    var p, w, m := ProjectionMatrix(f, aspect), ViewMatrix(o), ModelMatrix(o, trig);
    ApplyProduct(Product(p, w), m, Origin);
    ApplyProduct(p, w, Origin);
    var d := o.distance;
    ProjectOnAxis(f, aspect, d);
  }

  /** From setup, after any sequence of mouse and wheel events, the cube's centre is on screen. */
  lemma CentreAlwaysVisible(events: seq<Event>, f: real, aspect: real, trig: real -> Angle)
    requires aspect != 0.0
    ensures var c := Apply(FrameMatrix(Run(Initial(), events).orbit, f, aspect, trig), Origin);
      c[0] == 0.0 && c[1] == 0.0 && 0.0 < c[3] && -c[3] < c[2] < c[3]
  {
    DistanceAlwaysInRange(events);
    CentreInClipVolume(Run(Initial(), events).orbit, f, aspect, trig);
  }
}
