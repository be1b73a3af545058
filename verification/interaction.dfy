/** The two pointer handlers of calibration mode and the keyboard poll, as
    methods of one object holding the state they share: the calibration
    record, the zoom drag flag and anchor, and the gripped corner. */
module Interaction {
  import opened Geometry
  import opened Calibration
  import Pipeline

  /** The pointer events the handlers distinguish; every other event
      (middle button, wheel, double clicks) is OtherEvent. */
  datatype MouseEvent = Move | LDown | LUp | RDown | RUp | OtherEvent

  /** Smallest side a dragged zoom rectangle is given. */
  const DragMinSide: int := 20
  /** A click grips a corner when it is closer than this on both axes. */
  const GripReach: int := 20
  /** `selected_point` when no corner is gripped. */
  const NoGrip: int := -1

  /** The zoom rectangle written while dragging from `anchor` to (x, y): the
      rectangle spanned by the two points, each side floored at 20. */
  function DragRect(anchor: Point, x: int, y: int): (r: Roi)
    ensures r.w >= DragMinSide && r.h >= DragMinSide
    ensures r.x <= anchor.x && r.x <= x && (r.x == anchor.x || r.x == x)
    ensures r.y <= anchor.y && r.y <= y && (r.y == anchor.y || r.y == y)
    ensures anchor.x <= r.x + r.w && x <= r.x + r.w
    ensures anchor.y <= r.y + r.h && y <= r.y + r.h
    ensures r.w == DragMinSide || r.x + r.w == Max(anchor.x, x)
    ensures r.h == DragMinSide || r.y + r.h == Max(anchor.y, y)
  {
    Roi(Min(anchor.x, x), Min(anchor.y, y), Max(DragMinSide, Abs(x - anchor.x)), Max(DragMinSide, Abs(y - anchor.y)))
  }

  /** Dragging from a to b writes the same rectangle as dragging from b to a. */
  lemma DragRectSymmetric(a: Point, b: Point)
    ensures DragRect(a, b.x, b.y) == DragRect(b, a.x, a.y)
  {
  }

  /** A drag between two canvas points at least 20 pixels apart on each
      axis writes a zoom rectangle that the crop step uses unchanged. */
  lemma DragInsideCanvasKept(a: Point, x: int, y: int)
    requires 0 <= a.x <= Pipeline.CanvasWidth && 0 <= x <= Pipeline.CanvasWidth
    requires 0 <= a.y <= Pipeline.CanvasHeight && 0 <= y <= Pipeline.CanvasHeight
    requires Abs(x - a.x) >= DragMinSide && Abs(y - a.y) >= DragMinSide
    ensures Pipeline.ClampRoi(DragRect(a, x, y)) == DragRect(a, x, y)
  {
  }

  /** A click at (x, y) lands on corner p: less than 20 pixels away on each
      axis, that is, inside the 39x39-pixel box centred on p. */
  predicate Grips(p: Point, x: int, y: int)
    ensures Grips(p, x, y) <==>
      p.x - GripReach < x < p.x + GripReach && p.y - GripReach < y < p.y + GripReach
  {
    Abs(x - p.x) < GripReach && Abs(y - p.y) < GripReach
  }

  /** The corner a left click grips: the LAST corner in list order that the
      click lands on, or `prev` (the grip before the click) when it lands on none. */
  function LastHit(pts: seq<Point>, x: int, y: int, prev: int): (r: int)
    ensures (exists i :: 0 <= i < |pts| && Grips(pts[i], x, y)) ==>
      0 <= r < |pts| && Grips(pts[r], x, y) && forall j :: r < j < |pts| ==> !Grips(pts[j], x, y)
    ensures (forall i :: 0 <= i < |pts| ==> !Grips(pts[i], x, y)) ==> r == prev
    decreases |pts|
  {
    if |pts| == 0 then prev
    else if Grips(pts[|pts| - 1], x, y) then |pts| - 1
    else LastHit(pts[..|pts| - 1], x, y, prev)
  }

  /** When the click lands on two corners, the higher index wins. */
  lemma OverlapFavorsLaterCorner(pts: seq<Point>, x: int, y: int, prev: int, i: int, j: int)
    requires 0 <= i < j < |pts| && Grips(pts[i], x, y) && Grips(pts[j], x, y)
    ensures LastHit(pts, x, y, prev) != i
    ensures LastHit(pts, x, y, prev) >= j
  {
  }

  /** The calibration state of one run: the record shared by the render
      loop and both handlers, plus the handlers' own state. */
  class Session {
    var config: Config
    /** A right-button zoom drag is in progress. */
    var drawingZoom: bool
    /** Where the current (or last) zoom drag started. */
    var zoomStart: Point
    /** Index of the gripped corner, or NoGrip. */
    var selectedPoint: int

    /** Exactly four corners, and the grip names one of them or none. */
    ghost predicate Valid()
      reads this
    {
      |config.points| == 4 && NoGrip <= selectedPoint < |config.points|
    }

    /** The state at start-up: the loaded record, no drag, no grip. */
    constructor (loaded: Config)
      requires |loaded.points| == 4
      ensures Valid()
      ensures config == loaded && !drawingZoom && zoomStart == Point(0, 0) && selectedPoint == NoGrip
    {
      config := loaded;
      drawingZoom := false;
      zoomStart := Point(0, 0);
      selectedPoint := NoGrip;
    }

    /** Zoom-selector handler: right-button-down starts a drag at the click,
        a move while dragging rewrites the zoom rectangle, right-button-up
        ends the drag; everything else is ignored. */
    method ZoomEvent(event: MouseEvent, x: int, y: int)
      requires Valid()
      modifies this
      ensures Valid()
      ensures selectedPoint == old(selectedPoint)
      ensures event == RDown ==> drawingZoom && zoomStart == Point(x, y) && config == old(config)
      ensures event == Move && old(drawingZoom) ==>
        config == old(config).(zoomRoi := DragRect(old(zoomStart), x, y)) &&
        drawingZoom && zoomStart == old(zoomStart)
      ensures event == RUp ==> !drawingZoom && zoomStart == old(zoomStart) && config == old(config)
      ensures event !in {RDown, RUp} && !(event == Move && old(drawingZoom)) ==> unchanged(this)
    {
      if event == RDown {
        drawingZoom := true;
        zoomStart := Point(x, y);
      } else if event == Move && drawingZoom {
        var ix, iy := zoomStart.x, zoomStart.y;
        config := config.(zoomRoi := Roi(Min(ix, x), Min(iy, y), Max(DragMinSide, Abs(x - ix)), Max(DragMinSide, Abs(y - iy))));
      } else if event == RUp {
        drawingZoom := false;
      }
    }

    /** Keystone handler: left-button-down grips the last corner the click
        lands on (keeping the previous grip when it lands on none), a move
        while gripping moves that one corner to the pointer, left-button-up
        releases; everything else is ignored. */
    method KeystoneEvent(event: MouseEvent, x: int, y: int)
      requires Valid()
      modifies this
      ensures Valid()
      ensures drawingZoom == old(drawingZoom) && zoomStart == old(zoomStart)
      ensures event == LDown ==>
        selectedPoint == LastHit(old(config.points), x, y, old(selectedPoint)) && config == old(config)
      ensures event == Move && old(selectedPoint) != NoGrip ==>
        selectedPoint == old(selectedPoint) &&
        config == old(config).(points := old(config.points)[old(selectedPoint) := Point(x, y)])
      ensures event == Move && old(selectedPoint) != NoGrip ==>
        config.points[selectedPoint] == Point(x, y) &&
        forall j :: 0 <= j < 4 && j != selectedPoint ==> config.points[j] == old(config.points[j])
      ensures event == LUp ==> selectedPoint == NoGrip && config == old(config)
      ensures event !in {LDown, LUp} && !(event == Move && old(selectedPoint) != NoGrip) ==> unchanged(this)
    {
      if event == LDown {
        var pts := config.points;
        for i := 0 to |pts|
          invariant selectedPoint == LastHit(pts[..i], x, y, old(selectedPoint))
          invariant config == old(config) && drawingZoom == old(drawingZoom) && zoomStart == old(zoomStart)
        {
          assert pts[..i + 1][..i] == pts[..i];
          if Abs(x - pts[i].x) < GripReach && Abs(y - pts[i].y) < GripReach {
            selectedPoint := i;
          }
        }
        assert pts[..|pts|] == pts;
      } else if event == Move && selectedPoint != NoGrip {
        config := config.(points := config.points[selectedPoint := Point(x, y)]);
      } else if event == LUp {
        selectedPoint := NoGrip;
      }
    }

    /** One keyboard poll of the render loop: applies the command to the
        shared record and reports whether the loop should end. */
    method KeyPress(raw: int) returns (quit: bool)
      requires Valid()
      modifies this`config
      ensures Valid()
      ensures KeyOutcome(config, quit) == KeyStep(old(config), MaskKey(raw))
    {
      var outcome := KeyStep(config, MaskKey(raw));
      config, quit := outcome.config, outcome.quit;
    }
  }
}
