/**
 * The interactive concept-map canvas of src/components/VisualizationCanvas.tsx:
 * the concept graph it is given, the pure helpers its draw pass uses
 * (logical-to-device mapping, edge-target resolution, level colours, name
 * truncation), its view state with the zoom, reset and pan-gesture handlers,
 * and the first-match hit test that turns a click into a selected concept.
 *
 * Coordinates and the scale are `real`; the drawing calls themselves are not
 * modelled.
 */
module Canvas {
  import opened Common

  /** A point in device (canvas pixel) space or in logical space. */
  datatype Point = Point(x: real, y: real)

  const Origin := Point(0.0, 0.0)

  /** A directed, labelled edge to the concept whose id is `targetId`. */
  datatype Connection = Connection(targetId: string, relationship: string)

  /** A node of the concept map, positioned in the 800 x 600 logical space. */
  datatype Concept = Concept(
    id: string,
    name: string,
    level: int,
    x: real,
    y: real,
    connections: seq<Connection>)

  const LogicalWidth := 800.0
  const LogicalHeight := 600.0

  /** Radius of a drawn node, and the hit radius of a click. */
  const NodeRadius := 35.0

  const MinScale := 0.5
  const MaxScale := 2.0
  const ZoomStep := 0.1

  const MaxNameLength := 15
  const Ellipsis := "..."

  /** Fill colours of the five levels, indexed by level. */
  const LevelColors := ["#6366F1", "#EC4899", "#F59E0B", "#10B981", "#3B82F6"]
  const FallbackColor := "#94A3B8"

  // ---------------------------------------------------------------------
  // Pure helpers of the draw pass
  // ---------------------------------------------------------------------

  /**
   * Where a concept is drawn before the view transform: its logical
   * position stretched from 800 x 600 to the canvas size.
   */
  function DevicePosition(c: Concept, width: real, height: real): (p: Point)
    ensures p.x * LogicalWidth == c.x * width
    ensures p.y * LogicalHeight == c.y * height
  {
    Point(c.x / LogicalWidth * width, c.y / LogicalHeight * height)
  }

  /** On a canvas of exactly the logical size, device and logical positions agree. */
  lemma DevicePositionAtLogicalSize(c: Concept)
    ensures DevicePosition(c, LogicalWidth, LogicalHeight) == Point(c.x, c.y)
  {
  }

  /** The label a node shows: names over 15 characters keep 12 and gain "...". */
  function DisplayName(name: string): (r: string)
    ensures |r| == if |name| <= MaxNameLength then |name| else MaxNameLength
    ensures r == name <==> |name| <= MaxNameLength
    ensures |name| > MaxNameLength ==>
      r[..MaxNameLength - |Ellipsis|] == name[..MaxNameLength - |Ellipsis|] && r[MaxNameLength - |Ellipsis|..] == Ellipsis
  {
    if |name| > MaxNameLength then name[..MaxNameLength - |Ellipsis|] + Ellipsis else name
  }

  /**
   * `levelColors[level] || "#94A3B8"`: an index outside the palette reads
   * `undefined`, which `||` replaces by the fallback.
   */
  function LevelColor(level: int): (color: string)
    ensures 0 <= level < 5 ==> color == LevelColors[level]
    ensures !(0 <= level < 5) ==> color == FallbackColor
  {
    if 0 <= level < |LevelColors| && LevelColors[level] != "" then LevelColors[level] else FallbackColor
  }

  /**
   * `concepts.find(c => c.id === id)`, as the index of the first concept
   * carrying `id`, or `None` when no concept does.
   */
  function FirstWithId(concepts: seq<Concept>, id: string): (r: Option<nat>)
    ensures r.Some? ==> r.value < |concepts| && concepts[r.value].id == id
    ensures r.Some? ==> forall j :: 0 <= j < r.value ==> concepts[j].id != id
    ensures r.None? <==> forall j :: 0 <= j < |concepts| ==> concepts[j].id != id
  {
    if concepts == [] then None
    else if concepts[0].id == id then Some(0)
    else match FirstWithId(concepts[1..], id)
      case None => None
      case Some(k) => Some(k + 1)
  }

  /** A drawn edge: its two end points, its label and where the label is centred. */
  datatype Edge = Edge(start: Point, end: Point, caption: string, captionAt: Point)

  function Midpoint(a: Point, b: Point): Point {
    Point((a.x + b.x) / 2.0, (a.y + b.y) / 2.0)
  }

  /**
   * The edge the draw pass draws for one connection of `source`: none when
   * the target id resolves to no concept, otherwise a line to the first
   * concept with that id, labelled at its midpoint.
   */
  function EdgeFor(concepts: seq<Concept>, source: Concept, conn: Connection, width: real, height: real): (e: Option<Edge>)
    ensures e.None? <==> forall j :: 0 <= j < |concepts| ==> concepts[j].id != conn.targetId
    ensures e.Some? ==> e.value.caption == conn.relationship
    ensures e.Some? ==> e.value.start == DevicePosition(source, width, height)
    ensures e.Some? ==> exists j :: 0 <= j < |concepts| && concepts[j].id == conn.targetId &&
                                    (forall i :: 0 <= i < j ==> concepts[i].id != conn.targetId) &&
                                    e.value.end == DevicePosition(concepts[j], width, height)
    ensures e.Some? ==> e.value.captionAt.x - e.value.start.x == e.value.end.x - e.value.captionAt.x
    ensures e.Some? ==> e.value.captionAt.y - e.value.start.y == e.value.end.y - e.value.captionAt.y
  {
    match FirstWithId(concepts, conn.targetId)
    case None => None
    case Some(t) =>
      var from := DevicePosition(source, width, height);
      var to := DevicePosition(concepts[t], width, height);
      Some(Edge(from, to, conn.relationship, Midpoint(from, to)))
  }

  /** The edges an optional edge contributes: none, or that one. */
  function Drawn(e: Option<Edge>): seq<Edge> {
    match e
    case None => []
    case Some(edge) => [edge]
  }

  /** True when every connection in `conns` names a concept of `concepts`. */
  ghost predicate AllResolve(concepts: seq<Concept>, conns: seq<Connection>) {
    forall k :: 0 <= k < |conns| ==> exists j :: 0 <= j < |concepts| && concepts[j].id == conns[k].targetId
  }

  /**
   * The edges drawn for the connections `conns` of `source`, in order;
   * dangling connections are skipped silently.
   */
  function EdgesFrom(concepts: seq<Concept>, source: Concept, conns: seq<Connection>, width: real, height: real): (es: seq<Edge>)
    ensures |es| <= |conns|
    ensures |es| == |conns| <==> AllResolve(concepts, conns)
    ensures forall e :: e in es ==> e.start == DevicePosition(source, width, height)
    ensures forall e :: e in es ==> exists k :: 0 <= k < |conns| && e.caption == conns[k].relationship
  {
    if conns == [] then []
    else
      var rest := EdgesFrom(concepts, source, conns[1..], width, height);
      assert AllResolve(concepts, conns) <==>
        (exists j :: 0 <= j < |concepts| && concepts[j].id == conns[0].targetId) && AllResolve(concepts, conns[1..]) by {
        if AllResolve(concepts, conns[1..]) && exists j :: 0 <= j < |concepts| && concepts[j].id == conns[0].targetId {
          forall k | 0 <= k < |conns|
            ensures exists j :: 0 <= j < |concepts| && concepts[j].id == conns[k].targetId
          {
            if k > 0 { assert conns[k] == conns[1..][k - 1]; }
          }
        }
        if AllResolve(concepts, conns) {
          forall k | 0 <= k < |conns| - 1
            ensures exists j :: 0 <= j < |concepts| && concepts[j].id == conns[1..][k].targetId
          {
            assert conns[1..][k] == conns[k + 1];
          }
        }
      }
      Drawn(EdgeFor(concepts, source, conns[0], width, height)) + rest
  }

  /** The edges drawn for `conns` are exactly the edges of its resolving connections. */
  lemma {:induction false} EdgesFromMembers(concepts: seq<Concept>, source: Concept, conns: seq<Connection>, width: real, height: real)
    ensures forall e :: e in EdgesFrom(concepts, source, conns, width, height) <==>
              exists k :: 0 <= k < |conns| && EdgeFor(concepts, source, conns[k], width, height) == Some(e)
    decreases |conns|
  {
    if conns != [] {
      EdgesFromMembers(concepts, source, conns[1..], width, height);
      assert forall k :: 0 <= k < |conns| - 1 ==> conns[1..][k] == conns[k + 1];
    }
  }

  /**
   * Connections are drawn in list order: the edges of `a + b` are those of
   * `a` followed by those of `b`.
   */
  lemma {:induction false} EdgesFromInOrder(concepts: seq<Concept>, source: Concept, a: seq<Connection>, b: seq<Connection>, width: real, height: real)
    ensures EdgesFrom(concepts, source, a + b, width, height)
         == EdgesFrom(concepts, source, a, width, height) + EdgesFrom(concepts, source, b, width, height)
    decreases |a|
  {
    if a == [] {
      assert a + b == b;
    } else {
      var ab := a + b;
      assert ab[0] == a[0] && ab[1..] == a[1..] + b;
      EdgesFromInOrder(concepts, source, a[1..], b, width, height);
      var head := Drawn(EdgeFor(concepts, source, a[0], width, height));
      calc {
        EdgesFrom(concepts, source, ab, width, height);
        head + EdgesFrom(concepts, source, a[1..] + b, width, height);
        head + (EdgesFrom(concepts, source, a[1..], width, height) + EdgesFrom(concepts, source, b, width, height));
        (head + EdgesFrom(concepts, source, a[1..], width, height)) + EdgesFrom(concepts, source, b, width, height);
        EdgesFrom(concepts, source, a, width, height) + EdgesFrom(concepts, source, b, width, height);
      }
    }
  }

  /** One connection draws its own edge, or nothing when its target dangles. */
  lemma EdgesFromOne(concepts: seq<Concept>, source: Concept, c: Connection, width: real, height: real)
    ensures EdgesFrom(concepts, source, [c], width, height) == Drawn(EdgeFor(concepts, source, c, width, height))
  {
    assert [c][1..] == [];
  }

  /** The number of connections the concepts `sources` carry. */
  function ConnectionCount(sources: seq<Concept>): nat {
    if sources == [] then 0 else |sources[0].connections| + ConnectionCount(sources[1..])
  }

  /**
   * The edges of the whole draw pass (lines 89-128, with `sources` the
   * concept list itself): every concept in order, each with its own
   * connections in order. All connections are drawn exactly when none of
   * them dangles.
   */
  function SceneEdges(concepts: seq<Concept>, sources: seq<Concept>, width: real, height: real): (es: seq<Edge>)
    ensures |es| <= ConnectionCount(sources)
    ensures |es| == ConnectionCount(sources) <==>
              forall i :: 0 <= i < |sources| ==> AllResolve(concepts, sources[i].connections)
  {
    if sources == [] then []
    else
      var first := EdgesFrom(concepts, sources[0], sources[0].connections, width, height);
      var rest := SceneEdges(concepts, sources[1..], width, height);
      assert (forall i :: 0 <= i < |sources| ==> AllResolve(concepts, sources[i].connections)) <==>
             AllResolve(concepts, sources[0].connections) &&
             (forall i :: 0 <= i < |sources| - 1 ==> AllResolve(concepts, sources[1..][i].connections)) by {
        assert forall i :: 0 <= i < |sources| - 1 ==> sources[1..][i] == sources[i + 1];
      }
      first + rest
  }

  /** The whole pass draws exactly the edges of the resolving connections of every concept. */
  lemma {:induction false} SceneEdgesMembers(concepts: seq<Concept>, sources: seq<Concept>, width: real, height: real)
    ensures forall e :: e in SceneEdges(concepts, sources, width, height) <==>
              exists i, k :: 0 <= i < |sources| && 0 <= k < |sources[i].connections| &&
                             EdgeFor(concepts, sources[i], sources[i].connections[k], width, height) == Some(e)
    decreases |sources|
  {
    if sources != [] {
      EdgesFromMembers(concepts, sources[0], sources[0].connections, width, height);
      SceneEdgesMembers(concepts, sources[1..], width, height);
      assert forall i :: 0 <= i < |sources| - 1 ==> sources[1..][i] == sources[i + 1];
    }
  }

  /**
   * Concepts are drawn in list order, each with its own connections: the
   * edges of `a + b` are those of `a` followed by those of `b`, and one
   * concept contributes exactly its `EdgesFrom`.
   */
  lemma {:induction false} SceneEdgesInOrder(concepts: seq<Concept>, a: seq<Concept>, b: seq<Concept>, width: real, height: real)
    ensures SceneEdges(concepts, a + b, width, height)
         == SceneEdges(concepts, a, width, height) + SceneEdges(concepts, b, width, height)
    decreases |a|
  {
    if a == [] {
      assert a + b == b;
    } else {
      var ab := a + b;
      assert ab[0] == a[0] && ab[1..] == a[1..] + b;
      SceneEdgesInOrder(concepts, a[1..], b, width, height);
      var head := EdgesFrom(concepts, a[0], a[0].connections, width, height);
      calc {
        SceneEdges(concepts, ab, width, height);
        head + SceneEdges(concepts, a[1..] + b, width, height);
        head + (SceneEdges(concepts, a[1..], width, height) + SceneEdges(concepts, b, width, height));
        (head + SceneEdges(concepts, a[1..], width, height)) + SceneEdges(concepts, b, width, height);
        SceneEdges(concepts, a, width, height) + SceneEdges(concepts, b, width, height);
      }
    }
  }

  /** One concept contributes the edges of its own connections. */
  lemma SceneEdgesOne(concepts: seq<Concept>, s: Concept, width: real, height: real)
    ensures SceneEdges(concepts, [s], width, height) == EdgesFrom(concepts, s, s.connections, width, height)
  {
    assert [s][1..] == [];
  }

  /**
   * A connection from a concept to its own id draws a zero-length edge whose
   * label sits on the node itself.
   */
  lemma SelfLoopEdge(concepts: seq<Concept>, i: nat, conn: Connection, width: real, height: real)
    requires i < |concepts| && conn.targetId == concepts[i].id
    requires forall j :: 0 <= j < |concepts| && j != i ==> concepts[j].id != concepts[i].id
    ensures EdgeFor(concepts, concepts[i], conn, width, height).Some?
    ensures var e := EdgeFor(concepts, concepts[i], conn, width, height).value;
            e.start == e.end == e.captionAt == DevicePosition(concepts[i], width, height)
  {
  }

  // ---------------------------------------------------------------------
  // View state and its transitions
  // ---------------------------------------------------------------------

  /** The five state fields of the canvas component. */
  datatype ViewState = ViewState(
    scale: real,
    offset: Point,
    isDragging: bool,
    dragStart: Point,
    showEffects: bool)

  const InitialView := ViewState(1.0, Origin, false, Origin, false)

  predicate ScaleInRange(scale: real) {
    MinScale <= scale <= MaxScale
  }

  /** `Math.min(prev + 0.1, 2)`. */
  function ZoomedIn(scale: real): (r: real)
    ensures r <= MaxScale && r <= scale + ZoomStep
    ensures r == scale + ZoomStep || r == MaxScale
    ensures ScaleInRange(scale) ==> ScaleInRange(r) && scale <= r
  {
    if scale + ZoomStep < MaxScale then scale + ZoomStep else MaxScale
  }

  /** `Math.max(prev - 0.1, 0.5)`. */
  function ZoomedOut(scale: real): (r: real)
    ensures MinScale <= r && scale - ZoomStep <= r
    ensures r == scale - ZoomStep || r == MinScale
    ensures ScaleInRange(scale) ==> ScaleInRange(r) && r <= scale
  {
    if scale - ZoomStep > MinScale then scale - ZoomStep else MinScale
  }

  /** The user actions that change the view state. */
  datatype Event =
    | ZoomIn
    | ZoomOut
    | Reset
    | ToggleEffects
    | MouseDown(button: int, clientX: real, clientY: real)
    | MouseMove(clientX: real, clientY: real)
    | MouseUp
    | MouseLeave

  /** The state after one handler has run. */
  function Step(v: ViewState, e: Event): ViewState {
    match e
    case ZoomIn => v.(scale := ZoomedIn(v.scale))
    case ZoomOut => v.(scale := ZoomedOut(v.scale))
    case Reset => v.(scale := 1.0, offset := Origin)
    case ToggleEffects => v.(showEffects := !v.showEffects)
    case MouseDown(button, cx, cy) =>
      if button == 0 then v.(isDragging := true, dragStart := Point(cx - v.offset.x, cy - v.offset.y)) else v
    case MouseMove(cx, cy) =>
      if v.isDragging then v.(offset := Point(cx - v.dragStart.x, cy - v.dragStart.y)) else v
    case MouseUp => v.(isDragging := false)
    case MouseLeave => v.(isDragging := false)
  }

  /** The state after a sequence of handlers, in order. */
  function Run(v: ViewState, events: seq<Event>): ViewState
    decreases |events|
  {
    if events == [] then v else Run(Step(v, events[0]), events[1..])
  }

  /** Whatever handlers run, in whatever order, the scale stays within [0.5, 2]. */
  lemma {:induction false} RunKeepsScaleInRange(v: ViewState, events: seq<Event>)
    requires ScaleInRange(v.scale)
    ensures ScaleInRange(Run(v, events).scale)
    decreases |events|
  {
    if events != [] {
      var next := Step(v, events[0]);
      assert ScaleInRange(next.scale) by {
        match events[0]
        case ZoomIn =>
        case ZoomOut =>
        case Reset =>
        case ToggleEffects =>
        case MouseDown(_, _, _) =>
        case MouseMove(_, _) =>
        case MouseUp =>
        case MouseLeave =>
      }
      RunKeepsScaleInRange(next, events[1..]);
    }
  }

  /** A run of only zoom-ins never lowers the scale, and of only zoom-outs never raises it. */
  lemma {:induction false} ZoomRunsAreMonotone(v: ViewState, events: seq<Event>)
    requires ScaleInRange(v.scale)
    ensures (forall k :: 0 <= k < |events| ==> events[k] == ZoomIn) ==> v.scale <= Run(v, events).scale
    ensures (forall k :: 0 <= k < |events| ==> events[k] == ZoomOut) ==> Run(v, events).scale <= v.scale
    decreases |events|
  {
    if events != [] {
      var next := Step(v, events[0]);
      if events[0] == ZoomIn || events[0] == ZoomOut {
        ZoomRunsAreMonotone(next, events[1..]);
        assert forall k :: 0 <= k < |events[1..]| ==> events[1..][k] == events[k + 1];
      }
    }
  }

  /** Reset yields scale 1 and offset (0, 0) whatever came before, and leaves the gesture and effects alone. */
  lemma ResetRestoresView(v: ViewState)
    ensures Step(v, Reset) == v.(scale := 1.0, offset := Origin)
    ensures Step(v, Reset).scale == InitialView.scale && Step(v, Reset).offset == InitialView.offset
  {
  }

  /** Pressing any button but the primary one, or moving while not dragging, changes nothing. */
  lemma IgnoredPointerEvents(v: ViewState, button: int, cx: real, cy: real)
    ensures button != 0 ==> Step(v, MouseDown(button, cx, cy)) == v
    ensures !v.isDragging ==> Step(v, MouseMove(cx, cy)) == v
  {
  }

  /**
   * A primary-button drag moves the view by exactly the pointer's
   * displacement, so the point under the cursor stays under it; moving back
   * to the press point restores the offset held before the press.
   */
  lemma DragFollowsPointer(v: ViewState, x0: real, y0: real, x1: real, y1: real)
    ensures var w := Step(Step(v, MouseDown(0, x0, y0)), MouseMove(x1, y1));
            w.offset == Point(v.offset.x + (x1 - x0), v.offset.y + (y1 - y0))
    ensures Step(Step(v, MouseDown(0, x0, y0)), MouseMove(x0, y0)).offset == v.offset
  {
  }

  /** Releasing or leaving the canvas clears only the dragging flag. */
  lemma ReleaseEndsDrag(v: ViewState)
    ensures Step(v, MouseUp) == Step(v, MouseLeave) == v.(isDragging := false)
  {
  }

  // ---------------------------------------------------------------------
  // Hit testing
  // ---------------------------------------------------------------------

  /** What `ctx.translate(offset); ctx.scale(scale)` does to a device point. */
  function ViewTransform(v: ViewState, d: Point): Point {
    Point(v.offset.x + v.scale * d.x, v.offset.y + v.scale * d.y)
  }

  /** A pointer position with pan and zoom undone: `(p - offset) / scale`. */
  function Unproject(v: ViewState, px: real, py: real): (d: Point)
    requires v.scale != 0.0
    ensures ViewTransform(v, d) == Point(px, py)
  {
    Point((px - v.offset.x) / v.scale, (py - v.offset.y) / v.scale)
  }

  /** `Math.sqrt(dx * dx + dy * dy) <= 35`, compared squared. */
  predicate Hits(c: Concept, d: Point, width: real, height: real) {
    var p := DevicePosition(c, width, height);
    (p.x - d.x) * (p.x - d.x) + (p.y - d.y) * (p.y - d.y) <= NodeRadius * NodeRadius
  }

  /** The index of the first concept, in list order, that `d` hits. */
  function FirstHit(concepts: seq<Concept>, d: Point, width: real, height: real): (r: Option<nat>)
    ensures r.Some? ==> r.value < |concepts| && Hits(concepts[r.value], d, width, height)
    ensures r.Some? ==> forall j :: 0 <= j < r.value ==> !Hits(concepts[j], d, width, height)
    ensures r.None? <==> forall j :: 0 <= j < |concepts| ==> !Hits(concepts[j], d, width, height)
  {
    if concepts == [] then None
    else if Hits(concepts[0], d, width, height) then Some(0)
    else match FirstHit(concepts[1..], d, width, height)
      case None => None
      case Some(k) => Some(k + 1)
  }

  /** The `for ... of` loop of the click handler, which stops at the first hit. */
  method HitTest(concepts: seq<Concept>, d: Point, width: real, height: real) returns (hit: Option<nat>)
    ensures hit.Some? ==> hit.value < |concepts| && Hits(concepts[hit.value], d, width, height)
    ensures hit.Some? ==> forall j :: 0 <= j < hit.value ==> !Hits(concepts[j], d, width, height)
    ensures hit.None? ==> forall j :: 0 <= j < |concepts| ==> !Hits(concepts[j], d, width, height)
  {
    hit := None;
    var i := 0;
    while i < |concepts|
      invariant 0 <= i <= |concepts|
      invariant forall j :: 0 <= j < i ==> !Hits(concepts[j], d, width, height)
    {
      if Hits(concepts[i], d, width, height) {
        hit := Some(i);
        break;
      }
      i := i + 1;
    }
  }

  /**
   * The concept id a click at canvas-relative `(px, py)` selects: none
   * while dragging or with no concepts, otherwise the first concept hit.
   */
  function Selection(v: ViewState, concepts: seq<Concept>, width: real, height: real, px: real, py: real): (r: Option<string>)
    requires v.scale != 0.0
    ensures v.isDragging || concepts == [] ==> r == None
    ensures r.Some? ==> exists i :: 0 <= i < |concepts| && concepts[i].id == r.value &&
                                    Hits(concepts[i], Unproject(v, px, py), width, height) &&
                                    forall j :: 0 <= j < i ==> !Hits(concepts[j], Unproject(v, px, py), width, height)
    ensures !v.isDragging && r.None? ==> forall j :: 0 <= j < |concepts| ==> !Hits(concepts[j], Unproject(v, px, py), width, height)
  {
    if v.isDragging || |concepts| == 0 then None
    else match FirstHit(concepts, Unproject(v, px, py), width, height)
      case None => None
      case Some(i) => Some(concepts[i].id)
  }

  /**
   * The browser delivers mousedown, mouseup, then click; by the time the
   * click handler runs the release has cleared the dragging flag, so a
   * press and release without movement selects the node under the pointer.
   */
  lemma PressReleaseThenClickHitTests(v: ViewState, concepts: seq<Concept>, width: real, height: real, x: real, y: real)
    requires ScaleInRange(v.scale)
    ensures var w := Step(Step(v, MouseDown(0, x, y)), MouseUp);
            !w.isDragging && w.scale == v.scale && w.offset == v.offset &&
            Selection(w, concepts, width, height, x, y) == Selection(v.(isDragging := false), concepts, width, height, x, y)
  {
  }

  /** A concept at logical (400, 300) on an 800 x 600 canvas at the initial view is selected by a click at (400, 300). */
  lemma ClickOnCentredConcept(c: Concept)
    requires c.x == 400.0 && c.y == 300.0
    ensures Selection(InitialView, [c], 800.0, 600.0, 400.0, 300.0) == Some(c.id)
  {
  }

  /** The view state of one mounted canvas component. */
  class CanvasView {
    var scale: real
    var offset: Point
    var isDragging: bool
    var dragStart: Point
    var showEffects: bool

    ghost function State(): ViewState
      reads this
    {
      ViewState(scale, offset, isDragging, dragStart, showEffects)
    }

    ghost predicate Valid()
      reads this
    {
      ScaleInRange(scale)
    }

    constructor ()
      ensures Valid() && State() == InitialView
    {
      scale := 1.0;
      offset := Origin;
      isDragging := false;
      dragStart := Origin;
      showEffects := false;
    }

    method HandleZoomIn()
      requires Valid()
      modifies this
      ensures Valid() && State() == Step(old(State()), ZoomIn)
      ensures old(scale) <= scale
    {
      scale := ZoomedIn(scale);
    }

    method HandleZoomOut()
      requires Valid()
      modifies this
      ensures Valid() && State() == Step(old(State()), ZoomOut)
      ensures scale <= old(scale)
    {
      scale := ZoomedOut(scale);
    }

    method HandleReset()
      requires Valid()
      modifies this
      ensures Valid() && State() == Step(old(State()), Reset)
      ensures scale == 1.0 && offset == Origin
      ensures isDragging == old(isDragging) && dragStart == old(dragStart) && showEffects == old(showEffects)
    {
      scale := 1.0;
      offset := Origin;
    }

    method HandleToggleEffects()
      requires Valid()
      modifies this
      ensures Valid() && State() == Step(old(State()), ToggleEffects)
    {
      showEffects := !showEffects;
    }

    method HandleMouseDown(button: int, clientX: real, clientY: real)
      requires Valid()
      modifies this
      ensures Valid() && State() == Step(old(State()), MouseDown(button, clientX, clientY))
      ensures button == 0 ==> isDragging && dragStart == Point(clientX - offset.x, clientY - offset.y)
      ensures button != 0 ==> unchanged(this)
    {
      if button == 0 {
        isDragging := true;
        dragStart := Point(clientX - offset.x, clientY - offset.y);
      }
    }

    method HandleMouseMove(clientX: real, clientY: real)
      requires Valid()
      modifies this
      ensures Valid() && State() == Step(old(State()), MouseMove(clientX, clientY))
      ensures old(isDragging) ==> offset == Point(clientX - dragStart.x, clientY - dragStart.y)
      ensures !old(isDragging) ==> unchanged(this)
    {
      if isDragging {
        offset := Point(clientX - dragStart.x, clientY - dragStart.y);
      }
    }

    method HandleMouseUp()
      requires Valid()
      modifies this
      ensures Valid() && State() == Step(old(State()), MouseUp)
    {
      isDragging := false;
    }

    method HandleMouseLeave()
      requires Valid()
      modifies this
      ensures Valid() && State() == Step(old(State()), MouseLeave)
    {
      isDragging := false;
    }

    /**
     * The click handler: `(clientX, clientY)` is the pointer and
     * `(rectLeft, rectTop)` the canvas's corner on the page. Returns the id
     * handed to the selection callback, if any.
     */
    method HandleCanvasClick(concepts: seq<Concept>, width: real, height: real,
                             clientX: real, clientY: real, rectLeft: real, rectTop: real)
      returns (selected: Option<string>)
      requires Valid()
      ensures selected == Selection(State(), concepts, width, height, clientX - rectLeft, clientY - rectTop)
    {
      if isDragging || |concepts| == 0 {
        return None;
      }
      var d := Point((clientX - rectLeft - offset.x) / scale, (clientY - rectTop - offset.y) / scale);
      var hit := HitTest(concepts, d, width, height);
      ghost var first := FirstHit(concepts, d, width, height);
      match hit
      case None =>
        selected := None;
      case Some(i) =>
        assert first == Some(i);
        selected := Some(concepts[i].id);
    }
  }
}
