/**
  The connector-drag state machine: `draggingConnection` is either absent
  (idle) or one drag record. A press on a card's connector dot starts a drag,
  cursor moves drag its loose end, and a release either commits a
  connection (over another card's dot) or just ends the drag.
 */
module Connector {
  import opened Wrappers
  import opened Canvas

  /**
    `onStartConnection`: begin a drag from `cardId` whose anchor `(ax, ay)`
    is the point the origin card's bounding box yields (right edge, vertical
    middle). The loose end starts on the anchor. A drag already in progress
    is replaced.
   */
  function StartConnection(s: State, cardId: string, ax: Coord, ay: Coord): (r: State)
    ensures r.dragging.Some?
    ensures r.dragging.value.startId == cardId
    ensures r.dragging.value.endX == r.dragging.value.startX == ax
    ensures r.dragging.value.endY == r.dragging.value.startY == ay
    ensures r.cards == s.cards && r.connections == s.connections && r.idCounter == s.idCounter
  {
    s.(dragging := Some(Drag(cardId, ax, ay, ax, ay)))
  }

  /**
    `onMouseMove`: while a drag is in progress its loose end follows the
    cursor `(cx, cy)`; origin and anchor stay. With no drag nothing happens.
   */
  function MouseMove(s: State, cx: Coord, cy: Coord): (r: State)
    ensures r.dragging.Some? <==> s.dragging.Some?
    ensures s.dragging.Some? ==>
              && r.dragging.value.startId == s.dragging.value.startId
              && r.dragging.value.startX == s.dragging.value.startX
              && r.dragging.value.startY == s.dragging.value.startY
              && r.dragging.value.endX == cx
              && r.dragging.value.endY == cy
    ensures s.dragging.None? ==> r == s
    ensures r.cards == s.cards && r.connections == s.connections && r.idCounter == s.idCounter
  {
    match s.dragging
    case None => s
    case Some(d) => s.(dragging := Some(d.(endX := cx, endY := cy)))
  }

  /** True when releasing over `target` commits a connection: a drag is active and it did not start on `target`. */
  predicate Commits(s: State, target: string)
  {
    s.dragging.Some? && s.dragging.value.startId != target
  }

  /**
    `onCompleteConnection`: releasing over the dot of card `target`. A drag
    from another card appends exactly one connection from the drag's origin to
    `target`, even when that pair is already stored; a drag from `target`
    itself (a self-loop) or no drag at all adds nothing. The drag ends either way.
   */
  function CompleteConnection(s: State, target: string): (r: State)
    ensures r.dragging.None?
    ensures Commits(s, target) ==>
              r.connections == s.connections + [Connection(s.dragging.value.startId, target)]
    ensures !Commits(s, target) ==> r.connections == s.connections
    ensures |r.connections| == |s.connections| + 1 <==> Commits(s, target)
    ensures r.cards == s.cards && r.idCounter == s.idCounter
  {
    var connections :=
      if s.dragging.Some? && s.dragging.value.startId != target
      then s.connections + [Connection(s.dragging.value.startId, target)]
      else s.connections;
    s.(connections := connections, dragging := None)
  }

  /** The `onMouseUp` of the whole canvas: any mouse-up ends the drag and changes nothing else. */
  function MouseUp(s: State): (r: State)
    ensures r.dragging.None?
    ensures r.cards == s.cards && r.connections == s.connections && r.idCounter == s.idCounter
    ensures s.dragging.None? ==> r == s
  {
    s.(dragging := None)
  }

  /** Only the last of several cursor moves matters. */
  lemma MouseMoveLastWins(s: State, x1: Coord, y1: Coord, x2: Coord, y2: Coord)
    ensures MouseMove(MouseMove(s, x1, y1), x2, y2) == MouseMove(s, x2, y2)
  {
  }

  /** A second start forgets the first drag entirely. */
  lemma StartOverwrites(s: State, a: string, aX: Coord, aY: Coord, b: string, bX: Coord, bY: Coord)
    ensures StartConnection(StartConnection(s, a, aX, aY), b, bX, bY) == StartConnection(s, b, bX, bY)
  {
  }

  /**
    The dot's release handler runs before the canvas's bubbled `onMouseUp`;
    the second clear finds the drag already gone, so the pair acts as one
    `onCompleteConnection`.
   */
  lemma MouseUpAfterCompleteIsNoop(s: State, target: string)
    ensures MouseUp(CompleteConnection(s, target)) == CompleteConnection(s, target)
  {
  }

  /** The cursor positions of a cursor path, applied in order. */
  function MoveAlong(s: State, path: seq<(Coord, Coord)>): (r: State)
    ensures r.cards == s.cards && r.connections == s.connections && r.idCounter == s.idCounter
    ensures r.dragging.Some? <==> s.dragging.Some?
    ensures s.dragging.Some? ==>
              r.dragging.value.startId == s.dragging.value.startId &&
              r.dragging.value.startX == s.dragging.value.startX &&
              r.dragging.value.startY == s.dragging.value.startY
    ensures s.dragging.Some? && |path| > 0 ==>
              r.dragging.value.endX == path[|path| - 1].0 && r.dragging.value.endY == path[|path| - 1].1
    decreases |path|
  {
    if |path| == 0 then s
    else MoveAlong(MouseMove(s, path[0].0, path[0].1), path[1..])
  }

  /**
    A whole drag-to-connect gesture from `origin` over `path` released on the
    dot of `target` adds the single connection `origin -> target` exactly when
    the two differ, and ends idle.
   */
  lemma {:induction false} GestureOutcome(s: State, origin: string, ax: Coord, ay: Coord,
                                          path: seq<(Coord, Coord)>, target: string)
    ensures var r := CompleteConnection(MoveAlong(StartConnection(s, origin, ax, ay), path), target);
            && r.dragging.None?
            && r.cards == s.cards
            && r.connections == s.connections + (if origin != target then [Connection(origin, target)] else [])
  {
    var m := MoveAlong(StartConnection(s, origin, ax, ay), path);
    assert m.dragging.Some? && m.dragging.value.startId == origin;
    assert m.connections == s.connections;
  }

  /** A gesture released anywhere but on a dot adds nothing and ends idle. */
  lemma {:induction false} GestureAborted(s: State, origin: string, ax: Coord, ay: Coord,
                                          path: seq<(Coord, Coord)>)
    ensures var r := MouseUp(MoveAlong(StartConnection(s, origin, ax, ay), path));
            r.dragging.None? && r.cards == s.cards && r.connections == s.connections
  {
    var m := MoveAlong(StartConnection(s, origin, ax, ay), path);
    assert m.connections == s.connections;
  }
}
