/**
  The handlers as one event-driven machine. Events are processed one at a
  time and each handler sees the state left by the previous one.
 */
module Events {
  import opened Wrappers
  import opened Seqs
  import opened CardIds
  import opened Canvas
  import opened Connector

  datatype Event =
    | AddCardClicked(x: Coord, y: Coord)                // the "Add Card" button; x, y are the random draws
    | DeleteClicked(id: string)                         // a card's "Delete" button
    | CardDragged(id: string, x: Coord, y: Coord)       // the drag library's onDrag for a card
    | ConnectorPressed(id: string, ax: Coord, ay: Coord) // mouse-down on a card's dot, with its anchor
    | CursorMoved(cx: Coord, cy: Coord)                // mouse-move anywhere on the canvas
    | ConnectorReleased(id: string)                     // mouse-up on a card's dot
    | MouseReleased                                   // mouse-up anywhere else

  /**
    One event. A release on a dot runs the dot's handler and then bubbles to
    the canvas's own mouse-up handler.
   */
  function Step(s: State, e: Event): (r: State)
    ensures e.ConnectorReleased? ==> r == CompleteConnection(s, e.id)
    ensures e.MouseReleased? ==> r.dragging.None? && r.cards == s.cards && r.connections == s.connections
    ensures !e.AddCardClicked? ==> r.idCounter == s.idCounter
    ensures !e.DeleteClicked? && !e.ConnectorReleased? ==> r.connections == s.connections
  {
    match e
    case AddCardClicked(x, y) => AddCard(s, x, y)
    case DeleteClicked(id) => DeleteCard(s, id)
    case CardDragged(id, x, y) => UpdateCardPosition(s, id, x, y)
    case ConnectorPressed(id, ax, ay) => StartConnection(s, id, ax, ay)
    case CursorMoved(cx, cy) => MouseMove(s, cx, cy)
    case ConnectorReleased(id) => MouseUp(CompleteConnection(s, id))
    case MouseReleased => MouseUp(s)
  }

  function Run(s: State, events: seq<Event>): State
    decreases |events|
  {
    if |events| == 0 then s else Run(Step(s, events[0]), events[1..])
  }

  function CountAdds(events: seq<Event>): nat
    decreases |events|
  {
    if |events| == 0 then 0
    else (if events[0].AddCardClicked? then 1 else 0) + CountAdds(events[1..])
  }

  /** Every handler keeps the id invariant. */
  lemma StepPreservesInv(s: State, e: Event)
    requires Inv(s)
    ensures Inv(Step(s, e))
  {
    match e
    case AddCardClicked(x, y) => AddCardPreservesInv(s, x, y);
    case DeleteClicked(id) => DeleteCardPreservesInv(s, id);
    case CardDragged(id, x, y) => UpdateCardPositionPreservesInv(s, id, x, y);
    case _ =>
  }

  /** Every reachable state, from the initial one or any state satisfying it, keeps the id invariant. */
  lemma {:induction false} RunPreservesInv(s: State, events: seq<Event>)
    requires Inv(s)
    ensures Inv(Run(s, events))
    decreases |events|
  {
    if |events| > 0 {
      StepPreservesInv(s, events[0]);
      RunPreservesInv(Step(s, events[0]), events[1..]);
    }
  }

  /** The counter grows by exactly one per "Add Card" click and never otherwise. */
  lemma {:induction false} CounterCountsAdds(s: State, events: seq<Event>)
    ensures Run(s, events).idCounter == s.idCounter + CountAdds(events)
    decreases |events|
  {
    if |events| > 0 {
      CounterCountsAdds(Step(s, events[0]), events[1..]);
    }
  }

  /**
    A card present after `events` either was present before them or received
    a number the counter reached only during them.
   */
  predicate OldOrNew(before: State, after: State)
  {
    forall i :: 0 <= i < |after.cards| ==>
      Live(before.cards, after.cards[i].id) ||
      (IsCardId(after.cards[i].id) && before.idCounter <= Number(after.cards[i].id))
  }

  /**
    A card present after one event either was present before it or is the
    one created under the counter value the event found.
   */
  predicate OldOrNext(before: State, after: State)
  {
    forall i :: 0 <= i < |after.cards| ==>
      Live(before.cards, after.cards[i].id) ||
      (IsCardId(after.cards[i].id) && Number(after.cards[i].id) == before.idCounter)
  }

  lemma SameCardsOldOrNew(s: State, r: State)
    requires r.cards == s.cards
    ensures OldOrNext(s, r)
  {
    forall i | 0 <= i < |r.cards| ensures Live(s.cards, r.cards[i].id) {
      assert Ids(s.cards)[i] == r.cards[i].id;
    }
  }

  lemma AddCardOldOrNew(s: State, x: Coord, y: Coord)
    ensures OldOrNext(s, AddCard(s, x, y))
  {
    var r := AddCard(s, x, y);
    AllocatedIdIsCanonical(s.idCounter);
    forall i | 0 <= i < |s.cards| ensures Live(s.cards, r.cards[i].id) {
      assert r.cards[i] == s.cards[i];
      assert Ids(s.cards)[i] == r.cards[i].id;
    }
  }

  lemma DeleteCardOldOrNew(s: State, id: string)
    ensures OldOrNext(s, DeleteCard(s, id))
  {
    var r := DeleteCard(s, id);
    SubsequenceMembers(r.cards, s.cards);
    forall i | 0 <= i < |r.cards| ensures Live(s.cards, r.cards[i].id) {
      assert r.cards[i] in s.cards;
      var j :| 0 <= j < |s.cards| && s.cards[j] == r.cards[i];
      assert Ids(s.cards)[j] == r.cards[i].id;
    }
  }

  lemma UpdateCardPositionOldOrNew(s: State, id: string, x: Coord, y: Coord)
    ensures OldOrNext(s, UpdateCardPosition(s, id, x, y))
  {
    var r := UpdateCardPosition(s, id, x, y);
    forall i | 0 <= i < |r.cards| ensures Live(s.cards, r.cards[i].id) {
      assert Ids(r.cards)[i] == Ids(s.cards)[i];
    }
  }

  /** A single event creates no card except the one numbered with the current counter value. */
  lemma StepOldOrNext(s: State, e: Event)
    ensures OldOrNext(s, Step(s, e))
    ensures Step(s, e).idCounter >= s.idCounter
  {
    match e
    case AddCardClicked(x, y) => AddCardOldOrNew(s, x, y);
    case DeleteClicked(id) => DeleteCardOldOrNew(s, id);
    case CardDragged(id, x, y) => UpdateCardPositionOldOrNew(s, id, x, y);
    case _ => SameCardsOldOrNew(s, Step(s, e));
  }

  lemma {:induction false} RunOldOrNew(s: State, events: seq<Event>)
    ensures OldOrNew(s, Run(s, events))
    ensures Run(s, events).idCounter >= s.idCounter
    decreases |events|
  {
    if |events| > 0 {
      var t := Step(s, events[0]);
      StepOldOrNext(s, events[0]);
      RunOldOrNew(t, events[1..]);
      var r := Run(s, events);
      forall i | 0 <= i < |r.cards|
        ensures Live(s.cards, r.cards[i].id) ||
                (IsCardId(r.cards[i].id) && s.idCounter <= Number(r.cards[i].id))
      {
        if Live(t.cards, r.cards[i].id) {
          var j :| 0 <= j < |t.cards| && Ids(t.cards)[j] == r.cards[i].id;
          assert Live(s.cards, t.cards[j].id) ||
                 (IsCardId(t.cards[j].id) && s.idCounter <= Number(t.cards[j].id));
        }
      }
    }
  }

  /**
    Ids are never reused: once a card is deleted, no later sequence of events
    brings a card with its id back.
   */
  lemma DeletedIdNeverReturns(s: State, id: string, events: seq<Event>)
    requires Inv(s) && Live(s.cards, id)
    ensures !Live(Run(DeleteCard(s, id), events).cards, id)
  {
    var d := DeleteCard(s, id);
    RunOldOrNew(d, events);
    var r := Run(d, events);
    var i :| 0 <= i < |s.cards| && Ids(s.cards)[i] == id;
    assert Number(id) < d.idCounter;
    forall j | 0 <= j < |r.cards| ensures r.cards[j].id != id {
      assert Live(d.cards, r.cards[j].id) ||
             (IsCardId(r.cards[j].id) && d.idCounter <= Number(r.cards[j].id));
    }
  }

  /** The drag in progress, if any, started on a card that is still on the canvas. */
  predicate DragFromLiveCard(s: State)
  {
    s.dragging.Some? ==> Live(s.cards, s.dragging.value.startId)
  }

  /**
    Connections stay between live cards as long as every release on a dot
    happens on a rendered card and does not complete a drag whose origin card
    has meanwhile been deleted.
   */
  lemma StepPreservesClosed(s: State, e: Event)
    requires Closed(s)
    requires e.ConnectorReleased? ==> DragFromLiveCard(s) && Live(s.cards, e.id)
    ensures Closed(Step(s, e))
  {
    var r := Step(s, e);
    match e
    case AddCardClicked(x, y) =>
      forall id | Live(s.cards, id) ensures Live(r.cards, id) {
        var j :| 0 <= j < |s.cards| && Ids(s.cards)[j] == id;
        assert Ids(r.cards)[j] == id;
      }
    case DeleteClicked(id) => DeleteCardPreservesClosed(s, id);
    case CardDragged(id, x, y) =>
    case ConnectorReleased(id) =>
      forall i | 0 <= i < |r.connections|
        ensures Live(r.cards, r.connections[i].start) && Live(r.cards, r.connections[i].end)
      {
        if i >= |s.connections| {
          assert Commits(s, id);
        }
      }
    case _ =>
  }
}
