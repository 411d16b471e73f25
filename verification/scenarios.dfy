/**
  Concrete event sequences: the scripted interactions a user performs on
  the canvas, with the state they end in.
 */
module Scenarios {
  import opened Wrappers
  import opened CardIds
  import opened Canvas
  import opened Connector
  import opened Events

  lemma FirstIds()
    ensures CardId(1) == "card-1" && CardId(2) == "card-2"
  {
  }

  /** A trace is its first step followed by the rest. */
  lemma RunCons(s: State, e: Event, rest: seq<Event>)
    ensures Run(s, [e] + rest) == Run(Step(s, e), rest)
  {
    assert ([e] + rest)[1..] == rest;
  }

  /** A trace of five events is its five steps in order. */
  lemma RunFive(s: State, e0: Event, e1: Event, e2: Event, e3: Event, e4: Event)
    ensures Run(s, [e0, e1, e2, e3, e4]) == Step(Step(Step(Step(Step(s, e0), e1), e2), e3), e4)
  {
    var t1 := Step(s, e0);
    var t2 := Step(t1, e1);
    var t3 := Step(t2, e2);
    var t4 := Step(t3, e3);
    RunCons(s, e0, [e1, e2, e3, e4]);
    RunCons(t1, e1, [e2, e3, e4]);
    RunCons(t2, e2, [e3, e4]);
    RunCons(t3, e3, [e4]);
    RunCons(t4, e4, []);
    assert [e0, e1, e2, e3, e4] == [e0] + [e1, e2, e3, e4];
    assert [e1, e2, e3, e4] == [e1] + [e2, e3, e4];
    assert [e2, e3, e4] == [e2] + [e3, e4];
    assert [e3, e4] == [e3] + [e4];
    assert [e4] == [e4] + [];
  }

  /** Two clicks on "Add Card" create `card-1` and `card-2`, in that order. */
  lemma TwoCards(x1: Coord, y1: Coord, x2: Coord, y2: Coord)
    ensures Run(Init, [AddCardClicked(x1, y1), AddCardClicked(x2, y2)]) == TwoCardState(x1, y1, x2, y2)
  {
    FirstIds();
    var a1 := AddCardClicked(x1, y1);
    var a2 := AddCardClicked(x2, y2);
    RunCons(Init, a1, [a2]);
    RunCons(Step(Init, a1), a2, []);
    assert [a1, a2] == [a1] + [a2] && [a2] == [a2] + [];
  }

  /** The state after two added cards, as `TwoCards` computes it. */
  function TwoCardState(x1: Coord, y1: Coord, x2: Coord, y2: Coord): State
  {
    State([Card("card-1", Placeholder, x1, y1), Card("card-2", Placeholder, x2, y2)], [], 3, None)
  }

  lemma TwoCardsSteps(x1: Coord, y1: Coord, x2: Coord, y2: Coord)
    ensures Step(Step(Init, AddCardClicked(x1, y1)), AddCardClicked(x2, y2)) == TwoCardState(x1, y1, x2, y2)
  {
    FirstIds();
  }

  lemma DistinctIds()
    ensures "card-1" != "card-2"
  {
    assert "card-1"[5] != "card-2"[5];
  }

  /** Deleting `card-1` from the two-card canvas keeps `card-2` and drops the connections touching `card-1`. */
  lemma DeleteFirstOfTwo(s: State, c2: Card)
    requires |s.cards| == 2 && s.cards[0].id == "card-1" && s.cards[1] == c2 && c2.id == "card-2"
    requires s.connections == [] || s.connections == [Connection("card-1", "card-2")]
    ensures DeleteCard(s, "card-1").cards == [c2]
    ensures DeleteCard(s, "card-1").connections == []
  {
    DistinctIds();
    var r := DeleteCard(s, "card-1");
    assert multiset(r.cards)[c2] == 1;
    assert multiset(r.cards)[s.cards[0]] == 0;
    assert s.cards == [s.cards[0]] + [c2];
    assert multiset(s.cards) == multiset{s.cards[0], c2};
    assert |r.cards| == 1 by {
      assert |multiset(r.cards)| == |r.cards|;
      assert multiset(r.cards) == multiset{c2};
    }
    assert r.cards[0] in multiset(r.cards);
  }

  /**
    Connecting `card-1` to `card-2` stores exactly that connection; deleting
    `card-1` afterwards leaves `card-2` alone with no connections.
   */
  lemma ConnectThenDelete(x1: Coord, y1: Coord, x2: Coord, y2: Coord, ax: Coord, ay: Coord, cx: Coord, cy: Coord)
    ensures var s := Run(Init, [AddCardClicked(x1, y1), AddCardClicked(x2, y2),
                                ConnectorPressed("card-1", ax, ay), CursorMoved(cx, cy),
                                ConnectorReleased("card-2")]);
            && s.connections == [Connection("card-1", "card-2")]
            && s.dragging.None?
            && var t := Step(s, DeleteClicked("card-1"));
               t.cards == [Card("card-2", Placeholder, x2, y2)] && t.connections == []
  {
    RunFive(Init, AddCardClicked(x1, y1), AddCardClicked(x2, y2),
            ConnectorPressed("card-1", ax, ay), CursorMoved(cx, cy), ConnectorReleased("card-2"));
    TwoCardsSteps(x1, y1, x2, y2);
    DistinctIds();
    var s2 := TwoCardState(x1, y1, x2, y2);
    var s4 := MouseMove(StartConnection(s2, "card-1", ax, ay), cx, cy);
    var s := MouseUp(CompleteConnection(s4, "card-2"));
    assert s.connections == [Connection("card-1", "card-2")];
    DeleteFirstOfTwo(s, Card("card-2", Placeholder, x2, y2));
  }

  /** Releasing on the dot the drag started from stores nothing. */
  lemma SelfConnectionDiscarded(x1: Coord, y1: Coord, ax: Coord, ay: Coord)
    ensures var s := Run(Init, [AddCardClicked(x1, y1), ConnectorPressed("card-1", ax, ay),
                                ConnectorReleased("card-1")]);
            s.connections == [] && s.dragging.None?
  {
    var evs := [AddCardClicked(x1, y1), ConnectorPressed("card-1", ax, ay), ConnectorReleased("card-1")];
    var t1 := Step(Init, evs[0]);
    var t2 := Step(t1, evs[1]);
    RunCons(Init, evs[0], evs[1..]);
    RunCons(t1, evs[1], evs[2..]);
    RunCons(t2, evs[2], []);
    assert evs == [evs[0]] + evs[1..] && evs[1..] == [evs[1]] + evs[2..] && evs[2..] == [evs[2]] + [];
    assert t2.dragging == Some(Drag("card-1", ax, ay, ax, ay));
  }

  /**
    A delete that fires while the mouse button is still held on the deleted
    card's dot (a keyboard press of the focused "Delete" button, say) leaves
    the drag in place, and releasing on another card then stores a
    connection whose origin no longer exists. `ConnectionLine`'s check is what
    keeps it off the screen.
   */
  lemma DanglingConnectionIsHidden(x1: Coord, y1: Coord, x2: Coord, y2: Coord, ax: Coord, ay: Coord)
    ensures var s := Run(Init, [AddCardClicked(x1, y1), AddCardClicked(x2, y2),
                                ConnectorPressed("card-1", ax, ay), DeleteClicked("card-1"),
                                ConnectorReleased("card-2")]);
            && s.connections == [Connection("card-1", "card-2")]
            && !Closed(s)
            && Drawn(s) == []
  {
    RunFive(Init, AddCardClicked(x1, y1), AddCardClicked(x2, y2),
            ConnectorPressed("card-1", ax, ay), DeleteClicked("card-1"), ConnectorReleased("card-2"));
    TwoCardsSteps(x1, y1, x2, y2);
    DistinctIds();
    var s3 := StartConnection(TwoCardState(x1, y1, x2, y2), "card-1", ax, ay);
    DeleteFirstOfTwo(s3, Card("card-2", Placeholder, x2, y2));
    var s4 := DeleteCard(s3, "card-1");
    assert s4.dragging == s3.dragging;
    var s := MouseUp(CompleteConnection(s4, "card-2"));
    assert s.connections == [Connection("card-1", "card-2")];
    assert Ids(s.cards) == ["card-2"];
    assert !Live(s.cards, "card-1");
    assert !Drawable(s.cards, s.connections[0]);
  }
}
