/**
  The canvas state held by the `App` component: the ordered card list, the
  list of directed connections, the id counter and the connector drag in
  progress. This module holds the data model and the card-store handlers
  (`addCard`, `deleteCard`, `updateCardPosition`) together with the
  invariants they keep.
 */
module Canvas {
  import opened Wrappers
  import opened Seqs
  import opened CardIds

  /** Screen positions are opaque values handed in by the caller (the DOM, a random draw, the drag library). */
  type Coord = real

  /** The text every new card is created with. */
  const Placeholder: string := "Some dummy text.."

  datatype Card = Card(id: string, text: string, x: Coord, y: Coord)

  /** A directed edge between two card ids; connections have no identity beyond the pair. */
  datatype Connection = Connection(start: string, end: string)

  /** The connector drag in progress: its origin card, the fixed anchor and the live cursor. */
  datatype Drag = Drag(startId: string, startX: Coord, startY: Coord, endX: Coord, endY: Coord)

  datatype State = State(
    cards: seq<Card>,
    connections: seq<Connection>,
    idCounter: nat,
    dragging: Option<Drag>)

  /** The state on first render: no cards, no connections, counter at 1, no drag. */
  const Init: State := State([], [], 1, None)

  function Ids(cards: seq<Card>): (ids: seq<string>)
    ensures |ids| == |cards|
    ensures forall i :: 0 <= i < |cards| ==> ids[i] == cards[i].id
  {
    seq(|cards|, i requires 0 <= i < |cards| => cards[i].id)
  }

  /** True when some card in the list carries `id`. */
  predicate Live(cards: seq<Card>, id: string)
  {
    id in Ids(cards)
  }

  // ---------------------------------------------------------------------------
  // Card store
  // ---------------------------------------------------------------------------

  /**
    `addCard`: the new card takes the id `card-<counter>` and the placeholder
    text, is appended after every existing card, and the counter moves on by
    one. `x` and `y` stand for the two random draws.
   */
  function AddCard(s: State, x: Coord, y: Coord): (r: State)
    ensures |r.cards| == |s.cards| + 1
    ensures r.cards[..|s.cards|] == s.cards
    ensures r.cards[|s.cards|] == Card(CardId(s.idCounter), Placeholder, x, y)
    ensures r.idCounter == s.idCounter + 1
    ensures r.connections == s.connections && r.dragging == s.dragging
  {
    s.(cards := s.cards + [Card(CardId(s.idCounter), Placeholder, x, y)],
       idCounter := s.idCounter + 1)
  }

  /** The filter callback of `deleteCard` for cards. */
  predicate KeepCard(id: string, c: Card)
  {
    c.id != id
  }

  /** The filter callback of `deleteCard` for connections: neither end is `id`. */
  predicate KeepConnection(id: string, k: Connection)
  {
    k.start != id && k.end != id
  }

  /**
    `deleteCard`: every card with the id goes, and so does every connection
    that starts or ends at it. What survives keeps its relative order and
    multiplicity; the counter and the drag state are untouched.
   */
  function DeleteCard(s: State, id: string): (r: State)
    ensures !Live(r.cards, id)
    ensures forall c :: multiset(r.cards)[c] == if c.id == id then 0 else multiset(s.cards)[c]
    ensures Subsequence(r.cards, s.cards)
    ensures forall i :: 0 <= i < |r.connections| ==>
              r.connections[i].start != id && r.connections[i].end != id
    ensures forall k :: multiset(r.connections)[k] ==
              if k.start == id || k.end == id then 0 else multiset(s.connections)[k]
    ensures Subsequence(r.connections, s.connections)
    ensures r.idCounter == s.idCounter && r.dragging == s.dragging
  {
    s.(cards := Filter(s.cards, c => KeepCard(id, c)),
       connections := Filter(s.connections, k => KeepConnection(id, k)))
  }

  /** The card list after `updateCardPosition`: the `map` over the list. */
  function MoveCards(cards: seq<Card>, id: string, x: Coord, y: Coord): (r: seq<Card>)
    ensures |r| == |cards|
    ensures forall i :: 0 <= i < |cards| ==>
              r[i].id == cards[i].id && r[i].text == cards[i].text &&
              (if cards[i].id == id then r[i].x == x && r[i].y == y else r[i] == cards[i])
  {
    if |cards| == 0 then []
    else
      var head := if cards[0].id == id then cards[0].(x := x, y := y) else cards[0];
      [head] + MoveCards(cards[1..], id, x, y)
  }

  /**
    `updateCardPosition`: only the position of the cards carrying `id`
    changes; length, order, ids and texts of all cards stay as they were.
   */
  function UpdateCardPosition(s: State, id: string, x: Coord, y: Coord): (r: State)
    ensures Ids(r.cards) == Ids(s.cards)
    ensures forall i :: 0 <= i < |s.cards| ==>
              r.cards[i].text == s.cards[i].text &&
              (if s.cards[i].id == id then r.cards[i].x == x && r.cards[i].y == y
               else r.cards[i] == s.cards[i])
    ensures r.connections == s.connections && r.idCounter == s.idCounter && r.dragging == s.dragging
  {
    s.(cards := MoveCards(s.cards, id, x, y))
  }

  /** Moving a card that is not on the canvas changes nothing. */
  lemma UpdateAbsentIsNoop(s: State, id: string, x: Coord, y: Coord)
    requires !Live(s.cards, id)
    ensures UpdateCardPosition(s, id, x, y) == s
  {
    var r := UpdateCardPosition(s, id, x, y);
    forall i | 0 <= i < |s.cards| ensures r.cards[i] == s.cards[i] {
      assert Ids(s.cards)[i] == s.cards[i].id;
    }
  }

  // ---------------------------------------------------------------------------
  // Id invariant
  // ---------------------------------------------------------------------------

  /** The number of `a` is below the number of `b` (both canonical). */
  predicate Older(a: Card, b: Card)
  {
    IsCardId(a.id) && IsCardId(b.id) && Number(a.id) < Number(b.id)
  }

  /**
    The id invariant: the counter is at least 1; every live id is a canonical
    `card-<n>` with 1 <= n < counter; and numbers strictly increase along the
    list, so ids are pairwise distinct.
   */
  predicate Inv(s: State)
  {
    && s.idCounter >= 1
    && (forall i :: 0 <= i < |s.cards| ==>
          IsCardId(s.cards[i].id) && 1 <= Number(s.cards[i].id) < s.idCounter)
    && Pairwise(s.cards, Older)
  }

  lemma InitInv()
    ensures Inv(Init)
  {
  }

  /** Under the invariant no two cards share an id. */
  lemma InvDistinct(s: State)
    requires Inv(s)
    ensures forall i, j :: 0 <= i < |s.cards| && 0 <= j < |s.cards| && i != j ==>
              s.cards[i].id != s.cards[j].id
  {
    forall i, j | 0 <= i < |s.cards| && 0 <= j < |s.cards| && i != j
      ensures s.cards[i].id != s.cards[j].id
    {
      if i < j { assert Older(s.cards[i], s.cards[j]); }
      else { assert Older(s.cards[j], s.cards[i]); }
    }
  }

  /** Under the invariant the id `addCard` is about to hand out belongs to no live card. */
  lemma NextIdIsFresh(s: State)
    requires Inv(s)
    ensures !Live(s.cards, CardId(s.idCounter))
  {
    AllocatedIdIsCanonical(s.idCounter);
  }

  lemma AddCardPreservesInv(s: State, x: Coord, y: Coord)
    requires Inv(s)
    ensures Inv(AddCard(s, x, y))
  {
    var r := AddCard(s, x, y);
    var n := |s.cards|;
    AllocatedIdIsCanonical(s.idCounter);
    forall i | 0 <= i < |r.cards|
      ensures IsCardId(r.cards[i].id) && 1 <= Number(r.cards[i].id) < r.idCounter
    {
      if i < n { assert r.cards[i] == s.cards[i]; }
    }
    forall i, j | 0 <= i < j < |r.cards| ensures Older(r.cards[i], r.cards[j]) {
      assert r.cards[i] == s.cards[i];
      if j < n { assert r.cards[j] == s.cards[j]; }
    }
  }

  lemma DeleteCardPreservesInv(s: State, id: string)
    requires Inv(s)
    ensures Inv(DeleteCard(s, id))
  {
    var r := DeleteCard(s, id);
    SubsequenceMembers(r.cards, s.cards);
    SubsequencePairwise(r.cards, s.cards, Older);
    forall i | 0 <= i < |r.cards|
      ensures IsCardId(r.cards[i].id) && 1 <= Number(r.cards[i].id) < r.idCounter
    {
      assert r.cards[i] in s.cards;
    }
  }

  lemma UpdateCardPositionPreservesInv(s: State, id: string, x: Coord, y: Coord)
    requires Inv(s)
    ensures Inv(UpdateCardPosition(s, id, x, y))
  {
    var r := UpdateCardPosition(s, id, x, y);
    forall i | 0 <= i < |r.cards| ensures r.cards[i].id == s.cards[i].id {
      assert Ids(r.cards)[i] == Ids(s.cards)[i];
    }
    forall i, j | 0 <= i < j < |r.cards| ensures Older(r.cards[i], r.cards[j]) {
      assert Older(s.cards[i], s.cards[j]);
    }
  }

  // ---------------------------------------------------------------------------
  // Drawability (`ConnectionLine`)
  // ---------------------------------------------------------------------------

  /** `cards.find(card => card.id === id)`: the first card carrying `id`. */
  function FindCard(cards: seq<Card>, id: string): (r: Option<Card>)
    ensures r.Some? <==> Live(cards, id)
    ensures r.Some? ==> r.value.id == id && r.value in cards
    ensures r.Some? ==> FirstWith(cards, id, r.value)
  {
    if |cards| == 0 then None
    else if cards[0].id == id then
      assert FirstAt(cards, id, cards[0], 0);
      Some(cards[0])
    else
      assert Ids(cards) == [cards[0].id] + Ids(cards[1..]);
      var r := FindCard(cards[1..], id);
      if r.Some? then FirstWithShift(cards, id, r.value); r else r
  }

  /** `c` sits at index `i` and no card before it carries `id`. */
  predicate FirstAt(cards: seq<Card>, id: string, c: Card, i: nat)
  {
    i < |cards| && cards[i] == c && forall j :: 0 <= j < i ==> cards[j].id != id
  }

  /** `c` is the first card in the list that carries `id`, or comes before all of them. */
  ghost predicate FirstWith(cards: seq<Card>, id: string, c: Card)
  {
    exists i: nat :: i < |cards| && FirstAt(cards, id, c, i)
  }

  /** Putting a card with a different id in front keeps `c` first. */
  lemma FirstWithShift(cards: seq<Card>, id: string, c: Card)
    requires |cards| > 0 && cards[0].id != id
    requires FirstWith(cards[1..], id, c)
    ensures FirstWith(cards, id, c)
  {
    var i: nat :| i < |cards[1..]| && FirstAt(cards[1..], id, c, i);
    assert cards[1..][i] == c && forall j :: 0 <= j < i ==> cards[1..][j].id != id;
    forall j | 0 <= j < i + 1 ensures cards[j].id != id {
      if j > 0 { assert cards[j] == cards[1..][j - 1]; }
    }
    assert FirstAt(cards, id, c, i + 1);
  }

  /** `ConnectionLine` draws a connection only when both of its ends name a card in the list. */
  predicate Drawable(cards: seq<Card>, k: Connection)
  {
    FindCard(cards, k.start).Some? && FindCard(cards, k.end).Some?
  }

  /** The committed connections that produce a line on screen, in paint order. */
  function Drawn(s: State): (d: seq<Connection>)
    ensures forall i :: 0 <= i < |d| ==> Live(s.cards, d[i].start) && Live(s.cards, d[i].end)
    ensures forall k :: multiset(d)[k] ==
              if Live(s.cards, k.start) && Live(s.cards, k.end) then multiset(s.connections)[k] else 0
    ensures Subsequence(d, s.connections)
  {
    Filter(s.connections, k => Drawable(s.cards, k))
  }

  /** Every stored connection has both ends on the canvas. */
  predicate Closed(s: State)
  {
    forall i :: 0 <= i < |s.connections| ==>
      Live(s.cards, s.connections[i].start) && Live(s.cards, s.connections[i].end)
  }

  /** When no connection dangles, every stored connection is drawn. */
  lemma ClosedAllDrawn(s: State)
    requires Closed(s)
    ensures Drawn(s) == s.connections
  {
    FilterKeepsAll(s.connections, k => Drawable(s.cards, k));
  }

  /** Deleting a card never leaves a dangling connection behind. */
  lemma DeleteCardPreservesClosed(s: State, id: string)
    requires Closed(s)
    ensures Closed(DeleteCard(s, id))
  {
    var r := DeleteCard(s, id);
    SubsequenceMembers(r.connections, s.connections);
    forall i | 0 <= i < |r.connections|
      ensures Live(r.cards, r.connections[i].start) && Live(r.cards, r.connections[i].end)
    {
      var k := r.connections[i];
      assert k in s.connections;
      StillLive(s, id, k.start);
      StillLive(s, id, k.end);
    }
  }

  /** A card other than the deleted one survives `deleteCard`. */
  lemma StillLive(s: State, id: string, other: string)
    requires Live(s.cards, other) && other != id
    ensures Live(DeleteCard(s, id).cards, other)
  {
    var r := DeleteCard(s, id);
    var i :| 0 <= i < |s.cards| && Ids(s.cards)[i] == other;
    var c := s.cards[i];
    assert multiset(s.cards)[c] > 0;
    assert c in multiset(r.cards);
    var j :| 0 <= j < |r.cards| && r.cards[j] == c;
    assert Ids(r.cards)[j] == other;
  }

  /** Deleting an id that no card and no connection mentions changes nothing. */
  lemma DeleteAbsentIsNoop(s: State, id: string)
    requires !Live(s.cards, id)
    requires forall i :: 0 <= i < |s.connections| ==> KeepConnection(id, s.connections[i])
    ensures DeleteCard(s, id) == s
  {
    forall i | 0 <= i < |s.cards| ensures KeepCard(id, s.cards[i]) {
      assert Ids(s.cards)[i] == s.cards[i].id;
    }
    FilterKeepsAll(s.cards, c => KeepCard(id, c));
    FilterKeepsAll(s.connections, k => KeepConnection(id, k));
  }

  /** In particular, under `Closed` a delete of an absent id is a no-op. */
  lemma DeleteAbsentClosedIsNoop(s: State, id: string)
    requires Closed(s) && !Live(s.cards, id)
    ensures DeleteCard(s, id) == s
  {
    DeleteAbsentIsNoop(s, id);
  }
}
