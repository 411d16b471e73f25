# Canvas of cards and connectors — a Dafny model

This project models the state held by the `App` component of a single-page
canvas. Users add cards, drag them, delete them, and link them with directed
connectors by dragging from one card's connector dot to another's. The model
holds exactly the component's state:

- the ordered card list `{id, text, x, y}`;
- the list of directed connections `(start, end)`;
- the id counter;
- the connector drag in progress (`draggingConnection`).

It has one pure transition function per event handler, and lemmas for the
invariants those handlers keep.

Modules (one per component of the design):

- `Wrappers` — `Option`, used where the source uses `null` / `undefined`.
- `Seqs` — the order-preserving `filter` that both stores use, the subsequence
  relation, and a proof that `filter` is the only order-preserving selection.
- `CardIds` — the `card-<n>` id format: decimal printing, parsing back, round
  trip and injectivity.
- `Canvas` — the data model, the card-store handlers (`addCard`, `deleteCard`
  with its cascade to connections, `updateCardPosition`), the id invariant,
  and the drawability rule of `ConnectionLine`.
- `Connector` — the drag-to-connect state machine: start, move, complete, and
  the canvas-wide mouse-up clear.
- `Events` — the handlers as one event machine (`Step`, `Run`) and facts about
  whole traces: the id invariant is kept, the counter counts additions, and
  deleted ids never come back.
- `Scenarios` — concrete interactions and their end states.

Each handler sees the state left by the previous event. This is how the
component behaves when events are processed one at a time, even though the
source reads `idCounter` and `draggingConnection` from the render closure.
A mouse-up on a connector dot runs the dot's `onCompleteConnection` first.
The event then bubbles to the canvas's own mouse-up clear (`Events.Step`,
case `ConnectorReleased`), and `Connector.MouseUpAfterCompleteIsNoop` shows
that the second clear changes nothing.

Positions are opaque `real` parameters. They stand for the random draws of
`addCard`, the coordinates from the drag library, the cursor, and the anchor
that `onStartConnection` reads off the DOM.

`deleteCard` does not clear a drag that started on the deleted card. If the
delete fires while the mouse button is still held on that card's dot, a later
release on another card stores a connection whose origin no longer exists
(`Scenarios.DanglingConnectionIsHidden`). The `ConnectionLine` check is what
keeps that connection off the screen. So the model states "every stored
connection joins live cards" (`Canvas.Closed`) as something that
`Events.StepPreservesClosed` keeps under stated conditions, not as an
unconditional invariant.

## Model

| member | source | states |
|---|---|---|
| Seqs.Filter | src/App.js:27-28 | the filtered list holds only kept elements, each kept element exactly as often as the input, no others, and is a subsequence of the input (relative order kept) |
| Seqs.FilterUnique | src/App.js:27-28 | any order-preserving selection with the kept elements' multiplicities equals the filter, so the contract of `Filter` determines it completely |
| Seqs.SubsequencePairwise | src/App.js:27 | deleting elements from a list keeps every ordering fact between the survivors (used to show deletion keeps ids increasing) |
| CardIds.CardId | src/App.js:15 | the id made from counter value `n` starts with `card-` and parses back to `n` |
| CardIds.DecimalRoundTrip | src/App.js:15 | reading back the decimal spelling of the counter gives the counter |
| CardIds.CardIdRoundTrip | src/App.js:15 | the id `card-<n>` parses back to `n` |
| CardIds.CardIdInjective | src/App.js:15 | two counter values give the same id exactly when they are equal |
| Canvas.AddCard | src/App.js:14-24 | exactly one card is appended, with id `card-<counter>` and the placeholder text; existing cards are unchanged and in order; the counter goes up by one; connections and drag are untouched |
| Canvas.DeleteCard | src/App.js:26-29 | no card with the id remains; every other card stays with its multiplicity and relative order; no remaining connection starts or ends at the id; every other connection stays in order; counter and drag are untouched |
| Canvas.MoveCards | src/App.js:32-36 | the mapped list has the same length, ids and texts; cards with the id get the new position; every other card is unchanged |
| Canvas.UpdateCardPosition | src/App.js:31-37 | the ids are unchanged and in order; texts are unchanged; only the matching cards' x and y change; connections, counter and drag are untouched |
| Canvas.UpdateAbsentIsNoop | src/App.js:33-35 | moving an id that no card carries leaves the state equal to what it was |
| Canvas.InitInv | src/App.js:8-12 | the initial state (no cards, counter 1) satisfies the id invariant |
| Canvas.InvDistinct | src/App.js:15-23 | under the id invariant no two live cards share an id |
| Canvas.NextIdIsFresh | src/App.js:15-23 | under the id invariant the id `addCard` hands out next belongs to no live card |
| Canvas.AddCardPreservesInv | src/App.js:14-24 | `addCard` keeps the invariant: ids canonical, numbers between 1 and the counter, strictly increasing along the list |
| Canvas.DeleteCardPreservesInv | src/App.js:26-29 | `deleteCard` keeps the id invariant |
| Canvas.UpdateCardPositionPreservesInv | src/App.js:31-37 | `updateCardPosition` keeps the id invariant |
| Canvas.FindCard | src/App.js:187-188 | `find` returns a card exactly when some card carries the id; the card it returns carries that id, and no card before it in the list does |
| Canvas.Drawn | src/App.js:114-116 | the lines drawn are exactly the stored connections whose two ends name live cards, with their multiplicities and in their stored order |
| Canvas.ClosedAllDrawn | src/App.js:186-190 | when every stored connection joins live cards, every stored connection is drawn |
| Canvas.DeleteCardPreservesClosed | src/App.js:26-29 | the cascade means a delete never leaves a connection pointing at a missing card |
| Canvas.StillLive | src/App.js:27 | a card whose id differs from the deleted one survives the delete |
| Canvas.DeleteAbsentIsNoop | src/App.js:26-29 | deleting an id that no card and no connection mentions changes nothing |
| Canvas.DeleteAbsentClosedIsNoop | src/App.js:26-29 | when no connection dangles, deleting an absent id changes nothing |
| Connector.StartConnection | src/App.js:39-55 | a drag from the card starts, with its loose end on the anchor; any previous drag is replaced; the stores are untouched |
| Connector.MouseMove | src/App.js:57-65 | with no drag nothing changes; during a drag only the loose end moves to the cursor, and origin and anchor are kept |
| Connector.CompleteConnection | src/App.js:67-75 | one connection from the drag's origin to the target is appended exactly when a drag is active and the target is not its origin (duplicates included); otherwise connections are unchanged; the drag always ends |
| Connector.MouseUp | src/App.js:82 | any mouse-up on the canvas ends the drag and changes nothing else |
| Connector.MoveAlong | src/App.js:57-65 | along a path of moves the drag's origin and anchor are kept and its loose end ends on the last point |
| Connector.GestureOutcome | src/App.js:39-75 | press, any moves, release on a dot: the connection origin -> target is added exactly when they differ, and the drag ends |
| Connector.GestureAborted | src/App.js:57-82 | press, any moves, release away from a dot: no connection is added and the drag ends |
| Connector.MouseUpAfterCompleteIsNoop | src/App.js:67-82 | the bubbled canvas mouse-up after a completed connection changes nothing |
| Connector.MouseMoveLastWins | src/App.js:57-65 | two moves in a row act like the second one alone |
| Connector.StartOverwrites | src/App.js:48-54 | a second start forgets the first drag entirely |
| Events.Step | src/App.js:82-97 | a release on a dot acts exactly as `onCompleteConnection`, because the bubbled canvas clear finds nothing left to clear; a mouse-up elsewhere ends the drag and leaves both stores alone; only "Add Card" moves the counter; only a delete or a release on a dot changes the connections |
| Events.RunPreservesInv | src/App.js:10-37 | every state reached by any event sequence from a state with the id invariant keeps it |
| Events.StepPreservesInv | src/App.js:14-37 | each handler keeps the id invariant |
| Events.CounterCountsAdds | src/App.js:10-23 | the counter only grows, by exactly one per "Add Card" click |
| Events.StepOldOrNext | src/App.js:14-37 | after a single event every card was present before it or has exactly the current counter value as its number |
| Events.RunOldOrNew | src/App.js:14-37 | a card present after a trace was present before it or has a number at least the counter's value at the start |
| Events.DeletedIdNeverReturns | src/App.js:15-27 | once a live card is deleted, no later event sequence brings a card with its id back |
| Events.StepPreservesClosed | src/App.js:67-75 | connections keep joining live cards through any event, provided a release on a dot happens on a live card and never completes a drag whose origin was deleted |
| Scenarios.TwoCards | src/App.js:14-24 | two additions from the initial state give `card-1` then `card-2`, counter 3 |
| Scenarios.ConnectThenDelete | src/App.js:26-75 | connecting `card-1` to `card-2` stores exactly that pair; deleting `card-1` then leaves only `card-2` and no connections |
| Scenarios.SelfConnectionDiscarded | src/App.js:67-75 | a drag released on its own origin stores nothing |
| Scenarios.DanglingConnectionIsHidden | src/App.js:186-190 | a delete during a drag from the deleted card, then a release on another card, stores a connection with a dead origin that is not drawn |

## Left out

- DOM geometry: `getElementById` and `getBoundingClientRect` in `onStartConnection` and `ConnectionLine` are live layout queries. The anchor is an input of `Connector.StartConnection`. Line endpoints on screen are not modelled. If no element exists for the id, the source's handler throws; the model assumes the element is rendered, since only rendered dots raise the event.
- Floating-point coordinates and `Math.random`: positions are opaque `real` parameters. The random range [0, 400) is not modelled.
- Event propagation: the `stopPropagation` guard in `onStartConnection` never fires, because the App-side callback passes the card id in place of the event. It is DOM behaviour either way.
- Rendering and third-party components: JSX and SVG markup, the arrowhead marker, the dashed preview line, `react-draggable`, and `react-resizable` with its size bounds are not modelled.
- The `Popup` component and the `selectedCard` toggle: they are presentation state that none of the modelled handlers reads.
- React scheduling: batched updates and stale closures are not modelled. Handlers run one at a time, each on the latest state.
- Canvas.AddCard: the counter is an unbounded `nat`. In the source it is a JavaScript number, and once it reaches 2^53 the increment `idCounter + 1` rounds back to 2^53, so the counter stops growing and every later `addCard` hands out `card-9007199254740992` again. The id invariant (`Canvas.Inv`), `Canvas.InvDistinct` and `Events.DeletedIdNeverReturns` therefore hold for the source only while the counter stays below 2^53, which no session reaches.
