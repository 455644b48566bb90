/**
 * The card-stack screen (src/screens/AceOfShadowsScreen.ts): 144 cards are
 * dealt onto stack one, then moved one at a time from the top of stack one
 * to the top of stack two. The tween between the two endpoints of a move is
 * reduced to its start (`BeginMove`) and its completion (`CompleteMove`),
 * with the moving card held in an in-flight slot in between.
 */
module AceOfShadows {
  import opened Common
  import opened Enums

  /** Cards dealt per `init`. */
  const DeckSize: nat := 144
  /** Vertical distance between two neighbouring cards of a stack. */
  const CardOffset: real := 2.0

  /** A card sprite: an identity, its position, its stacking order and its rotation. */
  datatype Card = Card(id: nat, x: real, y: real, zIndex: int, rotation: real)

  type Stack = CardStack<Card>

  /** A card that has left stack one and is on its way to a target point. */
  datatype Flight = Flight(card: Card, targetX: real, targetY: real)

  /** The y coordinate of the `k`-th card of a stack anchored at `anchorY`. */
  function SlotY(anchorY: real, k: nat): real {
    anchorY - CardOffset * k as real
  }

  /** The identities of `cards`, in order. */
  function Ids(cards: seq<Card>): seq<nat> {
    seq(|cards|, i requires 0 <= i < |cards| => cards[i].id)
  }

  /** `s` in reverse order, peeling off the last element first. */
  function Reversed<T>(s: seq<T>): (r: seq<T>)
    decreases |s|
  {
    if s == [] then [] else [s[|s| - 1]] + Reversed(s[..|s| - 1])
  }

  /** Every card of the stack sits at its slot: at the anchor's x, `2 * index` above the anchor. */
  predicate LaidOut(s: Stack) {
    forall i :: 0 <= i < |s.cards| ==> s.cards[i].x == s.x && s.cards[i].y == SlotY(s.y, i)
  }

  /** The flight a move starts: the popped card, aimed at the next free slot of `target`. */
  function Aim(card: Card, target: Stack): Flight {
    Flight(card, target.x, SlotY(target.y, |target.cards|))
  }

  /** The card as it ends a flight: at the target, rotation reset, stacked above `below` cards. */
  function Landed(f: Flight, below: nat): Card {
    f.card.(x := f.targetX, y := f.targetY, rotation := 0.0, zIndex := below)
  }

  /** One uninterrupted move of `card` onto `target`. */
  function Land(card: Card, target: Stack): Stack {
    target.(cards := target.cards + [Landed(Aim(card, target), |target.cards|)])
  }

  /** Stack two after every card of `one` has been moved onto `two`, top card first. */
  function TransferAll(one: seq<Card>, two: Stack): Stack
    decreases |one|
  {
    if one == [] then two else TransferAll(one[..|one| - 1], Land(one[|one| - 1], two))
  }

  /** Running the shuffle to the end puts the cards of stack one on stack two in reverse order, keeping the anchor. */
  lemma {:induction false} TransferAllOrder(one: seq<Card>, two: Stack)
    ensures var r := TransferAll(one, two);
            r.x == two.x && r.y == two.y &&
            Ids(r.cards) == Ids(two.cards) + Reversed(Ids(one))
    decreases |one|
  {
    if one != [] {
      var n := |one|;
      var landed := Land(one[n - 1], two);
      TransferAllOrder(one[..n - 1], landed);
      assert Ids(landed.cards) == Ids(two.cards) + [one[n - 1].id];
      assert Ids(one)[..n - 1] == Ids(one[..n - 1]);
      assert Reversed(Ids(one)) == [one[n - 1].id] + Reversed(Ids(one[..n - 1]));
    }
  }

  /**
   * The `k`-th card landed on stack two sits at `two.y - 2k` with rotation 0
   * and stacking order `k`; the cards that were already there are untouched.
   */
  lemma {:induction false} TransferAllPlaces(one: seq<Card>, two: Stack)
    ensures var r := TransferAll(one, two);
            |r.cards| == |two.cards| + |one| &&
            r.cards[..|two.cards|] == two.cards &&
            forall k :: |two.cards| <= k < |r.cards| ==>
              r.cards[k].x == two.x && r.cards[k].y == SlotY(two.y, k) &&
              r.cards[k].rotation == 0.0 && r.cards[k].zIndex == k
    decreases |one|
  {
    if one != [] {
      var n := |one|;
      var landed := Land(one[n - 1], two);
      TransferAllPlaces(one[..n - 1], landed);
      var r := TransferAll(one, two);
      assert r == TransferAll(one[..n - 1], landed);
      assert r.cards[..|landed.cards|] == landed.cards;
      assert r.cards[..|two.cards|] == landed.cards[..|two.cards|];
      TransferAllOrder(one[..n - 1], landed);
    }
  }

  /** A stack that is laid out stays laid out through a whole shuffle, so a relayout at the same anchor changes nothing. */
  lemma TransferAllLaidOut(one: seq<Card>, two: Stack)
    requires LaidOut(two)
    ensures LaidOut(TransferAll(one, two))
  {
    TransferAllPlaces(one, two);
    TransferAllOrder(one, two);
    var r := TransferAll(one, two);
    forall i | 0 <= i < |two.cards|
      ensures r.cards[i] == two.cards[i]
    {
      assert r.cards[..|two.cards|][i] == r.cards[i];
    }
  }

  /** The cards of a stack moved to the anchor `(x, y)`: card `i` to `(x, y - 2i)`, nothing else changed. */
  method SnapCards(cards: seq<Card>, x: real, y: real) returns (r: seq<Card>)
    ensures |r| == |cards|
    ensures forall i :: 0 <= i < |r| ==> r[i] == cards[i].(x := x, y := SlotY(y, i))
  {
    r := cards;
    var i := 0;
    while i < |r|
      invariant 0 <= i <= |r| == |cards|
      invariant forall j :: 0 <= j < i ==> r[j] == cards[j].(x := x, y := SlotY(y, j))
      invariant forall j :: i <= j < |r| ==> r[j] == cards[j]
    {
      r := r[i := r[i].(x := x, y := SlotY(y, i))];
      i := i + 1;
    }
  }

  class AceOfShadowsScreen {
    var stackOne: Stack
    var stackTwo: Stack
    /** The card between `BeginMove` and `CompleteMove`, in neither stack. */
    var inFlight: Option<Flight>
    /** The identities of the card sprites added to this screen, in order. */
    var children: seq<nat>
    /** The identity the next card sprite gets. */
    var nextId: nat

    /** Every card this screen holds, counting the one in flight. */
    function CardsHeld(): nat
      reads this
    {
      |stackOne.cards| + |stackTwo.cards| + (if inFlight.Some? then 1 else 0)
    }

    constructor ()
      ensures stackOne == CardStack(100.0, 500.0, []) && stackTwo == CardStack(300.0, 500.0, [])
      ensures inFlight == None && children == [] && nextId == 0
    {
      stackOne := CardStack(100.0, 500.0, []);
      stackTwo := CardStack(300.0, 500.0, []);
      inFlight := None;
      children := [];
      nextId := 0;
    }

    /**
     * Deals 144 new cards onto stack one without clearing it: card `i` of
     * the batch sits at `(stackOne.x, stackOne.y - 2i)` with stacking order
     * `i`, whatever the stack held before.
     */
    method CreateStackOfCards()
      modifies this`stackOne, this`children, this`nextId
      ensures stackOne.x == old(stackOne.x) && stackOne.y == old(stackOne.y)
      ensures |stackOne.cards| == old(|stackOne.cards|) + DeckSize
      ensures stackOne.cards[..old(|stackOne.cards|)] == old(stackOne.cards)
      ensures forall i :: 0 <= i < DeckSize ==>
                stackOne.cards[old(|stackOne.cards|) + i] ==
                Card(old(nextId) + i, stackOne.x, SlotY(stackOne.y, i), i, 0.0)
      ensures children == old(children) + Ids(stackOne.cards[old(|stackOne.cards|)..])
      ensures nextId == old(nextId) + DeckSize
    {
      var i := 0;
      while i < DeckSize
        invariant 0 <= i <= DeckSize
        invariant stackOne.x == old(stackOne.x) && stackOne.y == old(stackOne.y)
        invariant |stackOne.cards| == old(|stackOne.cards|) + i
        invariant stackOne.cards[..old(|stackOne.cards|)] == old(stackOne.cards)
        invariant forall j :: 0 <= j < i ==>
                    stackOne.cards[old(|stackOne.cards|) + j] ==
                    Card(old(nextId) + j, stackOne.x, SlotY(stackOne.y, j), j, 0.0)
        invariant children == old(children) + Ids(stackOne.cards[old(|stackOne.cards|)..])
        invariant nextId == old(nextId) + i
      {
        var card := Card(nextId, stackOne.x, SlotY(stackOne.y, i), i, 0.0);
        stackOne := stackOne.(cards := stackOne.cards + [card]);
        children := children + [card.id];
        nextId := nextId + 1;
        i := i + 1;
      }
    }

    /**
     * The start of a move: pops the top of stack one and aims it at the next
     * free slot of stack two, computed before anything is pushed. On an
     * empty stack one nothing changes and no further move follows.
     */
    method BeginMove() returns (moved: bool)
      requires inFlight == None
      modifies this`stackOne, this`inFlight
      ensures moved <==> old(stackOne.cards) != []
      ensures !moved ==> stackOne == old(stackOne) && inFlight == None
      ensures moved ==>
                stackOne == old(stackOne).(cards := old(stackOne.cards)[..|old(stackOne.cards)| - 1]) &&
                inFlight == Some(Aim(old(stackOne.cards)[|old(stackOne.cards)| - 1], stackTwo))
      ensures CardsHeld() == old(CardsHeld())
    {
      if stackOne.cards == [] {
        return false;
      }
      var n := |stackOne.cards|;
      var top := stackOne.cards[n - 1];
      stackOne := stackOne.(cards := stackOne.cards[..n - 1]);
      inFlight := Some(Aim(top, stackTwo));
      moved := true;
    }

    /**
     * The end of a move: the card lands at its target with rotation 0 and is
     * pushed onto stack two; another move follows exactly when stack one is
     * not empty.
     */
    method CompleteMove() returns (more: bool)
      requires inFlight.Some?
      modifies this`stackTwo, this`inFlight
      ensures inFlight == None
      ensures stackTwo == old(stackTwo).(cards := old(stackTwo.cards) + [Landed(old(inFlight.value), |old(stackTwo.cards)|)])
      ensures more <==> stackOne.cards != []
      ensures CardsHeld() == old(CardsHeld())
    {
      var f := inFlight.value;
      stackTwo := stackTwo.(cards := stackTwo.cards + [Landed(f, |stackTwo.cards|)]);
      inFlight := None;
      more := stackOne.cards != [];
    }

    /** The cards still to be delivered, as stack two will hold them once every move has completed. */
    function Outcome(): Stack
      reads this
    {
      match inFlight
      case None => TransferAll(stackOne.cards, stackTwo)
      case Some(f) => TransferAll(stackOne.cards, Land(f.card, stackTwo))
    }

    /**
     * The whole shuffle, run without interruption: moves follow one another
     * until stack one is empty, and stack two ends with its old cards
     * followed by stack one's cards in reverse order, each at its slot.
     */
    method ShuffleCards()
      requires inFlight == None
      modifies this`stackOne, this`stackTwo, this`inFlight
      ensures stackOne == old(stackOne).(cards := [])
      ensures stackTwo == TransferAll(old(stackOne.cards), old(stackTwo))
      ensures inFlight == None
    {
      var moving := BeginMove();
      while moving
        invariant moving <==> inFlight.Some?
        invariant !moving ==> stackOne.cards == []
        invariant stackOne.x == old(stackOne.x) && stackOne.y == old(stackOne.y)
        invariant inFlight.Some? ==> inFlight.value == Aim(inFlight.value.card, stackTwo)
        invariant Outcome() == TransferAll(old(stackOne.cards), old(stackTwo))
        decreases |stackOne.cards| + (if moving then 1 else 0)
      {
        var more := CompleteMove();
        if more {
          moving := BeginMove();
        } else {
          moving := false;
        }
      }
    }

    /**
     * The resize relayout: the anchors move to `(0.25W, 0.8H)` and
     * `(0.75W, 0.8H)` and every card of both stacks snaps to its slot; the
     * contents and order of both stacks and the card in flight do not change.
     */
    method UpdateStackPositions(screenWidth: real, screenHeight: real)
      modifies this`stackOne, this`stackTwo
      ensures stackOne.x == 0.25 * screenWidth && stackOne.y == 0.8 * screenHeight
      ensures stackTwo.x == 0.75 * screenWidth && stackTwo.y == 0.8 * screenHeight
      ensures |stackOne.cards| == |old(stackOne.cards)| && |stackTwo.cards| == |old(stackTwo.cards)|
      ensures forall i :: 0 <= i < |stackOne.cards| ==>
                stackOne.cards[i] == old(stackOne.cards[i]).(x := stackOne.x, y := SlotY(stackOne.y, i))
      ensures forall i :: 0 <= i < |stackTwo.cards| ==>
                stackTwo.cards[i] == old(stackTwo.cards[i]).(x := stackTwo.x, y := SlotY(stackTwo.y, i))
      ensures LaidOut(stackOne) && LaidOut(stackTwo)
      ensures Ids(stackOne.cards) == Ids(old(stackOne.cards)) && Ids(stackTwo.cards) == Ids(old(stackTwo.cards))
    {
      var x1, y1 := screenWidth * 0.25, screenHeight * 0.8;
      var x2, y2 := screenWidth * 0.75, screenHeight * 0.8;
      var cards1 := SnapCards(stackOne.cards, x1, y1);
      var cards2 := SnapCards(stackTwo.cards, x2, y2);
      stackOne := CardStack(x1, y1, cards1);
      stackTwo := CardStack(x2, y2, cards2);
    }

    /** The resize hook: a relayout at the new window size. */
    method OnResize(screenWidth: real, screenHeight: real)
      modifies this`stackOne, this`stackTwo
      ensures stackOne.x == 0.25 * screenWidth && stackOne.y == 0.8 * screenHeight
      ensures stackTwo.x == 0.75 * screenWidth && stackTwo.y == 0.8 * screenHeight
      ensures |stackOne.cards| == |old(stackOne.cards)| && |stackTwo.cards| == |old(stackTwo.cards)|
      ensures forall i :: 0 <= i < |stackOne.cards| ==>
                stackOne.cards[i] == old(stackOne.cards[i]).(x := stackOne.x, y := SlotY(stackOne.y, i))
      ensures forall i :: 0 <= i < |stackTwo.cards| ==>
                stackTwo.cards[i] == old(stackTwo.cards[i]).(x := stackTwo.x, y := SlotY(stackTwo.y, i))
      ensures LaidOut(stackOne) && LaidOut(stackTwo)
      ensures Ids(stackOne.cards) == Ids(old(stackOne.cards)) && Ids(stackTwo.cards) == Ids(old(stackTwo.cards))
    {
      UpdateStackPositions(screenWidth, screenHeight);
    }
  }
}
