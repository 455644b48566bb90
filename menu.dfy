/**
 * The menu screen (src/screens/MenuScreen.ts): three buttons, one per task
 * screen, stacked in a column that is centred horizontally and vertically
 * in the window, 20 pixels apart.
 */
module Menu {
  import opened Common
  import opened Enums
  import opened Components

  /** The vertical space between two buttons. */
  const Spacing: real := 20.0

  /** `heights.reduce((sum, h) => sum + h, 0)`, summed left to right. */
  function TotalHeight(heights: seq<real>): real
    decreases |heights|
  {
    if heights == [] then 0.0
    else TotalHeight(heights[..|heights| - 1]) + heights[|heights| - 1]
  }

  /** Buttons of non-negative height sum to a non-negative total that is at least the height of each one. */
  lemma {:induction false} TotalHeightBounds(heights: seq<real>)
    requires forall i :: 0 <= i < |heights| ==> heights[i] >= 0.0
    ensures TotalHeight(heights) >= 0.0
    ensures forall i :: 0 <= i < |heights| ==> heights[i] <= TotalHeight(heights)
    decreases |heights|
  {
    if heights != [] {
      var n := |heights|;
      var prefix := heights[..n - 1];
      TotalHeightBounds(prefix);
      forall i | 0 <= i < n - 1
        ensures heights[i] <= TotalHeight(heights)
      {
        assert heights[i] == prefix[i];
      }
    }
  }

  /** The y of the first button: what is left of the window height after the buttons and the gaps between them, halved. */
  function StartY(screenHeight: real, heights: seq<real>): real {
    (screenHeight - TotalHeight(heights) - (|heights| as real - 1.0) * Spacing) / 2.0
  }

  /** The y the positioning loop gives button `i`: the start, then every earlier button's height and one spacing each. */
  function ButtonY(screenHeight: real, heights: seq<real>, i: nat): real
    requires i <= |heights|
  {
    StartY(screenHeight, heights) + TotalHeight(heights[..i]) + i as real * Spacing
  }

  /** The heights of the buttons, in order. */
  function HeightsOf(buttons: seq<Button>): seq<real> {
    seq(|buttons|, i requires 0 <= i < |buttons| => buttons[i].height)
  }

  /** The first button sits at the start, and each next button one height and one spacing below the previous. */
  lemma {:induction false} ButtonYStep(screenHeight: real, heights: seq<real>, i: nat)
    requires i < |heights|
    ensures ButtonY(screenHeight, heights, 0) == StartY(screenHeight, heights)
    ensures ButtonY(screenHeight, heights, i + 1) == ButtonY(screenHeight, heights, i) + heights[i] + Spacing
  {
    assert heights[..0] == [];
    assert heights[..i + 1][..i] == heights[..i];
  }

  /** The column is centred: the gap above the first button equals the gap below the last one. */
  lemma CenteredGap(screenHeight: real, heights: seq<real>)
    requires heights != []
    ensures var n := |heights|;
            ButtonY(screenHeight, heights, 0) == screenHeight - (ButtonY(screenHeight, heights, n - 1) + heights[n - 1])
  {
    var n := |heights|;
    ButtonYStep(screenHeight, heights, n - 1);
    assert heights[..n] == heights;
  }

  class MenuScreen {
    /** The buttons of the latest `init`, top to bottom. */
    var buttons: seq<Button>
    /** The screen's child list, which `init` appends to. */
    var children: seq<object>

    constructor ()
      ensures buttons == [] && children == []
    {
      buttons, children := [], [];
    }

    /** Each button is one object: positioning one never moves another. */
    predicate Valid()
      reads this
    {
      Distinct(buttons)
    }

    /** Every button is centred horizontally and at its place in the column. */
    ghost predicate Positioned(screenWidth: real, screenHeight: real)
      reads this, buttons
    {
      var hs := HeightsOf(buttons);
      forall i :: 0 <= i < |buttons| ==> buttons[i].x == screenWidth / 2.0 && buttons[i].y == ButtonY(screenHeight, hs, i)
    }

    /**
     * Builds the three task buttons, appends them to the children (earlier
     * ones stay) and makes them the button list, then positions them.
     * `buttonHeight` is the height the engine gives a button with that title.
     */
    method Init(buttonHeight: string -> real, screenWidth: real, screenHeight: real)
      modifies this
      ensures |buttons| == 3 && fresh(buttons[0]) && fresh(buttons[1]) && fresh(buttons[2])
      ensures buttons[0].title == "Ace of Shadows" && buttons[0].target == AceOfShadows
      ensures buttons[1].title == "Magic Words" && buttons[1].target == MagicWords
      ensures buttons[2].title == "Phoenix Flame" && buttons[2].target == PhoenixFlame
      ensures forall i :: 0 <= i < 3 ==> buttons[i].height == buttonHeight(buttons[i].title)
      ensures children == old(children) + [buttons[0], buttons[1], buttons[2]]
      ensures Valid() && Positioned(screenWidth, screenHeight)
    {
      var task1 := new Button("Ace of Shadows", AceOfShadows, buttonHeight("Ace of Shadows"));
      var task2 := new Button("Magic Words", MagicWords, buttonHeight("Magic Words"));
      var task3 := new Button("Phoenix Flame", PhoenixFlame, buttonHeight("Phoenix Flame"));
      buttons := [task1, task2, task3];
      children := children + [task1, task2, task3];
      PositionButtons(screenWidth, screenHeight);
    }

    /** Places the buttons in the column; nothing but their positions changes. */
    method PositionButtons(screenWidth: real, screenHeight: real)
      requires Valid()
      modifies buttons
      ensures Positioned(screenWidth, screenHeight)
    {
      var total := TotalHeight(HeightsOf(buttons));
      ghost var hs := HeightsOf(buttons);
      assert |hs| == |buttons| && forall j :: 0 <= j < |buttons| ==> hs[j] == buttons[j].height;
      var startY := (screenHeight - total - (|buttons| as real - 1.0) * Spacing) / 2.0;
      var i := 0;
      while i < |buttons|
        invariant 0 <= i <= |buttons|
        invariant startY == ButtonY(screenHeight, hs, i)
        invariant forall j :: 0 <= j < i ==> buttons[j].x == screenWidth / 2.0 && buttons[j].y == ButtonY(screenHeight, hs, j)
      {
        var button := buttons[i];
        ButtonYStep(screenHeight, hs, i);
        button.x := screenWidth / 2.0;
        button.y := startY;
        startY := startY + button.height + Spacing;
        i := i + 1;
      }
    }

    /** In a positioned column each button is one height and one spacing below the previous, and the gaps above and below are equal. */
    lemma PositionedColumn(screenWidth: real, screenHeight: real)
      requires Positioned(screenWidth, screenHeight)
      ensures forall i :: 0 < i < |buttons| ==> buttons[i].y == buttons[i - 1].y + buttons[i - 1].height + Spacing
      ensures buttons != [] ==>
                var last := buttons[|buttons| - 1];
                buttons[0].y == screenHeight - (last.y + last.height)
    {
      var hs := HeightsOf(buttons);
      forall i | 0 < i < |buttons|
        ensures buttons[i].y == buttons[i - 1].y + buttons[i - 1].height + Spacing
      {
        ButtonYStep(screenHeight, hs, i - 1);
      }
      if buttons != [] {
        CenteredGap(screenHeight, hs);
      }
    }

    /** A resize repositions the same buttons; the button list and the children stay as they are. */
    method OnResize(screenWidth: real, screenHeight: real)
      requires Valid()
      modifies buttons
      ensures buttons == old(buttons) && children == old(children)
      ensures Positioned(screenWidth, screenHeight)
    {
      PositionButtons(screenWidth, screenHeight);
    }
  }
}
