/**
 * The two building blocks the screens are made of: the base screen with its
 * three no-op hooks (src/components/Screen.ts) and the menu button
 * (src/components/Button.ts), which is used only as an item with a height,
 * a position and the screen its click selects.
 */
module Components {
  import opened Enums

  /**
   * A screen as the manager sees it. The base hooks do nothing; the ghost
   * counters record how often each hook has been called, so that the
   * manager's contracts can say which screen a call reaches.
   */
  class Screen {
    ghost var initCount: nat
    ghost var updateCount: nat
    ghost var resizeCount: nat

    constructor ()
      ensures initCount == 0 && updateCount == 0 && resizeCount == 0
    {
      initCount, updateCount, resizeCount := 0, 0, 0;
    }

    /** Called on every activation. */
    method Init()
      modifies this
      ensures initCount == old(initCount) + 1
      ensures updateCount == old(updateCount) && resizeCount == old(resizeCount)
    {
      initCount := initCount + 1;
    }

    /** Called once per frame while the screen is active. */
    method Update(deltaTime: real)
      modifies this
      ensures updateCount == old(updateCount) + 1
      ensures initCount == old(initCount) && resizeCount == old(resizeCount)
    {
      updateCount := updateCount + 1;
    }

    /** Called on a window resize while the screen is active. */
    method OnResize()
      modifies this
      ensures resizeCount == old(resizeCount) + 1
      ensures initCount == old(initCount) && updateCount == old(updateCount)
    {
      resizeCount := resizeCount + 1;
    }
  }

  /**
   * A menu button. Its title, its measured height and the screen its click
   * handler selects are fixed at construction; the menu moves it around.
   */
  class Button {
    const title: string
    const target: ScreenName
    const height: real
    var x: real
    var y: real

    constructor (title: string, target: ScreenName, height: real)
      ensures this.title == title && this.target == target && this.height == height
      ensures x == 0.0 && y == 0.0
    {
      this.title, this.target, this.height := title, target, height;
      x, y := 0.0, 0.0;
    }
  }
}
