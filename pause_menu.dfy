/** The pause menu (`PauseMenu`): a four-entry menu (continue, new game,
    help, quit) with a blinking arrow cursor, and an eleven-page help viewer
    reached from it.

    Cursor and help page wrap around at both ends. Confirming an entry
    invokes the callback the menu was built with; the model records each
    invocation in `invoked`. The click sound each key plays is not modelled. */
module Pause {
  import opened Common

  /** Entries of the menu (`arrowDest.Length`). */
  const MenuEntries: int := 4
  /** Pages of the help viewer (`helpPages.Length`). */
  const HelpPages: int := 11
  /** Entries of the artifact sprite tables (`artifacts`, `artifactNums`). */
  const ArtifactSprites: int := 6
  /** Frames of the blinking arrow (`RightArrowSource`, `leftArrowSource`). */
  const ArrowFrames: int := 2
  /** Seconds between two blinks of the arrow. */
  const BlinkTime: real := 0.5
  /** The help page that shows the artifacts found so far. */
  const ArtifactPage: int := 2

  datatype PauseState = Paused | Help

  /** The fields of a `PauseMenu`, as a value. */
  datatype Menu = Menu(
    pauseState: PauseState,
    arrowPos: int,
    arrowAnim: int,
    currentHelpPage: int,
    artifactsFound: int,
    animTimer: real,
    quit: Callback,
    newGame: Callback,
    continueGame: Callback,
    invoked: seq<Callback>)

  /** The menu the constructor builds: paused, cursor on "continue", first page. */
  function NewMenu(quit: Callback, newGame: Callback, continueGame: Callback): Menu
  {
    Menu(Paused, 0, 0, 0, 0, 0.0, quit, newGame, continueGame, [])
  }

  function CursorUp(pos: int): int
  {
    if pos - 1 < 0 then MenuEntries - 1 else pos - 1
  }

  function CursorDown(pos: int): int
  {
    if pos + 1 > MenuEntries - 1 then 0 else pos + 1
  }

  function PageRight(page: int): int
  {
    if page + 1 >= HelpPages then 0 else page + 1
  }

  function PageLeft(page: int): int
  {
    if page - 1 < 0 then HelpPages - 1 else page - 1
  }

  /** Confirm in the menu: the entry under the cursor decides. */
  function Confirm(m: Menu): Menu
  {
    match m.arrowPos
    case 0 => m.(invoked := m.invoked + [m.continueGame], pauseState := Paused)
    case 1 => m.(invoked := m.invoked + [m.newGame])
    case 2 => m.(pauseState := Help)
    case 3 => m.(invoked := m.invoked + [m.quit])
    case _ => m
  }

  /** The keys of the menu screen, in the order the source reads them. */
  function MenuKeys(m: Menu, now: set<Key>, last: set<Key>): Menu
  {
    var m := if Pressed(Enter, now, last) || Pressed(Space, now, last) then Confirm(m) else m;
    var m := if Pressed(Up, now, last) then m.(arrowPos := CursorUp(m.arrowPos)) else m;
    if Pressed(Down, now, last) then m.(arrowPos := CursorDown(m.arrowPos)) else m
  }

  /** The keys of the help screen, in the order the source reads them. */
  function HelpKeys(m: Menu, now: set<Key>, last: set<Key>): Menu
  {
    var m := if Pressed(Escape, now, last) then m.(pauseState := Paused) else m;
    var m := if Pressed(Right, now, last) then m.(currentHelpPage := PageRight(m.currentHelpPage)) else m;
    if Pressed(Left, now, last) then m.(currentHelpPage := PageLeft(m.currentHelpPage)) else m
  }

  /** One `Update(deltaTime, keyboardState, lastKeyboardState)`. */
  function UpdateSpec(m: Menu, dt: real, now: set<Key>, last: set<Key>): (r: Menu)
  {
    BlinkSpec(ScreenKeys(m.(animTimer := m.animTimer + dt), now, last))
  }

  /** The keys of the screen being shown. */
  function ScreenKeys(m: Menu, now: set<Key>, last: set<Key>): Menu
  {
    if m.pauseState == Paused then MenuKeys(m, now, last) else HelpKeys(m, now, last)
  }

  /** The arrow blinks and the timer restarts once half a second is reached. */
  function BlinkSpec(m: Menu): Menu
  {
    if m.animTimer >= BlinkTime then m.(arrowAnim := Blink(m.arrowAnim), animTimer := 0.0) else m
  }

  /** The menu's fields stay within the tables `Render` indexes with them. */
  predicate Inv(m: Menu)
  {
    && 0 <= m.arrowPos < MenuEntries
    && 0 <= m.arrowAnim < ArrowFrames
    && 0 <= m.currentHelpPage < HelpPages
    && 0 <= m.artifactsFound < ArtifactSprites
  }

  /** Every index `Render` uses on the screen it draws is inside its table:
      the arrow position and frame on the menu screen; the page, the arrow
      frame and, on the artifact page, the artifact count on the help screen. */
  predicate RenderSafe(m: Menu)
  {
    && 0 <= m.arrowAnim < ArrowFrames
    && (m.pauseState == Paused ==> 0 <= m.arrowPos < MenuEntries)
    && (m.pauseState == Help ==> 0 <= m.currentHelpPage < HelpPages)
    && (m.pauseState == Help && m.currentHelpPage == ArtifactPage ==> 0 <= m.artifactsFound < ArtifactSprites)
  }

  /** On the menu screen, Up and Down move the cursor one entry with
      wrap-around (both in one frame cancel out), confirm dispatches on the
      entry the cursor was on before it moved, and the help page is left alone. */
  lemma MenuScreenUpdate(m: Menu, dt: real, now: set<Key>, last: set<Key>)
    requires m.pauseState == Paused && 0 <= m.arrowPos < MenuEntries
    ensures var r := UpdateSpec(m, dt, now, last);
      var confirm := Pressed(Enter, now, last) || Pressed(Space, now, last);
      && r.arrowPos == (m.arrowPos - Count(Pressed(Up, now, last)) + Count(Pressed(Down, now, last))) % MenuEntries
      && r.currentHelpPage == m.currentHelpPage
      && r.artifactsFound == m.artifactsFound
      && (r.pauseState == Help <==> confirm && m.arrowPos == 2)
      && r.invoked == m.invoked + (if !confirm then []
                                   else if m.arrowPos == 0 then [m.continueGame]
                                   else if m.arrowPos == 1 then [m.newGame]
                                   else if m.arrowPos == 3 then [m.quit]
                                   else [])
  {
    var confirm := Pressed(Enter, now, last) || Pressed(Space, now, last);
    var c := if confirm then Confirm(m) else m;
    assert c.arrowPos == m.arrowPos && c.currentHelpPage == m.currentHelpPage;
    assert c.pauseState == Help <==> confirm && m.arrowPos == 2;
  }

  /** On the help screen, Right and Left turn one page with wrap-around,
      Escape returns to the menu, and neither the cursor nor any callback is
      touched. */
  lemma HelpScreenUpdate(m: Menu, dt: real, now: set<Key>, last: set<Key>)
    requires m.pauseState == Help && 0 <= m.currentHelpPage < HelpPages
    ensures var r := UpdateSpec(m, dt, now, last);
      && r.currentHelpPage ==
         (m.currentHelpPage + Count(Pressed(Right, now, last)) - Count(Pressed(Left, now, last))) % HelpPages
      && r.arrowPos == m.arrowPos
      && r.invoked == m.invoked
      && r.artifactsFound == m.artifactsFound
      && (r.pauseState == Paused <==> Pressed(Escape, now, last))
  {
  }

  /** The arrow blinks exactly when the accumulated time reaches half a
      second, and the timer restarts then. */
  lemma BlinkTick(m: Menu, dt: real, now: set<Key>, last: set<Key>)
    ensures var r := UpdateSpec(m, dt, now, last);
      && (m.animTimer + dt >= BlinkTime ==> r.arrowAnim == Blink(m.arrowAnim) && r.animTimer == 0.0)
      && (m.animTimer + dt < BlinkTime ==> r.arrowAnim == m.arrowAnim && r.animTimer == m.animTimer + dt)
  {
  }

  /** Four presses of Down come back around; Up undoes Down and Left undoes
      Right. */
  lemma CursorCycles(pos: int, page: int)
    requires 0 <= pos < MenuEntries && 0 <= page < HelpPages
    ensures CursorDown(CursorDown(CursorDown(CursorDown(pos)))) == pos
    ensures CursorUp(CursorDown(pos)) == pos && CursorDown(CursorUp(pos)) == pos
    ensures PageLeft(PageRight(page)) == page && PageRight(PageLeft(page)) == page
  {
  }

  lemma NewMenuInv(quit: Callback, newGame: Callback, continueGame: Callback)
    ensures Inv(NewMenu(quit, newGame, continueGame))
  {
  }

  /** `Update` keeps the invariant, and the invariant makes rendering safe. */
  lemma UpdatePreservesInv(m: Menu, dt: real, now: set<Key>, last: set<Key>)
    requires Inv(m)
    ensures Inv(UpdateSpec(m, dt, now, last)) && RenderSafe(UpdateSpec(m, dt, now, last))
  {
    if m.pauseState == Paused {
      MenuScreenUpdate(m, dt, now, last);
    } else {
      HelpScreenUpdate(m, dt, now, last);
    }
  }

  /** `GetArtifacts(n)` keeps the invariant exactly when `n` has a sprite. */
  lemma GetArtifactsInv(m: Menu, n: int)
    requires Inv(m)
    ensures Inv(m.(artifactsFound := n)) <==> 0 <= n < ArtifactSprites
  {
  }

  /** A count stored by `GetArtifacts` and then turning from the page before
      the artifact page with Right: the next frame shows the artifact page,
      and it renders safely exactly when the count has a sprite. */
  lemma ArtifactPageNeedsSprite(m: Menu, n: int, dt: real)
    requires Inv(m) && m.pauseState == Help && m.currentHelpPage == ArtifactPage - 1
    ensures var r := UpdateSpec(m.(artifactsFound := n), dt, {Right}, {});
      && r.pauseState == Help && r.currentHelpPage == ArtifactPage && r.artifactsFound == n
      && (RenderSafe(r) <==> 0 <= n < ArtifactSprites)
  {
    HelpScreenUpdate(m.(artifactsFound := n), dt, {Right}, {});
    BlinkTick(m.(artifactsFound := n), dt, {Right}, {});
  }

  class PauseMenu {
    var pauseState: PauseState
    var arrowPos: int
    var arrowAnim: int
    var currentHelpPage: int
    var artifactsFound: int
    var animTimer: real
    const quit: Callback
    const newGame: Callback
    const continueGame: Callback
    /** The callbacks invoked so far, in order. */
    var invoked: seq<Callback>

    function View(): Menu
      reads this
    {
      Menu(pauseState, arrowPos, arrowAnim, currentHelpPage, artifactsFound, animTimer,
           quit, newGame, continueGame, invoked)
    }

    constructor (quit: Callback, newGame: Callback, continueGame: Callback)
      ensures View() == NewMenu(quit, newGame, continueGame)
    {
      this.quit := quit;
      this.newGame := newGame;
      this.continueGame := continueGame;
      pauseState := Paused;
      arrowPos := 0;
      arrowAnim := 0;
      currentHelpPage := 0;
      artifactsFound := 0;
      animTimer := 0.0;
      invoked := [];
    }

    method GetArtifacts(artifactsFound: int)
      modifies this
      ensures View() == old(View()).(artifactsFound := artifactsFound)
    {
      this.artifactsFound := artifactsFound;
    }

    /** Confirm on the menu screen. */
    method ConfirmEntry()
      modifies this
      ensures View() == Confirm(old(View()))
    {
      if arrowPos == 0 {
        invoked := invoked + [continueGame];
        pauseState := Paused;
      } else if arrowPos == 1 {
        invoked := invoked + [newGame];
      } else if arrowPos == 2 {
        pauseState := Help;
      } else if arrowPos == 3 {
        invoked := invoked + [quit];
      }
    }

    /** The keys of the menu screen. */
    method MenuScreen(keyboardState: set<Key>, lastKeyboardState: set<Key>)
      modifies this
      ensures View() == MenuKeys(old(View()), keyboardState, lastKeyboardState)
    {
      if Pressed(Enter, keyboardState, lastKeyboardState) || Pressed(Space, keyboardState, lastKeyboardState) {
        ConfirmEntry();
      }
      if Pressed(Up, keyboardState, lastKeyboardState) {
        arrowPos := arrowPos - 1;
        if arrowPos < 0 {
          arrowPos := MenuEntries - 1;
        }
      }
      if Pressed(Down, keyboardState, lastKeyboardState) {
        arrowPos := arrowPos + 1;
        if arrowPos > MenuEntries - 1 {
          arrowPos := 0;
        }
      }
    }

    /** The keys of the help screen. */
    method HelpScreen(keyboardState: set<Key>, lastKeyboardState: set<Key>)
      modifies this
      ensures View() == HelpKeys(old(View()), keyboardState, lastKeyboardState)
    {
      if Pressed(Escape, keyboardState, lastKeyboardState) {
        pauseState := Paused;
      }
      if Pressed(Right, keyboardState, lastKeyboardState) {
        currentHelpPage := currentHelpPage + 1;
        if currentHelpPage >= HelpPages {
          currentHelpPage := 0;
        }
      }
      if Pressed(Left, keyboardState, lastKeyboardState) {
        currentHelpPage := currentHelpPage - 1;
        if currentHelpPage < 0 {
          currentHelpPage := HelpPages - 1;
        }
      }
    }

    method Update(deltaTime: real, keyboardState: set<Key>, lastKeyboardState: set<Key>)
      modifies this
      ensures View() == UpdateSpec(old(View()), deltaTime, keyboardState, lastKeyboardState)
    {
      animTimer := animTimer + deltaTime;
      ghost var timed := View();
      Keys(keyboardState, lastKeyboardState);
      ghost var keyed := View();
      BlinkArrow();
      assert View() == BlinkSpec(keyed) && keyed == ScreenKeys(timed, keyboardState, lastKeyboardState);
    }

    /** The keys of the screen being shown. */
    method Keys(keyboardState: set<Key>, lastKeyboardState: set<Key>)
      modifies this
      ensures View() == ScreenKeys(old(View()), keyboardState, lastKeyboardState)
    {
      if pauseState == Paused {
        MenuScreen(keyboardState, lastKeyboardState);
      } else {
        HelpScreen(keyboardState, lastKeyboardState);
      }
    }

    method BlinkArrow()
      modifies this
      ensures View() == BlinkSpec(old(View()))
    {
      if animTimer >= BlinkTime {
        if arrowAnim == 0 {
          arrowAnim := 1;
        } else if arrowAnim == 1 {
          arrowAnim := 0;
        }
        animTimer := 0.0;
      }
    }
  }
}
