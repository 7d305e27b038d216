/** The end-of-game screen (`DeathScene`): a headline saying whether the
    player died or won, a two-entry menu (new game, quit) with a blinking
    arrow, and the start of the screen fade that leads into a new game.

    The scene's two callbacks may be null and are checked before use. A new
    game is not begun directly: the scene starts the fade with `newGame` as
    its on-black callback, so the new game is set up while the screen is
    black. Quitting invokes `quit` at once; the model records it in
    `invoked`. The click sounds and the stop of the end-of-game music are
    not modelled. */
module Death {
  import opened Common
  import Fade

  /** Entries of the menu: new game and quit. */
  const MenuEntries: int := 2
  /** Seconds between two blinks of the arrow. */
  const BlinkTime: real := 0.5
  /** Seconds the fade into a new game holds black. */
  const NewGameBlackTime: real := 0.5

  /** Headline sprites. */
  const HeadlineSource: Rect := Rect(6, 64, 64, 18)
  const HeadlineVictorySource: Rect := Rect(6, 192, 64, 18)

  /** The fields of a `DeathScene`, as a value. */
  datatype Scene = Scene(
    arrowPos: int,
    arrowAnim: int,
    didWin: bool,
    animTimer: real,
    quit: Option<Callback>,
    newGame: Option<Callback>,
    invoked: seq<Callback>)

  /** What one update produces: the scene and the fade it may have started. */
  datatype Step = Step(scene: Scene, fade: Fade.Fade)

  function NewScene(quit: Option<Callback>, newGame: Option<Callback>): Scene
  {
    Scene(0, 0, false, 0.0, quit, newGame, [])
  }

  /** Confirm: on "new game" start the fade whose on-black runs `newGame`; on
      "quit" invoke `quit`; a null callback makes confirm do nothing. */
  function Confirm(s: Scene, fade: Fade.Fade): Step
  {
    if s.arrowPos == 0 then
      if s.newGame.Some? then Step(s, Fade.StartSpec(fade, NewGameBlackTime, s.newGame, None))
      else Step(s, fade)
    else if s.arrowPos == 1 then
      if s.quit.Some? then Step(s.(invoked := s.invoked + [s.quit.value]), fade)
      else Step(s, fade)
    else Step(s, fade)
  }

  /** Up or Down swaps the two entries. */
  function Toggle(pos: int): int
  {
    if pos == 0 then 1 else if pos == 1 then 0 else pos
  }

  /** One `Update(deltaTime, keyboardState, lastKeyboardState)`. */
  function UpdateSpec(s: Scene, fade: Fade.Fade, dt: real, now: set<Key>, last: set<Key>): Step
  {
    var s := s.(animTimer := s.animTimer + dt);
    var st := if Pressed(Enter, now, last) || Pressed(Space, now, last) then Confirm(s, fade)
              else Step(s, fade);
    var s := st.scene;
    var s := if Pressed(Up, now, last) || Pressed(Down, now, last) then s.(arrowPos := Toggle(s.arrowPos)) else s;
    var s := if s.animTimer >= BlinkTime then s.(arrowAnim := Blink(s.arrowAnim), animTimer := 0.0) else s;
    Step(s, st.fade)
  }

  /** `SetDeathOrVictory(won)`. */
  function SetDeathOrVictorySpec(s: Scene, won: bool): Scene
  {
    s.(didWin := won)
  }

  /** The headline `Render` draws. */
  function Headline(s: Scene): (r: Rect)
    ensures r == HeadlineVictorySource <==> s.didWin
    ensures r == HeadlineSource <==> !s.didWin
  {
    if s.didWin then HeadlineVictorySource else HeadlineSource
  }

  /** The cursor is on one of the two entries and the arrow frame is one of
      the two `Render` indexes `arrowSource` with. */
  predicate Inv(s: Scene)
  {
    0 <= s.arrowPos < MenuEntries && 0 <= s.arrowAnim < 2
  }

  lemma NewSceneInv(quit: Option<Callback>, newGame: Option<Callback>)
    ensures Inv(NewScene(quit, newGame))
  {
  }

  /** What one update does: confirm acts on the entry the cursor was on
      before Up or Down moved it in the same frame; it either starts the
      new-game fade or invokes `quit`, or, with a null callback, nothing.
      Up or Down then swaps the entry, and the invariant holds again. */
  lemma UpdateBehaviour(s: Scene, fade: Fade.Fade, dt: real, now: set<Key>, last: set<Key>)
    requires Inv(s)
    ensures var st := UpdateSpec(s, fade, dt, now, last);
      var confirm := Pressed(Enter, now, last) || Pressed(Space, now, last);
      var move := Pressed(Up, now, last) || Pressed(Down, now, last);
      && Inv(st.scene)
      && st.scene.arrowPos == (if move then 1 - s.arrowPos else s.arrowPos)
      && (st.fade != fade <==> confirm && s.arrowPos == 0 && s.newGame.Some?)
      && (st.fade != fade ==> st.fade == Fade.StartSpec(fade, NewGameBlackTime, s.newGame, None))
      && (st.scene.invoked != s.invoked <==> confirm && s.arrowPos == 1 && s.quit.Some?)
      && (st.scene.invoked != s.invoked ==> st.scene.invoked == s.invoked + [s.quit.value])
      && st.scene.didWin == s.didWin
  {
    var confirm := Pressed(Enter, now, last) || Pressed(Space, now, last);
    if confirm && s.arrowPos == 0 && s.newGame.Some? {
      var started := Fade.StartSpec(fade, NewGameBlackTime, s.newGame, None);
      assert started.runs == fade.runs + [[]];
      assert started != fade;
    }
    if confirm && s.arrowPos == 1 && s.quit.Some? {
      assert |s.invoked + [s.quit.value]| != |s.invoked|;
    }
  }

  /** The arrow blinks exactly when the accumulated time reaches half a second. */
  lemma BlinkTick(s: Scene, fade: Fade.Fade, dt: real, now: set<Key>, last: set<Key>)
    ensures var r := UpdateSpec(s, fade, dt, now, last).scene;
      && (s.animTimer + dt >= BlinkTime ==> r.arrowAnim == Blink(s.arrowAnim) && r.animTimer == 0.0)
      && (s.animTimer + dt < BlinkTime ==> r.arrowAnim == s.arrowAnim && r.animTimer == s.animTimer + dt)
  {
  }

  /** Setting the outcome decides the headline, whatever it was before. */
  lemma HeadlineFollowsOutcome(s: Scene, won: bool)
    ensures Headline(SetDeathOrVictorySpec(s, won)) == (if won then HeadlineVictorySource else HeadlineSource)
  {
  }

  /** Confirming "new game" runs `newGame` exactly once, while the screen is
      black: given frame times of at least the fade's step and of the black
      time, and no black hold pending, the fade's 24th update invokes it, and
      the fade ends after 50 updates with no further callback. */
  lemma NewGameRunsOnBlack(s: Scene, fade: Fade.Fade, now: set<Key>, last: set<Key>, dt: real)
    requires Inv(s) && s.arrowPos == 0 && s.newGame.Some?
    requires Pressed(Enter, now, last) || Pressed(Space, now, last)
    requires !fade.blackTimeActive && fade.timer >= 0.0
    requires dt >= Fade.TimerEnd && dt >= NewGameBlackTime
    ensures var f := UpdateSpec(s, fade, dt, now, last).fade;
      && Fade.Steps(f, dt, 24).runs == fade.runs + [[Fade.BlackScreen(s.newGame.value)]]
      && !Fade.Steps(f, dt, 50).active
      && Fade.Steps(f, dt, 50).runs == fade.runs + [[Fade.BlackScreen(s.newGame.value)]]
  {
    UpdateBehaviour(s, fade, dt, now, last);
    Fade.FullFade(fade, NewGameBlackTime, s.newGame, None, dt);
    assert Fade.BlackEvents(s.newGame) + Fade.EndEvents(None) == [Fade.BlackScreen(s.newGame.value)];
  }

  class DeathScene {
    var arrowPos: int
    var arrowAnim: int
    var didWin: bool
    var animTimer: real
    const quit: Option<Callback>
    const newGame: Option<Callback>
    /** The callbacks invoked directly by the scene so far, in order. */
    var invoked: seq<Callback>
    /** The game's one screen fade. */
    const fade: Fade.FadeScreen

    function View(): Scene
      reads this
    {
      Scene(arrowPos, arrowAnim, didWin, animTimer, quit, newGame, invoked)
    }

    constructor (quit: Option<Callback>, newGame: Option<Callback>, fade: Fade.FadeScreen)
      ensures View() == NewScene(quit, newGame) && this.fade == fade
    {
      this.quit := quit;
      this.newGame := newGame;
      this.fade := fade;
      arrowPos := 0;
      arrowAnim := 0;
      didWin := false;
      animTimer := 0.0;
      invoked := [];
    }

    method SetDeathOrVictory(won: bool := false)
      modifies this
      ensures View() == SetDeathOrVictorySpec(old(View()), won)
    {
      didWin := won;
    }

    method Update(deltaTime: real, keyboardState: set<Key>, lastKeyboardState: set<Key>)
      modifies this, fade
      ensures Step(View(), fade.View()) ==
              UpdateSpec(old(View()), old(fade.View()), deltaTime, keyboardState, lastKeyboardState)
      ensures fade.spriteRects == old(fade.spriteRects)
    {
      animTimer := animTimer + deltaTime;
      if Pressed(Enter, keyboardState, lastKeyboardState) || Pressed(Space, keyboardState, lastKeyboardState) {
        if arrowPos == 0 {
          if newGame.Some? {
            fade.StartFadeScreen(NewGameBlackTime, newGame);
          }
        } else if arrowPos == 1 {
          if quit.Some? {
            invoked := invoked + [quit.value];
          }
        }
      }
      if Pressed(Up, keyboardState, lastKeyboardState) || Pressed(Down, keyboardState, lastKeyboardState) {
        if arrowPos == 0 {
          arrowPos := 1;
        } else if arrowPos == 1 {
          arrowPos := 0;
        }
      }
      if animTimer >= BlinkTime {
        if arrowAnim == 0 {
          arrowAnim := 1;
        } else if arrowAnim == 1 {
          arrowAnim := 0;
        }
        animTimer := 0.0;
      }
    }

    /** The headline drawn: the victory sprite exactly when the player won. */
    method RenderHeadline() returns (source: Rect)
      ensures source == HeadlineVictorySource <==> didWin
      ensures source == Headline(View())
    {
      if didWin {
        source := HeadlineVictorySource;
      } else {
        source := HeadlineSource;
      }
    }
  }
}
