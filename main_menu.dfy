/** The title screen (`MainMenu`): a background that scrolls up one pixel per
    background tick once Space is pressed, carrying the player sprite down
    and the logo down twice as fast, until the background reaches its top;
    then the player plays a "smash" animation whose end switches the game to
    the gameplay scene.

    The player sprite (the nested `Player` struct) plays animations from a
    dictionary loaded from an XML file. The `Animation` class of Game1.cs
    has only the fields `name`, `animationFrames`, `looping`, `rects` and
    `endOfAnimationAction` and an empty constructor; the `StartAnimation`,
    `GetNextFrame` and three-argument constructor the title screen calls
    have no code in this revision. `Anim` below gives them the cursor
    semantics the title screen relies on: `StartAnimation` rewinds to the
    first frame, `GetNextFrame` yields the frames in order (a looping
    animation starts over), and an animation that is used up yields
    `Rectangle.Empty` and runs its end action. `Anim` is a value, so the
    dictionary's entry is never changed through `currentAnim`. */
module Title {
  import opened Common

  /** Seconds between two background ticks. */
  const BackgroundTickTime: real := 0.088
  /** Frame time of the player animation, and the faster one of the smash. */
  const NormalFrameTime: real := 0.166
  const SmashFrameTime: real := 0.088

  /** Initial vertical positions: background source, player, logo. */
  const InitialBackgroundY: int := 34
  const InitialPlayerY: int := 1
  const InitialLogoY: int := 26

  /** The only end action the title screen attaches: the lambda given to the
      "smash" animation. */
  datatype EndAction = SmashEnd

  /** An animation and its cursor: `next` is the frame `GetNextFrame` yields next. */
  datatype Anim = Anim(looping: bool, rects: seq<Rect>, next: nat, endAction: Option<EndAction>)

  /** What `GetNextFrame` yields: the frame, the advanced animation, and the
      end action it ran, if any. */
  datatype Frame = Frame(rect: Rect, anim: Anim, fired: Option<EndAction>)

  function StartAnimation(a: Anim): (r: Anim)
    ensures r.next == 0 && r.rects == a.rects && r.looping == a.looping && r.endAction == a.endAction
  {
    a.(next := 0)
  }

  /** A used-up animation yields the empty rectangle. */
  predicate UsedUp(a: Anim)
  {
    a.next >= |a.rects| && (!a.looping || |a.rects| == 0)
  }

  function GetNextFrame(a: Anim): (f: Frame)
    ensures UsedUp(a) ==> f.rect == EmptyRect && f.anim == a && f.fired == a.endAction
    ensures !UsedUp(a) ==> && f.fired.None? && f.rect in a.rects && f.anim.rects == a.rects
                           && f.anim.looping == a.looping && f.anim.endAction == a.endAction
  {
    if a.next < |a.rects| then Frame(a.rects[a.next], a.(next := a.next + 1), None)
    else if a.looping && |a.rects| > 0 then Frame(a.rects[0], a.(next := 1), None)
    else Frame(EmptyRect, a, a.endAction)
  }

  /** The title screen's fields as a value. The player's X stays at 27;
      `gameScene` is the game's scene variable the smash end sets, and
      `contentLoaded` is cleared by `UnloadContent`. */
  datatype Menu = Menu(
    backgroundY: int,
    playerY: int,
    logoY: int,
    moveBackground: bool,
    triggerPlayerSmash: bool,
    backgroundTimer: real,
    frameTimer: real,
    frameTime: real,
    spriteRect: Rect,
    currentAnim: Anim,
    animations: map<string, Anim>,
    gameScene: GameScene,
    contentLoaded: bool)

  /** `Player.TriggerAnimation(name, endAction)`: start the named animation
      with the given end action; an unknown name changes nothing. */
  function TriggerAnimation(m: Menu, name: string, endAction: Option<EndAction>): (r: Menu)
    ensures name !in m.animations ==> r == m
    ensures name in m.animations ==>
      r == m.(currentAnim := StartAnimation(m.animations[name]).(endAction := endAction))
  {
    if name in m.animations then
      m.(currentAnim := StartAnimation(m.animations[name]).(endAction := endAction))
    else m
  }

  /** The smash animation's end action. */
  function SmashEndSpec(m: Menu): (r: Menu)
    ensures r.gameScene == GameplayScene && !r.contentLoaded && r.frameTime == NormalFrameTime
    ensures r.backgroundY == m.backgroundY && r.playerY == m.playerY && r.logoY == m.logoY
    ensures r.moveBackground == m.moveBackground && r.triggerPlayerSmash == m.triggerPlayerSmash
  {
    TriggerAnimation(m.(frameTime := NormalFrameTime), "idle2", None)
      .(gameScene := GameplayScene, contentLoaded := false)
  }

  function Fire(m: Menu, fired: Option<EndAction>): (r: Menu)
    ensures Unmoved(m, r) && r.backgroundTimer == m.backgroundTimer && r.frameTimer == m.frameTimer
    ensures fired.None? ==> r == m
  {
    if fired == Some(SmashEnd) then SmashEndSpec(m) else m
  }

  /** `Player.UpdateAnimation`: show the current animation's next frame; if
      it is used up, restart "idle" and show its first frame instead. An end
      action runs inside `GetNextFrame`, before the frame is stored. */
  function UpdateAnimation(m: Menu): (r: Menu)
    requires "idle" in m.animations
    ensures Unmoved(m, r) && r.backgroundTimer == m.backgroundTimer && r.frameTimer == m.frameTimer
    ensures NoEndActions(m) ==> && NoEndActions(r) && r.frameTime == m.frameTime
                                && r.gameScene == m.gameScene && r.contentLoaded == m.contentLoaded
  {
    var f := GetNextFrame(m.currentAnim);
    var shown := Fire(m.(currentAnim := f.anim), f.fired).(spriteRect := f.rect);
    if shown.spriteRect == EmptyRect then RestartIdle(shown) else shown
  }

  /** The fallback of `UpdateAnimation`: "idle" from its first frame. */
  function RestartIdle(m: Menu): (r: Menu)
    requires "idle" in m.animations
    ensures Unmoved(m, r) && r.backgroundTimer == m.backgroundTimer && r.frameTimer == m.frameTimer
    ensures NoEndActions(m) ==> && NoEndActions(r) && r.frameTime == m.frameTime
                                && r.gameScene == m.gameScene && r.contentLoaded == m.contentLoaded
  {
    var g := GetNextFrame(StartAnimation(m.animations["idle"]));
    Fire(m.(currentAnim := g.anim), g.fired).(spriteRect := g.rect)
  }

  /** The player the title screen builds: "idle" started and one frame shown. */
  function NewMenu(animations: map<string, Anim>): Menu
    requires "idle" in animations
  {
    UpdateAnimation(Unstarted(animations))
  }

  /** The title screen's fields before the player's first frame. */
  function Unstarted(animations: map<string, Anim>): Menu
    requires "idle" in animations
  {
    Menu(InitialBackgroundY, InitialPlayerY, InitialLogoY, false, false, 0.0, 0.0,
         NormalFrameTime, EmptyRect, StartAnimation(animations["idle"]), animations,
         MainMenuScene, true)
  }

  /** The first half of a background tick: an armed smash starts the "smash"
      animation with its end action and is disarmed. */
  function SmashIfArmed(m: Menu): Menu
  {
    if m.triggerPlayerSmash then
      TriggerAnimation(m, "smash", Some(SmashEnd)).(triggerPlayerSmash := false)
    else m
  }

  /** The second half: a moving background scrolls or, at the top, stops and
      arms the smash. */
  function ScrollStep(m: Menu): (r: Menu)
    ensures ScrollInv(m) ==> ScrollInv(r)
    ensures r.animations == m.animations && r.currentAnim == m.currentAnim
  {
    if !m.moveBackground then m
    else if m.backgroundY > 0 then
      m.(backgroundY := m.backgroundY - 1, playerY := m.playerY + 1, logoY := m.logoY + 2)
    else
      m.(moveBackground := false, triggerPlayerSmash := true, frameTime := SmashFrameTime)
  }

  /** One background tick. */
  function BackgroundTick(m: Menu): Menu
  {
    ScrollStep(SmashIfArmed(m)).(backgroundTimer := 0.0)
  }

  function Elapse(m: Menu, dt: real): Menu
  {
    m.(frameTimer := m.frameTimer + dt, backgroundTimer := m.backgroundTimer + dt)
  }

  function ReadSpace(m: Menu, now: set<Key>, last: set<Key>): Menu
  {
    if Pressed(Space, now, last) then m.(moveBackground := true) else m
  }

  function BackgroundIfDue(m: Menu): Menu
  {
    if m.backgroundTimer >= BackgroundTickTime then BackgroundTick(m) else m
  }

  function AnimationIfDue(m: Menu): (r: Menu)
    requires "idle" in m.animations
    ensures Unmoved(m, r) && r.backgroundTimer == m.backgroundTimer
    ensures NoEndActions(m) ==> && NoEndActions(r) && r.frameTime == m.frameTime
                                && r.gameScene == m.gameScene && r.contentLoaded == m.contentLoaded
    ensures m.frameTimer >= m.frameTime ==> r.frameTimer == 0.0
  {
    if m.frameTimer >= m.frameTime then UpdateAnimation(m).(frameTimer := 0.0) else m
  }

  /** One `Update(deltaTime, keyboardState, lastKeyboardState)`. */
  function UpdateSpec(m: Menu, dt: real, now: set<Key>, last: set<Key>): Menu
    requires "idle" in m.animations
  {
    AnimationIfDue(BackgroundIfDue(ReadSpace(Elapse(m, dt), now, last)))
  }

  /** The scroll, its flags and the animation dictionary are as they were. */
  predicate Unmoved(m: Menu, r: Menu)
  {
    && r.backgroundY == m.backgroundY && r.playerY == m.playerY && r.logoY == m.logoY
    && r.moveBackground == m.moveBackground && r.triggerPlayerSmash == m.triggerPlayerSmash
    && r.animations == m.animations
  }

  /** The three scrolling coordinates move in lockstep: the background's
      source Y never goes negative, the player's Y and the background's add
      up to 35, and the logo's Y plus twice the background's is 94. */
  predicate ScrollInv(m: Menu)
  {
    && m.backgroundY >= 0
    && m.backgroundY + m.playerY == InitialBackgroundY + InitialPlayerY
    && m.logoY + 2 * m.backgroundY == InitialLogoY + 2 * InitialBackgroundY
  }

  /** Nothing but the title screen's own trigger attaches an end action. */
  predicate NoEndActions(m: Menu)
  {
    && m.currentAnim.endAction.None?
    && (forall name :: name in m.animations ==> m.animations[name].endAction.None?)
  }

  /** The title screen's animations: "idle" is there and every one has
      frames; the dictionary itself never changes. */
  predicate AnimsReady(m: Menu)
  {
    && "idle" in m.animations
    && (forall name :: name in m.animations ==> |m.animations[name].rects| > 0)
    && (forall name, i :: name in m.animations && 0 <= i < |m.animations[name].rects| ==>
          m.animations[name].rects[i] != EmptyRect)
  }

  /** `UpdateAnimation` shows the next frame of an animation that is not
      used up, and falls back to restarting "idle" when it is. */
  lemma UpdateAnimationFallback(m: Menu)
    requires AnimsReady(m) && m.currentAnim.endAction.None?
    ensures var r := UpdateAnimation(m);
      var idle := m.animations["idle"];
      && (UsedUp(m.currentAnim) ==>
            r.currentAnim == idle.(next := 1) && r.spriteRect == idle.rects[0])
      && (!UsedUp(m.currentAnim) && m.currentAnim.next < |m.currentAnim.rects|
          && m.currentAnim.rects[m.currentAnim.next] != EmptyRect ==>
            r.currentAnim == m.currentAnim.(next := m.currentAnim.next + 1)
            && r.spriteRect == m.currentAnim.rects[m.currentAnim.next])
  {
  }

  /** Update keeps the scroll in lockstep whatever the keys and timings. */
  lemma UpdateKeepsScroll(m: Menu, dt: real, now: set<Key>, last: set<Key>)
    requires "idle" in m.animations && ScrollInv(m)
    ensures ScrollInv(UpdateSpec(m, dt, now, last))
  {
    var m2 := ReadSpace(Elapse(m, dt), now, last);
    assert ScrollInv(m2);
    if m2.backgroundTimer >= BackgroundTickTime {
      assert ScrollInv(SmashIfArmed(m2));
    }
  }

  /** What one background tick does: a pending smash starts the "smash"
      animation with its end action and is cleared; a moving background
      scrolls one step while it can, and at the top stops, arms the smash
      and shortens the frame time. */
  lemma BackgroundTickEffect(m: Menu)
    ensures var r := BackgroundTick(m);
      && r.backgroundTimer == 0.0
      && (m.triggerPlayerSmash && "smash" in m.animations ==>
            r.currentAnim == StartAnimation(m.animations["smash"]).(endAction := Some(SmashEnd)))
      && (m.triggerPlayerSmash && "smash" !in m.animations ==> r.currentAnim == m.currentAnim)
      && (!(m.moveBackground && m.backgroundY <= 0) ==> !r.triggerPlayerSmash)
      && (m.moveBackground && m.backgroundY > 0 ==>
            && r.moveBackground && r.backgroundY == m.backgroundY - 1
            && r.playerY == m.playerY + 1 && r.logoY == m.logoY + 2)
      && (m.moveBackground && m.backgroundY <= 0 ==>
            && !r.moveBackground && r.triggerPlayerSmash && r.frameTime == SmashFrameTime
            && r.backgroundY == m.backgroundY)
      && (!m.moveBackground ==> !r.moveBackground && r.backgroundY == m.backgroundY)
  {
  }

  /** A newly pressed Space starts the scroll, unless the same update's
      background tick finds the background already at the top. */
  lemma SpaceStartsScroll(m: Menu, dt: real, now: set<Key>, last: set<Key>)
    requires "idle" in m.animations && Pressed(Space, now, last)
    requires m.backgroundY > 0
    ensures UpdateSpec(m, dt, now, last).moveBackground
  {
    var m3 := BackgroundIfDue(ReadSpace(Elapse(m, dt), now, last));
    assert m3.moveBackground;
  }

  lemma UpdateAnimationKeepsDict(m: Menu, dt: real)
    requires "idle" in m.animations
    ensures UpdateSpec(m, dt, {}, {}).animations == m.animations
  {
  }

  /** `n` updates with the same frame time and no key pressed. */
  function Ticks(m: Menu, dt: real, n: nat): (r: Menu)
    requires "idle" in m.animations
    ensures r.animations == m.animations
    decreases n
  {
    if n == 0 then m
    else
      UpdateAnimationKeepsDict(m, dt);
      Ticks(UpdateSpec(m, dt, {}, {}), dt, n - 1)
  }

  lemma {:induction false} TicksAdd(m: Menu, dt: real, a: nat, b: nat)
    requires "idle" in m.animations
    ensures Ticks(m, dt, a + b) == Ticks(Ticks(m, dt, a), dt, b)
    decreases a
  {
    if a > 0 {
      UpdateAnimationKeepsDict(m, dt);
      TicksAdd(UpdateSpec(m, dt, {}, {}), dt, a - 1, b);
    }
  }

  /** A newly pressed Space only sets `moveBackground` before the rest of the update. */
  lemma SpaceOnly(m: Menu, dt: real)
    requires "idle" in m.animations
    ensures UpdateSpec(m, dt, {Space}, {}) == UpdateSpec(m.(moveBackground := true), dt, {}, {})
  {
    assert ReadSpace(Elapse(m, dt), {Space}, {}) == ReadSpace(Elapse(m.(moveBackground := true), dt), {}, {});
  }

  /** With no end action pending and updates at least as long as both tick
      times, every update is a background tick and an animation tick. */
  lemma ScrollUpdate(m: Menu, dt: real)
    requires AnimsReady(m) && NoEndActions(m) && ScrollInv(m)
    requires m.backgroundTimer >= 0.0 && m.frameTimer >= 0.0
    requires dt >= NormalFrameTime && m.frameTime <= NormalFrameTime
    ensures var r := UpdateSpec(m, dt, {}, {});
      && AnimsReady(r) && ScrollInv(r) && r.animations == m.animations
      && r.backgroundTimer == 0.0 && r.frameTimer == 0.0
      && r.gameScene == m.gameScene && r.contentLoaded == m.contentLoaded
      && (m.moveBackground && m.backgroundY > 0 && !m.triggerPlayerSmash ==>
            && r.backgroundY == m.backgroundY - 1 && r.moveBackground && !r.triggerPlayerSmash
            && r.frameTime == m.frameTime && NoEndActions(r))
      && (m.moveBackground && m.backgroundY == 0 && !m.triggerPlayerSmash ==>
            && !r.moveBackground && r.triggerPlayerSmash && r.frameTime == SmashFrameTime
            && NoEndActions(r))
  {
    var m1 := Elapse(m, dt);
    assert ReadSpace(m1, {}, {}) == m1;
    BackgroundTickEffect(m1);
    var m3 := BackgroundTick(m1);
    assert BackgroundIfDue(m1) == m3;
    if m.moveBackground && !m.triggerPlayerSmash {
      assert m3.currentAnim == m.currentAnim;
      assert NoEndActions(m3);
    }
    assert UpdateSpec(m, dt, {}, {}) == AnimationIfDue(m3);
  }

  /** While the background can still scroll, `n` updates scroll it `n` steps. */
  lemma {:induction false} ScrollTicks(m: Menu, dt: real, n: nat)
    requires AnimsReady(m) && NoEndActions(m) && ScrollInv(m)
    requires m.moveBackground && !m.triggerPlayerSmash && m.backgroundY >= n
    requires m.backgroundTimer >= 0.0 && m.frameTimer >= 0.0
    requires dt >= NormalFrameTime && m.frameTime == NormalFrameTime
    ensures var r := Ticks(m, dt, n);
      && AnimsReady(r) && NoEndActions(r) && ScrollInv(r) && r.animations == m.animations
      && r.moveBackground && !r.triggerPlayerSmash && r.backgroundY == m.backgroundY - n
      && r.frameTime == NormalFrameTime && r.backgroundTimer >= 0.0 && r.frameTimer >= 0.0
      && r.gameScene == m.gameScene && r.contentLoaded == m.contentLoaded
    decreases n
  {
    if n > 0 {
      ScrollUpdate(m, dt);
      ScrollTicks(UpdateSpec(m, dt, {}, {}), dt, n - 1);
    }
  }

  /** The update after the smash was armed starts the "smash" animation
      with its end action and shows its first frame. */
  lemma SmashStartUpdate(m: Menu, dt: real)
    requires AnimsReady(m) && "smash" in m.animations && m.currentAnim.endAction.None?
    requires m.triggerPlayerSmash && !m.moveBackground
    requires m.backgroundTimer >= 0.0 && m.frameTimer >= 0.0
    requires dt >= NormalFrameTime && m.frameTime <= NormalFrameTime
    ensures var r := UpdateSpec(m, dt, {}, {});
      && !r.triggerPlayerSmash && !r.moveBackground
      && r.currentAnim == m.animations["smash"].(next := 1, endAction := Some(SmashEnd))
      && r.spriteRect == m.animations["smash"].rects[0]
      && r.gameScene == m.gameScene
  {
    var m1 := Elapse(m, dt);
    assert ReadSpace(m1, {}, {}) == m1;
    BackgroundTickEffect(m1);
    var m3 := BackgroundTick(m1);
    assert BackgroundIfDue(m1) == m3;
    var smash := m.animations["smash"];
    assert smash.rects[0] != EmptyRect;
    assert m3.currentAnim == smash.(next := 0, endAction := Some(SmashEnd));
  }

  /** The animations the XML file provides, as the intro needs them: "idle"
      and "smash" exist, every animation has frames, none is empty, and
      none carries an end action yet. */
  predicate IntroAnimations(animations: map<string, Anim>)
  {
    && "idle" in animations && "smash" in animations
    && (forall name :: name in animations ==> |animations[name].rects| > 0 && animations[name].endAction.None?)
    && (forall name, i :: name in animations && 0 <= i < |animations[name].rects| ==>
          animations[name].rects[i] != EmptyRect)
  }

  /** The first update, with Space newly pressed, scrolls one step. */
  lemma IntroFirstUpdate(animations: map<string, Anim>, dt: real)
    requires IntroAnimations(animations) && dt >= NormalFrameTime
    ensures var first := UpdateSpec(NewMenu(animations), dt, {Space}, {});
      && AnimsReady(first) && NoEndActions(first) && ScrollInv(first) && first.animations == animations
      && first.moveBackground && !first.triggerPlayerSmash && first.backgroundY == 33
      && first.frameTime == NormalFrameTime && first.backgroundTimer >= 0.0 && first.frameTimer >= 0.0
      && first.gameScene == MainMenuScene
  {
    var m0 := NewMenu(animations);
    assert NoEndActions(Unstarted(animations));
    assert AnimsReady(m0) && NoEndActions(m0) && ScrollInv(m0);
    SpaceOnly(m0, dt);
    ScrollUpdate(m0.(moveBackground := true), dt);
  }

  /** One more tick is one more update. */
  lemma TicksNext(m: Menu, dt: real, n: nat)
    requires "idle" in m.animations
    ensures Ticks(m, dt, n + 1) == UpdateSpec(Ticks(m, dt, n), dt, {}, {})
  {
    TicksAdd(m, dt, n, 1);
  }

  /** From a scrolling state `k` steps from the top, `k` updates reach the
      top, the next arms the smash and the one after starts it. */
  lemma IntroRest(first: Menu, dt: real, k: nat)
    requires AnimsReady(first) && NoEndActions(first) && ScrollInv(first) && "smash" in first.animations
    requires first.moveBackground && !first.triggerPlayerSmash && first.backgroundY == k
    requires first.frameTime == NormalFrameTime && first.backgroundTimer >= 0.0 && first.frameTimer >= 0.0
    requires dt >= NormalFrameTime
    ensures && Ticks(first, dt, k).backgroundY == 0
            && Ticks(first, dt, k).playerY == first.playerY + k && Ticks(first, dt, k).logoY == first.logoY + 2 * k
            && Ticks(first, dt, k + 1).triggerPlayerSmash && !Ticks(first, dt, k + 1).moveBackground
            && !Ticks(first, dt, k + 2).triggerPlayerSmash
            && Ticks(first, dt, k + 2).currentAnim == first.animations["smash"].(next := 1, endAction := Some(SmashEnd))
            && Ticks(first, dt, k + 2).gameScene == first.gameScene
  {
    ScrollTicks(first, dt, k);
    var tk := Ticks(first, dt, k);
    ScrollUpdate(tk, dt);
    TicksNext(first, dt, k);
    var t1 := Ticks(first, dt, k + 1);
    assert t1 == UpdateSpec(tk, dt, {}, {});
    SmashStartUpdate(t1, dt);
    TicksNext(first, dt, k + 1);
  }

  /** The intro: Space pressed on the first update, then nothing pressed,
      with updates at least as long as both tick times. The background
      reaches the top after 34 updates (player at 35, logo at 94), the 35th
      arms the smash and the 36th starts the "smash" animation with its end
      action, while the scene is still the title screen. */
  lemma IntroSequence(animations: map<string, Anim>, dt: real)
    requires IntroAnimations(animations) && dt >= NormalFrameTime
    ensures var first := UpdateSpec(NewMenu(animations), dt, {Space}, {});
      && "idle" in first.animations
      && Ticks(first, dt, 33).backgroundY == 0
      && Ticks(first, dt, 33).playerY == 35 && Ticks(first, dt, 33).logoY == 94
      && Ticks(first, dt, 34).triggerPlayerSmash && !Ticks(first, dt, 34).moveBackground
      && !Ticks(first, dt, 35).triggerPlayerSmash
      && Ticks(first, dt, 35).currentAnim.endAction == Some(SmashEnd)
      && Ticks(first, dt, 35).currentAnim.rects == animations["smash"].rects
      && Ticks(first, dt, 35).gameScene == MainMenuScene
  {
    IntroFirstUpdate(animations, dt);
    IntroRest(UpdateSpec(NewMenu(animations), dt, {Space}, {}), dt, 33);
  }

  /** The title screen just constructed: the field initialisers, with the
      player not yet built (no animations, an empty sprite). */
  function Constructed(gameScene: GameScene): Menu
  {
    Menu(0, 0, InitialLogoY, false, false, 0.0, 0.0, NormalFrameTime, EmptyRect,
         Anim(false, [], 0, None), map[], gameScene, false)
  }

  /** `Initialize`: the texture is loaded, the background source is put at
      its start, and the player is built at Y 1 with the loaded animations.
      Timers, flags and the logo keep what they had. */
  function InitializeSpec(m: Menu, animations: map<string, Anim>): (r: Menu)
    requires "idle" in animations
    ensures r.animations == animations
    ensures (forall name :: name in animations ==> animations[name].endAction.None?) ==>
              r.contentLoaded && r.gameScene == m.gameScene
    ensures r.backgroundY == InitialBackgroundY && r.playerY == InitialPlayerY && r.logoY == m.logoY
    ensures r.moveBackground == m.moveBackground && r.triggerPlayerSmash == m.triggerPlayerSmash
  {
    UpdateAnimation(m.(backgroundY := InitialBackgroundY, playerY := InitialPlayerY, spriteRect := EmptyRect,
                       currentAnim := StartAnimation(animations["idle"]), animations := animations,
                       contentLoaded := true))
  }

  /** Constructing the title screen and initialising it once gives the
      title screen the intro starts from, in the scroll's lockstep. */
  lemma InitializeFromConstructed(animations: map<string, Anim>)
    requires "idle" in animations
    ensures InitializeSpec(Constructed(MainMenuScene), animations) == NewMenu(animations)
    ensures ScrollInv(NewMenu(animations))
  {
    var u := Unstarted(animations);
    var c := Constructed(MainMenuScene);
    var pre := c.(backgroundY := InitialBackgroundY, playerY := InitialPlayerY, spriteRect := EmptyRect,
                  currentAnim := StartAnimation(animations["idle"]), animations := animations,
                  contentLoaded := true);
    assert pre == u;
    assert ScrollInv(u);
  }

  /** When the smash runs out, its end action switches the game to the
      gameplay scene, unloads the title's content and restores the normal
      frame time. The "idle2" it starts does not survive the update: the
      used-up smash also yields the empty rectangle, so `UpdateAnimation`
      restarts "idle" and shows its first frame. */
  lemma SmashEndShowsIdle(m: Menu)
    requires AnimsReady(m) && "idle2" in m.animations
    requires UsedUp(m.currentAnim) && m.currentAnim.endAction == Some(SmashEnd)
    ensures var r := UpdateAnimation(m);
      && r.gameScene == GameplayScene && !r.contentLoaded && r.frameTime == NormalFrameTime
      && r.currentAnim == m.animations["idle"].(next := 1)
      && r.spriteRect == m.animations["idle"].rects[0]
      && Unmoved(m, r)
  {
    var f := GetNextFrame(m.currentAnim);
    var shown := Fire(m.(currentAnim := f.anim), f.fired).(spriteRect := f.rect);
    assert shown.spriteRect == EmptyRect;
    assert shown.gameScene == GameplayScene && !shown.contentLoaded && shown.frameTime == NormalFrameTime;
    var idle := m.animations["idle"];
    assert idle.rects[0] != EmptyRect;
  }

  class MainMenu {
    /** `backgroundSource.Y`, `player.position.Y` and `logoDest.Y`. */
    var backgroundY: int
    var playerY: int
    var logoY: int
    var moveBackground: bool
    var triggerPlayerSmash: bool
    var animationBackgroundTimer: real
    var animationFrameTimer: real
    var animationFrameTime: real
    /** The nested player's sprite, animation cursor and dictionary. */
    var spriteRect: Rect
    var currentAnim: Anim
    var animations: map<string, Anim>
    /** The game's scene variable, which the smash end sets. */
    var gameScene: GameScene
    /** Whether the title texture is loaded. */
    var contentLoaded: bool

    function View(): Menu
      reads this
    {
      Menu(backgroundY, playerY, logoY, moveBackground, triggerPlayerSmash,
           animationBackgroundTimer, animationFrameTimer, animationFrameTime,
           spriteRect, currentAnim, animations, gameScene, contentLoaded)
    }

    constructor (gameScene: GameScene)
      ensures View() == Constructed(gameScene)
    {
      backgroundY := 0;
      playerY := 0;
      logoY := InitialLogoY;
      moveBackground := false;
      triggerPlayerSmash := false;
      animationBackgroundTimer := 0.0;
      animationFrameTimer := 0.0;
      animationFrameTime := NormalFrameTime;
      spriteRect := EmptyRect;
      currentAnim := Anim(false, [], 0, None);
      animations := map[];
      this.gameScene := gameScene;
      contentLoaded := false;
    }

    /** The animations are what the XML file yields; the player is built
      with them, which fails unless "idle" is among them. */
    method Initialize(animations: map<string, Anim>)
      requires "idle" in animations
      modifies this
      ensures View() == InitializeSpec(old(View()), animations)
    {
      contentLoaded := true;
      backgroundY := InitialBackgroundY;
      playerY := InitialPlayerY;
      spriteRect := EmptyRect;
      this.animations := animations;
      currentAnim := StartAnimation(animations["idle"]);
      assert View() == old(View()).(backgroundY := InitialBackgroundY, playerY := InitialPlayerY,
        spriteRect := EmptyRect, currentAnim := StartAnimation(animations["idle"]), animations := animations,
        contentLoaded := true);
      PlayerUpdateAnimation();
    }

    method PlayerTriggerAnimation(name: string, endAction: Option<EndAction>)
      modifies this
      ensures View() == TriggerAnimation(old(View()), name, endAction)
    {
      if name in animations {
        currentAnim := StartAnimation(animations[name]);
        currentAnim := currentAnim.(endAction := endAction);
      }
    }

    /** The lambda the smash is triggered with. */
    method SmashEndAction()
      modifies this
      ensures View() == SmashEndSpec(old(View()))
    {
      animationFrameTime := NormalFrameTime;
      PlayerTriggerAnimation("idle2", None);
      gameScene := GameplayScene;
      contentLoaded := false;
    }

    /** Advance the cursor, run the end action it yields, if any, and return the frame. */
    method NextFrame() returns (rect: Rect)
      modifies this
      ensures var f := GetNextFrame(old(currentAnim));
              rect == f.rect && View() == Fire(old(View()).(currentAnim := f.anim), f.fired)
    {
      var f := GetNextFrame(currentAnim);
      currentAnim := f.anim;
      if f.fired == Some(SmashEnd) {
        SmashEndAction();
      }
      rect := f.rect;
    }

    method PlayerUpdateAnimation()
      requires "idle" in animations
      modifies this
      ensures View() == UpdateAnimation(old(View()))
    {
      spriteRect := NextFrame();
      if spriteRect == EmptyRect {
        currentAnim := StartAnimation(animations["idle"]);
        spriteRect := NextFrame();
      }
    }

    method Update(deltaTime: real, keyboardState: set<Key>, lastKeyboardState: set<Key>)
      requires "idle" in animations
      modifies this
      ensures View() == UpdateSpec(old(View()), deltaTime, keyboardState, lastKeyboardState)
    {
      animationFrameTimer := animationFrameTimer + deltaTime;
      animationBackgroundTimer := animationBackgroundTimer + deltaTime;
      ghost var elapsed := View();
      assert elapsed == Elapse(old(View()), deltaTime);

      if Pressed(Space, keyboardState, lastKeyboardState) {
        moveBackground := true;
      }
      ghost var read := View();
      assert read == ReadSpace(elapsed, keyboardState, lastKeyboardState);

      if animationBackgroundTimer >= BackgroundTickTime {
        BackgroundTickStep();
      }
      ghost var ticked := View();
      assert ticked == BackgroundIfDue(read);

      if animationFrameTimer >= animationFrameTime {
        PlayerUpdateAnimation();
        animationFrameTimer := 0.0;
      }
    }

    /** What `Update` does when the background timer has run out. */
    method BackgroundTickStep()
      modifies this
      ensures View() == BackgroundTick(old(View()))
    {
      if triggerPlayerSmash {
        PlayerTriggerAnimation("smash", Some(SmashEnd));
        triggerPlayerSmash := false;
      }
      assert View() == SmashIfArmed(old(View()));
      if moveBackground {
        if backgroundY > 0 {
          backgroundY := backgroundY - 1;
          playerY := playerY + 1;
          logoY := logoY + 2;
        } else {
          moveBackground := false;
          triggerPlayerSmash := true;
          animationFrameTime := SmashFrameTime;
        }
      }
      animationBackgroundTimer := 0.0;
    }
  }
}
