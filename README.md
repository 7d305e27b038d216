# LowRezRogue in Dafny

This project models the game loop and screens of LowRezRogue, a 64×64-pixel
turn-based roguelike written in C# on MonoGame, and proves properties of that
model. It covers six parts of the game, one module each:

- **`Rogue`** (game.dfy) covers the game class in `Game1.cs`:
  - the tile map and the tile animation index;
  - the player and the enemies;
  - the player's turn: edge-triggered moves, debug hotkeys, melee and the
    push-back;
  - the enemies' turn;
  - the per-frame `Update`: timers, scene and turn dispatch, the interface tick,
    tile animation and the camera clamp.
- **`Interface`** (interface.dfy) covers `InterfaceManager.cs`:
  - the sliding HUD panels (`UIObject`) with their four transition states and
    the auto-close tick counter;
  - the static manager with `OpenAll`, `CloseAll`, `ToggleAll`, `ShowDamage`
    and `UpdateHealth`, and the number sprite table.
- **`Fade`** (fade.dfy) covers `FadeScreen.cs`: the screen fade that darkens
  from frame 24 to 0, holds black, lightens back to 25, and invokes its two
  callbacks.
- **`Pause`** (pause_menu.dfy) covers `PauseMenu.cs`: the wrapping menu cursor,
  the dispatch on confirm, the help-page viewer and the blinking arrow.
- **`Death`** (death_scene.dfy) covers `DeathScene.cs`: the two-entry cursor,
  confirm into a fade or quit, and the death or victory headline.
- **`Title`** (main_menu.dfy) covers `MainMenu.cs`: the intro scroll, the
  one-shot smash trigger and the nested player's animation fallback.
- **`Common`** (common.dfy) holds what the others share: points, rectangles,
  keys, callbacks, the arrow blink and the scene enum.

Each part follows the same three layers:

1. A value datatype holds a snapshot of the part's state.
2. Pure functions state each operation on that snapshot. The lemmas about
   them are where the game's promises are proved: round trips, invariants
   the operations preserve, the whole fade, the whole intro, and a turn's
   effect on the player.
3. A `class` keeps the source's fields. Its methods change those fields step
   by step, as the C# does. Each method is proved to take its class's `View()`
   exactly to the pure function of the old `View()`, so every lemma about the
   functions also holds for the objects.

**Inputs from outside.** Keyboard polling becomes two sets of keys: the keys
down now and the keys down last frame. A key is "pressed" when it is in the
first set and not in the second. `new Random().Next(...)` becomes a
parameter `rolls`, where `rolls[e]` is the roll made when the melee loop
reaches enemy `e`. Elapsed time is a `real` `deltaTime`. Callbacks are a
small enum, and invoking one appends it to a log. For the fade, the log is
grouped by `StartFadeScreen` call.

**The model follows the code as written:**

- Melee damage is the bare roll. No armor is subtracted, and there is no
  floor at 1.
- A killed enemy is removed at once. No "dying" phase is modelled.
- After a kill the player stays on the enemy's tile. Only a surviving enemy
  pushes the player back.
- The melee loop removes with `RemoveAt(e)` and still increments `e`. A
  second enemy on the same tile, right after a killed one, is skipped for
  that turn. `Rogue.MeleeRemovalSkipsNext` states this.
- The enemies' turn is an empty loop. It only hands the turn back.

## Model

| member | source | states |
|---|---|---|
| Common.Blink | LowRezPlatformer/Scenes/PauseMenu.cs:156-159 | the arrow frame flips between 0 and 1, and any other value is left as it is |
| Interface.UpdatePanel | LowRezPlatformer/Interface/InterfaceManager.cs:49-94 | after the auto-close tick, a resting panel does not move. A closing or opening panel moves one velocity step toward its goal. It reaches `closed` or `open` exactly when it lands on that position. An armed timer fires on the tick it reaches the limit: it disarms, zeroes the counter and starts closing. Otherwise the timer counts up by one |
| Interface.OpenPanel | LowRezPlatformer/Interface/InterfaceManager.cs:96-107 | `Open` makes a closed or closing panel `transitionOpen`, and leaves an opening or open panel's state alone. The position does not change. With `toClose` it arms the timer at 0 with the given tick count; otherwise the timer fields are unchanged |
| Interface.ClosePanel | LowRezPlatformer/Interface/InterfaceManager.cs:109-117 | `Close` is a no-op unless the panel is closable. It starts closing exactly when the panel is open or opening |
| Interface.TransitionCompletes | LowRezPlatformer/Interface/InterfaceManager.cs:62-91 | a panel k steps short of its goal keeps its transition state for k-1 ticks. On tick k it lands exactly on the goal and comes to rest |
| Interface.CloseReopenRoundTrip | LowRezPlatformer/Interface/InterfaceManager.cs:62-117 | closing an open panel and ticking k times leaves it closed at `closedPosition`. Opening it and ticking k times more gives back exactly the original panel |
| Interface.AutoCloseFiresOnTick | LowRezPlatformer/Interface/InterfaceManager.cs:51-60 | with auto-close armed for n ticks, the counter equals j after j < n updates. The n-th update disarms it, zeroes it and leaves the panel closing or closed |
| Interface.RestingPanelStays | LowRezPlatformer/Interface/InterfaceManager.cs:62-92 | an open or closed panel with no timer armed is unchanged by any number of updates |
| Interface.AllArrive | LowRezPlatformer/Interface/InterfaceManager.cs:193-198 | if every panel is settled or k steps from its goal, k interface ticks bring each one to rest at its goal |
| Interface.SlideOpensOnTrack | LowRezPlatformer/Interface/InterfaceManager.cs:77-91 | a closed unit-speed panel whose open position is a whole number of steps away, once opening, is on track to arrive open at `openPosition` |
| Interface.SlideClosesOnTrack | LowRezPlatformer/Interface/InterfaceManager.cs:62-76 | an open unit-speed panel, once closing, is on track to arrive closed at `closedPosition` |
| Interface.SpriteKey | LowRezPlatformer/Interface/InterfaceManager.cs:154-179 | every number maps to a key present in the 0..22 sprite table. 1..22 map to themselves, and everything else maps to 0 |
| Interface.TickAll | LowRezPlatformer/Interface/InterfaceManager.cs:193-198 | `UpdateTick` updates each panel once, in place, and keeps the list's length |
| Interface.TickAllNPointwise | LowRezPlatformer/Interface/InterfaceManager.cs:193-198 | n manager ticks act on each panel as n of its own updates |
| Interface.OpenAllPanels | LowRezPlatformer/Interface/InterfaceManager.cs:200-209 | `OpenAll` skips open panels and makes every other one `transitionOpen`, changing nothing else |
| Interface.CloseAllPanels | LowRezPlatformer/Interface/InterfaceManager.cs:211-220 | `CloseAll` skips closed panels and makes every other one `transitionClose`, changing nothing else |
| Interface.ToggleAllSpec | LowRezPlatformer/Interface/InterfaceManager.cs:222-230 | `ToggleAll` flips `allOpen` and closes all if they were open, else opens all |
| Interface.InitialPanelAt | LowRezPlatformer/Interface/InterfaceManager.cs:139-151 | after `Initialize`, the first three panels are open at their open positions and the two damage panels are closed at their closed ones. All move at speed 1 with no timer |
| Interface.InitialPanelTrack | LowRezPlatformer/Interface/InterfaceManager.cs:139-151 | every initial panel's closed position is exactly ten unit steps from its open position |
| Interface.InitialPanelsCloseOnTrack | LowRezPlatformer/Interface/InterfaceManager.cs:139-151 | after `CloseAll` on the initial HUD, every panel is settled or ten steps from its closed position, where it comes to rest |
| Interface.ClosedLayoutOpensOnTrack | LowRezPlatformer/Interface/InterfaceManager.cs:200-209 | after `OpenAll` on the fully closed HUD, every panel is ten steps from its open position, where it comes to rest |
| Interface.ToggleAllSettlesInTenTicks | LowRezPlatformer/Interface/InterfaceManager.cs:224-230 | toggling the initial HUD and ticking ten times gives the fully closed layout. Toggling that and ticking ten times gives the fully open layout |
| Interface.ShowDamagePanels | LowRezPlatformer/Interface/InterfaceManager.cs:232-243 | `ShowDamage` gives the damage number the sprite for the damage (0 when out of range). It opens the damage number and the damage text with auto-close after 40 ticks and changes no other panel |
| Interface.UpdateHealthAsWrittenMisroutesFallback | LowRezPlatformer/Interface/InterfaceManager.cs:250-253 | as written, after `UpdateHealth(10)` and `ShowDamage(5)`, a health of 0 leaves the health number showing 10 and overwrites the damage number's sprite instead |
| Interface.UpdateHealthAsWrittenOutOfRange | LowRezPlatformer/Interface/InterfaceManager.cs:250-253 | as written, for every health outside 1..22 the health number is unchanged, the damage number gets sprite 0, and no other panel changes |
| Interface.UpdateHealthPanels | LowRezPlatformer/Interface/InterfaceManager.cs:245-254 | `UpdateHealth` shows health 1..22 on the health number and falls back to sprite 0 otherwise. No other panel changes |
| Interface.UpdateHealthAgreesInRange | LowRezPlatformer/Interface/InterfaceManager.cs:246-249 | for health in 1..22, the corrected `UpdateHealth` and the one as written agree |
| Interface.UIObject.constructor | LowRezPlatformer/Interface/InterfaceManager.cs:31-47 | a panel starts at its open position when it starts open, and at its closed position otherwise |
| Interface.UIObject.Update | LowRezPlatformer/Interface/InterfaceManager.cs:49-94 | the fields step exactly as `UpdatePanel` describes |
| Interface.UIObject.AutoClose | LowRezPlatformer/Interface/InterfaceManager.cs:51-60 | the auto-close counter ticks, and fires when it reaches its limit |
| Interface.UIObject.SlideStep | LowRezPlatformer/Interface/InterfaceManager.cs:62-92 | a closing or opening panel moves one step and comes to rest on arrival. A resting panel is untouched |
| Interface.UIObject.MoveToward | LowRezPlatformer/Interface/InterfaceManager.cs:64-72 | each axis on which the two positions differ moves by `transitionSpeed` in the direction of the target, and the other fields are unchanged |
| Interface.UIObject.BeginOpening | LowRezPlatformer/Interface/InterfaceManager.cs:203-206 | one iteration of `OpenAll`'s loop: the panel starts opening unless it is open |
| Interface.UIObject.BeginClosing | LowRezPlatformer/Interface/InterfaceManager.cs:214-217 | one iteration of `CloseAll`'s loop: the panel starts closing unless it is closed |
| Interface.UIObject.Open | LowRezPlatformer/Interface/InterfaceManager.cs:96-107 | the fields change exactly as `OpenPanel` describes |
| Interface.UIObject.Close | LowRezPlatformer/Interface/InterfaceManager.cs:109-117 | the fields change exactly as `ClosePanel` describes |
| Interface.InterfaceManager.constructor | LowRezPlatformer/Interface/InterfaceManager.cs:134-152 | `Initialize` builds the five panels in list order (the toggle, health number, health text, damage text and damage number) with `allOpen` set |
| Interface.InterfaceManager.UpdateTick | LowRezPlatformer/Interface/InterfaceManager.cs:193-198 | the loop updates every panel once, in order, and `allOpen` is unchanged |
| Interface.InterfaceManager.OpenAll | LowRezPlatformer/Interface/InterfaceManager.cs:200-209 | the panels become `OpenAllPanels` of the old ones, and `allOpen` becomes true |
| Interface.InterfaceManager.CloseAll | LowRezPlatformer/Interface/InterfaceManager.cs:211-220 | the panels become `CloseAllPanels` of the old ones, and `allOpen` becomes false |
| Interface.InterfaceManager.ToggleAll | LowRezPlatformer/Interface/InterfaceManager.cs:224-230 | the HUD becomes `ToggleAllSpec` of the old HUD |
| Interface.InterfaceManager.ShowDamage | LowRezPlatformer/Interface/InterfaceManager.cs:232-243 | the panels become `ShowDamagePanels` of the old ones |
| Interface.InterfaceManager.UpdateHealth | LowRezPlatformer/Interface/InterfaceManager.cs:245-254 | the panels become the corrected `UpdateHealthPanels` of the old ones |
| Fade.StartSpec | LowRezPlatformer/Scenes/FadeScreen.cs:20-27 | a start activates the fade at frame 24 before black. It stores both callbacks and the black time, opens a new, empty callback run, and leaves the hold and timers as they were |
| Fade.StopSpec | LowRezPlatformer/Scenes/FadeScreen.cs:29-33 | a stop deactivates the fade and clears both callbacks. The frame, phase, history, both timers and the black time are kept |
| Fade.UpdateSpec | LowRezPlatformer/Scenes/FadeScreen.cs:50-93 | an inactive fade is untouched. During the hold, the frame stays and the hold ends once the black timer reaches the black time. The frame changes exactly when active, not holding, and the timer has reached `timerEnd`; it then moves by one toward black or back, and the timer is reset. Reaching frame 0 starts the hold and records on-black. Reaching 25 deactivates the fade and records on-end. No other step records anything |
| Fade.InitialInv | LowRezPlatformer/Scenes/FadeScreen.cs:10-48 | the fade as first loaded satisfies the invariant: an active fade's frame indexes the 25 overlays, and every run's callbacks are well ordered |
| Fade.StartPreservesInv | LowRezPlatformer/Scenes/FadeScreen.cs:20-27 | starting keeps the invariant |
| Fade.StopPreservesInv | LowRezPlatformer/Scenes/FadeScreen.cs:29-33 | stopping keeps the invariant |
| Fade.UpdatePreservesInv | LowRezPlatformer/Scenes/FadeScreen.cs:50-93 | updating keeps the invariant |
| Fade.RunKeepsInv | LowRezPlatformer/Scenes/FadeScreen.cs:20-93 | any sequence of starts, stops and updates keeps the invariant |
| Fade.HistoryWellOrdered | LowRezPlatformer/Scenes/FadeScreen.cs:70-91 | for every start ever made, on-black fires at most once, on-end at most once, and on-black before on-end |
| Fade.Darkens | LowRezPlatformer/Scenes/FadeScreen.cs:70-80 | while darkening, each update of at least `timerEnd` lowers the frame by exactly one, until frame 0 |
| Fade.Lightens | LowRezPlatformer/Scenes/FadeScreen.cs:81-91 | while lightening, each such update raises the frame by exactly one, until frame 25 |
| Fade.DarkenPhase | LowRezPlatformer/Scenes/FadeScreen.cs:70-80 | 24 updates take a started fade to frame 0, start the hold and record exactly on-black |
| Fade.HoldPhase | LowRezPlatformer/Scenes/FadeScreen.cs:59-65 | one update of at least the black time ends the hold without moving the frame |
| Fade.LightenPhase | LowRezPlatformer/Scenes/FadeScreen.cs:81-91 | after the hold, the fade is still active after 24 updates. After 25 it is at frame 25, inactive, and on-end is recorded |
| Fade.FullFade | LowRezPlatformer/Scenes/FadeScreen.cs:20-93 | a fresh start, with steady steps of at least `timerEnd` and the black time, is black after 24 updates and ends the hold on the 25th. It is still active after 49 and done after 50. Its run is exactly on-black followed by on-end |
| Fade.RestartKeepsPendingHold | LowRezPlatformer/Scenes/FadeScreen.cs:20-65 | stopping and restarting during a hold does not clear the hold. The next update still holds, at frame 24 |
| Fade.FadeScreen.constructor | LowRezPlatformer/Scenes/FadeScreen.cs:10-48 | the static fields' initial values |
| Fade.FadeScreen.Initialize | LowRezPlatformer/Scenes/FadeScreen.cs:35-41 | builds the 25 overlay rectangles `(2i, 254, 2, 2)` and changes no fade state |
| Fade.FadeScreen.StartFadeScreen | LowRezPlatformer/Scenes/FadeScreen.cs:20-27 | the fields change exactly as `StartSpec` describes |
| Fade.FadeScreen.StopFadeScreen | LowRezPlatformer/Scenes/FadeScreen.cs:29-33 | the fields change exactly as `StopSpec` describes |
| Fade.FadeScreen.Invoke | LowRezPlatformer/Scenes/FadeScreen.cs:78-88 | invoking a callback appends it to the current run only |
| Fade.FadeScreen.Update | LowRezPlatformer/Scenes/FadeScreen.cs:50-93 | the fields change exactly as `UpdateSpec` describes |
| Fade.FadeScreen.Render | LowRezPlatformer/Scenes/FadeScreen.cs:98-105 | draws exactly when active, and then the overlay for a frame in 0..24, so the array index is in bounds |
| Pause.MenuScreenUpdate | LowRezPlatformer/Scenes/PauseMenu.cs:86-130 | on the menu screen: Up and Down move the cursor modulo 4. Confirm acts on the cursor before it moves: entry 0 invokes continue, 1 new game, 3 quit, and 2 opens help. The help page and artifact count are unchanged |
| Pause.HelpScreenUpdate | LowRezPlatformer/Scenes/PauseMenu.cs:131-152 | on the help screen: Right and Left turn the page modulo 11, and Escape (and only Escape) returns to the menu. The cursor and the callback log are unchanged |
| Pause.BlinkTick | LowRezPlatformer/Scenes/PauseMenu.cs:154-162 | once the timer reaches 0.5 s the arrow frame flips and the timer resets. Before that, the frame stays and time accumulates |
| Pause.CursorCycles | LowRezPlatformer/Scenes/PauseMenu.cs:116-151 | four Downs return the cursor to where it was. Up undoes Down and Down undoes Up. Left and Right undo each other on the help pages |
| Pause.NewMenuInv | LowRezPlatformer/Scenes/PauseMenu.cs:46-65 | a new menu has every index inside its table |
| Pause.UpdatePreservesInv | LowRezPlatformer/Scenes/PauseMenu.cs:77-163 | an update keeps every index inside its table, so what `Render` draws next is in bounds |
| Pause.GetArtifactsInv | LowRezPlatformer/Scenes/PauseMenu.cs:71-73 | the stored count keeps the menu valid if and only if it is in 0..5 |
| Pause.ArtifactPageNeedsSprite | LowRezPlatformer/Scenes/PauseMenu.cs:71-73 | from a valid menu on the help page before the artifact page, storing a count with `GetArtifacts(n)` and pressing Right shows the artifact page. That frame renders in bounds exactly when n is in 0..5 (the sprite lookup is at PauseMenu.cs:179-183) |
| Pause.PauseMenu.constructor | LowRezPlatformer/Scenes/PauseMenu.cs:61-65 | stores the three callbacks. The cursor, page, frame and count start at 0 on the menu screen |
| Pause.PauseMenu.GetArtifacts | LowRezPlatformer/Scenes/PauseMenu.cs:71-73 | stores the count unchanged, and nothing else changes |
| Pause.PauseMenu.ConfirmEntry | LowRezPlatformer/Scenes/PauseMenu.cs:91-114 | the switch on the cursor, as `Confirm` describes |
| Pause.PauseMenu.MenuScreen | LowRezPlatformer/Scenes/PauseMenu.cs:88-130 | the menu screen's key handling, as `MenuKeys` describes |
| Pause.PauseMenu.HelpScreen | LowRezPlatformer/Scenes/PauseMenu.cs:133-151 | the help screen's key handling, as `HelpKeys` describes |
| Pause.PauseMenu.Keys | LowRezPlatformer/Scenes/PauseMenu.cs:86-152 | dispatches on the pause state to exactly one screen's keys |
| Pause.PauseMenu.BlinkArrow | LowRezPlatformer/Scenes/PauseMenu.cs:154-162 | the arrow blink, as `BlinkSpec` describes |
| Pause.PauseMenu.Update | LowRezPlatformer/Scenes/PauseMenu.cs:77-163 | the fields change exactly as `UpdateSpec` describes |
| Death.Headline | LowRezPlatformer/Scenes/DeathScene.cs:97-100 | the victory headline is drawn if and only if the player won, and the death headline otherwise |
| Death.NewSceneInv | LowRezPlatformer/Scenes/DeathScene.cs:27-38 | a new scene's cursor is 0 or 1, and so is its arrow frame |
| Death.UpdateBehaviour | LowRezPlatformer/Scenes/DeathScene.cs:51-79 | Up or Down toggles the cursor between 0 and 1. The fade starts (0.5 s black, new game on black) exactly when confirm hits entry 0 with a new-game callback. Quit is invoked exactly when confirm hits entry 1 with a quit callback. Confirm reads the cursor before the toggle. The outcome is unchanged |
| Death.BlinkTick | LowRezPlatformer/Scenes/DeathScene.cs:81-90 | once the timer reaches 0.5 s the arrow frame flips and the timer resets. Before that, time accumulates |
| Death.HeadlineFollowsOutcome | LowRezPlatformer/Scenes/DeathScene.cs:46-48 | after `SetDeathOrVictory(won)` the headline drawn is the victory one exactly when `won` |
| Death.NewGameRunsOnBlack | LowRezPlatformer/Scenes/DeathScene.cs:59-65 | with every frame at least 0.5 s long (the black time, which also exceeds the fade's 0.0333 s frame time), confirming "new game" runs the new-game callback once, when the screen is black. The fade then completes with no other callback |
| Death.DeathScene.constructor | LowRezPlatformer/Scenes/DeathScene.cs:35-38 | stores both callbacks. The cursor and frame start at 0, and the player has not won |
| Death.DeathScene.SetDeathOrVictory | LowRezPlatformer/Scenes/DeathScene.cs:46-48 | sets `didWin` to the argument and nothing else |
| Death.DeathScene.Update | LowRezPlatformer/Scenes/DeathScene.cs:51-93 | the scene and the shared fade change exactly as `UpdateSpec` describes |
| Death.DeathScene.RenderHeadline | LowRezPlatformer/Scenes/DeathScene.cs:97-100 | the headline chosen is the victory one if and only if the player won |
| Title.StartAnimation | LowRezPlatformer/Scenes/MainMenu.cs:24 | a started animation is rewound to its first frame, with its frames, looping and end action kept |
| Title.GetNextFrame | LowRezPlatformer/Scenes/MainMenu.cs:29-30 | a used-up animation yields the empty rectangle and runs its end action. Otherwise it yields one of its frames and runs nothing |
| Title.TriggerAnimation | LowRezPlatformer/Scenes/MainMenu.cs:37-43 | an unknown name changes nothing. A known one restarts that animation with the given end action |
| Title.SmashEndSpec | LowRezPlatformer/Scenes/MainMenu.cs:127 | the smash's end action switches to the gameplay scene, unloads its content (`contentLoaded` becomes false) and restores the normal frame time. The scroll is unchanged |
| Title.UpdateAnimation | LowRezPlatformer/Scenes/MainMenu.cs:28-35 | advancing the player's animation never moves the scroll. Without end actions it changes neither the scene nor the frame time |
| Title.RestartIdle | LowRezPlatformer/Scenes/MainMenu.cs:32-33 | the fallback that restarts `idle` never moves the scroll |
| Title.UpdateAnimationFallback | LowRezPlatformer/Scenes/MainMenu.cs:28-35 | a used-up animation falls back to `idle` and shows its first frame. An animation with frames left shows the next one |
| Title.SmashEndShowsIdle | LowRezPlatformer/Scenes/MainMenu.cs:125-129 | when the smash ends, the game switches to gameplay, the frame time is restored and the sprite falls back to `idle`'s first frame |
| Title.ScrollStep | LowRezPlatformer/Scenes/MainMenu.cs:130-143 | one scroll step keeps the scroll invariant: background Y stays at least 0, background Y + player Y stays 35, and logo Y + 2 × background Y stays 94 |
| Title.AnimationIfDue | LowRezPlatformer/Scenes/MainMenu.cs:148-152 | when the frame timer is due the animation advances and the timer resets. The scroll never moves |
| Title.BackgroundTickEffect | LowRezPlatformer/Scenes/MainMenu.cs:123-146 | one background tick does three things. An armed smash starts the `smash` animation, if there is one, and disarms. While background Y > 0, background Y falls by 1, player Y rises by 1 and logo Y rises by 2. At Y 0 scrolling stops, the smash is armed and frames speed up to 0.088 s. The timer resets |
| Title.UpdateKeepsScroll | LowRezPlatformer/Scenes/MainMenu.cs:113-154 | every update keeps the scroll invariant |
| Title.SpaceStartsScroll | LowRezPlatformer/Scenes/MainMenu.cs:118-121 | a newly pressed Space starts the scroll |
| Title.SpaceOnly | LowRezPlatformer/Scenes/MainMenu.cs:118-121 | Space affects an update only through `moveBackground` |
| Title.UpdateAnimationKeepsDict | LowRezPlatformer/Scenes/MainMenu.cs:113-154 | updates never change the animation dictionary |
| Title.ScrollUpdate | LowRezPlatformer/Scenes/MainMenu.cs:123-152 | with frames and background both due, a scroll update moves the background by one. The update at Y 0 stops the scroll, arms the smash and speeds up frames |
| Title.ScrollTicks | LowRezPlatformer/Scenes/MainMenu.cs:130-137 | n due updates while scrolling lower background Y by exactly n and keep scrolling |
| Title.SmashStartUpdate | LowRezPlatformer/Scenes/MainMenu.cs:125-129 | the update after arming plays the smash from its first frame with the end action attached, and disarms the trigger, so it fires once |
| Title.IntroFirstUpdate | LowRezPlatformer/Scenes/MainMenu.cs:113-146 | with a frame of at least 0.166 s, pressing Space on a fresh title screen starts the scroll and moves the background to 33 |
| Title.IntroRest | LowRezPlatformer/Scenes/MainMenu.cs:123-146 | with frames of at least 0.166 s each, from background Y = k, k updates bring it to 0 with player and logo moved by k and 2k. One more arms the smash, and one more starts it |
| Title.IntroSequence | LowRezPlatformer/Scenes/MainMenu.cs:113-154 | the whole intro, with frames of at least 0.166 s each: after Space and 33 updates the background is at 0, the player at 35 and the logo at 94. Update 34 arms the smash, and update 35 plays it, still on the title scene |
| Title.InitializeSpec | LowRezPlatformer/Scenes/MainMenu.cs:68-75 | `Initialize` installs the loaded animations, puts the background at 34 and the player at 1, and loads the texture |
| Title.InitializeFromConstructed | LowRezPlatformer/Scenes/MainMenu.cs:53-75 | constructing and initializing gives the title screen at the start of its intro, which satisfies the scroll invariant |
| Title.MainMenu.constructor | LowRezPlatformer/Scenes/MainMenu.cs:53-66 | the field initialisers |
| Title.MainMenu.Initialize | LowRezPlatformer/Scenes/MainMenu.cs:68-75 | the fields change exactly as `InitializeSpec` describes |
| Title.MainMenu.PlayerTriggerAnimation | LowRezPlatformer/Scenes/MainMenu.cs:37-43 | the fields change exactly as `TriggerAnimation` describes |
| Title.MainMenu.SmashEndAction | LowRezPlatformer/Scenes/MainMenu.cs:127 | the smash's end lambda, as `SmashEndSpec` describes |
| Title.MainMenu.NextFrame | LowRezPlatformer/Scenes/MainMenu.cs:29 | returns the frame `GetNextFrame` yields, advances the cursor and runs any end action |
| Title.MainMenu.PlayerUpdateAnimation | LowRezPlatformer/Scenes/MainMenu.cs:28-35 | the fields change exactly as `UpdateAnimation` describes |
| Title.MainMenu.BackgroundTickStep | LowRezPlatformer/Scenes/MainMenu.cs:123-146 | one background tick, as `BackgroundTick` describes |
| Title.MainMenu.Update | LowRezPlatformer/Scenes/MainMenu.cs:113-154 | the fields change exactly as `UpdateSpec` describes |
| Rogue.NewTile | LowRezPlatformer/Game1.cs:229 | the `Tile` constructor (lines 87-94 of `Map Generation/MapGeneration.cs`) behind the `animated` flag read here: a tile takes its type's frames and is animated if and only if it has more than one frame. It starts at frame 0 with a valid index |
| Rogue.UpdateAnimationIndex | LowRezPlatformer/Game1.cs:231 | `Tile.UpdateAnimationIndex` (lines 96-100 of `Map Generation/MapGeneration.cs`): only the frame index changes, and a valid index advances by one modulo the frame count |
| Rogue.AnimateTile | LowRezPlatformer/Game1.cs:229-232 | animating a tile keeps its index valid and never changes its type or walkability |
| Rogue.AnimationClimbs | LowRezPlatformer/Game1.cs:225-234 | k animation ticks that stay below the frame count raise the index by exactly k |
| Rogue.AnimationCycles | LowRezPlatformer/Game1.cs:225-234 | an animated tile returns to exactly itself after as many ticks as it has frames |
| Rogue.NewPlayer | LowRezPlatformer/Game1.cs:23-36 | a new player has health 10, damage 5 and armor 5 |
| Rogue.NewEnemy | LowRezPlatformer/Game1.cs:56-73 | a new enemy has health 1, armor 1 and damage 3 |
| Rogue.TakeDamageSpec | LowRezPlatformer/Game1.cs:42-51 | taking damage lowers health by exactly the damage and keeps the HUD's toggle state |
| Rogue.TakeDamageShowsHealth | LowRezPlatformer/Game1.cs:42-51 | health falls by exactly d. The HUD is untouched once health is at most 0. Otherwise the health number shows the new health (sprite 0 above 22, following the corrected `UpdateHealth`), and no other panel changes |
| Rogue.FirstOpen | LowRezPlatformer/Game1.cs:288-304 | the first candidate whose key is newly pressed and whose tile is on the map and walkable: it qualifies and no earlier candidate does. If there is none, no candidate qualifies |
| Rogue.Step | LowRezPlatformer/Game1.cs:284-304 | a move is made exactly when the position changes. Then the new tile is orthogonally adjacent, on the map and walkable. The position never leaves the map |
| Rogue.StepTakesFirstOpen | LowRezPlatformer/Game1.cs:288-304 | the move is exactly the first qualifying direction in the order Left, Right, Up, Down. With none, the player stays and no move is made |
| Rogue.Melee | LowRezPlatformer/Game1.cs:319-336 | the player ends on the attacked tile if nothing survived a hit, and on the cached position otherwise. The enemy list never grows, and every damage shown is one of the rolls |
| Rogue.MeleeClear | LowRezPlatformer/Game1.cs:319-336 | with no enemy on the player's tile, combat changes nothing and shows nothing |
| Rogue.MeleeSkipTo | LowRezPlatformer/Game1.cs:319-321 | enemies elsewhere are passed over without effect |
| Rogue.MeleeLoneEnemy | LowRezPlatformer/Game1.cs:319-336 | against one enemy on the tile, a lethal roll removes exactly that enemy and the player stays with nothing shown. Otherwise only its health drops by the roll, the damage is shown and the player is pushed back |
| Rogue.MeleeRemovalSkipsNext | LowRezPlatformer/Game1.cs:326-330 | when an enemy is killed, the enemy right after it on the same tile is skipped and survives the turn untouched |
| Rogue.NewEnemyDiesInOneHit | LowRezPlatformer/Game1.cs:324-327 | every roll of a new player (4..6) kills a new enemy (health 1) |
| Rogue.CameraAxis | LowRezPlatformer/Game1.cs:240-252 | on a map at least 8 tiles wide the camera centre lies in [32, extent·8 − 32]. It is tile·8 away from the edges |
| Rogue.CameraShowsPlayer | LowRezPlatformer/Game1.cs:240-252 | the 64-pixel view around the camera contains the player's whole tile and stays inside the map |
| Rogue.CameraMonotone | LowRezPlatformer/Game1.cs:240-252 | the camera never moves against the player's direction |
| Rogue.ToggleZoom | LowRezPlatformer/Game1.cs:267-270 | F12 swaps zoom 8 and 1 and leaves any other zoom alone |
| Rogue.ToggleZoomTwice | LowRezPlatformer/Game1.cs:265-271 | pressing F12 twice restores the zoom |
| Rogue.Hotkeys | LowRezPlatformer/Game1.cs:265-281 | the debug keys change only the zoom (F12) and the HUD, never the player, the enemies or the turn state |
| Rogue.Interact | LowRezPlatformer/Game1.cs:306-352 | the tile's interaction only ever changes the player's position, back to the cache, plus the enemies and the HUD's panels |
| Rogue.TurnSpec | LowRezPlatformer/Game1.cs:264-358 | after the player's turn the player is still on the map |
| Rogue.EnemyTurnSpec | LowRezPlatformer/Game1.cs:365-378 | the enemies' turn always hands the turn back to the player |
| Rogue.TurnKeepsPlayerOnWalkableMap | LowRezPlatformer/Game1.cs:284-336 | after a turn the player is where they were, or on an orthogonally adjacent walkable tile of the map |
| Rogue.TurnEndsIffMoved | LowRezPlatformer/Game1.cs:354-363 | the turn passes to the enemies if and only if the player made a move |
| Rogue.InteractionTileHasNoFight | LowRezPlatformer/Game1.cs:313-352 | stepping onto a shop, entry, exit or castle tile fights no one. The player stays there, and the enemies are unchanged |
| Rogue.BumpedBackStillEndsTurn | LowRezPlatformer/Game1.cs:319-356 | bumping into a surviving enemy wounds it by the roll and leaves the player where they started. The turn still ends |
| Rogue.RoundReturnsToPlayer | LowRezPlatformer/Game1.cs:354-378 | after a move, one enemy turn gives the turn back with nothing else changed |
| Rogue.Advance | LowRezPlatformer/Game1.cs:189-195 | the start of a frame adds time to the timers and reads the keyboard. It does not touch the game state, the scene or last frame's keys |
| Rogue.Dispatch | LowRezPlatformer/Game1.cs:197-210 | the scene and turn dispatch changes only the turn, and keeps the player on the map |
| Rogue.Gameplay | LowRezPlatformer/Game1.cs:213-256 | the interface tick, tile animation and camera never change the player or the enemies |
| Rogue.UiTick | LowRezPlatformer/Game1.cs:215-219 | the interface tick changes only the HUD |
| Rogue.UpdateSpec | LowRezPlatformer/Game1.cs:185-262 | a frame keeps the player on the map, keeps the scene, and remembers this frame's keys |
| Rogue.UpdateOutsideGameplay | LowRezPlatformer/Game1.cs:185-262 | outside gameplay a frame changes no game state. The camera is reset to (0, 0) and the timers only accumulate |
| Rogue.UpdateInGameplay | LowRezPlatformer/Game1.cs:185-262 | in gameplay a frame runs the player's turn or hands the enemies' turn back. The camera keeps the player's tile in view and inside the map |
| Rogue.LowRezRogue.constructor | LowRezPlatformer/Game1.cs:130-147 | starts in the gameplay scene on the player's move, at the default zoom, with the start-up keyboard as last frame's keys and no enemies yet (`PlaceEnemy` adds them) |
| Rogue.LowRezRogue.PlacePlayer | LowRezPlatformer/Game1.cs:23-36 | places a new player and shows its health of 10 |
| Rogue.LowRezRogue.PlaceEnemy | LowRezPlatformer/Game1.cs:54-60 | appends one new enemy (health 1, armor 1, damage 3) at the given tile, as each `enemies.Add(new Enemy(p, …))` of map generation does (MapGeneration.cs:525); nothing else changes |
| Rogue.LowRezRogue.PlayerTakeDamage | LowRezPlatformer/Game1.cs:42-51 | the player and HUD change exactly as `TakeDamageSpec` describes |
| Rogue.LowRezRogue.ProcessPlayerTurn | LowRezPlatformer/Game1.cs:264-358 | the game changes exactly as `TurnSpec` describes |
| Rogue.LowRezRogue.DebugKeys | LowRezPlatformer/Game1.cs:265-281 | the game changes exactly as `Hotkeys` describes |
| Rogue.LowRezRogue.ZoomKey | LowRezPlatformer/Game1.cs:265-271 | only the zoom changes, and only when F12 is newly pressed |
| Rogue.LowRezRogue.PanelKeys | LowRezPlatformer/Game1.cs:273-281 | Left Control toggles all panels. Left Alt then shows a damage of 5 |
| Rogue.LowRezRogue.MovePlayer | LowRezPlatformer/Game1.cs:284-304 | only the player's position changes, as `Step` decides, and the result says whether a move was made |
| Rogue.LowRezRogue.InteractTile | LowRezPlatformer/Game1.cs:313-352 | the game changes exactly as `Interact` describes |
| Rogue.LowRezRogue.Fight | LowRezPlatformer/Game1.cs:319-336 | the enemies and the player's position become `Melee`'s outcome. Each damage shown is flashed on the HUD in order, and nothing else changes |
| Rogue.LowRezRogue.MeleeLoop | LowRezPlatformer/Game1.cs:319-336 | the loop computes `Melee`'s enemies and position, and shows its damages in order |
| Rogue.LowRezRogue.MeleeStep | LowRezPlatformer/Game1.cs:321-335 | one iteration keeps the loop on course to `Melee`'s outcome |
| Rogue.LowRezRogue.ShowHit | LowRezPlatformer/Game1.cs:333 | flashes one more damage on the HUD |
| Rogue.LowRezRogue.EndTurn | LowRezPlatformer/Game1.cs:360-363 | only the turn state changes, to the enemies' turn |
| Rogue.LowRezRogue.ProcessEnemyAI | LowRezPlatformer/Game1.cs:365-373 | the game changes exactly as `EnemyTurnSpec` describes |
| Rogue.LowRezRogue.EndAiTurn | LowRezPlatformer/Game1.cs:375-378 | only the turn state changes, to the player's move |
| Rogue.LowRezRogue.AnimateMap | LowRezPlatformer/Game1.cs:225-234 | every tile of the 64×64 map is animated once, in place |
| Rogue.LowRezRogue.AdvanceClock | LowRezPlatformer/Game1.cs:189-195 | the game changes exactly as `Advance` describes |
| Rogue.LowRezRogue.DispatchScene | LowRezPlatformer/Game1.cs:197-210 | the game changes exactly as `Dispatch` describes |
| Rogue.LowRezRogue.TickInterface | LowRezPlatformer/Game1.cs:215-219 | the game changes exactly as `UiTick` describes |
| Rogue.LowRezRogue.AnimateTiles | LowRezPlatformer/Game1.cs:221-236 | when the frame timer is due, every tile animates and the timer resets. Otherwise nothing changes |
| Rogue.LowRezRogue.GameplayStep | LowRezPlatformer/Game1.cs:213-256 | the game changes as `Gameplay` describes, and the map animates only in gameplay when its timer is due |
| Rogue.LowRezRogue.Update | LowRezPlatformer/Game1.cs:185-262 | the game changes exactly as `UpdateSpec` describes, and the map animates exactly when in gameplay with the tile timer due |

## Left out

- Rendering. Every `Draw`/`Render` method, `LoadContent`/`UnloadContent` and
  texture loading are drawing and content I/O. What `Render` indexes is
  checked in `Fade.FadeScreen.Render`, `Pause.RenderSafe` and
  `Death.DeathScene.RenderHeadline`.
- `Camera.cs`. Its matrices and viewport are floating-point framework code.
  The model keeps the integer camera centre that `Update` computes and the
  zoom value F12 toggles.
- `Sound.cs`. The click and music calls have no effect on game state and are
  left out.
- Map generation (`CreateDungeon`, `InitTileSets`). The tile grid is an
  input to the game's constructor, the player's placement is the
  `PlacePlayer` method, and each enemy the generator adds is one
  `PlaceEnemy` call. Which room tiles the random placement picks is not
  modelled.
- Rogue.LowRezRogue.constructor: starts with an empty enemy list. In the
  source `Game1.cs` never assigns `enemies` (the generator fills the new
  map's own list, `MapGeneration.cs:510-525`), so the constructed game would
  hold null there. The model starts empty and fills the list with
  `PlaceEnemy`.
- `MainMenu.LoadAnimations`. The XML parsing is replaced by an animation
  dictionary passed to `Initialize`.
- The `Animation` class's `StartAnimation` and `GetNextFrame`. The class at
  `Game1.cs:80-93` has fields and an empty constructor only. The methods
  and the `(string, bool, int)` constructor that `MainMenu.cs` calls have no
  code in this revision. So `Title.StartAnimation` and `Title.GetNextFrame`
  are assumed cursor semantics, not a model of existing code. They rewind,
  yield frames in order, loop if looping, and otherwise yield the empty
  rectangle and run the end action.
- Title.TriggerAnimation: `Anim` is a value, so setting the end action
  changes only the current animation. In the source `Animation` is a class,
  and `currentAnim.endOfAnimationAction = endAction` may write into the
  dictionary's own object if `StartAnimation` returns it. That sharing is
  not modelled.
- Fade.FadeScreen.Update: a callback is only recorded as an event. A
  callback that itself calls `StartFadeScreen` or `StopFadeScreen` while
  `Update` runs, re-entering the fade screen, is not modelled.
- Quitting. `Exit()` on Escape or the gamepad's Back button in
  `Game1.Update` ends the process and is not modelled.
- `Debug.WriteLine` output. The deadly-tile check only writes debug text and
  changes no state.
- Keyboard polling. Each frame's keyboard state is an input: a set of keys.
- `Random`. The melee rolls are the `rolls` parameter. `Rogue.RollsFor`
  states the `Next(damage - 1, damage + 2)` range for the lemmas that need it.
- `double` timers are exact `real`s, so floating-point rounding is not
  modelled.
- `InteractionType.exit`. `Game1.cs` switches on `InteractionType.exit`,
  which the `MapGeneration.cs` enum lacks. The model's enum has all five
  values, and only "none" has an effect.
- Aliasing of enemies. `Enemy` objects are modelled as values in a sequence,
  so aliasing between enemy objects is not captured. No shown code keeps a
  second reference to an enemy.
- Rogue.LowRezRogue.Fight: runs the source's loop over local copies of the
  enemy list and player position, and writes them back at the end. Between
  iterations only the HUD is observed, so the result is the same.
- Title.MainMenu.Initialize: requires "idle" in the animation dictionary.
  Without it, `animDict["idle"]` at `MainMenu.cs:24` (and `animations["idle"]`
  at `MainMenu.cs:32`) throws `KeyNotFoundException`. That path is not
  modelled, and the title-screen functions and lemmas that build or restart
  the player share the same requirement.
- Pause.PauseMenu.ConfirmEntry: the three callbacks are always present. A
  null callback in the source would throw, and that path is not modelled.
- Rogue.EnemyTurnSpec: the source's enemy loop has an empty body, so the
  enemies' turn changes nothing but the turn state.
- Interface.InterfaceManager.UpdateHealth: follows the corrected behaviour
  described under Findings. The as-written behaviour is
  `Interface.UpdateHealthAsWritten`.
- Rogue.TakeDamageShowsHealth: for a health above 22 it states the corrected
  HUD, with sprite 0 on the health number. The code as written leaves the
  health number unchanged and puts sprite 0 on the damage number instead
  (`Interface.UpdateHealthAsWrittenOutOfRange`).
- Rogue.LowRezRogue.PlayerTakeDamage: uses the corrected `UpdateHealth`.
  For a health above 22 its HUD differs from the code as written in the same
  way as `Rogue.TakeDamageShowsHealth`.
- Title.GetNextFrame: states only that a frame comes from the animation, not
  which one. The exact cursor step is stated in
  `Title.UpdateAnimationFallback`.

## Findings

| source | as written | input that shows it | evidently intended | confidence | as-written member | corrected member |
|---|---|---|---|---|---|---|
| LowRezPlatformer/Interface/InterfaceManager.cs:250-253 | for health outside 1..22, `UpdateHealth` sets `damageNum.spriteRect` to sprite 0, copied from `ShowDamage`. The health number keeps showing the old value | `UpdateHealth(10)`, then `ShowDamage(5)`, then `UpdateHealth(0)`: the health panel still shows 10, and the damage panel's "5" is replaced by sprite 0 | the fallback applies to the health number: `healthNum.spriteRect = damageSpriteRects[0]`, and the damage panel is untouched | not executed | Interface.UpdateHealthAsWrittenMisroutesFallback | Interface.UpdateHealthPanels |
