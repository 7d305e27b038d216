/** Value types shared by every part of the game model: integer points and
    rectangles (the framework's Point and Rectangle), an optional value for
    the nullable callback fields, the names of the callbacks the scenes are
    handed by their owner, and edge-triggered key presses. */
module Common {

  /** An integer point, as the framework's `Point`. */
  datatype Point = Point(x: int, y: int)

  /** An integer rectangle, as the framework's `Rectangle`. */
  datatype Rect = Rect(x: int, y: int, w: int, h: int)

  /** The framework's `Rectangle.Empty`. */
  const EmptyRect := Rect(0, 0, 0, 0)

  /** A nullable reference: `None` stands for `null`. */
  datatype Option<T> = None | Some(value: T)

  /** The callbacks the scenes receive from the game and may invoke. Their
      bodies are not part of this model; invoking one is recorded as an
      event. */
  datatype Callback = Quit | NewGame | ContinueGame

  /** The keys the game reads. */
  datatype Key = Enter | Space | Up | Down | Left | Right | Escape | F12 | LeftControl | LeftAlt

  /** A key press as every scene reads it: the key is down in this frame's
      keyboard state `now` and was up in the previous frame's state `last`. */
  predicate Pressed(k: Key, now: set<Key>, last: set<Key>)
  {
    k in now && k !in last
  }

  /** The menu arrows' blink: frames 0 and 1 swap, any other frame stays. */
  function Blink(anim: int): (r: int)
    ensures 0 <= anim < 2 ==> 0 <= r < 2 && r != anim
    ensures !(0 <= anim < 2) ==> r == anim
  {
    if anim == 0 then 1 else if anim == 1 then 0 else anim
  }

  /** 1 for a pressed key, 0 otherwise. */
  function Count(b: bool): int
  {
    if b then 1 else 0
  }

  /** The top-level scene the game shows. */
  datatype GameScene = MainMenuScene | GameplayScene | PauseScene | UnitInfoScene
}
