/** The sliding interface panels of the heads-up display (`UIObject`) and the
    static manager that owns them (`InterfaceManager`).

    A panel has an open and a closed position and slides between them by
    `transitionSpeed` pixels per interface tick. Its state is one of four
    (`open`, `transitionClose`, `closed`, `transitionOpen`); an optional
    auto-close timer counts ticks and starts the closing slide when it expires.

    Every `UIObject` field is mirrored by the `Panel` value; the pure functions
    on `Panel` are the specification the class methods are proved against, and
    the lemmas state what those functions promise over several ticks. */
module Interface {
  import opened Common

  datatype UiTransitionState = Open | TransitionClose | Closed | TransitionOpen

  /** The fields of one `UIObject`, as a value. */
  datatype Panel = Panel(
    openPosition: Point,
    closedPosition: Point,
    currentPosition: Point,
    size: Point,
    spriteRect: Rect,
    transitionState: UiTransitionState,
    transitionSpeed: int,
    closable: bool,
    toClose: bool,
    toCloseTimer: int,
    toCloseAfterTicks: int)

  /** The panel the `UIObject` constructor builds: it rests at the open
      position when it starts open and at the closed position otherwise. */
  function NewPanel(openPosition: Point, closedPosition: Point, size: Point,
                    startState: UiTransitionState, spriteRect: Rect, transitionSpeed: int): Panel
  {
    Panel(openPosition, closedPosition,
          if startState == Open then openPosition else closedPosition,
          size, spriteRect, startState, transitionSpeed,
          true, false, 0, 0)
  }

  function Add(a: Point, b: Point): Point { Point(a.x + b.x, a.y + b.y) }

  /** The displacement of one tick of a slide that leads from `from` to `to`:
      `speed` along every axis on which the two differ, in their direction. */
  function Velocity(from: Point, to: Point, speed: int): Point
  {
    Point(if to.x < from.x then -speed else if to.x > from.x then speed else 0,
          if to.y < from.y then -speed else if to.y > from.y then speed else 0)
  }

  /** The point `k` ticks of velocity `v` before reaching `goal`. */
  function Behind(goal: Point, v: Point, k: nat): Point
  {
    Point(goal.x - k * v.x, goal.y - k * v.y)
  }

  /** Layout and configuration that no tick, open or close changes. */
  predicate SameLayout(a: Panel, b: Panel)
  {
    && a.openPosition == b.openPosition
    && a.closedPosition == b.closedPosition
    && a.size == b.size
    && a.spriteRect == b.spriteRect
    && a.transitionSpeed == b.transitionSpeed
    && a.closable == b.closable
    && a.toCloseAfterTicks == b.toCloseAfterTicks
  }

  /** The auto-close part of `UIObject.Update`: count one tick and, when the
      count reaches the limit, disarm the timer and start closing. */
  function AutoCloseTick(p: Panel): Panel
  {
    if !p.toClose then p
    else if p.toCloseTimer + 1 >= p.toCloseAfterTicks then
      p.(transitionState := TransitionClose, toClose := false, toCloseTimer := 0)
    else
      p.(toCloseTimer := p.toCloseTimer + 1)
  }

  /** The sliding part of `UIObject.Update`. */
  function Slide(p: Panel): Panel
  {
    if p.transitionState == TransitionClose then
      var pos := Add(p.currentPosition, Velocity(p.openPosition, p.closedPosition, p.transitionSpeed));
      p.(currentPosition := pos,
         transitionState := if pos == p.closedPosition then Closed else TransitionClose)
    else if p.transitionState == TransitionOpen then
      var pos := Add(p.currentPosition, Velocity(p.closedPosition, p.openPosition, p.transitionSpeed));
      p.(currentPosition := pos,
         transitionState := if pos == p.openPosition then Open else TransitionOpen)
    else
      p
  }

  /** One interface tick of a panel (`UIObject.Update`). */
  function UpdatePanel(p: Panel): (r: Panel)
    ensures SameLayout(r, p)
    // a panel at rest (after the timer check) does not move
    ensures var s := AutoCloseTick(p).transitionState;
      (s == Open || s == Closed) ==> r.currentPosition == p.currentPosition && r.transitionState == s
    // a closing panel moves one step toward the closed side, and is closed exactly when it arrives
    ensures AutoCloseTick(p).transitionState == TransitionClose ==>
      && r.currentPosition == Add(p.currentPosition, Velocity(p.openPosition, p.closedPosition, p.transitionSpeed))
      && (r.transitionState == Closed <==> r.currentPosition == p.closedPosition)
      && (r.transitionState == Closed || r.transitionState == TransitionClose)
    // an opening panel moves one step toward the open side, and is open exactly when it arrives
    ensures AutoCloseTick(p).transitionState == TransitionOpen ==>
      && r.currentPosition == Add(p.currentPosition, Velocity(p.closedPosition, p.openPosition, p.transitionSpeed))
      && (r.transitionState == Open <==> r.currentPosition == p.openPosition)
      && (r.transitionState == Open || r.transitionState == TransitionOpen)
    // the auto-close timer
    ensures p.toClose && p.toCloseTimer + 1 >= p.toCloseAfterTicks ==>
      !r.toClose && r.toCloseTimer == 0 && (r.transitionState == TransitionClose || r.transitionState == Closed)
    ensures p.toClose && p.toCloseTimer + 1 < p.toCloseAfterTicks ==>
      r.toClose && r.toCloseTimer == p.toCloseTimer + 1
    ensures !p.toClose ==> !r.toClose && r.toCloseTimer == p.toCloseTimer
  {
    Slide(AutoCloseTick(p))
  }

  /** `UIObject.Open`: a closed or closing panel starts opening, an open or
      opening one keeps its state; with `toClose` the auto-close timer is
      armed from zero. The position never changes here. */
  function OpenPanel(p: Panel, toClose: bool, afterTicks: int): (r: Panel)
    ensures SameLayout(r, p.(toCloseAfterTicks := r.toCloseAfterTicks))
    ensures r.currentPosition == p.currentPosition
    ensures r.transitionState == (if p.transitionState.Open? then Open else TransitionOpen)
    ensures toClose ==> r.toClose && r.toCloseTimer == 0 && r.toCloseAfterTicks == afterTicks
    ensures !toClose ==> r.toClose == p.toClose && r.toCloseTimer == p.toCloseTimer
                         && r.toCloseAfterTicks == p.toCloseAfterTicks
  {
    var q := if p.transitionState == TransitionClose || p.transitionState == Closed
             then p.(transitionState := TransitionOpen) else p;
    if toClose then q.(toClose := true, toCloseTimer := 0, toCloseAfterTicks := afterTicks) else q
  }

  /** `UIObject.Close`: an open or opening panel starts closing; a closed or
      closing panel, and any panel that is not closable, is left as it is. */
  function ClosePanel(p: Panel): (r: Panel)
    ensures r == p || (p.closable && r == p.(transitionState := TransitionClose))
    ensures p.closable && (p.transitionState == Open || p.transitionState == TransitionOpen)
            <==> r.transitionState == TransitionClose && p.transitionState != TransitionClose
  {
    if !p.closable then p
    else if p.transitionState == Open || p.transitionState == TransitionOpen then
      p.(transitionState := TransitionClose)
    else p
  }

  /** `n` consecutive interface ticks of one panel. */
  function UpdateN(p: Panel, n: nat): Panel
    decreases n
  {
    if n == 0 then p else UpdateN(UpdatePanel(p), n - 1)
  }

  /** Where a sliding panel is heading, where it comes from, and the state it
      rests in on arrival. */
  function Goal(p: Panel): Point
  {
    if p.transitionState == TransitionClose then p.closedPosition else p.openPosition
  }

  function Origin(p: Panel): Point
  {
    if p.transitionState == TransitionClose then p.openPosition else p.closedPosition
  }

  function RestState(s: UiTransitionState): UiTransitionState
  {
    if s == TransitionClose then Closed else Open
  }

  /** A sliding panel, with no auto-close pending, that is exactly `k` ticks of
      its own velocity away from its goal. */
  predicate OnTrack(p: Panel, k: nat)
  {
    && (p.transitionState == TransitionClose || p.transitionState == TransitionOpen)
    && !p.toClose
    && p.transitionSpeed > 0
    && p.openPosition != p.closedPosition
    && p.currentPosition == Behind(Goal(p), Velocity(Origin(p), Goal(p), p.transitionSpeed), k)
  }

  lemma BehindStep(goal: Point, v: Point, k: nat)
    requires k >= 1
    ensures Add(Behind(goal, v, k), v) == Behind(goal, v, k - 1)
  {
    assert k * v.x - v.x == (k - 1) * v.x;
    assert k * v.y - v.y == (k - 1) * v.y;
  }

  lemma BehindDiffers(goal: Point, v: Point, k: nat)
    requires k >= 1 && v != Point(0, 0)
    ensures Behind(goal, v, k) != goal
  {
    if v.x != 0 {
      assert k * v.x != 0 by {
        if v.x > 0 { assert k * v.x >= v.x; } else { assert k * v.x <= v.x; }
      }
    } else {
      assert k * v.y != 0 by {
        if v.y > 0 { assert k * v.y >= v.y; } else { assert k * v.y <= v.y; }
      }
    }
  }

  /** A panel on track `k >= 1` ticks from its goal stays in its sliding state
      for exactly `k - 1` more ticks and arrives, at rest, on the `k`-th. */
  lemma {:induction false} TransitionCompletes(p: Panel, k: nat)
    requires k >= 1 && OnTrack(p, k)
    ensures UpdateN(p, k) == p.(currentPosition := Goal(p), transitionState := RestState(p.transitionState))
    ensures forall j :: 0 <= j < k ==> UpdateN(p, j).transitionState == p.transitionState
    decreases k
  {
    var v := Velocity(Origin(p), Goal(p), p.transitionSpeed);
    var q := UpdatePanel(p);
    BehindStep(Goal(p), v, k);
    assert q.currentPosition == Behind(Goal(p), v, k - 1);
    if k == 1 {
      assert q == p.(currentPosition := Goal(p), transitionState := RestState(p.transitionState));
    } else {
      assert v != Point(0, 0);
      BehindDiffers(Goal(p), v, k - 1);
      assert q == p.(currentPosition := Behind(Goal(p), v, k - 1));
      TransitionCompletes(q, k - 1);
      forall j | 0 <= j < k
        ensures UpdateN(p, j).transitionState == p.transitionState
      {
        if j > 0 { assert UpdateN(p, j) == UpdateN(q, j - 1); }
      }
    }
  }

  /** An open, closable panel whose open position lies `k` ticks before its
      closed one: closing it takes exactly `k` ticks, and opening it again
      afterwards takes `k` more and restores the panel it was. */
  lemma CloseReopenRoundTrip(p: Panel, k: nat)
    requires p.transitionState == Open && p.currentPosition == p.openPosition
    requires p.closable && !p.toClose && p.transitionSpeed > 0 && k >= 1
    requires p.openPosition != p.closedPosition
    requires p.openPosition == Behind(p.closedPosition, Velocity(p.openPosition, p.closedPosition, p.transitionSpeed), k)
    ensures UpdateN(ClosePanel(p), k) == p.(currentPosition := p.closedPosition, transitionState := Closed)
    ensures UpdateN(OpenPanel(UpdateN(ClosePanel(p), k), false, 0), k) == p
  {
    var v := Velocity(p.openPosition, p.closedPosition, p.transitionSpeed);
    BehindDiffers(p.closedPosition, v, k);
    var c := ClosePanel(p);
    assert OnTrack(c, k);
    TransitionCompletes(c, k);
    var shut := UpdateN(c, k);
    var o := OpenPanel(shut, false, 0);
    var w := Velocity(p.closedPosition, p.openPosition, p.transitionSpeed);
    assert w == Point(-v.x, -v.y);
    assert k * w.x == -(k * v.x) && k * w.y == -(k * v.y);
    assert OnTrack(o, k);
    TransitionCompletes(o, k);
  }

  /** The auto-close timer armed by `Open(true, n)` stays armed and counts the
      ticks while fewer than `n` have passed, and on the `n`-th tick it is
      disarmed, reset to zero and the panel is closing (or already closed). */
  lemma {:induction false} AutoCloseFiresOnTick(p: Panel, n: int, j: nat)
    requires p.toClose && p.toCloseTimer == 0 && p.toCloseAfterTicks == n && 1 <= n && j <= n
    ensures UpdateN(p, j).toCloseAfterTicks == n
    ensures j < n ==> UpdateN(p, j).toClose && UpdateN(p, j).toCloseTimer == j
    ensures j == n ==> && !UpdateN(p, j).toClose && UpdateN(p, j).toCloseTimer == 0
                       && (UpdateN(p, j).transitionState == TransitionClose || UpdateN(p, j).transitionState == Closed)
    decreases j
  {
    if j > 0 {
      AutoCloseFiresOnTick(p, n, j - 1);
      UpdateNLast(p, j);
    }
  }

  /** Taking the last of `n` ticks separately. */
  lemma {:induction false} UpdateNLast(p: Panel, n: nat)
    requires n >= 1
    ensures UpdateN(p, n) == UpdatePanel(UpdateN(p, n - 1))
    decreases n
  {
    if n > 1 {
      UpdateNLast(UpdatePanel(p), n - 1);
    }
  }

  /** The damage and health number sprites (`damageSpriteRects`), keyed by
      the number they show; entry 0 is the fallback. */
  const DamageSpriteRects: map<int, Rect> := map[
    0 := Rect(80, 10, 10, 10),
    1 := Rect(10, 0, 10, 10),
    2 := Rect(20, 0, 10, 10),
    3 := Rect(30, 0, 10, 10),
    4 := Rect(40, 0, 10, 10),
    5 := Rect(50, 0, 10, 10),
    6 := Rect(60, 0, 10, 10),
    7 := Rect(70, 0, 10, 10),
    8 := Rect(80, 0, 10, 10),
    9 := Rect(90, 0, 10, 10),
    10 := Rect(100, 0, 10, 10),
    11 := Rect(110, 0, 10, 10),
    12 := Rect(120, 0, 10, 10),
    13 := Rect(130, 0, 10, 10),
    14 := Rect(140, 0, 10, 10),
    15 := Rect(150, 0, 10, 10),
    16 := Rect(90, 10, 10, 10),
    17 := Rect(100, 10, 10, 10),
    18 := Rect(110, 10, 10, 10),
    19 := Rect(120, 10, 10, 10),
    20 := Rect(130, 10, 10, 10),
    21 := Rect(140, 10, 10, 10),
    22 := Rect(150, 10, 10, 10)
  ]

  /** The table key used to show `n`: the number itself for 1..22, the
      fallback 0 otherwise. Every key it yields is in the table. */
  function SpriteKey(n: int): (k: int)
    ensures k in DamageSpriteRects
    ensures 0 <= k <= 22
    ensures 1 <= n <= 22 ==> k == n
    ensures !(1 <= n <= 22) ==> k == 0
  {
    if n > 0 && n < 23 then n else 0
  }

  function NumberSprite(n: int): Rect
  {
    DamageSpriteRects[SpriteKey(n)]
  }

  /** Position of each panel in `uiObjects`, as `Initialize` adds them. */
  const HealthNumIndex := 1
  const HealthTextIndex := 2
  const DamageTextIndex := 3
  const DamageNumIndex := 4

  /** The panels `InterfaceManager.Initialize` creates, in list order. */
  function InitialPanels(): seq<Panel>
  {
    [ NewPanel(Point(54, 20), Point(64, 20), Point(10, 10), Open, Rect(0, 0, 10, 10), 1),
      NewPanel(Point(0, 0), Point(-10, 0), Point(10, 10), Open, Rect(20, 0, 10, 10), 1),
      NewPanel(Point(10, 0), Point(10, -10), Point(10, 10), Open, Rect(0, 30, 10, 10), 1),
      NewPanel(Point(34, 0), Point(34, -10), Point(30, 10), Closed, Rect(20, 10, 30, 10), 1),
      NewPanel(Point(24, 0), Point(24, -10), Point(10, 10), Closed, Rect(10, 0, 10, 10), 1) ]
  }

  /** `UpdateTick` on the list of panels. */
  function TickAll(ps: seq<Panel>): (r: seq<Panel>)
    ensures |r| == |ps| && forall i :: 0 <= i < |ps| ==> r[i] == UpdatePanel(ps[i])
  {
    seq(|ps|, i requires 0 <= i < |ps| => UpdatePanel(ps[i]))
  }

  function TickAllN(ps: seq<Panel>, n: nat): seq<Panel>
    decreases n
  {
    if n == 0 then ps else TickAllN(TickAll(ps), n - 1)
  }

  /** `n` manager ticks move every panel exactly as `n` ticks of its own. */
  lemma {:induction false} TickAllNPointwise(ps: seq<Panel>, n: nat)
    ensures |TickAllN(ps, n)| == |ps|
    ensures forall i :: 0 <= i < |ps| ==> TickAllN(ps, n)[i] == UpdateN(ps[i], n)
    decreases n
  {
    if n > 0 {
      TickAllNPointwise(TickAll(ps), n - 1);
    }
  }

  /** `OpenAll` on the list of panels: every panel that is not open starts
      opening; nothing else about any panel changes. */
  function OpenAllPanels(ps: seq<Panel>): (r: seq<Panel>)
    ensures |r| == |ps|
    ensures forall i :: 0 <= i < |ps| ==>
      r[i].transitionState == (if ps[i].transitionState == Open then Open else TransitionOpen)
      && r[i] == ps[i].(transitionState := r[i].transitionState)
  {
    seq(|ps|, i requires 0 <= i < |ps| => StartOpening(ps[i]))
  }

  /** `OpenAll` on one panel. */
  function StartOpening(p: Panel): Panel
  {
    if p.transitionState == Open then p else p.(transitionState := TransitionOpen)
  }

  /** `CloseAll` on the list of panels: every panel that is not closed starts
      closing, whether or not it is closable; nothing else changes. */
  function CloseAllPanels(ps: seq<Panel>): (r: seq<Panel>)
    ensures |r| == |ps|
    ensures forall i :: 0 <= i < |ps| ==>
      r[i].transitionState == (if ps[i].transitionState == Closed then Closed else TransitionClose)
      && r[i] == ps[i].(transitionState := r[i].transitionState)
  {
    seq(|ps|, i requires 0 <= i < |ps| => StartClosing(ps[i]))
  }

  /** `CloseAll` on one panel. */
  function StartClosing(p: Panel): Panel
  {
    if p.transitionState == Closed then p else p.(transitionState := TransitionClose)
  }

  /** The manager's state as a value: its panels and the `allOpen` flag. */
  datatype Hud = Hud(panels: seq<Panel>, allOpen: bool)

  /** `ToggleAll`: close everything when all is open, else open everything;
      the flag flips either way. */
  function ToggleAllSpec(h: Hud): (r: Hud)
    ensures r.allOpen == !h.allOpen
    ensures r.panels == if h.allOpen then CloseAllPanels(h.panels) else OpenAllPanels(h.panels)
  {
    if h.allOpen then Hud(CloseAllPanels(h.panels), false) else Hud(OpenAllPanels(h.panels), true)
  }

  /** A panel at rest at the position that matches its state, with no
      auto-close pending. */
  predicate Settled(p: Panel)
  {
    && !p.toClose
    && ((p.transitionState == Open && p.currentPosition == p.openPosition)
        || (p.transitionState == Closed && p.currentPosition == p.closedPosition))
  }

  /** Where a settled or sliding panel ends up. */
  function Arrive(p: Panel): Panel
  {
    if Settled(p) then p else p.(currentPosition := Goal(p), transitionState := RestState(p.transitionState))
  }

  /** Panels that are each settled or on track `k` ticks from their goal are
      all settled after `k` manager ticks. */
  lemma AllArrive(ps: seq<Panel>, k: nat)
    requires k >= 1
    requires forall i :: 0 <= i < |ps| ==> Settled(ps[i]) || OnTrack(ps[i], k)
    ensures |TickAllN(ps, k)| == |ps|
    ensures forall i :: 0 <= i < |ps| ==> TickAllN(ps, k)[i] == Arrive(ps[i]) && Settled(Arrive(ps[i]))
  {
    TickAllNPointwise(ps, k);
    forall i | 0 <= i < |ps|
      ensures TickAllN(ps, k)[i] == Arrive(ps[i])
    {
      if Settled(ps[i]) {
        RestingPanelStays(ps[i], k);
      } else {
        TransitionCompletes(ps[i], k);
      }
    }
  }

  /** Every panel `Initialize` builds slides ten one-pixel ticks between its
      open and its closed position. */
  const SlideTicks: nat := 10

  /** The initial layout with every panel closed at its closed position. */
  function ClosedLayout(): (r: seq<Panel>)
    ensures |r| == 5
  {
    var ps := InitialPanels();
    seq(5, i requires 0 <= i < 5 => ps[i].(currentPosition := ps[i].closedPosition, transitionState := Closed))
  }

  /** Right after `CloseAll` on the initial layout, every panel is closed or is
      closing ten ticks from its closed position, and each arrives closed. */
  lemma InitialPanelsCloseOnTrack()
    ensures |CloseAllPanels(InitialPanels())| == 5
    ensures forall i :: 0 <= i < 5 ==>
      var c := CloseAllPanels(InitialPanels())[i];
      && (Settled(c) || OnTrack(c, SlideTicks))
      && Arrive(c) == ClosedLayout()[i]
  {
    forall i | 0 <= i < 5
      ensures var c := CloseAllPanels(InitialPanels())[i];
        (Settled(c) || OnTrack(c, SlideTicks)) && Arrive(c) == ClosedLayout()[i]
    {
      InitialPanelClosesOnTrack(i);
    }
  }

  lemma InitialPanelClosesOnTrack(i: int)
    requires 0 <= i < 5
    ensures var c := CloseAllPanels(InitialPanels())[i];
      (Settled(c) || OnTrack(c, SlideTicks)) && Arrive(c) == ClosedLayout()[i]
  {
    var p := InitialPanels()[i];
    assert ClosedLayout()[i] == p.(currentPosition := p.closedPosition, transitionState := Closed);
    InitialPanelTrack(i);
    InitialPanelAt(i);
    if i < 3 {
      assert CloseAllPanels(InitialPanels())[i] == p.(transitionState := TransitionClose);
      BehindReversed(p.openPosition, p.closedPosition, 1, SlideTicks);
      SlideClosesOnTrack(p);
    } else {
      assert CloseAllPanels(InitialPanels())[i] == p;
    }
  }

  /** The initial layout with every panel open at its open position. */
  function OpenLayout(): (r: seq<Panel>)
    ensures |r| == 5
  {
    var ps := InitialPanels();
    seq(5, i requires 0 <= i < 5 => ps[i].(currentPosition := ps[i].openPosition, transitionState := Open))
  }

  /** Right after `OpenAll` on the closed layout, every panel is opening ten
      ticks from its open position, and each arrives open there. */
  lemma ClosedLayoutOpensOnTrack()
    ensures |OpenAllPanels(ClosedLayout())| == 5
    ensures forall i :: 0 <= i < 5 ==>
      var o := OpenAllPanels(ClosedLayout())[i];
      && OnTrack(o, SlideTicks)
      && Arrive(o) == OpenLayout()[i]
  {
    forall i | 0 <= i < 5
      ensures var o := OpenAllPanels(ClosedLayout())[i];
        OnTrack(o, SlideTicks) && Arrive(o) == OpenLayout()[i]
    {
      ClosedPanelOpensOnTrack(i);
    }
  }

  lemma ClosedPanelOpensOnTrack(i: int)
    requires 0 <= i < 5
    ensures var o := OpenAllPanels(ClosedLayout())[i];
      OnTrack(o, SlideTicks) && Arrive(o) == OpenLayout()[i]
  {
    var p := InitialPanels()[i];
    assert OpenAllPanels(ClosedLayout())[i] == p.(currentPosition := p.closedPosition, transitionState := TransitionOpen);
    assert OpenLayout()[i] == p.(currentPosition := p.openPosition, transitionState := Open);
    InitialPanelTrack(i);
    SlideOpensOnTrack(p);
  }

  /** Every initial panel has speed one, no auto-close, and its closed
      position ten ticks of that speed from its open one. */
  lemma InitialPanelTrack(i: int)
    requires 0 <= i < 5
    ensures var p := InitialPanels()[i];
      && p.transitionSpeed == 1 && !p.toClose && p.openPosition != p.closedPosition
      && p.closedPosition == Behind(p.openPosition, Velocity(p.closedPosition, p.openPosition, 1), SlideTicks)
  {
    InitialPanelAt(i);
    var ps := InitialPanels();
    if i == 0 {
      assert ps[0] == NewPanel(Point(54, 20), Point(64, 20), Point(10, 10), Open, Rect(0, 0, 10, 10), 1);
    } else if i == 1 {
      assert ps[1] == NewPanel(Point(0, 0), Point(-10, 0), Point(10, 10), Open, Rect(20, 0, 10, 10), 1);
    } else if i == 2 {
      assert ps[2] == NewPanel(Point(10, 0), Point(10, -10), Point(10, 10), Open, Rect(0, 30, 10, 10), 1);
    } else if i == 3 {
      assert ps[3] == NewPanel(Point(34, 0), Point(34, -10), Point(30, 10), Closed, Rect(20, 10, 30, 10), 1);
    } else {
      assert ps[4] == NewPanel(Point(24, 0), Point(24, -10), Point(10, 10), Closed, Rect(10, 0, 10, 10), 1);
    }
  }

  /** The first three initial panels are open at their open position, the
      two damage panels closed at their closed one. */
  lemma InitialPanelAt(i: int)
    requires 0 <= i < 5
    ensures var p := InitialPanels()[i];
      && p.transitionSpeed == 1 && !p.toClose
      && p.currentPosition == (if i < 3 then p.openPosition else p.closedPosition)
      && p.transitionState == (if i < 3 then Open else Closed)
  {
  }

  /** `k` ticks back from `b` toward `a` is `a` exactly when `k` ticks back
      from `a` toward `b` is `b`. */
  lemma BehindReversed(a: Point, b: Point, speed: int, k: nat)
    requires b == Behind(a, Velocity(b, a, speed), k)
    ensures a == Behind(b, Velocity(a, b, speed), k)
  {
    var v, w := Velocity(b, a, speed), Velocity(a, b, speed);
    assert w == Point(-v.x, -v.y);
    assert k * w.x == -(k * v.x) && k * w.y == -(k * v.y);
  }

  /** A panel `SlideTicks` steps of speed one from open to closed, put at its
      closed position and set opening, is on track to arrive open. */
  lemma SlideOpensOnTrack(p: Panel)
    requires p.transitionSpeed == 1 && !p.toClose && p.openPosition != p.closedPosition
    requires p.closedPosition == Behind(p.openPosition, Velocity(p.closedPosition, p.openPosition, 1), SlideTicks)
    ensures var o := p.(currentPosition := p.closedPosition, transitionState := TransitionOpen);
      OnTrack(o, SlideTicks) && Arrive(o) == p.(currentPosition := p.openPosition, transitionState := Open)
  {
  }

  /** The same panel open at its open position and set closing is on track to
      arrive closed. */
  lemma SlideClosesOnTrack(p: Panel)
    requires p.transitionSpeed == 1 && !p.toClose && p.openPosition != p.closedPosition
    requires p.openPosition == Behind(p.closedPosition, Velocity(p.openPosition, p.closedPosition, 1), SlideTicks)
    requires p.currentPosition == p.openPosition
    ensures var c := p.(transitionState := TransitionClose);
      OnTrack(c, SlideTicks) && Arrive(c) == p.(currentPosition := p.closedPosition, transitionState := Closed)
  {
  }

  /** From the layout `Initialize` builds, toggling the interface closes every
      panel within ten ticks, and toggling it again opens every panel (the
      damage panels included, which start closed) within ten more. */
  lemma ToggleAllSettlesInTenTicks(h: Hud)
    requires h == Hud(InitialPanels(), true)
    ensures TickAllN(ToggleAllSpec(h).panels, SlideTicks) == ClosedLayout()
    ensures TickAllN(ToggleAllSpec(Hud(ClosedLayout(), false)).panels, SlideTicks) == OpenLayout()
  {
    InitialPanelsCloseOnTrack();
    AllArrive(ToggleAllSpec(h).panels, SlideTicks);
    ClosedLayoutOpensOnTrack();
    AllArrive(ToggleAllSpec(Hud(ClosedLayout(), false)).panels, SlideTicks);
  }

  /** A panel at rest with no auto-close pending does not change. */
  lemma {:induction false} RestingPanelStays(p: Panel, n: nat)
    requires p.transitionState == Open || p.transitionState == Closed
    requires !p.toClose
    ensures UpdateN(p, n) == p
    decreases n
  {
    if n > 0 {
      assert UpdatePanel(p) == p;
      RestingPanelStays(p, n - 1);
    }
  }

  /** `ShowDamage(d)`: the damage number shows `d` (or the fallback), and
      both damage panels open with a 40-tick auto-close. */
  function ShowDamagePanels(ps: seq<Panel>, d: int): (r: seq<Panel>)
    requires |ps| == 5
    ensures |r| == 5
    ensures r[DamageNumIndex] == OpenPanel(ps[DamageNumIndex].(spriteRect := NumberSprite(d)), true, 40)
    ensures r[DamageTextIndex] == OpenPanel(ps[DamageTextIndex], true, 40)
    ensures forall i :: 0 <= i < 3 ==> r[i] == ps[i]
  {
    ps[DamageNumIndex := OpenPanel(ps[DamageNumIndex].(spriteRect := NumberSprite(d)), true, 40)]
      [DamageTextIndex := OpenPanel(ps[DamageTextIndex], true, 40)]
  }

  /** `ShowDamage` applied once per shown number, in order. */
  function ShowDamageAll(ps: seq<Panel>, ds: seq<int>): (r: seq<Panel>)
    requires |ps| == 5
    ensures |r| == 5
    decreases |ds|
  {
    if ds == [] then ps else ShowDamageAll(ShowDamagePanels(ps, ds[0]), ds[1..])
  }

  /** `UpdateHealth` as the source writes it: a health outside 1..22 sets the
      DAMAGE number panel to the fallback sprite and leaves the health number
      as it was. */
  function UpdateHealthAsWritten(ps: seq<Panel>, health: int): seq<Panel>
    requires |ps| == 5
  {
    if health > 0 && health < 23 then
      ps[HealthNumIndex := ps[HealthNumIndex].(spriteRect := DamageSpriteRects[health])]
    else
      ps[DamageNumIndex := ps[DamageNumIndex].(spriteRect := DamageSpriteRects[0])]
  }

  /** The discrepancy: after `ShowDamage(5)`, a health of 0 overwrites the
      damage number with the fallback sprite while the health number keeps
      showing its old value. */
  lemma UpdateHealthAsWrittenMisroutesFallback()
    ensures var shown := ShowDamagePanels(UpdateHealthPanels(InitialPanels(), 10), 5);
      && UpdateHealthAsWritten(shown, 0)[HealthNumIndex] == shown[HealthNumIndex]
      && shown[HealthNumIndex].spriteRect == NumberSprite(10)
      && UpdateHealthAsWritten(shown, 0)[DamageNumIndex].spriteRect != shown[DamageNumIndex].spriteRect
  {
  }

  /** For every health outside 1..22, the as-written `UpdateHealth` leaves
      the health number as it was and puts the fallback sprite on the damage
      number instead; no other panel changes. */
  lemma UpdateHealthAsWrittenOutOfRange(ps: seq<Panel>, health: int)
    requires |ps| == 5 && !(1 <= health <= 22)
    ensures var r := UpdateHealthAsWritten(ps, health);
      && |r| == 5
      && r[HealthNumIndex] == ps[HealthNumIndex]
      && r[DamageNumIndex] == ps[DamageNumIndex].(spriteRect := DamageSpriteRects[0])
      && forall i :: 0 <= i < 5 && i != DamageNumIndex ==> r[i] == ps[i]
  {
  }

  /** `UpdateHealth` as evidently intended: the health number panel shows the
      health, or the fallback sprite when the table has no entry for it; no
      other panel changes. */
  function UpdateHealthPanels(ps: seq<Panel>, health: int): (r: seq<Panel>)
    requires |ps| == 5
    ensures |r| == 5
    ensures r[HealthNumIndex] == ps[HealthNumIndex].(spriteRect := NumberSprite(health))
    ensures 1 <= health <= 22 ==> r[HealthNumIndex].spriteRect == DamageSpriteRects[health]
    ensures !(1 <= health <= 22) ==> r[HealthNumIndex].spriteRect == DamageSpriteRects[0]
    ensures forall i :: 0 <= i < 5 && i != HealthNumIndex ==> r[i] == ps[i]
  {
    if health > 0 && health < 23 then
      ps[HealthNumIndex := ps[HealthNumIndex].(spriteRect := DamageSpriteRects[health])]
    else
      ps[HealthNumIndex := ps[HealthNumIndex].(spriteRect := DamageSpriteRects[0])]
  }

  /** The as-written and the corrected `UpdateHealth` agree on every health
      the sprite table covers. */
  lemma UpdateHealthAgreesInRange(ps: seq<Panel>, health: int)
    requires |ps| == 5 && 1 <= health <= 22
    ensures UpdateHealthAsWritten(ps, health) == UpdateHealthPanels(ps, health)
  {
  }

  /** One sliding panel of the interface. */
  class UIObject {
    var openPosition: Point
    var closedPosition: Point
    var currentPosition: Point
    var size: Point
    var spriteRect: Rect
    var transitionState: UiTransitionState
    var transitionSpeed: int
    var closable: bool
    var toClose: bool
    var toCloseTimer: int
    var toCloseAfterTicks: int

    function View(): Panel
      reads this
    {
      Panel(openPosition, closedPosition, currentPosition, size, spriteRect, transitionState,
            transitionSpeed, closable, toClose, toCloseTimer, toCloseAfterTicks)
    }

    constructor (openPosition: Point, closedPosition: Point, size: Point,
                 startState: UiTransitionState, spriteRect: Rect, transitionSpeed: int := 1)
      ensures View() == NewPanel(openPosition, closedPosition, size, startState, spriteRect, transitionSpeed)
      ensures currentPosition == if startState == UiTransitionState.Open then openPosition else closedPosition
    {
      this.openPosition := openPosition;
      this.closedPosition := closedPosition;
      this.size := size;
      this.transitionState := startState;
      this.transitionSpeed := transitionSpeed;
      this.spriteRect := spriteRect;
      this.closable := true;
      this.toClose := false;
      this.toCloseTimer := 0;
      this.toCloseAfterTicks := 0;
      if startState == UiTransitionState.Open {
        this.currentPosition := openPosition;
      } else {
        this.currentPosition := closedPosition;
      }
    }

    method Update()
      modifies this
      ensures View() == UpdatePanel(old(View()))
    {
      AutoClose();
      ghost var ticked := View();
      SlideStep();
      assert View() == Slide(ticked);
    }

    /** The auto-close timer at the head of `Update`. */
    method AutoClose()
      modifies this
      ensures View() == AutoCloseTick(old(View()))
    {
      if toClose {
        toCloseTimer := toCloseTimer + 1;
        if toCloseTimer >= toCloseAfterTicks {
          transitionState := TransitionClose;
          toClose := false;
          toCloseTimer := 0;
        }
      }
    }

    /** The slide of `Update`: a closing or opening panel moves and stops
        on arriving. */
    method SlideStep()
      modifies this
      ensures View() == Slide(old(View()))
    {
      if transitionState == TransitionClose {
        MoveToward(openPosition, closedPosition);
        if currentPosition == closedPosition {
          transitionState := Closed;
        }
      } else if transitionState == TransitionOpen {
        MoveToward(closedPosition, openPosition);
        if currentPosition == openPosition {
          transitionState := UiTransitionState.Open;
        }
      }
    }

    /** One step of `transitionSpeed` along each axis on which `to` differs
        from `from`, toward `to`. */
    method MoveToward(from: Point, to: Point)
      modifies this
      ensures View() == old(View()).(currentPosition := Add(old(currentPosition), Velocity(from, to, transitionSpeed)))
    {
      if to.x < from.x {
        currentPosition := currentPosition.(x := currentPosition.x - transitionSpeed);
      } else if to.x > from.x {
        currentPosition := currentPosition.(x := currentPosition.x + transitionSpeed);
      }
      if to.y < from.y {
        currentPosition := currentPosition.(y := currentPosition.y - transitionSpeed);
      } else if to.y > from.y {
        currentPosition := currentPosition.(y := currentPosition.y + transitionSpeed);
      }
    }

    /** The body of `InterfaceManager.OpenAll`'s loop on this panel. */
    method BeginOpening()
      modifies this
      ensures View() == StartOpening(old(View()))
    {
      if transitionState != UiTransitionState.Open {
        transitionState := TransitionOpen;
      }
    }

    /** The body of `InterfaceManager.CloseAll`'s loop on this panel. */
    method BeginClosing()
      modifies this
      ensures View() == StartClosing(old(View()))
    {
      if transitionState != Closed {
        transitionState := TransitionClose;
      }
    }

    method Open(toClose: bool := false, afterTicks: int := 100)
      modifies this
      ensures View() == OpenPanel(old(View()), toClose, afterTicks)
    {
      if transitionState == TransitionClose || transitionState == Closed {
        transitionState := TransitionOpen;
      }
      if toClose {
        this.toClose := true;
        toCloseTimer := 0;
        toCloseAfterTicks := afterTicks;
      }
    }

    method Close()
      modifies this
      ensures View() == ClosePanel(old(View()))
    {
      if !closable {
        return;
      }
      if transitionState == UiTransitionState.Open || transitionState == TransitionOpen {
        transitionState := TransitionClose;
      }
    }
  }

  /** The static `InterfaceManager`: five panels in `uiObjects`, four of them
      also reachable by name, and the `allOpen` flag. */
  class InterfaceManager {
    var uiObjects: seq<UIObject>
    var damageText: UIObject
    var damageNum: UIObject
    var healthText: UIObject
    var healthNum: UIObject
    var allOpen: bool
    ghost var Repr: set<object>

    ghost predicate Valid()
      reads this, Repr
    {
      && |uiObjects| == 5
      && uiObjects[HealthNumIndex] == healthNum
      && uiObjects[HealthTextIndex] == healthText
      && uiObjects[DamageTextIndex] == damageText
      && uiObjects[DamageNumIndex] == damageNum
      && (forall i, j :: 0 <= i < j < |uiObjects| ==> uiObjects[i] != uiObjects[j])
      && Repr == {this, uiObjects[0], uiObjects[1], uiObjects[2], uiObjects[3], uiObjects[4]}
    }

    /** The panels in list order. */
    ghost function Panels(): (ps: seq<Panel>)
      requires Valid()
      reads this, Repr
      ensures |ps| == 5
    {
      [uiObjects[0].View(), uiObjects[1].View(), uiObjects[2].View(), uiObjects[3].View(), uiObjects[4].View()]
    }

    ghost function State(): Hud
      requires Valid()
      reads this, Repr
    {
      Hud(Panels(), allOpen)
    }

    /** `Initialize`, without the texture loading. */
    constructor ()
      ensures Valid() && fresh(Repr - {this})
      ensures State() == Hud(InitialPanels(), true)
    {
      var first := new UIObject(Point(54, 20), Point(64, 20), Point(10, 10), UiTransitionState.Open, Rect(0, 0, 10, 10));
      var dText := new UIObject(Point(34, 0), Point(34, -10), Point(30, 10), Closed, Rect(20, 10, 30, 10));
      var dNum := new UIObject(Point(24, 0), Point(24, -10), Point(10, 10), Closed, Rect(10, 0, 10, 10));
      var hNum := new UIObject(Point(0, 0), Point(-10, 0), Point(10, 10), UiTransitionState.Open, Rect(20, 0, 10, 10));
      var hText := new UIObject(Point(10, 0), Point(10, -10), Point(10, 10), UiTransitionState.Open, Rect(0, 30, 10, 10));
      damageText := dText;
      damageNum := dNum;
      healthNum := hNum;
      healthText := hText;
      uiObjects := [first, hNum, hText, dText, dNum];
      allOpen := true;
      Repr := {this, first, hNum, hText, dText, dNum};
    }

    /** `UpdateTick`: one tick of every panel, in list order. */
    method UpdateTick()
      requires Valid()
      modifies Repr
      ensures Valid() && Repr == old(Repr)
      ensures State() == Hud(TickAll(old(Panels())), old(allOpen))
    {
      var objs := uiObjects;
      var i := 0;
      while i < |objs|
        invariant 0 <= i <= |objs|
        invariant unchanged(this)
        invariant forall k :: 0 <= k < i ==> objs[k].View() == UpdatePanel(old(objs[k].View()))
        invariant forall k :: i <= k < |objs| ==> objs[k].View() == old(objs[k].View())
      {
        objs[i].Update();
        i := i + 1;
      }
    }

    method OpenAll()
      requires Valid()
      modifies Repr
      ensures Valid() && Repr == old(Repr)
      ensures State() == Hud(OpenAllPanels(old(Panels())), true)
    {
      var objs := uiObjects;
      ghost var ps0 := Panels();
      ghost var target := OpenAllPanels(ps0);
      var i := 0;
      while i < |objs|
        invariant 0 <= i <= |objs|
        invariant unchanged(this)
        invariant forall k :: 0 <= k < i ==> objs[k].View() == target[k]
        invariant forall k :: i <= k < |objs| ==> objs[k].View() == ps0[k]
      {
        objs[i].BeginOpening();
        i := i + 1;
      }
      allOpen := true;
    }

    method CloseAll()
      requires Valid()
      modifies Repr
      ensures Valid() && Repr == old(Repr)
      ensures State() == Hud(CloseAllPanels(old(Panels())), false)
    {
      var objs := uiObjects;
      ghost var ps0 := Panels();
      ghost var target := CloseAllPanels(ps0);
      var i := 0;
      while i < |objs|
        invariant 0 <= i <= |objs|
        invariant unchanged(this)
        invariant forall k :: 0 <= k < i ==> objs[k].View() == target[k]
        invariant forall k :: i <= k < |objs| ==> objs[k].View() == ps0[k]
      {
        objs[i].BeginClosing();
        i := i + 1;
      }
      allOpen := false;
    }

    method ToggleAll()
      requires Valid()
      modifies Repr
      ensures Valid() && Repr == old(Repr)
      ensures State() == ToggleAllSpec(old(State()))
    {
      if allOpen {
        CloseAll();
      } else {
        OpenAll();
      }
    }

    method ShowDamage(damage: int)
      requires Valid()
      modifies Repr
      ensures Valid() && Repr == old(Repr)
      ensures State() == Hud(ShowDamagePanels(old(Panels()), damage), old(allOpen))
    {
      if damage > 0 && damage < 23 {
        damageNum.spriteRect := DamageSpriteRects[damage];
        damageNum.Open(true, 40);
        damageText.Open(true, 40);
      } else {
        damageNum.spriteRect := DamageSpriteRects[0];
        damageNum.Open(true, 40);
        damageText.Open(true, 40);
      }
    }

    /** `UpdateHealth` with its fallback routed to the health number (see
        `UpdateHealthAsWritten` for the branch as the source writes it). */
    method UpdateHealth(health: int)
      requires Valid()
      modifies Repr
      ensures Valid() && Repr == old(Repr)
      ensures State() == Hud(UpdateHealthPanels(old(Panels()), health), old(allOpen))
    {
      if health > 0 && health < 23 {
        healthNum.spriteRect := DamageSpriteRects[health];
      } else {
        healthNum.spriteRect := DamageSpriteRects[0];
      }
    }
  }
}
