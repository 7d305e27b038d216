/** The screen fade (`FadeScreen`): a 25-frame overlay that darkens from
    frame 24 down to frame 0, holds black for a configurable time, then
    lightens back up to frame 25, where it switches itself off.

    Two optional callbacks run on the way: one when the screen turns black
    and one when the fade ends. The model records each callback it invokes as
    a `FadeEvent`, grouped by the `StartFadeScreen` call that armed it, so
    that how often and in which order they run can be stated. What a callback
    does when it runs is up to its owner and is not part of this module. */
module Fade {
  import opened Common

  /** Number of overlay frames in the sprite sheet (`spriteRects`). */
  const FrameCount: nat := 25
  /** The frame a fade starts from: fully transparent. */
  const StartFrame: int := 24
  /** Seconds that must accumulate before the frame advances (`timerEnd`). */
  const TimerEnd: real := 0.0333

  /** A callback invocation: the on-black-screen or the on-fade-end action. */
  datatype FadeEvent = BlackScreen(action: Callback) | FadeEnd(action: Callback)

  /** The static fields of `FadeScreen` as a value, plus `runs`: for every
      `StartFadeScreen` call so far, the callbacks invoked since that call. */
  datatype Fade = Fade(
    active: bool,
    beforeBlack: bool,
    onBlackScreen: Option<Callback>,
    onFadeEnd: Option<Callback>,
    currentFrame: int,
    blackTimeActive: bool,
    blackTime: real,
    blackTimer: real,
    timer: real,
    runs: seq<seq<FadeEvent>>)

  /** The static initial values: inactive, no callbacks, every number zero. */
  function InitialFade(): Fade
  {
    Fade(false, true, None, None, 0, false, 0.0, 0.0, 0.0, [])
  }

  /** The source rectangle of overlay frame `i` in the sprite sheet. */
  function FrameRect(i: int): Rect
  {
    Rect(i * 2, 254, 2, 2)
  }

  /** The events an optional callback contributes when it is reached. */
  function BlackEvents(cb: Option<Callback>): seq<FadeEvent>
  {
    if cb.Some? then [BlackScreen(cb.value)] else []
  }

  function EndEvents(cb: Option<Callback>): seq<FadeEvent>
  {
    if cb.Some? then [FadeEnd(cb.value)] else []
  }

  /** Records `events` as invoked during the current run. */
  function Record(runs: seq<seq<FadeEvent>>, events: seq<FadeEvent>): (r: seq<seq<FadeEvent>>)
    requires |runs| > 0
    ensures |r| == |runs| && r[..|runs| - 1] == runs[..|runs| - 1]
    ensures r[|runs| - 1] == runs[|runs| - 1] + events
  {
    runs[..|runs| - 1] + [runs[|runs| - 1] + events]
  }

  /** `StartFadeScreen(blackTimes, doOnBlackScreen, doOnFadeEnd)`: a new run
      starting from frame 24 in the darkening phase. The black-hold flag and
      the timers keep the values they had. */
  function StartSpec(f: Fade, blackTimes: real, doOnBlackScreen: Option<Callback>,
                     doOnFadeEnd: Option<Callback>): (r: Fade)
    ensures r.active && r.beforeBlack && r.currentFrame == StartFrame
    ensures r.onBlackScreen == doOnBlackScreen && r.onFadeEnd == doOnFadeEnd && r.blackTime == blackTimes
    ensures r.runs == f.runs + [[]]
    ensures r.blackTimeActive == f.blackTimeActive && r.blackTimer == f.blackTimer && r.timer == f.timer
  {
    f.(currentFrame := StartFrame, active := true, beforeBlack := true,
       onBlackScreen := doOnBlackScreen, onFadeEnd := doOnFadeEnd, blackTime := blackTimes,
       runs := f.runs + [[]])
  }

  /** `StopFadeScreen`: inactive, with both callbacks cleared. */
  function StopSpec(f: Fade): (r: Fade)
    ensures !r.active && r.onBlackScreen.None? && r.onFadeEnd.None?
    ensures r.currentFrame == f.currentFrame && r.runs == f.runs && r.beforeBlack == f.beforeBlack
    ensures r.blackTimeActive == f.blackTimeActive
    ensures r.timer == f.timer && r.blackTimer == f.blackTimer && r.blackTime == f.blackTime
  {
    f.(active := false, onBlackScreen := None, onFadeEnd := None)
  }

  /** One `Update(deltaTime)`. */
  function UpdateSpec(f: Fade, dt: real): (r: Fade)
    // an inactive fade ignores the update
    ensures !f.active ==> r == f
    // during the black hold only the hold timer runs, and the hold ends once it reaches the black time
    ensures f.active && f.blackTimeActive ==>
      && r.currentFrame == f.currentFrame && r.active && r.beforeBlack == f.beforeBlack
      && r.runs == f.runs && r.blackTimer == f.blackTimer + dt
      && (r.blackTimeActive <==> f.blackTimer + dt < f.blackTime)
    // the frame moves only once the timer has reached `timerEnd`, and by one in the phase's direction
    ensures r.currentFrame != f.currentFrame <==>
      f.active && !f.blackTimeActive && f.timer + dt >= TimerEnd
    ensures r.currentFrame != f.currentFrame ==>
      && r.timer == 0.0
      && r.currentFrame == (if f.beforeBlack then f.currentFrame - 1 else f.currentFrame + 1)
    // reaching frame 0 turns the screen black: phase switch, hold start, on-black
    ensures f.active && |f.runs| > 0 && f.beforeBlack && r.currentFrame == 0 && f.currentFrame == 1 ==>
      && !r.beforeBlack && r.blackTimeActive && r.blackTimer == 0.0 && r.active
      && r.runs == Record(f.runs, BlackEvents(f.onBlackScreen))
    // reaching frame 25 ends the fade: inactive, on-end
    ensures f.active && |f.runs| > 0 && !f.beforeBlack && r.currentFrame == 25 && f.currentFrame == 24 ==>
      && !r.active && r.runs == Record(f.runs, EndEvents(f.onFadeEnd))
    // nothing else fires a callback or touches the callbacks and the black time
    ensures r.runs == f.runs || (f.active && |f.runs| > 0 && r.currentFrame != f.currentFrame
                                 && (r.currentFrame == 0 || r.currentFrame == 25))
    ensures r.onBlackScreen == f.onBlackScreen && r.onFadeEnd == f.onFadeEnd && r.blackTime == f.blackTime
  {
    if !f.active then f
    else
      var f := f.(timer := f.timer + dt);
      if f.blackTimeActive then
        var f := f.(blackTimer := f.blackTimer + dt);
        if f.blackTimer >= f.blackTime then f.(blackTimeActive := false) else f
      else if f.timer < TimerEnd then f
      else if f.beforeBlack then
        var frame := f.currentFrame - 1;
        if frame == 0 then
          f.(currentFrame := frame, beforeBlack := false, blackTimer := 0.0, blackTimeActive := true,
             runs := if |f.runs| > 0 then Record(f.runs, BlackEvents(f.onBlackScreen)) else f.runs,
             timer := 0.0)
        else
          f.(currentFrame := frame, timer := 0.0)
      else
        var frame := f.currentFrame + 1;
        if frame == 25 then
          f.(currentFrame := frame, active := false,
             runs := if |f.runs| > 0 then Record(f.runs, EndEvents(f.onFadeEnd)) else f.runs,
             timer := 0.0)
        else
          f.(currentFrame := frame, timer := 0.0)
  }

  /** The callbacks invoked during one run come in the order the fade reaches
      them: at most one on-black, at most one on-end, on-black first. */
  predicate WellOrdered(run: seq<FadeEvent>)
  {
    |run| <= 2 && (|run| == 2 ==> run[0].BlackScreen? && run[1].FadeEnd?)
  }

  /** What holds of the fade between calls: while it is active the frame is a
      valid index into the 25 overlay frames (and still above 0 while
      darkening), the current run has invoked exactly the callbacks its phase
      has passed, and every run so far is well ordered. */
  predicate Inv(f: Fade)
  {
    && (f.active ==> |f.runs| > 0 && 0 <= f.currentFrame < FrameCount)
    && (f.active && f.beforeBlack ==> 1 <= f.currentFrame && f.runs[|f.runs| - 1] == [])
    && (f.active && !f.beforeBlack ==> f.runs[|f.runs| - 1] == BlackEvents(f.onBlackScreen))
    && (forall i :: 0 <= i < |f.runs| ==> WellOrdered(f.runs[i]))
  }

  lemma InitialInv()
    ensures Inv(InitialFade())
  {
  }

  lemma StartPreservesInv(f: Fade, blackTimes: real, b: Option<Callback>, e: Option<Callback>)
    requires Inv(f)
    ensures Inv(StartSpec(f, blackTimes, b, e))
  {
    var r := StartSpec(f, blackTimes, b, e);
    forall i | 0 <= i < |r.runs|
      ensures WellOrdered(r.runs[i])
    {
      if i < |f.runs| {
        assert r.runs[i] == f.runs[i];
      }
    }
  }

  lemma StopPreservesInv(f: Fade)
    requires Inv(f)
    ensures Inv(StopSpec(f))
  {
  }

  lemma UpdatePreservesInv(f: Fade, dt: real)
    requires Inv(f)
    ensures Inv(UpdateSpec(f, dt))
  {
    var r := UpdateSpec(f, dt);
    if r.runs != f.runs {
      var n := |f.runs|;
      forall i | 0 <= i < |r.runs|
        ensures WellOrdered(r.runs[i])
      {
        if i < n - 1 {
          assert r.runs[i] == r.runs[..n - 1][i] == f.runs[..n - 1][i] == f.runs[i];
        }
      }
    }
  }

  /** One call a caller can make on the fade. */
  datatype FadeOp = Start(blackTimes: real, onBlack: Option<Callback>, onEnd: Option<Callback>)
                  | Stop
                  | Tick(dt: real)

  function Apply(f: Fade, op: FadeOp): Fade
  {
    match op
    case Start(t, b, e) => StartSpec(f, t, b, e)
    case Stop => StopSpec(f)
    case Tick(dt) => UpdateSpec(f, dt)
  }

  /** The fade after the calls `ops`, in order. */
  function Run(f: Fade, ops: seq<FadeOp>): Fade
    decreases |ops|
  {
    if |ops| == 0 then f else Run(Apply(f, ops[0]), ops[1..])
  }

  /** Whatever the callers do, every run invokes each callback at most once
      and on-black strictly before on-end, and an active fade always indexes
      a valid overlay frame. */
  lemma {:induction false} RunKeepsInv(f: Fade, ops: seq<FadeOp>)
    requires Inv(f)
    ensures Inv(Run(f, ops))
    ensures forall i :: 0 <= i < |Run(f, ops).runs| ==> WellOrdered(Run(f, ops).runs[i])
    decreases |ops|
  {
    if |ops| > 0 {
      match ops[0] {
        case Start(t, b, e) => StartPreservesInv(f, t, b, e);
        case Stop => StopPreservesInv(f);
        case Tick(dt) => UpdatePreservesInv(f, dt);
      }
      RunKeepsInv(Apply(f, ops[0]), ops[1..]);
    }
  }

  /** From the static initial values, any history of calls keeps every run
      well ordered. */
  lemma HistoryWellOrdered(ops: seq<FadeOp>, i: int)
    requires 0 <= i < |Run(InitialFade(), ops).runs|
    ensures WellOrdered(Run(InitialFade(), ops).runs[i])
  {
    InitialInv();
    RunKeepsInv(InitialFade(), ops);
  }

  /** `n` updates with the same frame time. */
  function Steps(f: Fade, dt: real, n: nat): Fade
    decreases n
  {
    if n == 0 then f else Steps(UpdateSpec(f, dt), dt, n - 1)
  }

  lemma {:induction false} StepsAdd(f: Fade, dt: real, m: nat, n: nat)
    ensures Steps(f, dt, m + n) == Steps(Steps(f, dt, m), dt, n)
    decreases m
  {
    if m > 0 {
      StepsAdd(UpdateSpec(f, dt), dt, m - 1, n);
    }
  }

  /** With frame times of at least `timerEnd`, each update of the darkening
      phase lowers the frame by one, until frame 1. */
  lemma {:induction false} Darkens(f: Fade, dt: real, n: nat)
    requires f.active && f.beforeBlack && !f.blackTimeActive
    requires dt >= TimerEnd && f.timer >= 0.0 && f.currentFrame > n
    ensures Steps(f, dt, n) == f.(currentFrame := f.currentFrame - n, timer := if n == 0 then f.timer else 0.0)
    decreases n
  {
    if n > 0 {
      var g := UpdateSpec(f, dt);
      assert g == f.(currentFrame := f.currentFrame - 1, timer := 0.0);
      Darkens(g, dt, n - 1);
    }
  }

  /** With frame times of at least `timerEnd`, each update of the lightening
      phase raises the frame by one, up to frame 24. */
  lemma {:induction false} Lightens(f: Fade, dt: real, n: nat)
    requires f.active && !f.beforeBlack && !f.blackTimeActive
    requires dt >= TimerEnd && f.timer >= 0.0 && f.currentFrame + n < 25
    ensures Steps(f, dt, n) == f.(currentFrame := f.currentFrame + n, timer := if n == 0 then f.timer else 0.0)
    decreases n
  {
    if n > 0 {
      var g := UpdateSpec(f, dt);
      assert g == f.(currentFrame := f.currentFrame + 1, timer := 0.0);
      Lightens(g, dt, n - 1);
    }
  }

  /** Darkening from frame 24 takes 24 updates; the last one turns the screen
      black, starts the hold and invokes on-black. */
  lemma DarkenPhase(s: Fade, dt: real)
    requires s.active && s.beforeBlack && !s.blackTimeActive && s.currentFrame == StartFrame
    requires |s.runs| > 0 && dt >= TimerEnd && s.timer >= 0.0
    ensures Steps(s, dt, 24) == s.(currentFrame := 0, beforeBlack := false, blackTimer := 0.0,
      blackTimeActive := true, runs := Record(s.runs, BlackEvents(s.onBlackScreen)), timer := 0.0)
  {
    Darkens(s, dt, 23);
    StepsAdd(s, dt, 23, 1);
  }

  /** A hold that started at 0 ends on the first update whose frame time
      reaches the black time, without moving the frame. */
  lemma HoldPhase(g: Fade, dt: real)
    requires g.active && g.blackTimeActive && g.blackTimer == 0.0 && dt >= g.blackTime
    ensures Steps(g, dt, 1) == g.(blackTimer := dt, blackTimeActive := false, timer := g.timer + dt)
  {
  }

  /** Lightening from frame 0 takes 25 updates; the last one ends the fade and
      invokes on-end. */
  lemma LightenPhase(h: Fade, dt: real)
    requires h.active && !h.beforeBlack && !h.blackTimeActive && h.currentFrame == 0
    requires |h.runs| > 0 && dt >= TimerEnd && h.timer >= 0.0
    ensures Steps(h, dt, 24).active
    ensures Steps(h, dt, 25) == h.(currentFrame := 25, active := false,
      runs := Record(h.runs, EndEvents(h.onFadeEnd)), timer := 0.0)
  {
    Lightens(h, dt, 24);
    StepsAdd(h, dt, 24, 1);
  }

  /** A whole fade: started with no black hold pending and updated with frame
      times of at least `timerEnd` and of the black time, it turns black after
      24 updates (invoking on-black there), holds for one update, and ends
      after 25 more, 50 in all: inactive, having invoked exactly on-black and
      then on-end. */
  lemma FullFade(f: Fade, blackTimes: real, b: Option<Callback>, e: Option<Callback>, dt: real)
    requires !f.blackTimeActive && f.timer >= 0.0
    requires dt >= TimerEnd && dt >= blackTimes
    ensures var s := StartSpec(f, blackTimes, b, e);
      && Steps(s, dt, 24).currentFrame == 0 && Steps(s, dt, 24).blackTimeActive
      && Steps(s, dt, 24).runs == f.runs + [BlackEvents(b)]
      && Steps(s, dt, 25).currentFrame == 0 && !Steps(s, dt, 25).blackTimeActive
      && Steps(s, dt, 49).active
      && !Steps(s, dt, 50).active && Steps(s, dt, 50).currentFrame == 25
      && Steps(s, dt, 50).runs == f.runs + [BlackEvents(b) + EndEvents(e)]
  {
    var s := StartSpec(f, blackTimes, b, e);
    DarkenPhase(s, dt);
    var g := Steps(s, dt, 24);
    assert g.runs == f.runs + [BlackEvents(b)] by {
      assert s.runs[..|s.runs| - 1] == f.runs;
      assert s.runs[|s.runs| - 1] + BlackEvents(b) == BlackEvents(b);
    }
    HoldPhase(g, dt);
    StepsAdd(s, dt, 24, 1);
    var h := Steps(s, dt, 25);
    LightenPhase(h, dt);
    StepsAdd(s, dt, 25, 24);
    StepsAdd(s, dt, 25, 25);
    assert h.runs == g.runs;
    assert Steps(s, dt, 50).runs == f.runs + [BlackEvents(b) + EndEvents(e)] by {
      assert h.runs[..|h.runs| - 1] == f.runs;
    }
  }

  /** `StartFadeScreen` does not clear a black hold left pending by a fade
      that was stopped during its hold: the new fade first waits out that hold
      at its transparent start frame. */
  lemma RestartKeepsPendingHold(f: Fade, blackTimes: real, b: Option<Callback>, e: Option<Callback>, dt: real)
    requires f.blackTimeActive && f.blackTimer + dt < blackTimes
    ensures var r := UpdateSpec(StartSpec(StopSpec(f), blackTimes, b, e), dt);
      r.active && r.blackTimeActive && r.currentFrame == StartFrame && r.beforeBlack
  {
  }

  /** The static `FadeScreen` class. */
  class FadeScreen {
    var active: bool
    var beforeBlack: bool
    var onBlackScreen: Option<Callback>
    var onFadeEnd: Option<Callback>
    var spriteRects: array<Rect>
    var currentFrame: int
    var blackTimeActive: bool
    var blackTime: real
    var blackTimer: real
    var timer: real
    /** The callbacks invoked so far, grouped by `StartFadeScreen` call. */
    var runs: seq<seq<FadeEvent>>

    function View(): Fade
      reads this
    {
      Fade(active, beforeBlack, onBlackScreen, onFadeEnd, currentFrame, blackTimeActive,
           blackTime, blackTimer, timer, runs)
    }

    /** The sprite sheet has been cut into the 25 overlay frames. */
    predicate Initialized()
      reads this, spriteRects
    {
      spriteRects.Length == FrameCount && forall i :: 0 <= i < FrameCount ==> spriteRects[i] == FrameRect(i)
    }

    /** The static initial values; the frame table is empty until `Initialize`. */
    constructor ()
      ensures View() == InitialFade() && spriteRects.Length == 0
    {
      active := false;
      beforeBlack := true;
      onBlackScreen := None;
      onFadeEnd := None;
      spriteRects := new Rect[0];
      currentFrame := 0;
      blackTimeActive := false;
      blackTime := 0.0;
      blackTimer := 0.0;
      timer := 0.0;
      runs := [];
    }

    /** `Inititalize`: cuts the 25 overlay frames out of the sprite sheet. */
    method Initialize()
      modifies this
      ensures fresh(spriteRects) && Initialized()
      ensures View() == old(View())
    {
      var rects := new Rect[FrameCount];
      for i := 0 to FrameCount
        modifies rects
        invariant forall j :: 0 <= j < i ==> rects[j] == FrameRect(j)
      {
        rects[i] := FrameRect(i);
      }
      spriteRects := rects;
    }

    method StartFadeScreen(blackTimes: real := 0.0, doOnBlackScreen: Option<Callback> := None,
                           doOnFadeEnd: Option<Callback> := None)
      modifies this
      ensures View() == StartSpec(old(View()), blackTimes, doOnBlackScreen, doOnFadeEnd)
      ensures spriteRects == old(spriteRects)
    {
      currentFrame := StartFrame;
      active := true;
      beforeBlack := true;
      onBlackScreen := doOnBlackScreen;
      onFadeEnd := doOnFadeEnd;
      blackTime := blackTimes;
      runs := runs + [[]];
    }

    method StopFadeScreen()
      modifies this
      ensures View() == StopSpec(old(View()))
      ensures spriteRects == old(spriteRects)
    {
      active := false;
      onBlackScreen := None;
      onFadeEnd := None;
    }

    /** Invokes the callbacks `events` stand for, as part of the current run. */
    method Invoke(events: seq<FadeEvent>)
      modifies this
      ensures runs == if |old(runs)| > 0 then Record(old(runs), events) else old(runs)
      ensures View() == old(View()).(runs := runs) && spriteRects == old(spriteRects)
    {
      if |runs| > 0 {
        runs := runs[..|runs| - 1] + [runs[|runs| - 1] + events];
      }
    }

    method Update(deltaTime: real)
      modifies this
      ensures View() == UpdateSpec(old(View()), deltaTime)
      ensures spriteRects == old(spriteRects)
    {
      if !active {
        return;
      }
      timer := timer + deltaTime;
      if blackTimeActive {
        blackTimer := blackTimer + deltaTime;
        if blackTimer >= blackTime {
          blackTimeActive := false;
        }
        return;
      }
      if timer < TimerEnd {
        return;
      }
      if beforeBlack {
        currentFrame := currentFrame - 1;
        if currentFrame == 0 {
          beforeBlack := false;
          blackTimer := 0.0;
          blackTimeActive := true;
          Invoke(BlackEvents(onBlackScreen));
        }
      } else {
        currentFrame := currentFrame + 1;
        if currentFrame == 25 {
          active := false;
          Invoke(EndEvents(onFadeEnd));
          timer := 0.0;
        }
      }
      timer := 0.0;
    }

    /** `Render`: the overlay frame drawn, if the fade is active. Under the
        invariant the frame index is always inside the 25-entry table. */
    method Render() returns (source: Option<Rect>)
      requires Inv(View()) && Initialized()
      ensures source.Some? <==> active
      ensures active ==> source == Some(FrameRect(currentFrame)) && 0 <= currentFrame < FrameCount
    {
      if !active {
        return None;
      }
      source := Some(spriteRects[currentFrame]);
    }
  }
}
