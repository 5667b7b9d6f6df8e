/** The window system of `src/system/mod.rs`: the window title computed by
    `init`, and the per-event state machine that `System::main_loop` runs
    inside the event loop (the `first_run` flag, the time of the last frame
    and the event loop's control flow). Rendering is not modelled. */
module Windowing {
  import opened Wrappers

  /** `str::rfind`: the index of the last occurrence of `c`. */
  function RFind(s: string, c: char): (r: Option<nat>)
    ensures r.Some? ==> r.value < |s| && s[r.value] == c && c !in s[r.value + 1..]
    ensures r.None? <==> c !in s
    decreases |s|
  {
    if s == [] then None
    else if s[|s| - 1] == c then Some(|s| - 1)
    else
      assert s == s[..|s| - 1] + [s[|s| - 1]];
      RFind(s[..|s| - 1], c)
  }

  /** The title `init` gives the window: the text after the last `/`, or the
      whole title when it has none. */
  function TrimTitle(title: string): string {
    match RFind(title, '/')
    case Some(idx) => title[idx + 1..]
    case None => title
  }

  /** The trimmed title is the title with a prefix that ends in `/` removed
      (the whole title when there is no `/`), and it holds no `/` itself. */
  lemma TrimTitleSuffix(title: string)
    ensures var t := TrimTitle(title);
      && |t| <= |title|
      && title == title[..|title| - |t|] + t
      && '/' !in t
      && ('/' in title <==> |t| < |title|)
      && ('/' in title ==> title[|title| - |t| - 1] == '/')
  {
    match RFind(title, '/') {
      case Some(idx) =>
        var t := title[idx + 1..];
        assert |title| - |t| == idx + 1;
        assert title == title[..idx + 1] + t;
      case None =>
    }
  }

  /** A title without `/` is kept as it is, and only such a title. */
  lemma TrimTitleUnchanged(title: string)
    ensures TrimTitle(title) == title <==> '/' !in title
  {
    TrimTitleSuffix(title);
  }

  /** Trimming twice is trimming once. */
  lemma TrimTitleIdempotent(title: string)
    ensures TrimTitle(TrimTitle(title)) == TrimTitle(title)
  {
    TrimTitleSuffix(title);
    TrimTitleUnchanged(TrimTitle(title));
  }

  /** A title ending in `/` trims to the empty string. */
  lemma TrimTitleTrailingSlash(title: string)
    requires title != [] && title[|title| - 1] == '/'
    ensures TrimTitle(title) == []
  {
  }

  /** The event loop's control flow; `Exit` ends the loop. The program only
      ever sets `Exit`, so once set it stays. */
  datatype ControlFlow = Poll | Exit

  /** The events `main_loop` tells apart. `now` is the instant a batch of new
      events arrives, in milliseconds. */
  datatype Event = NewEvents(now: nat) | MainEventsCleared | RedrawRequested | CloseRequested | OtherEvent

  /** One call of the event-loop closure: the event, and what the UI callback
      would leave in `run` were it called on this event. */
  datatype Tick = Tick(event: Event, uiRun: bool)

  /** The state the closure changes: `first_run`, `last_frame` and the
      control flow. */
  datatype LoopState = LoopState(firstRun: bool, controlFlow: ControlFlow, lastFrame: nat)

  /** What one call of the closure does to the state. */
  function Step(s: LoopState, t: Tick): LoopState {
    match t.event
    case NewEvents(now) => s.(lastFrame := now)
    case RedrawRequested =>
      s.(firstRun := false, controlFlow := if t.uiRun then s.controlFlow else Exit)
    case CloseRequested => s.(controlFlow := Exit)
    case MainEventsCleared => s
    case OtherEvent => s
  }

  /** Whether a tick sets `Exit`: a close request, or a frame whose callback
      left `run == false`. */
  predicate CausesExit(t: Tick) {
    t.event.CloseRequested? || (t.event.RedrawRequested? && !t.uiRun)
  }

  /** A single step sets `Exit` exactly when the tick asks for it, and never
      clears it. */
  lemma StepExit(s: LoopState, t: Tick)
    ensures Step(s, t).controlFlow == Exit <==> s.controlFlow == Exit || CausesExit(t)
    ensures t.event.RedrawRequested? && t.uiRun ==> Step(s, t).controlFlow == s.controlFlow
    ensures t.event.CloseRequested? ==> Step(s, t).controlFlow == Exit
  {
  }

  /** The state after a sequence of ticks. */
  function Run(s: LoopState, ticks: seq<Tick>): LoopState
    decreases |ticks|
  {
    if ticks == [] then s else Run(Step(s, ticks[0]), ticks[1..])
  }

  predicate HasRedraw(ticks: seq<Tick>) {
    exists i :: 0 <= i < |ticks| && ticks[i].event.RedrawRequested?
  }

  /** How many frames saw `first_run` set. */
  function FirstRunSightings(s: LoopState, ticks: seq<Tick>): nat
    decreases |ticks|
  {
    if ticks == [] then 0
    else
      (if ticks[0].event.RedrawRequested? && s.firstRun then 1 else 0)
      + FirstRunSightings(Step(s, ticks[0]), ticks[1..])
  }

  /** The loop has exited after a sequence of ticks exactly when it had
      already exited or one of the ticks caused an exit. */
  lemma {:induction false} RunExit(s: LoopState, ticks: seq<Tick>)
    ensures Run(s, ticks).controlFlow == Exit
        <==> s.controlFlow == Exit || exists i :: 0 <= i < |ticks| && CausesExit(ticks[i])
    decreases |ticks|
  {
    if ticks != [] {
      RunExit(Step(s, ticks[0]), ticks[1..]);
      StepExit(s, ticks[0]);
      if exists i :: 0 <= i < |ticks[1..]| && CausesExit(ticks[1..][i]) {
        var i :| 0 <= i < |ticks[1..]| && CausesExit(ticks[1..][i]);
        assert CausesExit(ticks[i + 1]);
      }
      if exists i :: 0 <= i < |ticks| && CausesExit(ticks[i]) {
        var i :| 0 <= i < |ticks| && CausesExit(ticks[i]);
        if i > 0 {
          assert CausesExit(ticks[1..][i - 1]);
        }
      }
    }
  }

  /** A non-empty trace draws a frame when its head or its tail does. */
  lemma HasRedrawCons(ticks: seq<Tick>)
    requires ticks != []
    ensures HasRedraw(ticks) <==> ticks[0].event.RedrawRequested? || HasRedraw(ticks[1..])
  {
    if HasRedraw(ticks[1..]) {
      var i :| 0 <= i < |ticks[1..]| && ticks[1..][i].event.RedrawRequested?;
      assert ticks[i + 1].event.RedrawRequested?;
    }
    if HasRedraw(ticks) && !ticks[0].event.RedrawRequested? {
      var i :| 0 <= i < |ticks| && ticks[i].event.RedrawRequested?;
      assert ticks[1..][i - 1].event.RedrawRequested?;
    }
  }

  /** `first_run` is still set after a sequence of ticks exactly when it was
      set before and no frame was drawn. */
  lemma {:induction false} RunFirstRun(s: LoopState, ticks: seq<Tick>)
    ensures Run(s, ticks).firstRun <==> s.firstRun && !HasRedraw(ticks)
    decreases |ticks|
  {
    if ticks != [] {
      RunFirstRun(Step(s, ticks[0]), ticks[1..]);
      HasRedrawCons(ticks);
    }
  }

  /** Once `first_run` is cleared, no later frame sees it set. */
  lemma {:induction false} NoSightingsAfterFirstFrame(s: LoopState, ticks: seq<Tick>)
    requires !s.firstRun
    ensures FirstRunSightings(s, ticks) == 0
    decreases |ticks|
  {
    if ticks != [] {
      NoSightingsAfterFirstFrame(Step(s, ticks[0]), ticks[1..]);
    }
  }

  /** Starting with `first_run` set, the UI callback sees it set in exactly
      one frame, the first, if any frame is drawn, and in none otherwise. */
  lemma {:induction false} FirstRunSeenOnce(s: LoopState, ticks: seq<Tick>)
    requires s.firstRun
    ensures FirstRunSightings(s, ticks) == if HasRedraw(ticks) then 1 else 0
    decreases |ticks|
  {
    if ticks != [] {
      var s' := Step(s, ticks[0]);
      HasRedrawCons(ticks);
      if ticks[0].event.RedrawRequested? {
        NoSightingsAfterFirstFrame(s', ticks[1..]);
      } else {
        FirstRunSeenOnce(s', ticks[1..]);
      }
    }
  }

  /** `System` with the state `main_loop`'s closure updates. `windowTitle` is
      the title the window was built with; `lastFrame` and `controlFlow`
      stand for the closure's captured `last_frame` and the event loop's
      control-flow cell. */
  class System {
    var firstRun: bool
    var controlFlow: ControlFlow
    var lastFrame: nat
    var windowTitle: string

    function State(): LoopState
      reads this
    {
      LoopState(firstRun, controlFlow, lastFrame)
    }

    /** `init`: the window is titled with the trimmed title and `first_run`
        starts set. `now` is the instant `main_loop` starts. */
    constructor Init(title: string, now: nat)
      ensures windowTitle == TrimTitle(title)
      ensures State() == LoopState(true, Poll, now)
    {
      windowTitle := TrimTitle(title);
      firstRun := true;
      controlFlow := Poll;
      lastFrame := now;
    }

    /** One call of the event-loop closure. On a redraw the UI callback is
        run, seeing `first_run` as returned in `seen`, and leaves `run` as
        `t.uiRun`; `first_run` is cleared after it. */
    method HandleEvent(t: Tick) returns (seen: Option<bool>)
      modifies this
      ensures State() == Step(old(State()), t)
      ensures windowTitle == old(windowTitle)
      ensures seen == if t.event.RedrawRequested? then Some(old(firstRun)) else None
    {
      seen := None;
      match t.event {
        case NewEvents(now) =>
          lastFrame := now;
        case MainEventsCleared =>
        case RedrawRequested =>
          var run := true;
          seen := Some(firstRun);
          run := t.uiRun;
          firstRun := false;
          if !run {
            controlFlow := Exit;
          }
        case CloseRequested =>
          controlFlow := Exit;
        case OtherEvent =>
      }
    }
  }
}
