/** The render-side logic of `src/app/ui.rs`: the `M:SS` time format, the
    summary of what is playing, the extrapolated playback position shown in
    the playback panel, and the bootstrap requests posted on the first
    frame. Widgets and layout are not modelled. */
module Ui {
  import opened Wrappers
  import opened Decimal
  import opened Spotify
  import opened Io
  import opened Windowing

  // ---------------------------------------------------------------------
  // format_millis

  /** The seconds field: a leading `0` below ten. */
  function SecondsDisplay(seconds: nat): string {
    if seconds < 10 then "0" + ToDecimal(seconds) else ToDecimal(seconds)
  }

  /** `format_millis`, as written, including its `seconds == 60` branch. */
  function FormatMillis(millis: nat): string {
    var minutes := millis / 60000;
    var seconds := (millis % 60000) / 1000;
    if seconds == 60 then ToDecimal(minutes + 1) + ":00"
    else ToDecimal(minutes) + ":" + SecondsDisplay(seconds)
  }

  /** Every second count below a minute is shown as exactly two digits
      denoting it, with a leading zero exactly when it is below ten. */
  lemma SecondsDisplayTwoDigits(seconds: nat)
    requires seconds < 60
    ensures var d := SecondsDisplay(seconds);
      && |d| == 2 && AllDigits(d) && Value(d) == seconds
      && (d[0] == '0' <==> seconds < 10)
  {
    var d := SecondsDisplay(seconds);
    if seconds < 10 {
      assert d[..1] == "0";
      assert Value(d[..1]) == 0 by {
        assert d[..1][..0] == [];
      }
    } else {
      TwoDigitLength(seconds);
      ValueOfToDecimal(seconds);
    }
  }

  /** The seconds part never reaches 60, so the rollover branch of
      `format_millis` is never taken. */
  lemma RolloverUnreachable(millis: nat)
    ensures (millis % 60000) / 1000 < 60
    ensures FormatMillis(millis) == ToDecimal(millis / 60000) + ":" + SecondsDisplay((millis % 60000) / 1000)
  {
  }

  /** The shape of a formatted time: the minutes `millis / 60000` in
      decimal, a colon, and the seconds `(millis % 60000) / 1000` as two
      digits with a leading zero below ten. */
  lemma FormatMillisParts(millis: nat)
    ensures var r := FormatMillis(millis);
      && |r| >= 4 && r[|r| - 3] == ':'
      && r[..|r| - 3] == ToDecimal(millis / 60000)
      && AllDigits(r[|r| - 2..]) && Value(r[|r| - 2..]) == (millis % 60000) / 1000
      && (r[|r| - 2] == '0' <==> (millis % 60000) / 1000 < 10)
  {
    var seconds := (millis % 60000) / 1000;
    RolloverUnreachable(millis);
    SecondsDisplayTwoDigits(seconds);
    var r := FormatMillis(millis);
    var m := ToDecimal(millis / 60000);
    assert r == m + ":" + SecondsDisplay(seconds);
    assert r[..|r| - 3] == m;
    assert r[|r| - 2..] == SecondsDisplay(seconds);
  }

  /** Reads an `M:SS` string back into its minutes and seconds. */
  function ParseClock(s: string): Option<(nat, nat)> {
    if |s| >= 4 && s[|s| - 3] == ':' && AllDigits(s[..|s| - 3]) && AllDigits(s[|s| - 2..])
    then Some((Value(s[..|s| - 3]), Value(s[|s| - 2..])))
    else None
  }

  /** Parsing a formatted time gives back the minutes and seconds of the
      input. */
  lemma FormatMillisRoundTrip(millis: nat)
    ensures ParseClock(FormatMillis(millis)) == Some((millis / 60000, (millis % 60000) / 1000))
  {
    FormatMillisParts(millis);
    ValueOfToDecimal(millis / 60000);
  }

  /** Whole seconds are minutes and seconds combined. */
  lemma WholeSeconds(millis: nat)
    ensures millis / 1000 == 60 * (millis / 60000) + (millis % 60000) / 1000
  {
    var q, r := millis / 60000, millis % 60000;
    var s, t := r / 1000, r % 1000;
    assert millis == 1000 * (60 * q + s) + t;
  }

  /** Two times format alike exactly when they fall in the same whole
      second. */
  lemma FormatMillisSameSecond(a: nat, b: nat)
    ensures FormatMillis(a) == FormatMillis(b) <==> a / 1000 == b / 1000
  {
    WholeSeconds(a);
    WholeSeconds(b);
    if FormatMillis(a) == FormatMillis(b) {
      FormatMillisRoundTrip(a);
      FormatMillisRoundTrip(b);
    }
    if a / 1000 == b / 1000 {
      assert a / 60000 == b / 60000 && (a % 60000) / 1000 == (b % 60000) / 1000;
    }
  }

  /** Sub-second milliseconds are dropped. */
  lemma FormatMillisTruncates(millis: nat)
    ensures FormatMillis(millis) == FormatMillis(millis - millis % 1000)
  {
    FormatMillisSameSecond(millis, millis - millis % 1000);
  }

  /** Two worked values: 2 min 5 s, and a whole minute (no `1:60`). */
  lemma FormatMillisExamples()
    ensures FormatMillis(125000) == "2:05"
    ensures FormatMillis(60000) == "1:00"
    ensures FormatMillis(59999) == "0:59"
  {
    assert ToDecimal(2) == "2";
    assert ToDecimal(5) == "5";
    assert ToDecimal(1) == "1";
    assert ToDecimal(0) == "0";
    assert ToDecimal(59) == ToDecimal(5) + ['9'];
  }

  // ---------------------------------------------------------------------
  // what is playing

  /** What the playback panel shows about an item. */
  datatype Summary = Summary(name: string, artists: seq<string>, durationMs: nat)

  /** `artists.iter().map(|a| a.name.clone()).collect()`. */
  function ArtistNames(artists: seq<Artist>): (names: seq<string>)
    ensures |names| == |artists|
    ensures forall i :: 0 <= i < |artists| ==> names[i] == artists[i].name
  {
    if artists == [] then [] else [artists[0].name] + ArtistNames(artists[1..])
  }

  /** A track is summarised by its name, its artists' names in order and its
      duration; an episode by its name, its show's name and its duration. */
  function Project(item: PlayableItem): (r: Summary)
    ensures item.TrackItem? ==>
      && r.name == item.track.name
      && |r.artists| == |item.track.artists|
      && (forall i :: 0 <= i < |r.artists| ==> r.artists[i] == item.track.artists[i].name)
      && r.durationMs == item.track.durationMs
    ensures item.EpisodeItem? ==>
      r == Summary(item.episode.name, [item.episode.show.name], item.episode.durationMs)
  {
    match item
    case TrackItem(t) => Summary(t.name, ArtistNames(t.artists), t.durationMs)
    case EpisodeItem(e) => Summary(e.name, [e.show.name], e.durationMs)
  }

  /** `Vec::join`: the strings with `sep` between consecutive ones. */
  function Join(parts: seq<string>, sep: string): (r: string)
    ensures parts == [] ==> r == []
    ensures |parts| == 1 ==> r == parts[0]
    decreases |parts|
  {
    if parts == [] then []
    else if |parts| == 1 then parts[0]
    else parts[0] + sep + Join(parts[1..], sep)
  }

  /** Joining one more part appends the separator and that part. */
  lemma {:induction false} JoinSnoc(parts: seq<string>, x: string, sep: string)
    requires |parts| >= 1
    ensures Join(parts + [x], sep) == Join(parts, sep) + sep + x
    decreases |parts|
  {
    if |parts| == 1 {
      assert (parts + [x])[1..] == [x];
    } else {
      assert (parts + [x])[1..] == parts[1..] + [x];
      JoinSnoc(parts[1..], x, sep);
    }
  }

  /** Two artists are shown as `A, B`. */
  lemma JoinTwo(a: string, b: string)
    ensures Join([a, b], ", ") == a + ", " + b
  {
    JoinSnoc([a], b, ", ");
    assert [a] + [b] == [a, b];
  }

  // ---------------------------------------------------------------------
  // the displayed position

  /** Milliseconds since the last playback fetch, as measured when the frame
      is drawn: `Instant::elapsed` never goes below zero, and with no fetch
      recorded the reference point is the present, so nothing elapses. */
  function Elapsed(lastFetch: Option<nat>, now: nat): nat {
    match lastFetch
    case Some(t) => if now >= t then now - t else 0
    case None => 0
  }

  /** Reference definition of the displayed position: the stored progress
      (zero when absent), plus the time since the fetch while playing. */
  function ExtrapolatedProgress(p: CurrentPlaybackContext, lastFetch: Option<nat>, now: nat): nat {
    (match p.progressMs case Some(ms) => ms case None => 0)
      + (if p.isPlaying then Elapsed(lastFetch, now) else 0)
  }

  /** The `let mut progress` computation of `draw_playback`. */
  method DisplayedProgress(p: CurrentPlaybackContext, lastFetch: Option<nat>, now: nat) returns (progress: nat)
    ensures progress == ExtrapolatedProgress(p, lastFetch, now)
  {
    progress := match p.progressMs case Some(ms) => ms case None => 0;
    var sinceFetch := match lastFetch case Some(t) => if now >= t then now - t else 0 case None => 0;
    if p.isPlaying {
      progress := progress + sinceFetch;
    }
  }

  /** While paused the stored progress is shown exactly, whatever the
      clock says. */
  lemma PausedShowsStored(p: CurrentPlaybackContext, lastFetch: Option<nat>, now: nat, lastFetch': Option<nat>, now': nat)
    requires !p.isPlaying
    ensures ExtrapolatedProgress(p, lastFetch, now) == ExtrapolatedProgress(p, lastFetch', now')
    ensures ExtrapolatedProgress(p, lastFetch, now) == if p.progressMs.Some? then p.progressMs.value else 0
  {
  }

  /** While playing the time since the fetch is added to the stored
      progress; with no fetch recorded nothing is. */
  lemma PlayingAddsElapsed(p: CurrentPlaybackContext, lastFetch: Option<nat>, now: nat)
    requires p.isPlaying
    ensures var stored := if p.progressMs.Some? then p.progressMs.value else 0;
      && (lastFetch.Some? && lastFetch.value <= now ==>
            ExtrapolatedProgress(p, lastFetch, now) == stored + (now - lastFetch.value))
      && (lastFetch.None? ==> ExtrapolatedProgress(p, lastFetch, now) == stored)
  {
  }

  /** The shown position never falls behind the stored one and never moves
      backwards as time passes. */
  lemma ProgressMonotone(p: CurrentPlaybackContext, lastFetch: Option<nat>, now: nat, later: nat)
    requires now <= later
    ensures ExtrapolatedProgress(p, lastFetch, now) <= ExtrapolatedProgress(p, lastFetch, later)
    ensures (if p.progressMs.Some? then p.progressMs.value else 0) <= ExtrapolatedProgress(p, lastFetch, now)
  {
  }

  /** There is no clamp: a playing item whose stored progress is already its
      duration is shown past its end one millisecond later. */
  lemma ProgressNotClamped(t: Track, lastFetch: nat)
    ensures var p := CurrentPlaybackContext(Some(TrackItem(t)), Some(t.durationMs), true);
      ExtrapolatedProgress(p, Some(lastFetch), lastFetch + 1) > Project(TrackItem(t)).durationMs
  {
  }

  /** 10 s stored and 2.5 s since the fetch show 12.5 s while playing and
      10 s while paused. */
  lemma ProgressExamples(lastFetch: nat)
    ensures ExtrapolatedProgress(CurrentPlaybackContext(None, Some(10000), true), Some(lastFetch), lastFetch + 2500) == 12500
    ensures ExtrapolatedProgress(CurrentPlaybackContext(None, Some(10000), false), Some(lastFetch), lastFetch + 2500) == 10000
  {
  }

  // ---------------------------------------------------------------------
  // the playback panel

  /** The three text lines of the playback panel, with the numbers behind
      the third. */
  datatype Panel = Panel(title: string, artistLine: string, timeLine: string, progressMs: nat, durationMs: nat)

  /** The panel `draw_playback` fills, if any. */
  function PlaybackPanel(state: SpotifyState, lastFetch: Option<nat>, now: nat): Option<Panel> {
    match state.playback
    case None => None
    case Some(p) =>
      match p.item
      case None => None
      case Some(item) =>
        var summary := Project(item);
        var progress := ExtrapolatedProgress(p, lastFetch, now);
        Some(Panel(summary.name, Join(summary.artists, ", "), FormatMillis(progress) + " / " + FormatMillis(summary.durationMs),
                   progress, summary.durationMs))
  }

  /** The panel is drawn exactly when a playback with an item is stored; it
      shows the item's name, its artists joined by `, ` (an episode's show
      name), and the position over the duration in `M:SS`, whose first half
      parses back to the position's minutes and seconds. */
  lemma PlaybackPanelContents(state: SpotifyState, lastFetch: Option<nat>, now: nat)
    ensures PlaybackPanel(state, lastFetch, now).Some? <==> state.playback.Some? && state.playback.value.item.Some?
    ensures PlaybackPanel(state, lastFetch, now).Some? ==>
      var p := state.playback.value;
      var panel := PlaybackPanel(state, lastFetch, now).value;
      && panel.title == Project(p.item.value).name
      && panel.progressMs == ExtrapolatedProgress(p, lastFetch, now)
      && panel.durationMs == Project(p.item.value).durationMs
      && ParseClock(panel.timeLine[..|FormatMillis(panel.progressMs)|]) ==
           Some((panel.progressMs / 60000, (panel.progressMs % 60000) / 1000))
      && (p.item.value.TrackItem? ==> panel.artistLine == Join(ArtistNames(p.item.value.track.artists), ", "))
      && (p.item.value.EpisodeItem? ==> panel.artistLine == p.item.value.episode.show.name)
      && panel.timeLine == FormatMillis(panel.progressMs) + " / " + FormatMillis(panel.durationMs)
  {
    if PlaybackPanel(state, lastFetch, now).Some? {
      var panel := PlaybackPanel(state, lastFetch, now).value;
      var head := FormatMillis(panel.progressMs);
      assert panel.timeLine[..|head|] == head;
      FormatMillisRoundTrip(panel.progressMs);
    }
  }

  // ---------------------------------------------------------------------
  // the first frame

  /** The requests posted before any user interaction, in order. */
  const InitBatch: seq<IoEvent> := [FetchUserInfo, FetchCurrentPlayback]

  /** `fetch_init_state`: both `unwrap`s panic, the first when there is no
      sender, the second when a send fails. */
  method FetchInitState(sender: Channel?) returns (c: Completion<Unit>)
    modifies sender
    ensures sender == null ==> c.Panicked?
    ensures sender != null ==> sender.receiverDropped == old(sender.receiverDropped)
    ensures sender != null && !old(sender.receiverDropped) ==>
      c == Returned(Unit) && sender.queue == old(sender.queue) + InitBatch
    ensures sender != null && old(sender.receiverDropped) ==>
      c.Panicked? && sender.queue == old(sender.queue)
  {
    if sender == null {
      return Panicked("called `Option::unwrap()` on a `None` value");
    }
    var sent := sender.Send(FetchUserInfo);
    if sent.Err? {
      return Panicked("called `Result::unwrap()` on an `Err` value: SendError");
    }
    sent := sender.Send(FetchCurrentPlayback);
    if sent.Err? {
      return Panicked("called `Result::unwrap()` on an `Err` value: SendError");
    }
    c := Returned(Unit);
  }

  /** `main_loop`: on the first frame the bootstrap batch is posted; every
      frame that does not panic ends with `run == true`. */
  method MainLoop(system: System, sender: Channel?) returns (c: Completion<bool>)
    modifies sender
    ensures sender != null ==> sender.receiverDropped == old(sender.receiverDropped)
    ensures !system.firstRun ==> c == Returned(true) && (sender != null ==> sender.queue == old(sender.queue))
    ensures system.firstRun && sender != null && !old(sender.receiverDropped) ==>
      c == Returned(true) && sender.queue == old(sender.queue) + InitBatch
    ensures system.firstRun && (sender == null || old(sender.receiverDropped)) ==> c.Panicked?
    ensures system.firstRun && sender != null && old(sender.receiverDropped) ==> sender.queue == old(sender.queue)
  {
    if system.firstRun {
      var init := FetchInitState(sender);
      if init.Panicked? {
        return Panicked(init.message);
      }
    }
    var run := true;
    c := Returned(run);
  }

  /** The requests the UI callback posts over a trace of the event loop,
      assuming sends succeed: the bootstrap batch on each frame that sees
      `first_run` set. */
  function Posted(s: LoopState, ticks: seq<Tick>): seq<IoEvent>
    decreases |ticks|
  {
    if ticks == [] then []
    else
      (if ticks[0].event.RedrawRequested? && s.firstRun then InitBatch else [])
      + Posted(Step(s, ticks[0]), ticks[1..])
  }

  lemma {:induction false} NothingPostedAfterFirstFrame(s: LoopState, ticks: seq<Tick>)
    requires !s.firstRun
    ensures Posted(s, ticks) == []
    decreases |ticks|
  {
    if ticks != [] {
      NothingPostedAfterFirstFrame(Step(s, ticks[0]), ticks[1..]);
    }
  }

  /** From a freshly initialised system, the bootstrap batch is posted once
      if any frame is drawn and never otherwise. */
  lemma {:induction false} BootstrapPostedOnce(s: LoopState, ticks: seq<Tick>)
    requires s.firstRun
    ensures Posted(s, ticks) == if HasRedraw(ticks) then InitBatch else []
    decreases |ticks|
  {
    if ticks != [] {
      HasRedrawCons(ticks);
      if ticks[0].event.RedrawRequested? {
        NothingPostedAfterFirstFrame(Step(s, ticks[0]), ticks[1..]);
      } else {
        BootstrapPostedOnce(Step(s, ticks[0]), ticks[1..]);
      }
    }
  }
}
