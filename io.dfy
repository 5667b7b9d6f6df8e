/** The IO worker of `src/spotify/io.rs`: it drains a queue of fetch
    requests, fetches each from the remote client and, on success, stores the
    answer in the shared state. A failed fetch is reported and skipped. */
module Io {
  import opened Wrappers
  import opened Spotify

  /** A request posted to the IO worker. */
  datatype IoEvent = FetchUserInfo | FetchCurrentPlayback

  /** The channel between the UI and the worker, read as unbounded (a send
      never waits): the messages sent and not yet received, in send order,
      and whether the receiving half has been dropped. */
  class Channel {
    var queue: seq<IoEvent>
    var receiverDropped: bool

    constructor ()
      ensures queue == [] && !receiverDropped
    {
      queue := [];
      receiverDropped := false;
    }

    /** `Sender::send`: appends the message, or fails when nobody can
        receive it any more. */
    method Send(e: IoEvent) returns (r: Result<Unit>)
      modifies this
      ensures receiverDropped == old(receiverDropped)
      ensures r.Ok? <==> !receiverDropped
      ensures queue == if r.Ok? then old(queue) + [e] else old(queue)
    {
      if receiverDropped {
        r := Err(Error("channel closed", []));
      } else {
        queue := queue + [e];
        r := Ok(Unit);
      }
    }

    /** `Receiver::recv`: the oldest message, or `None` once the queue is
        exhausted. */
    method Recv() returns (e: Option<IoEvent>)
      modifies this
      ensures receiverDropped == old(receiverDropped)
      ensures old(queue) == [] ==> e.None? && queue == []
      ensures old(queue) != [] ==> e == Some(old(queue)[0]) && queue == old(queue)[1..]
    {
      if queue == [] {
        e := None;
      } else {
        e := Some(queue[0]);
        queue := queue[1..];
      }
    }
  }

  /** The error the fetch for `e` fails with, if it fails. */
  function FetchError(e: IoEvent, reply: Reply): Option<Error> {
    match e
    case FetchUserInfo => if reply.me.Err? then Some(reply.me.error) else None
    case FetchCurrentPlayback =>
      if reply.currentPlayback.Err? then Some(reply.currentPlayback.error) else None
  }

  /** The state after handling `e`: a successful fetch replaces exactly the
      field it fetched; a failed one writes nothing. */
  function Commit(s: SpotifyState, e: IoEvent, reply: Reply): (r: SpotifyState)
    ensures FetchError(e, reply).Some? ==> r == s
    ensures e.FetchUserInfo? ==> r.playback == s.playback
    ensures e.FetchCurrentPlayback? ==> r.me == s.me
    ensures e.FetchUserInfo? && reply.me.Ok? ==> r.me == Some(reply.me.value)
    ensures e.FetchCurrentPlayback? && reply.currentPlayback.Ok? ==> r.playback == reply.currentPlayback.value
  {
    match e
    case FetchUserInfo =>
      if reply.me.Ok? then s.(me := Some(reply.me.value)) else s
    case FetchCurrentPlayback =>
      if reply.currentPlayback.Ok? then s.(playback := reply.currentPlayback.value) else s
  }

  /** What the worker prints to standard error for a failed event. */
  function Report(e: Error): string {
    "Error in IO thread: " + e.message
  }

  /** `{}` on an `anyhow::Error` shows its outermost message only: a context
      hides the message it wraps from the printed line. */
  lemma ReportShowsOutermost(e: Error, msg: string)
    ensures Report(e) == "Error in IO thread: " + Chain(e)[0]
    ensures Report(WithContext(e, msg)) == "Error in IO thread: " + msg
  {
  }

  /** `handle_event`: fetch first, then assign; the `?` returns before the
      assignment when the fetch fails. `n` numbers the request. */
  method HandleEvent(event: IoEvent, spotify: Spotify, n: nat) returns (r: Result<Unit>)
    modifies spotify
    ensures spotify.state == Commit(old(spotify.state), event, spotify.client(n))
    ensures r.Err? <==> FetchError(event, spotify.client(n)).Some?
    ensures r.Err? ==> r.error == FetchError(event, spotify.client(n)).value
  {
    var reply := spotify.client(n);
    match event {
      case FetchUserInfo =>
        if reply.me.Err? {
          return Err(reply.me.error);
        }
        spotify.state := spotify.state.(me := Some(reply.me.value));
      case FetchCurrentPlayback =>
        if reply.currentPlayback.Err? {
          return Err(reply.currentPlayback.error);
        }
        spotify.state := spotify.state.(playback := reply.currentPlayback.value);
    }
    r := Ok(Unit);
  }

  /** The state after handling `evs` in order, the first of them being the
      `k`-th request. */
  function Drain(s: SpotifyState, evs: seq<IoEvent>, client: Client, k: nat): SpotifyState
    decreases |evs|
  {
    if evs == [] then s else Drain(Commit(s, evs[0], client(k)), evs[1..], client, k + 1)
  }

  /** What the worker prints while handling `evs`: one line per failed event,
      in order. */
  function ErrorLog(evs: seq<IoEvent>, client: Client, k: nat): seq<string>
    decreases |evs|
  {
    if evs == [] then []
    else
      var rest := ErrorLog(evs[1..], client, k + 1);
      match FetchError(evs[0], client(k))
      case Some(err) => [Report(err)] + rest
      case None => rest
  }

  /** `main_loop`: receive events in order until the queue is exhausted; an
      error is printed and the loop goes on with the next event. Returns
      what was printed. */
  method MainLoop(rx: Channel, spotify: Spotify) returns (stderr: seq<string>)
    modifies rx, spotify
    ensures rx.queue == []
    ensures rx.receiverDropped == old(rx.receiverDropped)
    ensures spotify.state == Drain(old(spotify.state), old(rx.queue), spotify.client, 0)
    ensures stderr == ErrorLog(old(rx.queue), spotify.client, 0)
  {
    ghost var events := rx.queue;
    ghost var s0 := spotify.state;
    var n := 0;
    stderr := [];
    while true
      invariant n <= |events| && rx.queue == events[n..]
      invariant rx.receiverDropped == old(rx.receiverDropped)
      invariant Drain(s0, events, spotify.client, 0) == Drain(spotify.state, events[n..], spotify.client, n)
      invariant ErrorLog(events, spotify.client, 0) == stderr + ErrorLog(events[n..], spotify.client, n)
      decreases |rx.queue|
    {
      var e := rx.Recv();
      if e.None? {
        break;
      }
      assert events[n..][1..] == events[n + 1..];
      var r := HandleEvent(e.value, spotify, n);
      if r.Err? {
        stderr := stderr + [Report(r.error)];
      }
      n := n + 1;
    }
  }

  /** Handling two batches one after the other is handling their
      concatenation: events are taken strictly in order. */
  lemma {:induction false} DrainAppend(s: SpotifyState, a: seq<IoEvent>, b: seq<IoEvent>, client: Client, k: nat)
    ensures Drain(s, a + b, client, k) == Drain(Drain(s, a, client, k), b, client, k + |a|)
    decreases |a|
  {
    if a == [] {
      assert a + b == b;
    } else {
      assert (a + b)[1..] == a[1..] + b;
      DrainAppend(Commit(s, a[0], client(k)), a[1..], b, client, k + 1);
    }
  }

  /** Reference definition: the profile from the last successful
      FetchUserInfo among `evs`, or `dflt` when there is none. */
  function LastUser(dflt: Option<PrivateUser>, evs: seq<IoEvent>, client: Client, k: nat): Option<PrivateUser>
    decreases |evs|
  {
    if evs == [] then dflt
    else
      var j := |evs| - 1;
      if evs[j].FetchUserInfo? && client(k + j).me.Ok? then Some(client(k + j).me.value)
      else LastUser(dflt, evs[..j], client, k)
  }

  /** Reference definition: the playback from the last successful
      FetchCurrentPlayback among `evs`, or `dflt` when there is none. */
  function LastPlayback(dflt: Option<CurrentPlaybackContext>, evs: seq<IoEvent>, client: Client, k: nat)
    : Option<CurrentPlaybackContext>
    decreases |evs|
  {
    if evs == [] then dflt
    else
      var j := |evs| - 1;
      if evs[j].FetchCurrentPlayback? && client(k + j).currentPlayback.Ok? then client(k + j).currentPlayback.value
      else LastPlayback(dflt, evs[..j], client, k)
  }

  /** After the queue is drained, each field holds the answer of the last
      successful fetch of its kind, or its old value if every such fetch
      failed: last write wins, field by field, and failures write nothing. */
  lemma {:induction false} DrainLastWriteWins(s: SpotifyState, evs: seq<IoEvent>, client: Client, k: nat)
    ensures Drain(s, evs, client, k).me == LastUser(s.me, evs, client, k)
    ensures Drain(s, evs, client, k).playback == LastPlayback(s.playback, evs, client, k)
    decreases |evs|
  {
    if evs != [] {
      var j := |evs| - 1;
      assert evs == evs[..j] + [evs[j]];
      DrainAppend(s, evs[..j], [evs[j]], client, k);
      DrainLastWriteWins(s, evs[..j], client, k);
      var mid := Drain(s, evs[..j], client, k);
      assert Drain(s, evs, client, k) == Commit(mid, evs[j], client(k + j));
    }
  }

  /** When every fetch fails the state is untouched, and one line is printed
      per event: no error stops the loop. */
  lemma {:induction false} DrainAllFailing(s: SpotifyState, evs: seq<IoEvent>, client: Client, k: nat)
    requires forall i :: 0 <= i < |evs| ==> FetchError(evs[i], client(k + i)).Some?
    ensures Drain(s, evs, client, k) == s
    ensures |ErrorLog(evs, client, k)| == |evs|
    decreases |evs|
  {
    if evs != [] {
      assert FetchError(evs[0], client(k + 0)).Some?;
      forall i | 0 <= i < |evs[1..]|
        ensures FetchError(evs[1..][i], client(k + 1 + i)).Some?
      {
        assert evs[1..][i] == evs[i + 1];
        assert FetchError(evs[i + 1], client(k + (i + 1))).Some?;
      }
      DrainAllFailing(s, evs[1..], client, k + 1);
    }
  }

  /** A failed event leaves the state as it was and the events after it are
      still handled, from that same state. */
  lemma FailureIsSkipped(s: SpotifyState, e: IoEvent, rest: seq<IoEvent>, client: Client, k: nat)
    requires FetchError(e, client(k)).Some?
    ensures Drain(s, [e] + rest, client, k) == Drain(s, rest, client, k + 1)
    ensures ErrorLog([e] + rest, client, k) == [Report(FetchError(e, client(k)).value)] + ErrorLog(rest, client, k + 1)
  {
    assert ([e] + rest)[1..] == rest;
  }
}
