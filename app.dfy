/** The command-line side of `src/app/mod.rs`: `App::run` without a window
    logs in, greets the user and hands the first argument to
    `handle_command`, which resumes or pauses playback. */
module Application {
  import opened Wrappers
  import opened Spotify
  import Windowing

  /** A request made to the remote service. */
  datatype Call = Me | ResumePlayback | PausePlayback

  /** How `run` ends: with its `Result`, with a panic, or by handing control
      to the window's event loop, which never returns. */
  datatype Outcome = Exited(result: Result<Unit>) | Panic(message: string) | InEventLoop

  /** An outcome together with the requests made on the way, in order, and
      the lines printed to standard output. */
  datatype Exec = Exec(outcome: Outcome, calls: seq<Call>, stdout: seq<string>)

  /** Whether the answer to `call` in `reply` is a success. */
  predicate Succeeded(call: Call, reply: Reply) {
    match call
    case Me => reply.me.Ok?
    case ResumePlayback => reply.resume.Ok?
    case PausePlayback => reply.pause.Ok?
  }

  /** `handle_command`, answered by `reply`: `--resume` and `--pause` make
      one request each and wrap its error with a context message; any other
      command reaches `todo!()` and makes none. */
  function HandleCommand(cmd: string, reply: Reply): (r: Exec)
    ensures r.stdout == []
    ensures cmd == "--resume" ==>
      && r.calls == [ResumePlayback]
      && (reply.resume.Ok? ==> r.outcome == Exited(Ok(Unit)))
      && (reply.resume.Err? ==> r.outcome == Exited(Err(WithContext(reply.resume.error, "Unable to resume playback"))))
    ensures cmd == "--pause" ==>
      && r.calls == [PausePlayback]
      && (reply.pause.Ok? ==> r.outcome == Exited(Ok(Unit)))
      && (reply.pause.Err? ==> r.outcome == Exited(Err(WithContext(reply.pause.error, "Unable to pause playback"))))
    ensures cmd != "--resume" && cmd != "--pause" ==> r.outcome.Panic? && r.calls == []
    ensures r.outcome == Exited(Ok(Unit)) <==> |r.calls| == 1 && Succeeded(r.calls[0], reply)
  {
    if cmd == "--resume" then
      Exec(Exited(MapOk(ResultContext(reply.resume, "Unable to resume playback"))), [ResumePlayback], [])
    else if cmd == "--pause" then
      Exec(Exited(MapOk(ResultContext(reply.pause, "Unable to pause playback"))), [PausePlayback], [])
    else
      Exec(Panic("not yet implemented"), [], [])
  }

  /** `?` followed by `Ok(())`: the value is dropped, an error passes. */
  function MapOk(r: Result<Unit>): Result<Unit> {
    match r
    case Ok(_) => Ok(Unit)
    case Err(e) => Err(e)
  }

  /** What `run` does, given the outcome of logging in, whether a window was
      set up, and the program's arguments (`args[0]` is the program name).
      The client answers its first request with `client(0)` and its second
      with `client(1)`. */
  function RunSpec(auth: Result<Client>, windowed: bool, args: seq<string>): Exec {
    match auth
    case Err(e) => Exec(Exited(Err(e)), [], [])
    case Ok(client) =>
      if windowed then Exec(InEventLoop, [], [])
      else
        match client(0).me
        case Err(e) => Exec(Exited(Err(e)), [Me], [])
        case Ok(user) =>
          match user.displayName
          case None => Exec(Panic("called `Option::unwrap()` on a `None` value"), [Me], [])
          case Some(name) =>
            var greeting := ["Logged-in as: " + name];
            if |args| < 2 then Exec(Exited(Err(Error("Invalid argument", []))), [Me], greeting)
            else
              var h := HandleCommand(args[1], client(1));
              Exec(h.outcome, [Me] + h.calls, greeting)
  }

  /** `App`: the window, if one was built, and the remote client. */
  class App {
    var system: Windowing.System?
    var spotify: Client

    constructor (system: Windowing.System?, spotify: Client)
      ensures this.system == system && this.spotify == spotify
    {
      this.system := system;
      this.spotify := spotify;
    }

    /** `App::run`: the logged-in client replaces `spotify`, then each
        fallible step returns early on error. */
    method Run(auth: Result<Client>, args: seq<string>) returns (r: Exec)
      modifies this
      ensures system == old(system)
      ensures spotify == if auth.Ok? then auth.value else old(spotify)
      ensures r == RunSpec(auth, system != null, args)
    {
      if auth.Err? {
        return Exec(Exited(Err(auth.error)), [], []);
      }
      spotify := auth.value;
      if system != null {
        return Exec(InEventLoop, [], []);
      }
      var calls := [Me];
      var user := spotify(0).me;
      if user.Err? {
        return Exec(Exited(Err(user.error)), calls, []);
      }
      if user.value.displayName.None? {
        return Exec(Panic("called `Option::unwrap()` on a `None` value"), calls, []);
      }
      var stdout := ["Logged-in as: " + user.value.displayName.value];
      if |args| < 2 {
        return Exec(Exited(Err(Error("Invalid argument", []))), calls, stdout);
      }
      var h := HandleCommand(args[1], spotify(1));
      r := Exec(h.outcome, calls + h.calls, stdout);
    }
  }

  /** Without a command argument, `run` fails with "Invalid argument" after
      logging in, and makes no playback request. */
  lemma MissingArgument(client: Client, args: seq<string>, name: string)
    requires |args| < 2
    requires client(0).me.Ok? && client(0).me.value.displayName == Some(name)
    ensures RunSpec(Ok(client), false, args) ==
      Exec(Exited(Err(Error("Invalid argument", []))), [Me], ["Logged-in as: " + name])
  {
  }

  /** A failing `me()` ends `run` with that error before the arguments are
      read, whatever they are; a user without a display name panics at the
      same point. */
  lemma ProfileFailureAborts(client: Client, args: seq<string>, args': seq<string>)
    requires client(0).me.Err? || client(0).me.value.displayName.None?
    ensures RunSpec(Ok(client), false, args) == RunSpec(Ok(client), false, args')
    ensures RunSpec(Ok(client), false, args).calls == [Me]
    ensures client(0).me.Err? ==> RunSpec(Ok(client), false, args).outcome == Exited(Err(client(0).me.error))
    ensures client(0).me.Ok? ==> RunSpec(Ok(client), false, args).outcome.Panic?
  {
  }

  /** Without a window, `run` succeeds exactly when the user logged in, has
      a display name, gave `--resume` or `--pause`, and that one request
      succeeded. */
  lemma CliSucceedsOnlyAfterCommand(client: Client, args: seq<string>)
    ensures var r := RunSpec(Ok(client), false, args);
      r.outcome == Exited(Ok(Unit)) <==>
        && client(0).me.Ok? && client(0).me.value.displayName.Some?
        && |args| >= 2 && (args[1] == "--resume" || args[1] == "--pause")
        && |r.calls| == 2 && r.calls[0] == Me && Succeeded(r.calls[1], client(1))
  {
    var r := RunSpec(Ok(client), false, args);
    if client(0).me.Ok? && client(0).me.value.displayName.Some? && |args| >= 2 {
      var h := HandleCommand(args[1], client(1));
      assert r.calls == [Me] + h.calls;
    }
  }

  /** With a window, `run` enters the event loop and makes no request
      itself; a failed login stops it before anything else. */
  lemma WindowedAndLoginFailure(auth: Result<Client>, args: seq<string>)
    ensures auth.Ok? ==> RunSpec(auth, true, args) == Exec(InEventLoop, [], [])
    ensures auth.Err? ==> RunSpec(auth, true, args) == RunSpec(auth, false, args) == Exec(Exited(Err(auth.error)), [], [])
  {
  }
}
