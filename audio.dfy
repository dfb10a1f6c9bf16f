/** The playback transport of `AudioService` (internal/yt/services/audio.go).

    Every mutating method of the Go service runs under one mutex, so each is
    modelled as one atomic step. A step is first given as a function from the
    old `Session` to a `Step` (the new session and the calls it makes into the
    environment, in order); the class `AudioService` then performs the same
    step on its fields, field by field, and is proved to end where the
    function says. The external programs (yt-dlp, ffmpeg) and the audio
    device are opaque handles, and whether each of them succeeds is an input. */
module Audio {
  import opened Common
  import opened Text

  /** The process-wide oto output context. */
  datatype AudioContext = AudioContext(id: nat)
  /** An oto player reading ffmpeg's standard output. */
  datatype Player = Player(id: nat)
  /** The cancel function of the context ffmpeg runs under. */
  datatype CancelFunc = CancelFunc(id: nat)
  /** An ffmpeg `exec.Cmd`: `input` is the stream URL passed with `-i`;
      `started` says whether `cmd.Process` is set, that is, whether `Start`
      succeeded. */
  datatype Process = Process(id: nat, input: string, started: bool)

  /** A `chan bool` of capacity one that only ever carries `true`. */
  datatype Slot = Empty | Full

  /** A non-blocking send (`select` with a `default` branch): it fills an
      empty slot and drops the value when the slot is already full. */
  function Offer(slot: Slot): (r: Slot)
    ensures r == Full
    ensures slot == Full ==> r == slot
  {
    if slot.Empty? then Full else slot
  }

  /** A call from the service into its environment. */
  datatype Call =
    | CancelContext(cancel: CancelFunc)  // cancelFunc()
    | KillProcess(proc: Process)         // cmd.Process.Kill()
    | ClosePlayer(player: Player)        // player.Close()
    | PausePlayer(player: Player)        // player.Pause()
    | PlayPlayer(player: Player)         // player.Play()
    | ResolveStream(url: string)         // yt-dlp --get-url ... url
    | StartProcess(proc: Process)        // cmd.Start() that succeeded
    | SpawnWatcher(url: string)          // go monitorStream(url)

  /** The fields of `AudioService`, as one value. */
  datatype Session = Session(
    context: Option<AudioContext>,
    player: Option<Player>,
    isPlaying: bool,
    isPaused: bool,
    currentSong: string,
    cancelFunc: Option<CancelFunc>,
    cmd: Option<Process>,
    manuallyStopped: bool,
    streamDone: Slot,
    songComplete: Slot)

  /** The outcome of one atomic step: the new session, and the calls made
      into the environment during the step, in order. */
  datatype Step = Step(after: Session, calls: seq<Call>)

  /** What the environment answers during one `PlayStream`. */
  datatype Environment = Environment(
    newContext: Option<AudioContext>,  // oto.NewContext; None when it fails
    ytDlpOutput: Option<string>,       // yt-dlp's standard output; None when it fails
    cancel: CancelFunc,                // context.WithCancel
    processId: nat,                    // the exec.Cmd built for ffmpeg
    pipeOk: bool,                      // cmd.StdoutPipe succeeds
    startOk: bool,                     // cmd.Start succeeds
    player: Player)                    // context.NewPlayer(stdout)

  /** Why `GetStreamURL` failed. */
  datatype StreamUrlError = ResolverFailed | EmptyStreamUrl

  /** Why `PlayStream` failed. */
  datatype PlayError =
    | ContextFailed                         // "failed to create audio context"
    | StreamUrlFailed(cause: StreamUrlError) // "error getting stream url"
    | PipeFailed                            // "failed to create stdout pipe"
    | StartFailed                           // "failed to start FFmpeg"

  /** `NewAudioService`: nothing loaded, both channels empty. */
  function Initial(): Session {
    Session(None, None, false, false, "", None, None, false, Empty, Empty)
  }

  /** The invariant every step keeps. The transport flags are never both set;
      a player exists exactly while the transport is playing or paused, and
      then a started ffmpeg, its cancel function and the output context exist
      too and the session was not stopped by hand; with no player, no song is
      current. (The converse of the pipeline clause does not hold: the exit
      watcher drops the player but leaves `cmd` and `cancelFunc` set.) */
  ghost predicate Consistent(s: Session) {
    && !(s.isPlaying && s.isPaused)
    && (s.player.Some? <==> s.isPlaying || s.isPaused)
    && (s.player.Some? ==> && s.context.Some? && s.cancelFunc.Some?
                           && s.cmd.Some? && s.cmd.value.started
                           && !s.manuallyStopped)
    && (s.player.None? ==> s.currentSong == "")
  }

  lemma InitialConsistent()
    ensures Consistent(Initial())
  {
  }

  // ---------------------------------------------------------------------
  // GetStreamURL

  /** The post-processing of `GetStreamURL`: yt-dlp's output with the white
      space around it trimmed, or an error when yt-dlp failed or printed
      nothing but white space. A URL it returns is never empty and never
      starts or ends with white space. */
  function StreamUrl(ytDlpOutput: Option<string>): (r: Result<string, StreamUrlError>)
    ensures ytDlpOutput.None? ==> r == Failure(ResolverFailed)
    ensures ytDlpOutput.Some? && AllSpace(ytDlpOutput.value) ==> r == Failure(EmptyStreamUrl)
    ensures ytDlpOutput.Some? && !AllSpace(ytDlpOutput.value) ==> r == Success(TrimSpace(ytDlpOutput.value))
    ensures r.Success? ==> r.value != "" && !IsSpace(r.value[0]) && !IsSpace(r.value[|r.value| - 1])
  {
    match ytDlpOutput
    case None => Failure(ResolverFailed)
    case Some(output) =>
      var url := TrimSpace(output);
      if url == "" then Failure(EmptyStreamUrl) else Success(url)
  }

  // ---------------------------------------------------------------------
  // The steps

  /** `stopInternal`: mark the session stopped by hand, cancel ffmpeg's
      context, kill ffmpeg if it was started (only then is `cmd` cleared),
      close the player, and clear the transport. */
  function Teardown(s: Session): Step {
    var cancelCalls := if s.cancelFunc.Some? then [CancelContext(s.cancelFunc.value)] else [];
    var killed := s.cmd.Some? && s.cmd.value.started;
    var killCalls := if killed then [KillProcess(s.cmd.value)] else [];
    var closeCalls := if s.player.Some? then [ClosePlayer(s.player.value)] else [];
    Step(s.(manuallyStopped := true,
            cancelFunc := None,
            cmd := if killed then None else s.cmd,
            player := None,
            isPlaying := false,
            isPaused := false,
            currentSong := ""),
         cancelCalls + killCalls + closeCalls)
  }

  /** `PlayStream(url)`: tear down, clear `manuallyStopped`, then build the
      new pipeline, stopping at the first failure. The result is the step and
      the error returned (None for Go's nil). */
  function Load(s: Session, url: string, env: Environment): (Step, Option<PlayError>) {
    var down := Teardown(s);
    var (built, err) := Build(down.after.(manuallyStopped := false), url, env);
    (Step(built.after, down.calls + built.calls), err)
  }

  /** The part of `PlayStream` after the teardown: create the output context
      if there is none, then launch. */
  function Build(s: Session, url: string, env: Environment): (Step, Option<PlayError>) {
    if s.context.None? && env.newContext.None? then
      (Step(s, []), Some(ContextFailed))
    else
      Launch(if s.context.None? then s.(context := env.newContext) else s, url, env)
  }

  /** The rest of `PlayStream`: resolve the stream URL, set up ffmpeg and
      start it, then attach and start a player and spawn the exit watcher. */
  function Launch(s: Session, url: string, env: Environment): (Step, Option<PlayError>) {
    match StreamUrl(env.ytDlpOutput)
    case Failure(e) => (Step(s, [ResolveStream(url)]), Some(StreamUrlFailed(e)))
    case Success(streamUrl) =>
      var proc := Process(env.processId, streamUrl, false);
      var s3 := s.(cancelFunc := Some(env.cancel), cmd := Some(proc));
      if !env.pipeOk then (Step(s3, [ResolveStream(url)]), Some(PipeFailed))
      else if !env.startOk then (Step(s3, [ResolveStream(url)]), Some(StartFailed))
      else
        var playing := Started(s3, url, env);
        (Step(playing.after, [ResolveStream(url)] + playing.calls), None)
  }

  /** The end of `PlayStream`, once ffmpeg has started: a player on its
      output plays the song, and a watcher waits for the process. */
  function Started(s: Session, url: string, env: Environment): Step
    requires s.cmd.Some?
  {
    var started := s.cmd.value.(started := true);
    Step(s.(cmd := Some(started), player := Some(env.player),
            isPlaying := true, isPaused := false, currentSong := url),
         [StartProcess(started), PlayPlayer(env.player), SpawnWatcher(url)])
  }

  /** `Pause`: acts only on a player that is playing. */
  function PauseStep(s: Session): Step {
    if s.player.Some? && s.isPlaying then
      Step(s.(isPlaying := false, isPaused := true), [PausePlayer(s.player.value)])
    else Step(s, [])
  }

  /** `Play`: acts only on a player that is paused. */
  function PlayStep(s: Session): Step {
    if s.player.Some? && s.isPaused then
      Step(s.(isPlaying := true, isPaused := false), [PlayPlayer(s.player.value)])
    else Step(s, [])
  }

  /** The critical section `monitorStream(songUrl)` runs once ffmpeg has
      exited. The only generation check is on the URL: a watcher whose URL is
      not the current song returns at once, without even signalling
      `streamDone`. Otherwise it closes the player, clears the transport,
      signals `songComplete` unless the session was stopped by hand, and
      signals `streamDone`; `cmd` and `cancelFunc` are left as they were. */
  function ExitStep(s: Session, songUrl: string): Step {
    if s.currentSong != songUrl then Step(s, [])
    else
      Step(s.(player := None, isPlaying := false, isPaused := false, currentSong := "",
              songComplete := if s.manuallyStopped then s.songComplete else Offer(s.songComplete),
              streamDone := Offer(s.streamDone)),
           if s.player.Some? then [ClosePlayer(s.player.value)] else [])
  }

  /** The exit step with a process check: a watcher whose process `proc` is
      no longer the session's ffmpeg changes nothing; for the current process
      it is `ExitStep`. */
  function GuardedExitStep(s: Session, songUrl: string, proc: Process): Step {
    if s.cmd != Some(proc) then Step(s, []) else ExitStep(s, songUrl)
  }

  // ---------------------------------------------------------------------
  // Properties of the steps

  /** Teardown leaves the transport clean, keeps the invariant, and ends
      every live part of the old pipeline: the cancel function is called, a
      started ffmpeg is killed and the player is closed, in that order, and
      nothing else is called. An ffmpeg that never started is kept. */
  lemma TeardownClears(s: Session)
    ensures var t := Teardown(s).after;
            && t.manuallyStopped && t.cancelFunc.None? && t.player.None?
            && !t.isPlaying && !t.isPaused && t.currentSong == ""
            && (s.cmd.Some? && s.cmd.value.started ==> t.cmd.None?)
            && (!(s.cmd.Some? && s.cmd.value.started) ==> t.cmd == s.cmd)
            && Consistent(t)
    ensures var c := Teardown(s).calls;
            && (s.cancelFunc.Some? ==> c[0] == CancelContext(s.cancelFunc.value))
            && (s.player.Some? ==> c[|c| - 1] == ClosePlayer(s.player.value))
            && (s.cmd.Some? && s.cmd.value.started ==> KillProcess(s.cmd.value) in c)
            && |c| == (if s.cancelFunc.Some? then 1 else 0)
                      + (if s.cmd.Some? && s.cmd.value.started then 1 else 0)
                      + (if s.player.Some? then 1 else 0)
            && (forall x :: x in c ==> x.CancelContext? || x.KillProcess? || x.ClosePlayer?)
            && (s.context == Teardown(s).after.context)
  {
  }

  /** Teardown is idempotent, and a second teardown makes no call at all. */
  lemma TeardownIdempotent(s: Session)
    ensures Teardown(Teardown(s).after) == Step(Teardown(s).after, [])
  {
  }

  /** A successful `PlayStream(url)` is playing `url` on the new player, fed
      by a started ffmpeg reading the resolved stream URL. */
  lemma LoadSuccess(s: Session, url: string, env: Environment)
    requires Load(s, url, env).1.None?
    ensures var t := Load(s, url, env).0.after;
            && t.isPlaying && !t.isPaused && t.currentSong == url
            && t.player == Some(env.player) && !t.manuallyStopped
            && t.cmd == Some(Process(env.processId, StreamUrl(env.ytDlpOutput).value, true))
            && t.cancelFunc == Some(env.cancel)
  {
  }

  /** `PlayStream` fails exactly at the first environment step that fails,
      and with that step's error. */
  lemma LoadErrors(s: Session, url: string, env: Environment)
    ensures var err := Load(s, url, env).1;
            var hasContext := s.context.Some? || env.newContext.Some?;
            && (err == Some(ContextFailed) <==> !hasContext)
            && (err.Some? && err.value.StreamUrlFailed? <==> hasContext && StreamUrl(env.ytDlpOutput).Failure?)
            && (err == Some(PipeFailed) <==> hasContext && StreamUrl(env.ytDlpOutput).Success? && !env.pipeOk)
            && (err == Some(StartFailed) <==> hasContext && StreamUrl(env.ytDlpOutput).Success? && env.pipeOk && !env.startOk)
            && (err.None? <==> hasContext && StreamUrl(env.ytDlpOutput).Success? && env.pipeOk && env.startOk)
  {
  }

  /** Any failed `PlayStream` leaves the transport fields clean. Only they
      are: a pipe or start failure leaves `cancelFunc` and `cmd` set. */
  lemma LoadFailureIsClean(s: Session, url: string, env: Environment)
    requires Load(s, url, env).1.Some?
    ensures var t := Load(s, url, env).0.after;
            && !t.isPlaying && !t.isPaused && t.currentSong == "" && t.player.None?
            && !t.manuallyStopped
    ensures Load(s, url, env).1 in {Some(PipeFailed), Some(StartFailed)} ==>
              var t := Load(s, url, env).0.after;
              t.cancelFunc == Some(env.cancel) && t.cmd.Some? && !t.cmd.value.started
  {
  }

  /** `PlayStream` supersedes the old pipeline: its calls start with the
      whole teardown of the old session, and nothing after that ends
      anything, so the old pipeline is gone before the new one is built. */
  lemma LoadTearsDownFirst(s: Session, url: string, env: Environment)
    ensures var calls := Load(s, url, env).0.calls;
            var down := Teardown(s).calls;
            && |down| <= |calls| && calls[..|down|] == down
            && forall i :: |down| <= i < |calls| ==>
                 !calls[i].CancelContext? && !calls[i].KillProcess? && !calls[i].ClosePlayer?
  {
    var down := Teardown(s).calls;
    var built := Build(Teardown(s).after.(manuallyStopped := false), url, env).0.calls;
    BuildOnlyStartsUp(Teardown(s).after.(manuallyStopped := false), url, env);
    var calls := down + built;
    assert calls[..|down|] == down;
    forall i | |down| <= i < |calls|
      ensures !calls[i].CancelContext? && !calls[i].KillProcess? && !calls[i].ClosePlayer?
    {
      assert calls[i] == built[i - |down|];
    }
  }

  /** Starting a song only resolves, starts, plays and watches. */
  lemma BuildOnlyStartsUp(s: Session, url: string, env: Environment)
    ensures forall i :: 0 <= i < |Build(s, url, env).0.calls| ==>
              var c := Build(s, url, env).0.calls[i];
              c.ResolveStream? || c.StartProcess? || c.PlayPlayer? || c.SpawnWatcher?
  {
  }

  /** `Pause` changes something only on a playing player, and then moves it
      to paused; `Play` is its mirror image. */
  lemma PauseAndPlay(s: Session)
    ensures PauseStep(s).after != s <==> s.player.Some? && s.isPlaying
    ensures s.player.Some? && s.isPlaying ==>
              PauseStep(s).after == s.(isPlaying := false, isPaused := true)
    ensures PlayStep(s).after != s <==> s.player.Some? && s.isPaused
    ensures s.player.Some? && s.isPaused ==>
              PlayStep(s).after == s.(isPlaying := true, isPaused := false)
  {
  }

  /** Pausing and resuming a playing session gives it back unchanged. */
  lemma PauseThenPlay(s: Session)
    requires Consistent(s) && s.isPlaying
    ensures PlayStep(PauseStep(s).after).after == s
  {
  }

  /** `Play` after a `Stop` is a no-op: the pipeline is gone. */
  lemma PlayAfterStop(s: Session)
    ensures PlayStep(Teardown(s).after) == Step(Teardown(s).after, [])
    ensures PauseStep(Teardown(s).after) == Step(Teardown(s).after, [])
  {
  }

  /** A watcher whose URL is not the current song changes nothing. */
  lemma StaleWatcherIsNoOp(s: Session, songUrl: string)
    requires songUrl != s.currentSong
    ensures ExitStep(s, songUrl) == Step(s, [])
  {
  }

  /** When ffmpeg of the current song ends on its own, the player is closed,
      the transport is cleared, and both `songComplete` and `streamDone` hold
      a signal; the process and its cancel function stay recorded. */
  lemma NaturalEndSignals(s: Session)
    requires Consistent(s) && s.player.Some?
    ensures var t := ExitStep(s, s.currentSong);
            && t.after.songComplete == Full && t.after.streamDone == Full
            && !t.after.isPlaying && !t.after.isPaused && t.after.player.None?
            && t.after.currentSong == "" && t.calls == [ClosePlayer(s.player.value)]
            && t.after.cmd == s.cmd && t.after.cancelFunc == s.cancelFunc
  {
  }

  /** After a manual stop no watcher, whatever its URL, signals completion. */
  lemma NoCompletionAfterStop(s: Session, songUrl: string)
    ensures var t := Teardown(s).after;
            ExitStep(t, songUrl).after.songComplete == t.songComplete
  {
  }

  /** Every step keeps the invariant. */
  lemma StepsKeepConsistent(s: Session, url: string, env: Environment, songUrl: string, proc: Process)
    requires Consistent(s)
    ensures Consistent(Teardown(s).after)
    ensures Consistent(Load(s, url, env).0.after)
    ensures Consistent(PauseStep(s).after)
    ensures Consistent(PlayStep(s).after)
    ensures Consistent(ExitStep(s, songUrl).after)
    ensures Consistent(GuardedExitStep(s, songUrl, proc).after)
  {
  }

  // ---------------------------------------------------------------------
  // The URL-only generation check

  /** Playing the URL that is already playing leaves the first ffmpeg's
      watcher alive: once the first ffmpeg has been killed and the second
      `PlayStream` has released the lock, that watcher sees its URL as the
      current song, closes the NEW player, clears the transport and reports
      the song as complete. */
  lemma ReplayIsTornDownByOldWatcher(s: Session, url: string, env1: Environment, env2: Environment)
    requires Load(s, url, env1).1.None? && Load(Load(s, url, env1).0.after, url, env2).1.None?
    ensures var replayed := Load(Load(s, url, env1).0.after, url, env2).0.after;
            var afterOldExit := ExitStep(replayed, url);
            && replayed.isPlaying
            && afterOldExit.calls == [ClosePlayer(env2.player)]
            && !afterOldExit.after.isPlaying && afterOldExit.after.player.None?
            && afterOldExit.after.songComplete == Full
  {
  }

  /** With the process check added, the old watcher of a replayed URL changes
      nothing, provided the replay got a process of its own. */
  lemma GuardedReplaySurvivesOldWatcher(s: Session, url: string, env1: Environment, env2: Environment)
    requires Load(s, url, env1).1.None? && Load(Load(s, url, env1).0.after, url, env2).1.None?
    requires env1.processId != env2.processId
    ensures var first := Load(s, url, env1).0.after;
            var replayed := Load(first, url, env2).0.after;
            GuardedExitStep(replayed, url, first.cmd.value) == Step(replayed, [])
  {
  }

  /** The process check keeps the intended behaviour: a watcher of another
      process changes nothing, and the watcher of the current ffmpeg ends the
      song exactly as the unguarded step does. */
  lemma GuardedExitStepIntended(s: Session, songUrl: string, proc: Process)
    ensures s.cmd != Some(proc) ==> GuardedExitStep(s, songUrl, proc) == Step(s, [])
    ensures s.cmd == Some(proc) ==> GuardedExitStep(s, songUrl, proc) == ExitStep(s, songUrl)
  {
  }

  // ---------------------------------------------------------------------
  // The service object

  /** `AudioService`: the session's fields, updated in place; `calls` records
      every call made into the environment, in order. */
  class AudioService {
    var context: Option<AudioContext>
    var player: Option<Player>
    var isPlaying: bool
    var isPaused: bool
    var currentSong: string
    var cancelFunc: Option<CancelFunc>
    var cmd: Option<Process>
    var manuallyStopped: bool
    var streamDone: Slot
    var songComplete: Slot
    var calls: seq<Call>

    /** The fields as one `Session` value. */
    function Snapshot(): Session
      reads this
    {
      Session(context, player, isPlaying, isPaused, currentSong,
              cancelFunc, cmd, manuallyStopped, streamDone, songComplete)
    }

    ghost predicate Valid()
      reads this
    {
      Consistent(Snapshot())
    }

    /** `NewAudioService`. */
    constructor ()
      ensures Valid() && Snapshot() == Initial() && calls == []
    {
      context, player := None, None;
      isPlaying, isPaused, currentSong := false, false, "";
      cancelFunc, cmd, manuallyStopped := None, None, false;
      streamDone, songComplete := Empty, Empty;
      calls := [];
    }

    /** `stopInternal`, called with the lock held. */
    method StopInternal()
      modifies this
      ensures Snapshot() == Teardown(old(Snapshot())).after
      ensures calls == old(calls) + Teardown(old(Snapshot())).calls
    {
      manuallyStopped := true;
      var cancelCalls, killCalls, closeCalls := [], [], [];
      if cancelFunc.Some? {
        cancelCalls := [CancelContext(cancelFunc.value)];
        cancelFunc := None;
      }
      if cmd.Some? && cmd.value.started {
        killCalls := [KillProcess(cmd.value)];
        cmd := None;
      }
      if player.Some? {
        closeCalls := [ClosePlayer(player.value)];
        player := None;
      }
      calls := calls + (cancelCalls + killCalls + closeCalls);
      isPlaying := false;
      isPaused := false;
      currentSong := "";
    }

    /** `Stop`. */
    method Stop()
      requires Valid()
      modifies this
      ensures Valid()
      ensures Snapshot() == Teardown(old(Snapshot())).after
      ensures calls == old(calls) + Teardown(old(Snapshot())).calls
    {
      StopInternal();
    }

    /** `PlayStream(url)`; `env` supplies the environment's answers. */
    method PlayStream(url: string, env: Environment) returns (err: Option<PlayError>)
      requires Valid()
      modifies this
      ensures Valid()
      ensures Snapshot() == Load(old(Snapshot()), url, env).0.after
      ensures calls == old(calls) + Load(old(Snapshot()), url, env).0.calls
      ensures err == Load(old(Snapshot()), url, env).1
    {
      StopInternal();
      manuallyStopped := false;
      err := BuildPipeline(url, env);
    }

    /** The rest of `PlayStream`, after the teardown. */
    method BuildPipeline(url: string, env: Environment) returns (err: Option<PlayError>)
      modifies this
      ensures Snapshot() == Build(old(Snapshot()), url, env).0.after
      ensures calls == old(calls) + Build(old(Snapshot()), url, env).0.calls
      ensures err == Build(old(Snapshot()), url, env).1
    {
      if context.None? {
        if env.newContext.None? {
          return Some(ContextFailed);
        }
        context := env.newContext;
      }
      err := LaunchPipeline(url, env);
    }

    /** `PlayStream` from `GetStreamURL` on, once the context exists. */
    method LaunchPipeline(url: string, env: Environment) returns (err: Option<PlayError>)
      modifies this
      ensures Snapshot() == Launch(old(Snapshot()), url, env).0.after
      ensures calls == old(calls) + Launch(old(Snapshot()), url, env).0.calls
      ensures err == Launch(old(Snapshot()), url, env).1
    {
      calls := calls + [ResolveStream(url)];
      var streamUrl := StreamUrl(env.ytDlpOutput);
      if streamUrl.Failure? {
        return Some(StreamUrlFailed(streamUrl.error));
      }
      cancelFunc := Some(env.cancel);
      cmd := Some(Process(env.processId, streamUrl.value, false));
      if !env.pipeOk {
        return Some(PipeFailed);
      }
      if !env.startOk {
        return Some(StartFailed);
      }
      StartPlayback(url, env);
      err := None;
    }

    /** `PlayStream` once ffmpeg has started: attach a player to its output,
        start it, and spawn the exit watcher. */
    method StartPlayback(url: string, env: Environment)
      requires cmd.Some?
      modifies this
      ensures Snapshot() == Started(old(Snapshot()), url, env).after
      ensures calls == old(calls) + Started(old(Snapshot()), url, env).calls
    {
      cmd := Some(cmd.value.(started := true));
      player := Some(env.player);
      isPlaying := true;
      isPaused := false;
      currentSong := url;
      calls := calls + [StartProcess(cmd.value), PlayPlayer(env.player), SpawnWatcher(url)];
    }

    /** `Pause`. */
    method Pause()
      requires Valid()
      modifies this
      ensures Valid()
      ensures Snapshot() == PauseStep(old(Snapshot())).after
      ensures calls == old(calls) + PauseStep(old(Snapshot())).calls
    {
      if player.Some? && isPlaying {
        calls := calls + [PausePlayer(player.value)];
        isPlaying := false;
        isPaused := true;
      }
    }

    /** `Play`. */
    method Play()
      requires Valid()
      modifies this
      ensures Valid()
      ensures Snapshot() == PlayStep(old(Snapshot())).after
      ensures calls == old(calls) + PlayStep(old(Snapshot())).calls
    {
      if player.Some? && isPaused {
        calls := calls + [PlayPlayer(player.value)];
        isPlaying := true;
        isPaused := false;
      }
    }

    /** The part of `monitorStream(songUrl)` that runs under the lock once
      ffmpeg has exited. */
    method OnProcessExit(songUrl: string)
      requires Valid()
      modifies this
      ensures Valid()
      ensures Snapshot() == ExitStep(old(Snapshot()), songUrl).after
      ensures calls == old(calls) + ExitStep(old(Snapshot()), songUrl).calls
    {
      if currentSong != songUrl {
        return;
      }
      if player.Some? {
        calls := calls + [ClosePlayer(player.value)];
        player := None;
      }
      if currentSong == songUrl {
        isPlaying := false;
        isPaused := false;
        currentSong := "";
        if !manuallyStopped {
          songComplete := Offer(songComplete);
        }
      }
      streamDone := Offer(streamDone);
    }

    /** The exit handler with the process check: the watcher of `proc` acts
        only while `proc` is still the session's ffmpeg. */
    method OnProcessExitGuarded(songUrl: string, proc: Process)
      requires Valid()
      modifies this
      ensures Valid()
      ensures Snapshot() == GuardedExitStep(old(Snapshot()), songUrl, proc).after
      ensures calls == old(calls) + GuardedExitStep(old(Snapshot()), songUrl, proc).calls
    {
      if cmd != Some(proc) {
        return;
      }
      OnProcessExit(songUrl);
    }

    /** `IsPlaying`. */
    method IsPlaying() returns (playing: bool)
      ensures playing == isPlaying
    {
      playing := isPlaying;
    }

    /** `IsPaused`. */
    method IsPaused() returns (paused: bool)
      ensures paused == isPaused
    {
      paused := isPaused;
    }

    /** `GetCurrentSong`. */
    method GetCurrentSong() returns (song: string)
      ensures song == currentSong
    {
      song := currentSong;
    }
  }

  /** A transport scenario: play, pause, resume, stop, then a play whose
      stream cannot be resolved, which leaves the service stopped. */
  method Scenario(env: Environment) returns (err: Option<PlayError>, playing: bool, song: string)
    requires env.newContext.Some? && env.pipeOk && env.startOk
    requires env.ytDlpOutput == Some("https://stream.example/track1\n")
    ensures err == Some(StreamUrlFailed(ResolverFailed)) && !playing && song == ""
  {
    var service := new AudioService();
    err := service.PlayStream("track1", env);
    assert TrimSpace("https://stream.example/track1\n") != "" by {
      assert !IsSpace("https://stream.example/track1\n"[0]);
    }
    assert err.None?;
    playing := service.IsPlaying();
    song := service.GetCurrentSong();
    assert playing && song == "track1";
    service.Pause();
    var paused := service.IsPaused();
    playing := service.IsPlaying();
    assert paused && !playing;
    service.Play();
    playing := service.IsPlaying();
    assert playing;
    service.Stop();
    playing := service.IsPlaying();
    song := service.GetCurrentSong();
    assert !playing && song == "";
    err := service.PlayStream("bad-locator", env.(ytDlpOutput := None));
    playing := service.IsPlaying();
    song := service.GetCurrentSong();
  }
}
