/**
 * The transcoder supervisor (`FFMpegger`): it records a heartbeat for every
 * conduit announced to it, forwards what the compositing subprocess writes,
 * prunes stale and vanished conduits, and restarts the subprocess when the
 * data went stale, the set of conduits changed, or the subprocess died.
 *
 * The clock (`now`), the filesystem (`fs`, the set of existing paths), the
 * operating system's answer to "is the subprocess alive?" (`alive`) and the
 * bytes the subprocess wrote since the last cycle (`chunk`) are parameters.
 * Spawning and terminating the subprocess are recorded in `procLog`.
 */
module Transcoder {
  import opened Messages
  import opened HeartbeatTable
  import opened MosaicLayout

  /** What the supervisor asks of the operating system. */
  datatype ProcEvent =
    | Spawned(pid: nat, args: seq<string>)  // IO.popen of the compositor with these arguments
    | Terminated(pid: nat)                  // Process.kill "TERM" followed by Process.wait

  /** Why a cycle raises instead of completing. */
  datatype Crash =
    | MissingPipePath        // a message without :pipe_path: File.exists?(nil) raises
    | BadArgs(error: ArgsError)
    | NilData                // only as written: `data.length` on a message without :data

  /** What `start_ffmpeg` did. */
  datatype StartResult = NoSources | Started(pid: nat) | StartFailed(error: ArgsError)

  /** The table after taking the first queued message: its conduit is heartbeaten. */
  function Received(t: Table, q: seq<Msg>, now: int): Table {
    if q != [] && q[0].pipePath.Some? then SetBeat(t, q[0].pipePath.value, now) else t
  }

  /** `stop_ffmpeg` terminates the current subprocess only when it is still alive. */
  function StopEvents(pipe: Option<nat>, alive: bool): seq<ProcEvent> {
    if pipe.Some? && alive then [Terminated(pipe.value)] else []
  }

  /**
   * `handle_data` as written: its log line interpolates `data.length`
   * (ffmpegger.rb:22), which Ruby evaluates whatever the log level, so a
   * message without `:data` raises before the heartbeat is recorded.
   */
  function HandleDataAsWritten(t: Table, m: Msg, now: int): Result<Table, Crash> {
    if m.data.None? then Failure(NilData)
    else if m.pipePath.None? then Failure(MissingPipePath)
    else Success(SetBeat(t, m.pipePath.value, now))
  }

  /**
   * The conduit writer announces a conduit with a message holding only its
   * path: as written the supervisor raises on it, while the model records
   * the heartbeat for that path and touches no other entry.
   */
  lemma AnnouncementAsWrittenRaises(t: Table, p: string, now: int)
    requires DistinctKeys(t)
    ensures HandleDataAsWritten(t, Announcement(p), now) == Failure(NilData)
    ensures DistinctKeys(Received(t, [Announcement(p)], now))
    ensures forall q :: Lookup(Received(t, [Announcement(p)], now), q) == if q == p then Some(now) else Lookup(t, q)
  {
    SetBeatSpec(t, p, now);
  }

  class FFMpegger {
    var heartbeats: Table         // @heartbeats
    var previousKeys: seq<string> // @previous_keys
    var pipe: Option<nat>         // @ffmpeg_pipe, by the pid of the subprocess it reads
    var nextPid: nat              // where fresh pids come from
    var procLog: seq<ProcEvent>
    var inQueue: seq<Msg>
    var outQueue: seq<Msg>

    ghost predicate Valid()
      reads this
    {
      DistinctKeys(heartbeats) && (pipe.Some? ==> pipe.value < nextPid)
    }

    constructor ()
      ensures Valid()
      ensures heartbeats == [] && previousKeys == [] && pipe == None && nextPid == 0 && procLog == []
      ensures inQueue == [] && outQueue == []
    {
      heartbeats, previousKeys := [], [];
      pipe, nextPid, procLog := None, 0, [];
      inQueue, outQueue := [], [];
    }

    /** `has_sources?` */
    predicate HasSources()
      reads this
    {
      |heartbeats| != 0
    }

    /** `ffmpeg_dead?`: no subprocess was ever started, or it no longer runs. */
    predicate Dead(alive: bool)
      reads this
    {
      pipe.None? || !alive
    }

    /** `heartbeat`: `pipePath` was heard from at `now`. */
    method Heartbeat(pipePath: string, now: int)
      requires Valid()
      modifies this`heartbeats
      ensures Valid()
      ensures heartbeats == SetBeat(old(heartbeats), pipePath, now)
      ensures Keys(heartbeats) == if pipePath in Keys(old(heartbeats)) then Keys(old(heartbeats)) else Keys(old(heartbeats)) + [pipePath]
      ensures forall q :: Lookup(heartbeats, q) == if q == pipePath then Some(now) else Lookup(old(heartbeats), q)
    {
      SetBeatSpec(heartbeats, pipePath, now);
      heartbeats := SetBeat(heartbeats, pipePath, now);
    }

    /** `handle_data`: an announcement of `pipePath` refreshes its heartbeat. */
    method HandleData(pipePath: string, now: int)
      requires Valid()
      modifies this`heartbeats
      ensures Valid()
      ensures heartbeats == SetBeat(old(heartbeats), pipePath, now)
    {
      Heartbeat(pipePath, now);
    }

    /** `push_new_ffmpeg_data`: forward what the subprocess wrote, if there is a subprocess and it wrote anything. */
    method PushNewFfmpegData(chunk: string)
      modifies this`outQueue
      ensures outQueue == old(outQueue) + if pipe.Some? && chunk != "" then [TranscodedFrame(chunk)] else []
    {
      if pipe.Some? && chunk != "" {
        outQueue := outQueue + [TranscodedFrame(chunk)];
      }
    }

    /** `clean_heartbeats`: drop entries 20 seconds old or older and entries whose conduit is gone. */
    method CleanHeartbeats(now: int, fs: set<string>)
      requires Valid()
      modifies this`heartbeats
      ensures Valid()
      ensures heartbeats == Prune(old(heartbeats), now, fs)
      ensures Prune(heartbeats, now, fs) == heartbeats
      ensures !Stale(heartbeats, now)
    {
      PruneKeeps(heartbeats, now, fs);
      PruneIdempotent(heartbeats, now, fs);
      PrunedNotStale(heartbeats, now, fs);
      heartbeats := Prune(heartbeats, now, fs);
    }

    /** `stopped_getting_data?`: is some conduit silent for more than 20 seconds? */
    method StoppedGettingData(now: int) returns (stale: bool)
      ensures stale <==> Stale(heartbeats, now)
    {
      var i := 0;
      while i < |heartbeats|
        invariant 0 <= i <= |heartbeats|
        invariant forall j :: 0 <= j < i ==> now - heartbeats[j].at <= StaleAge
      {
        if now - heartbeats[i].at > StaleAge {
          return true;
        }
        i := i + 1;
      }
      return false;
    }

    /** `added_new_connection?`: did the ordered key list change since the last check?  Remembers the current one. */
    method AddedNewConnection() returns (changed: bool)
      modifies this`previousKeys
      ensures changed <==> old(previousKeys) != Keys(heartbeats)
      ensures previousKeys == Keys(heartbeats)
    {
      if previousKeys == Keys(heartbeats) {
        return false;
      }
      previousKeys := Keys(heartbeats);
      return true;
    }

    /**
     * `ffmpeg_needs_restart?`: stale data, a changed key list or a dead
     * subprocess; when the data is stale the key list is not even looked at.
     */
    method NeedsRestart(now: int, alive: bool) returns (restart: bool)
      modifies this`previousKeys
      ensures Stale(heartbeats, now) ==> restart && previousKeys == old(previousKeys)
      ensures !Stale(heartbeats, now) ==> previousKeys == Keys(heartbeats)
      ensures !Stale(heartbeats, now) ==> (restart <==> old(previousKeys) != Keys(heartbeats) || Dead(alive))
    {
      var stale := StoppedGettingData(now);
      if stale {
        return true;
      }
      var added := AddedNewConnection();
      if added {
        return true;
      }
      return Dead(alive);
    }

    /** `stop_ffmpeg`: terminate the subprocess unless there is none or it is already dead. */
    method StopFfmpeg(alive: bool)
      modifies this`procLog
      ensures procLog == old(procLog) + StopEvents(pipe, alive)
    {
      if pipe.None? {
        return;
      }
      if Dead(alive) {
        return;
      }
      procLog := procLog + [Terminated(pipe.value)];
    }

    /** `start_ffmpeg`: spawn the compositor over the current table, unless the table is empty. */
    method StartFfmpeg() returns (r: StartResult)
      requires Valid()
      modifies this`pipe, this`nextPid, this`procLog
      ensures Valid()
      ensures !HasSources() ==> r == NoSources
      ensures HasSources() && FfmpegArgs(Keys(heartbeats)).Failure? ==>
        r == StartFailed(FfmpegArgs(Keys(heartbeats)).error)
      ensures HasSources() && FfmpegArgs(Keys(heartbeats)).Success? ==>
        && r == Started(old(nextPid))
        && pipe == Some(old(nextPid)) && nextPid == old(nextPid) + 1
        && procLog == old(procLog) + [Spawned(old(nextPid), FfmpegArgs(Keys(heartbeats)).value)]
      ensures !r.Started? ==> pipe == old(pipe) && nextPid == old(nextPid) && procLog == old(procLog)
    {
      if !HasSources() {
        return NoSources;
      }
      var args := FfmpegArgs(Keys(heartbeats));
      if args.Failure? {
        return StartFailed(args.error);
      }
      procLog := procLog + [Spawned(nextPid, args.value)];
      pipe := Some(nextPid);
      r := Started(nextPid);
      nextPid := nextPid + 1;
    }

    /** `restart_ffmpeg`: stop, prune, start. */
    method RestartFfmpeg(now: int, fs: set<string>, alive: bool) returns (r: StartResult)
      requires Valid()
      modifies this`heartbeats, this`pipe, this`nextPid, this`procLog
      ensures Valid()
      ensures heartbeats == Prune(old(heartbeats), now, fs)
      ensures !HasSources() ==> r == NoSources
      ensures r.Started? <==> HasSources() && FfmpegArgs(Keys(heartbeats)).Success?
      ensures r.Started? ==>
        && r.pid == old(nextPid) && pipe == Some(r.pid) && nextPid == old(nextPid) + 1
        && procLog == old(procLog) + StopEvents(old(pipe), alive) + [Spawned(r.pid, FfmpegArgs(Keys(heartbeats)).value)]
      ensures !r.Started? ==>
        pipe == old(pipe) && nextPid == old(nextPid) && procLog == old(procLog) + StopEvents(old(pipe), alive)
      ensures r.StartFailed? <==> HasSources() && FfmpegArgs(Keys(heartbeats)).Failure?
      ensures r.StartFailed? ==> r.error == FfmpegArgs(Keys(heartbeats)).error
    {
      StopFfmpeg(alive);
      CleanHeartbeats(now, fs);
      r := StartFfmpeg();
    }

    /**
     * `cycle`: take at most one announcement, forward the subprocess's
     * output, prune the table, and restart the subprocess when it needs a
     * restart and there is at least one source.  Returns whether it
     * restarted.
     */
    method Cycle(now: int, fs: set<string>, alive: bool, chunk: string) returns (r: Result<bool, Crash>)
      requires Valid()
      modifies this
      ensures Valid()
      ensures inQueue == if old(inQueue) == [] then [] else old(inQueue)[1..]
      ensures r == Failure(MissingPipePath) <==> old(inQueue) != [] && old(inQueue)[0].pipePath.None?
      ensures r == Failure(MissingPipePath) ==> procLog == old(procLog) && pipe == old(pipe) && nextPid == old(nextPid)
      ensures r != Failure(MissingPipePath) ==>
        && outQueue == old(outQueue) + (if old(pipe).Some? && chunk != "" then [TranscodedFrame(chunk)] else [])
        && heartbeats == Prune(Received(old(heartbeats), old(inQueue), now), now, fs)
        && !Stale(heartbeats, now)
        && previousKeys == Keys(heartbeats)
      // the restart decision
      ensures r != Failure(MissingPipePath) ==>
        var restart := (old(previousKeys) != Keys(heartbeats) || old(pipe).None? || !alive) && |heartbeats| > 0;
        && (restart && |heartbeats| <= MaxInputs <==> r == Success(true))
        && (restart && |heartbeats| > MaxInputs <==> r == Failure(BadArgs(CharOutOfRange)))
        && (!restart <==> r == Success(false))
      ensures r == Success(true) ==>
        && pipe == Some(old(nextPid)) && nextPid == old(nextPid) + 1
        && procLog == old(procLog) + StopEvents(old(pipe), alive) + [Spawned(old(nextPid), FfmpegArgs(Keys(heartbeats)).value)]
      ensures r == Success(false) ==> pipe == old(pipe) && nextPid == old(nextPid) && procLog == old(procLog)
      ensures r == Failure(BadArgs(CharOutOfRange)) ==>
        pipe == old(pipe) && nextPid == old(nextPid) && procLog == old(procLog) + StopEvents(old(pipe), alive)
    {
      if inQueue != [] {
        var msg := inQueue[0];
        inQueue := inQueue[1..];
        if msg.pipePath.None? {
          return Failure(MissingPipePath);
        }
        HandleData(msg.pipePath.value, now);
      }
      PushNewFfmpegData(chunk);
      CleanHeartbeats(now, fs);
      r := RestartIfNeeded(now, fs, alive);
    }

    /** `restart_ffmpeg if ffmpeg_needs_restart? && has_sources?`, on a freshly pruned table. */
    method RestartIfNeeded(now: int, fs: set<string>, alive: bool) returns (r: Result<bool, Crash>)
      requires Valid() && Prune(heartbeats, now, fs) == heartbeats && !Stale(heartbeats, now)
      modifies this`previousKeys, this`heartbeats, this`pipe, this`nextPid, this`procLog
      ensures Valid()
      ensures heartbeats == old(heartbeats) && previousKeys == Keys(heartbeats)
      ensures var restart := (old(previousKeys) != Keys(heartbeats) || old(pipe).None? || !alive) && |heartbeats| > 0;
        && (restart && |heartbeats| <= MaxInputs <==> r == Success(true))
        && (restart && |heartbeats| > MaxInputs <==> r == Failure(BadArgs(CharOutOfRange)))
        && (!restart <==> r == Success(false))
      ensures r == Success(true) ==>
        && pipe == Some(old(nextPid)) && nextPid == old(nextPid) + 1
        && procLog == old(procLog) + StopEvents(old(pipe), alive) + [Spawned(old(nextPid), FfmpegArgs(Keys(heartbeats)).value)]
      ensures r == Success(false) ==> pipe == old(pipe) && nextPid == old(nextPid) && procLog == old(procLog)
      ensures r.Failure? ==> pipe == old(pipe) && nextPid == old(nextPid) && procLog == old(procLog) + StopEvents(old(pipe), alive)
    {
      var needs := NeedsRestart(now, alive);
      if needs && HasSources() {
        var started := RestartFfmpeg(now, fs, alive);
        if started.StartFailed? {
          return Failure(BadArgs(started.error));
        }
        return Success(true);
      }
      return Success(false);
    }
  }

  // Client scenarios: one cycle each, from a state built on a fresh supervisor.

  /** The first announcement starts the compositor over that one conduit. */
  method FirstAnnouncementStarts(a: string, t: int) {
    var h := [Beat(a, t)];
    PruneKeepsLive(h, t, {a});
    assert Keys(h) == [a];
    var s := new FFMpegger();
    s.inQueue := [Announcement(a)];
    var r := s.Cycle(t, {a}, false, "");
    assert s.heartbeats == h;
    assert r == Success(true) && s.pipe == Some(0) && |s.procLog| == 1;
    assert s.previousKeys == [a] && s.outQueue == [];
  }

  /** Checking for a changed key list twice in a row: the second check sees no change. */
  method ConnectionCheckSettles(t: Table)
    requires DistinctKeys(t)
  {
    var s := new FFMpegger();
    s.heartbeats := t;
    var first := s.AddedNewConnection();
    var second := s.AddedNewConnection();
    assert first <==> t != [] by {
      assert |Keys(t)| == |t|;
    }
    assert !second;
  }

  /** A second conduit makes the supervisor kill the running compositor and start one over both. */
  method NewConnectionRestarts(a: string, b: string, t: int)
    requires a != b
  {
    var h := [Beat(a, t), Beat(b, t + 1)];
    assert SetBeat([Beat(a, t)], b, t + 1) == h;
    PruneKeepsLive(h, t + 1, {a, b});
    assert Keys(h) == [a, b] && [a] != [a, b];
    var s := new FFMpegger();
    s.heartbeats, s.previousKeys, s.pipe, s.nextPid := [Beat(a, t)], [a], Some(0), 1;
    s.inQueue := [Announcement(b)];
    var r := s.Cycle(t + 1, {a, b}, true, "");
    assert s.heartbeats == h;
    assert r == Success(true);
    assert s.pipe == Some(1) && s.procLog[0] == Terminated(0);
  }

  /** What the running compositor wrote is forwarded downstream as one message. */
  method OutputForwarded(a: string, t: int) {
    var h := [Beat(a, t)];
    PruneKeepsLive(h, t, {a});
    var s := new FFMpegger();
    s.heartbeats, s.previousKeys, s.pipe, s.nextPid := h, [a], Some(0), 1;
    var r := s.Cycle(t, {a}, true, "frame");
    assert r.Success? && s.outQueue == [TranscodedFrame("frame")];
  }

  /** After 21 seconds of silence every conduit is forgotten and nothing is started. */
  method SilenceForgetsSources(a: string, b: string, t: int)
    requires a != b
  {
    var h := [Beat(a, t + 2), Beat(b, t + 1)];
    PruneDropsOld(h, t + 23, {a, b});
    var s := new FFMpegger();
    s.heartbeats, s.previousKeys, s.pipe, s.nextPid := h, [a, b], Some(1), 2;
    var r := s.Cycle(t + 23, {a, b}, true, "");
    assert s.heartbeats == [];
    assert r == Success(false) && s.procLog == [];
  }
}
