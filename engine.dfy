/**
 * The per-guild playback engine (`MusicEngine`) and the guild-to-engine
 * registry (`music_engines`, `get_music_engine`) with the command guards
 * (`play`, `skip`, `pause`, `resume`, `leave`, `queue`). Collaborators are
 * abstract: the resolver and the voice connection answer through `Attempt`
 * values, the clock through `now` readings, and message edits through
 * accepted/rejected flags.
 */
module Engine {
  import opened Wrappers
  import opened Timing
  import opened Progress
  import opened Player
  import opened QueueListing

  /** Where the engine's player-loop task is: waiting on the queue, waiting for the current song to end, or cancelled. */
  datatype LoopPoint = AtDequeue | AwaitingFinish | Cancelled

  /** What one run of the player loop up to its next wait did. */
  datatype StepResult = TimedOut(teardown: Teardown) | Took(outcome: Outcome)

  /**
   * The side effects a teardown performed: requests discarded, whether the
   * voice connection was stopped and disconnected, whether the now-playing
   * message's controls were cleared, whether the idle notice was sent.
   */
  datatype Teardown = Teardown(drained: nat, disconnected: bool, controlsCleared: bool, idleNotice: bool)

  /** One poll of the progress tracker. */
  datatype Tick = Exited | Waiting | Unchanged | Edited(bar: string) | EditRejected(bar: string)

  /** The edit call a poll made, if any. */
  function EditsOf(t: Tick): seq<string> {
    if t.Edited? || t.EditRejected? then [t.bar] else []
  }

  /** The fields of an engine that its operations update, as one value. */
  datatype EngineState = EngineState(
    queue: seq<Request>, currentSong: Option<Song>, voiceClient: Option<Voice>, lastCtx: Option<ContextId>,
    nowPlayingMessage: Option<MessageId>, playbackStartTime: nat, timePlayedBeforePause: nat,
    trackerRunning: bool, lastProgressBar: Option<string>, playerAt: LoopPoint)

  /** The state of a freshly created engine: nothing queued, playing or sent, the loop waiting on the queue. */
  const NewEngine: EngineState := EngineState([], None, None, None, None, 0, 0, false, None, AtDequeue)

  /** The answers of the `play` command. */
  datatype PlayReply = MissingQuery | NotInVoice | Queued(title: string)

  class MusicEngine {
    const guildId: GuildId
    /** The process-wide map this engine removes itself from on teardown. */
    const registry: Registry

    var queue: seq<Request>
    var currentSong: Option<Song>
    var voiceClient: Option<Voice>
    var lastCtx: Option<ContextId>
    var nowPlayingMessage: Option<MessageId>
    var playbackStartTime: nat
    var timePlayedBeforePause: nat
    /** Whether the progress-tracker task exists and is not done. */
    var trackerRunning: bool
    var lastProgressBar: Option<string>
    /** The state of the player-loop task. */
    var playerAt: LoopPoint

    /**
     * Something plays or is paused only while the loop waits for that song to
     * end, with a current song whose start time was recorded; the loop waits
     * on the queue with no current song.
     */
    ghost predicate Valid()
      reads this
    {
      && (PlayState() != Stopped ==> playerAt == AwaitingFinish && playbackStartTime > 0)
      && (playerAt == AtDequeue ==> currentSong.None?)
      && (playerAt == AwaitingFinish ==> currentSong.Some? && voiceClient.Some?)
    }

    ghost function State(): EngineState
      reads this
    {
      EngineState(queue, currentSong, voiceClient, lastCtx, nowPlayingMessage, playbackStartTime,
                  timePlayedBeforePause, trackerRunning, lastProgressBar, playerAt)
    }

    /** A freshly created engine whose loop is about to wait on the queue. */
    ghost predicate IsNew()
      reads this
    {
      State() == NewEngine
    }

    constructor (registry: Registry, guildId: GuildId)
      ensures this.registry == registry && this.guildId == guildId
      ensures Valid() && IsNew()
    {
      this.registry := registry;
      this.guildId := guildId;
      queue := [];
      currentSong := None;
      voiceClient := None;
      lastCtx := None;
      nowPlayingMessage := None;
      playbackStartTime := 0;
      timePlayedBeforePause := 0;
      trackerRunning := false;
      lastProgressBar := None;
      playerAt := AtDequeue;
    }

    /** `is_playing()` / `is_paused()` of the voice connection; nothing when there is none. */
    function PlayState(): Status
      reads this`voiceClient
    {
      if voiceClient.Some? then voiceClient.value.status else Stopped
    }

    function TimerState(): Timer
      reads this`voiceClient, this`playbackStartTime, this`timePlayedBeforePause
    {
      Timer(PlayState(), playbackStartTime, timePlayedBeforePause)
    }

    /** `get_current_playback_time` at clock reading `now`. */
    function CurrentPlaybackTime(now: nat): nat
      reads this`voiceClient, this`playbackStartTime, this`timePlayedBeforePause
      requires playbackStartTime <= now
    {
      Elapsed(TimerState(), now)
    }

    /** `create_progress_bar`, which needs a current song. */
    function CreateProgressBar(elapsed: nat): string
      reads this`currentSong
      requires currentSong.Some?
    {
      ProgressBar(elapsed, currentSong.value.info.duration)
    }

    /** `queue.put`: requests are appended, never reordered. */
    method Enqueue(r: Request)
      requires Valid()
      modifies this`queue
      ensures Valid()
      ensures queue == old(queue) + [r]
    {
      queue := queue + [r];
    }

    /**
     * `pause_playback` and the `pause` guard: only while playing, adds the
     * time since the last start to the accumulated time and pauses.
     */
    method PausePlayback(now: nat) returns (paused: bool)
      requires Valid() && playbackStartTime <= now
      modifies this`voiceClient, this`timePlayedBeforePause
      ensures Valid()
      ensures paused == (old(PlayState()) == Playing)
      ensures TimerState() == Pause(old(TimerState()), now)
      ensures CurrentPlaybackTime(now) == old(CurrentPlaybackTime(now))
      ensures paused ==> voiceClient == Some(old(voiceClient).value.(status := Paused))
      ensures !paused ==> voiceClient == old(voiceClient)
    {
      if voiceClient.Some? && voiceClient.value.status == Playing {
        voiceClient := Some(voiceClient.value.(status := Paused));
        timePlayedBeforePause := timePlayedBeforePause + (now - playbackStartTime);
        paused := true;
      } else {
        paused := false;
      }
    }

    /**
     * `resume_playback` and the `resume` guard: only while paused, restarts
     * the clock at `now` and resumes; elapsed time continues from the pause.
     */
    method ResumePlayback(now: Instant) returns (resumed: bool)
      requires Valid()
      modifies this`voiceClient, this`playbackStartTime
      ensures Valid()
      ensures resumed == (old(PlayState()) == Paused)
      ensures TimerState() == Resume(old(TimerState()), now)
      ensures resumed ==> playbackStartTime == now && CurrentPlaybackTime(now) == old(timePlayedBeforePause)
      ensures resumed ==> voiceClient == Some(old(voiceClient).value.(status := Playing))
      ensures !resumed ==> voiceClient == old(voiceClient)
    {
      if voiceClient.Some? && voiceClient.value.status == Paused {
        voiceClient := Some(voiceClient.value.(status := Playing));
        playbackStartTime := now;
        resumed := true;
      } else {
        resumed := false;
      }
    }

    /**
     * `skip`: when something plays or is paused, stops it (which signals the
     * loop that the song ended); otherwise reports that nothing plays and
     * changes nothing.
     */
    method Skip() returns (skipped: bool)
      requires Valid()
      modifies this`voiceClient
      ensures Valid()
      ensures skipped == (old(PlayState()) != Stopped)
      ensures PlayState() == Stopped
      ensures skipped ==> voiceClient == Some(old(voiceClient).value.(status := Stopped))
      ensures !skipped ==> voiceClient == old(voiceClient)
    {
      if voiceClient.Some? && voiceClient.value.status != Stopped {
        voiceClient := Some(voiceClient.value.(status := Stopped));
        skipped := true;
      } else {
        skipped := false;
      }
    }

    /**
     * The player loop from the top of an iteration until it next waits:
     * cancel the tracker and clear the old now-playing message, then take the
     * next request and start it; an empty queue here stands for the idle
     * timeout expiring, which tears the engine down.
     */
    method Advance(a: Attempt, now: Instant) returns (r: StepResult)
      requires Valid() && playerAt == AtDequeue
      modifies this, registry`engines
      ensures Valid()
      ensures old(queue) == [] ==>
        && r == TimedOut(Teardown(0, old(voiceClient).Some?, false, old(lastCtx).Some?))
        && State() == old(State()).(voiceClient := None, nowPlayingMessage := None, trackerRunning := false,
                                    playerAt := Cancelled)
        && registry.engines == old(registry.engines) - {guildId}
      ensures old(queue) != [] ==>
        && r == Took(Attempted(old(voiceClient), old(queue)[0], a))
        && queue == old(queue)[1..]
        && lastCtx == Some(old(queue)[0].ctx)
        && registry.engines == old(registry.engines)
      ensures r.Took? && !r.outcome.Started? ==>
        && old(queue) != [] && currentSong.None? && playerAt == AtDequeue && voiceClient == old(voiceClient)
        && State() == old(State()).(queue := old(queue)[1..], lastCtx := Some(old(queue)[0].ctx),
                                    nowPlayingMessage := None, trackerRunning := false)
      ensures r.Took? && r.outcome.Started? ==>
        && currentSong == Some(r.outcome.song) && voiceClient == Some(r.outcome.voice)
        && TimerState() == Start(now) && playerAt == AwaitingFinish
        && nowPlayingMessage == Some(a.message) && trackerRunning
        && lastProgressBar == Some(ProgressBar(0, r.outcome.song.info.duration))
    {
      trackerRunning := false;
      nowPlayingMessage := None;
      if queue == [] {
        var t := StopAndCleanup(true);
        return TimedOut(t);
      }
      var req := queue[0];
      queue := queue[1..];
      lastCtx := Some(req.ctx);
      var outcome := StartRequest(req, a, now);
      r := Took(outcome);
    }

    /**
     * The player loop after a request was taken: a song the resolver did not
     * find, or a failed connection, drops the request and changes nothing;
     * otherwise the song (tagged with the requester) becomes current, the
     * timers restart at `now`, playback starts, the now-playing message is
     * sent with the bar at 0 cached, and the tracker starts.
     */
    method StartRequest(req: Request, a: Attempt, now: Instant) returns (o: Outcome)
      requires Valid() && playerAt == AtDequeue
      modifies this`voiceClient, this`currentSong, this`timePlayedBeforePause, this`playbackStartTime
      modifies this`playerAt, this`lastProgressBar, this`nowPlayingMessage, this`trackerRunning
      ensures Valid()
      ensures o == Attempted(old(voiceClient), req, a)
      ensures !o.Started? ==>
        && voiceClient == old(voiceClient) && currentSong == old(currentSong) && playerAt == old(playerAt)
        && playbackStartTime == old(playbackStartTime) && timePlayedBeforePause == old(timePlayedBeforePause)
        && lastProgressBar == old(lastProgressBar) && nowPlayingMessage == old(nowPlayingMessage)
        && trackerRunning == old(trackerRunning)
      ensures o.Started? ==>
        && currentSong == Some(o.song) && voiceClient == Some(o.voice)
        && TimerState() == Start(now) && playerAt == AwaitingFinish
        && nowPlayingMessage == Some(a.message) && trackerRunning
        && lastProgressBar == Some(ProgressBar(0, o.song.info.duration))
    {
      if a.resolved.None? {
        return NotFound;
      }
      var song := Song(a.resolved.value, req.requester);
      if voiceClient.None? || !voiceClient.value.connected {
        if !a.connects {
          return ConnectFailed;
        }
        voiceClient := Some(Voice(req.channel, true, Stopped));
      } else if voiceClient.value.channel != req.channel {
        voiceClient := Some(voiceClient.value.(channel := req.channel));
      }
      currentSong := Some(song);
      timePlayedBeforePause := 0;
      playbackStartTime := now;
      voiceClient := Some(voiceClient.value.(status := Playing));
      playerAt := AwaitingFinish;
      lastProgressBar := Some(ProgressBar(0, song.info.duration));
      nowPlayingMessage := Some(a.message);
      trackerRunning := true;
      o := Started(song, voiceClient.value);
    }

    /**
     * The line after `await finished.wait()`: the transport reported the end
     * of the song (its natural end, or a stop from `skip`), so nothing plays
     * and the current song is cleared; the loop goes back to the queue.
     */
    method OnFinished()
      requires Valid() && playerAt == AwaitingFinish
      modifies this`voiceClient, this`currentSong, this`playerAt
      ensures Valid()
      ensures currentSong.None? && playerAt == AtDequeue && PlayState() == Stopped
      ensures voiceClient == Some(old(voiceClient).value.(status := Stopped))
    {
      voiceClient := Some(voiceClient.value.(status := Stopped));
      currentSong := None;
      playerAt := AtDequeue;
    }

    /**
     * `stop_and_cleanup`: cancel the tracker, drain the queue, stop and
     * disconnect the voice connection, clear the now-playing message, send
     * the idle notice when idle, remove the guild from the registry and
     * cancel the player loop.
     */
    method StopAndCleanup(isIdle: bool) returns (t: Teardown)
      requires Valid()
      modifies this`trackerRunning, this`queue, this`voiceClient, this`nowPlayingMessage, this`playerAt
      modifies registry`engines
      ensures Valid()
      ensures t == Teardown(|old(queue)|, old(voiceClient).Some?, old(nowPlayingMessage).Some?, isIdle && lastCtx.Some?)
      ensures queue == [] && voiceClient.None? && nowPlayingMessage.None?
      ensures !trackerRunning && playerAt == Cancelled
      ensures registry.engines == old(registry.engines) - {guildId}
    {
      trackerRunning := false;
      var drained := 0;
      while queue != []
        invariant drained + |queue| == |old(queue)|
        invariant !trackerRunning && voiceClient == old(voiceClient) && nowPlayingMessage == old(nowPlayingMessage)
        invariant playerAt == old(playerAt) && registry.engines == old(registry.engines)
        decreases |queue|
      {
        queue := queue[1..];
        drained := drained + 1;
      }
      var disconnected := voiceClient.Some?;
      voiceClient := None;
      var cleared := nowPlayingMessage.Some?;
      nowPlayingMessage := None;
      registry.engines := registry.engines - {guildId};
      playerAt := Cancelled;
      t := Teardown(drained, disconnected, cleared, isIdle && lastCtx.Some?);
    }

    /**
     * One poll of `progress_updater`: exits unless something plays or is
     * paused; while playing with a now-playing message, renders the bar and
     * edits the message only when the rendering differs from the cached one,
     * caching it when the edit is accepted and ending the tracker when it is
     * rejected. Playback state is never touched.
     */
    method TrackerTick(now: nat, accepted: bool) returns (tick: Tick)
      requires Valid() && trackerRunning && playbackStartTime <= now
      modifies this`lastProgressBar, this`trackerRunning
      ensures Valid()
      ensures PlayState() == Stopped ==> tick == Exited && !trackerRunning && lastProgressBar == old(lastProgressBar)
      ensures PlayState() == Paused || (PlayState() == Playing && nowPlayingMessage.None?) ==>
        tick == Waiting && trackerRunning && lastProgressBar == old(lastProgressBar)
      ensures PlayState() == Playing && nowPlayingMessage.Some? ==>
        var bar := old(CreateProgressBar(CurrentPlaybackTime(now)));
        && Poll(old(lastProgressBar), bar, accepted) == TrackerRun(EditsOf(tick), lastProgressBar, !trackerRunning)
        && tick == (if Some(bar) == old(lastProgressBar) then Unchanged else if accepted then Edited(bar) else EditRejected(bar))
    {
      if PlayState() == Stopped {
        trackerRunning := false;
        return Exited;
      }
      if PlayState() == Playing && nowPlayingMessage.Some? {
        var bar := CreateProgressBar(CurrentPlaybackTime(now));
        if Some(bar) != lastProgressBar {
          if accepted {
            lastProgressBar := Some(bar);
            tick := Edited(bar);
          } else {
            trackerRunning := false;
            tick := EditRejected(bar);
          }
        } else {
          tick := Unchanged;
        }
      } else {
        tick := Waiting;
      }
    }

    /** The renderings of the polls at clock readings `nows`, playback state staying as it is. */
    function Renders(nows: seq<nat>): (r: seq<string>)
      reads this`currentSong, this`voiceClient, this`playbackStartTime, this`timePlayedBeforePause
      requires currentSong.Some?
      requires forall i :: 0 <= i < |nows| ==> playbackStartTime <= nows[i]
      ensures |r| == |nows|
    {
      if nows == [] then [] else [CreateProgressBar(CurrentPlaybackTime(nows[0]))] + Renders(nows[1..])
    }

    /**
     * The tracker's loop over polls at clock readings `nows`, with no other
     * operation interleaved: while playing with a message, the edits made,
     * the cache and whether the tracker stopped are those of `Track`, so equal
     * consecutive renderings produce a single edit.
     */
    method RunTracker(nows: seq<nat>, accepted: seq<bool>) returns (edits: seq<string>)
      requires Valid() && trackerRunning && |accepted| == |nows|
      requires PlayState() == Playing && nowPlayingMessage.Some?
      requires forall i :: 0 <= i < |nows| ==> playbackStartTime <= nows[i]
      modifies this`lastProgressBar, this`trackerRunning
      ensures Valid()
      ensures Track(old(lastProgressBar), old(Renders(nows)), accepted) == TrackerRun(edits, lastProgressBar, !trackerRunning)
    {
      edits := [];
      var i := 0;
      ghost var rs := Renders(nows);
      ghost var total := Track(lastProgressBar, rs, accepted);
      assert rs[0..] == rs && accepted[0..] == accepted;
      while i < |nows| && trackerRunning
        invariant 0 <= i <= |nows|
        invariant Valid() && PlayState() == Playing && nowPlayingMessage.Some?
        invariant trackerRunning ==> total == Prefixed(edits, Track(lastProgressBar, rs[i..], accepted[i..]))
        invariant !trackerRunning ==> total == TrackerRun(edits, lastProgressBar, true)
        invariant currentSong == old(currentSong) && voiceClient == old(voiceClient)
        invariant playbackStartTime == old(playbackStartTime) && timePlayedBeforePause == old(timePlayedBeforePause)
        invariant rs == Renders(nows)
        decreases |nows| - i
      {
        edits := TrackerStep(nows, accepted, i, rs, edits, total);
        i := i + 1;
      }
      if trackerRunning {
        assert rs[i..] == [] && accepted[i..] == [];
      }
    }

    /**
     * One iteration of the tracker loop: the poll at the `i`-th clock reading
     * extends the edits made so far, and the rest of the run is `Track` of
     * the remaining renderings from the new cache, unless this poll stopped it.
     */
    method TrackerStep(nows: seq<nat>, accepted: seq<bool>, i: nat, ghost rs: seq<string>,
                       edits: seq<string>, ghost total: TrackerRun) returns (next: seq<string>)
      requires Valid() && trackerRunning && PlayState() == Playing && nowPlayingMessage.Some?
      requires i < |nows| == |accepted|
      requires forall j :: 0 <= j < |nows| ==> playbackStartTime <= nows[j]
      requires rs == Renders(nows)
      requires total == Prefixed(edits, Track(lastProgressBar, rs[i..], accepted[i..]))
      modifies this`lastProgressBar, this`trackerRunning
      ensures Valid() && PlayState() == Playing && nowPlayingMessage.Some?
      ensures trackerRunning ==> total == Prefixed(next, Track(lastProgressBar, rs[i + 1..], accepted[i + 1..]))
      ensures !trackerRunning ==> total == TrackerRun(next, lastProgressBar, true)
    {
      assert rs[i..][0] == rs[i] && accepted[i..][0] == accepted[i];
      assert rs[i..][1..] == rs[i + 1..] && accepted[i..][1..] == accepted[i + 1..];
      ghost var last := lastProgressBar;
      var made := PollAt(nows, accepted, i, rs);
      TrackStep(edits, last, rs[i..], accepted[i..], made, lastProgressBar, !trackerRunning);
      next := edits + made;
    }

    /** One poll of the tracker loop at the `i`-th clock reading: a `Poll` of the `i`-th rendering. */
    method PollAt(nows: seq<nat>, accepted: seq<bool>, i: nat, ghost rs: seq<string>) returns (made: seq<string>)
      requires Valid() && trackerRunning && PlayState() == Playing && nowPlayingMessage.Some?
      requires i < |nows| == |accepted|
      requires forall j :: 0 <= j < |nows| ==> playbackStartTime <= nows[j]
      requires rs == Renders(nows)
      modifies this`lastProgressBar, this`trackerRunning
      ensures Valid() && PlayState() == Playing && nowPlayingMessage.Some?
      ensures Poll(old(lastProgressBar), rs[i], accepted[i]) == TrackerRun(made, lastProgressBar, !trackerRunning)
    {
      RendersAt(nows, i);
      var tick := TrackerTick(nows[i], accepted[i]);
      made := EditsOf(tick);
    }

    /** The `i`-th rendering of `Renders` is the bar at the `i`-th clock reading. */
    lemma RendersAt(nows: seq<nat>, i: nat)
      requires currentSong.Some?
      requires forall j :: 0 <= j < |nows| ==> playbackStartTime <= nows[j]
      requires i < |nows|
      ensures Renders(nows)[i] == CreateProgressBar(CurrentPlaybackTime(nows[i]))
      decreases i
    {
      if i > 0 {
        assert nows[1..][i - 1] == nows[i];
        RendersAt(nows[1..], i - 1);
      }
    }

    /**
     * `create_queue_embed`: the listing of the pending requests and the
     * current song, its numbered lines built by a loop.
     */
    method CreateQueueEmbed() returns (e: QueueEmbed)
      ensures e == QueueEmbedOf(queue, currentSong)
    {
      var items := queue;
      if items == [] && currentSong.None? {
        return EmptyQueue(EmptyQueueText);
      }
      var nowPlaying := if currentSong.Some? then Some(NowPlayingField(currentSong.value)) else None;
      var pending: Option<string> := None;
      var footer: Option<string> := None;
      if items != [] {
        var list := ListPending(items[..Shown(|items|)]);
        pending := Some(list);
        if |items| > MaxListed {
          footer := Some(Footer(|items| - MaxListed));
        }
      }
      e := Listing(ListTitle, nowPlaying, pending, footer);
    }
  }

  /**
   * The player loop working through the whole queue with nothing else
   * happening in between: each request is taken in turn and each started
   * song plays to its end. The songs played are exactly `Played` of the
   * queue, hence in request order.
   */
  method PlayThrough(e: MusicEngine, attempts: seq<Attempt>, now: Instant) returns (played: seq<Song>)
    requires e.Valid() && e.playerAt == AtDequeue && |attempts| == |e.queue|
    modifies e, e.registry`engines
    ensures e.Valid() && e.queue == [] && e.playerAt == AtDequeue && e.currentSong.None?
    ensures played == Played(old(e.voiceClient), old(e.queue), attempts)
    ensures e.registry.engines == old(e.registry.engines)
  {
    played := [];
    var i := 0;
    while i < |attempts|
      invariant 0 <= i <= |attempts|
      invariant e.Valid() && e.playerAt == AtDequeue && e.currentSong.None?
      invariant e.queue == old(e.queue)[i..]
      invariant Played(old(e.voiceClient), old(e.queue), attempts)
        == played + Played(e.voiceClient, e.queue, attempts[i..])
      invariant e.registry.engines == old(e.registry.engines)
    {
      ghost var voice, pending, rest := e.voiceClient, e.queue, attempts[i..];
      assert pending[1..] == old(e.queue)[i + 1..] && rest[0] == attempts[i] && rest[1..] == attempts[i + 1..];
      var song := PlayOne(e, attempts[i], now);
      if song.Some? {
        played := played + [song.value];
      }
      PlayedStep(voice, pending, rest, e.voiceClient);
      i := i + 1;
    }
  }

  /**
   * One iteration of the player loop on a non-empty queue, up to the end of
   * the song it starts: the head request is taken, and the song it plays,
   * if any, is `Attempted` of it; afterwards the loop waits on the queue
   * again, on the connection stopped at the song's end or on the one it had.
   */
  method PlayOne(e: MusicEngine, a: Attempt, now: Instant) returns (song: Option<Song>)
    requires e.Valid() && e.playerAt == AtDequeue && e.queue != []
    modifies e, e.registry`engines
    ensures e.Valid() && e.playerAt == AtDequeue && e.currentSong.None?
    ensures e.queue == old(e.queue)[1..] && e.registry.engines == old(e.registry.engines)
    ensures var o := Attempted(old(e.voiceClient), old(e.queue)[0], a);
      && song == (if o.Started? then Some(o.song) else None)
      && e.voiceClient == if o.Started? then Some(o.voice.(status := Stopped)) else old(e.voiceClient)
  {
    var r := e.Advance(a, now);
    if r.outcome.Started? {
      song := Some(r.outcome.song);
      e.OnFinished();
    } else {
      song := None;
    }
  }

  /**
   * Tearing an engine down twice: the second call discards nothing, does not
   * disconnect or clear anything again, and the guild stays absent from the
   * registry.
   */
  method TeardownTwice(e: MusicEngine, isIdle: bool) returns (first: Teardown, second: Teardown)
    requires e.Valid()
    modifies e, e.registry`engines
    ensures first.disconnected == old(e.voiceClient).Some? && first.drained == |old(e.queue)|
    ensures second.drained == 0 && !second.disconnected && !second.controlsCleared
    ensures e.guildId !in e.registry.engines
    ensures e.registry.engines == old(e.registry.engines) - {e.guildId}
  {
    first := e.StopAndCleanup(isIdle);
    second := e.StopAndCleanup(isIdle);
  }

  /** The process-wide `music_engines` map and the commands that go through it. */
  class Registry {
    var engines: map<GuildId, MusicEngine>

    /** Each registered engine belongs to its key's guild and to this registry. */
    ghost predicate Valid()
      reads this, engines.Values
    {
      forall g | g in engines :: engines[g].guildId == g && engines[g].registry == this && engines[g].Valid()
    }

    constructor ()
      ensures Valid() && engines == map[]
    {
      engines := map[];
    }

    /**
     * `get_music_engine`: the engine registered for the guild, or a new one
     * registered for it when there is none.
     */
    method GetEngine(guild: GuildId) returns (e: MusicEngine)
      requires Valid()
      modifies this
      ensures Valid()
      ensures guild in engines && engines[guild] == e && e.guildId == guild && e.registry == this
      ensures guild in old(engines) ==> e == old(engines[guild]) && engines == old(engines)
      ensures guild !in old(engines) ==> fresh(e) && e.IsNew() && engines == old(engines)[guild := e]
    {
      if guild !in engines {
        var created := new MusicEngine(this, guild);
        engines := engines[guild := created];
      }
      e := engines[guild];
    }

    /**
     * The `play` command: with no search text it answers with the usage hint
     * and creates no engine; otherwise it gets or creates the guild's engine,
     * refuses when the author is in no voice channel, and otherwise queues a
     * request for the author's channel titled by the title lookup, or by the
     * search text itself when the lookup finds nothing.
     */
    method Play(guild: GuildId, ctx: ContextId, search: Option<string>, authorChannel: Option<ChannelId>,
                author: Member, foundTitle: Option<string>) returns (reply: PlayReply)
      requires Valid()
      modifies this, if guild in engines then {engines[guild]} else {}
      ensures Valid()
      ensures search.None? <==> reply == MissingQuery
      ensures search.None? ==> engines == old(engines)
      ensures search.None? && guild in old(engines) ==> engines[guild].State() == old(engines[guild].State())
      ensures search.Some? ==> guild in engines && engines[guild].guildId == guild
      ensures search.Some? && guild in old(engines) ==> engines == old(engines)
      ensures search.Some? && guild !in old(engines) ==>
        fresh(engines[guild]) && engines == old(engines)[guild := engines[guild]]
      ensures search.Some? ==>
        engines[guild].State() ==
          (if guild in old(engines) then old(engines[guild].State()) else NewEngine).(queue := engines[guild].queue)
      ensures search.Some? && authorChannel.None? ==> reply == NotInVoice && engines[guild].queue == old(if guild in engines then engines[guild].queue else [])
      ensures search.Some? && authorChannel.Some? ==>
        var title := foundTitle.GetOr(search.value);
        && reply == Queued(title)
        && engines[guild].queue == old(if guild in engines then engines[guild].queue else [])
             + [Request(ctx, authorChannel.value, search.value, title, author)]
    {
      if search.None? {
        return MissingQuery;
      }
      var e := GetEngine(guild);
      if authorChannel.None? {
        return NotInVoice;
      }
      var title := foundTitle.GetOr(search.value);
      e.Enqueue(Request(ctx, authorChannel.value, search.value, title, author));
      reply := Queued(title);
    }

    /** The `skip` command: the guild's engine (created if absent) stops what plays or is paused. */
    method Skip(guild: GuildId) returns (skipped: bool)
      requires Valid()
      modifies this, if guild in engines then {engines[guild]} else {}
      ensures Valid()
      ensures guild in engines && engines[guild].PlayState() == Stopped
      ensures skipped == (guild in old(engines) && old(engines[guild].PlayState()) != Stopped)
      ensures guild in old(engines) ==> engines == old(engines)
      ensures guild !in old(engines) ==>
        fresh(engines[guild]) && engines == old(engines)[guild := engines[guild]] && engines[guild].IsNew()
      ensures guild in old(engines) ==>
        var e := engines[guild];
        && e.voiceClient == (if skipped then Some(old(e.voiceClient).value.(status := Stopped)) else old(e.voiceClient))
        && e.State() == old(e.State()).(voiceClient := e.voiceClient)
    {
      var e := GetEngine(guild);
      skipped := e.Skip();
    }

    /** The `pause` command on the guild's engine (created if absent). */
    method Pause(guild: GuildId, now: nat) returns (paused: bool)
      requires Valid()
      requires guild in engines ==> engines[guild].playbackStartTime <= now
      modifies this, if guild in engines then {engines[guild]} else {}
      ensures Valid()
      ensures guild in engines
      ensures paused == (guild in old(engines) && old(engines[guild].PlayState()) == Playing)
      ensures guild in old(engines) ==> engines == old(engines)
      ensures guild !in old(engines) ==>
        fresh(engines[guild]) && engines == old(engines)[guild := engines[guild]] && engines[guild].IsNew()
      ensures guild in old(engines) ==>
        var e := engines[guild];
        && e.TimerState() == Timing.Pause(old(e.TimerState()), now)
        && e.CurrentPlaybackTime(now) == old(e.CurrentPlaybackTime(now))
        && e.voiceClient == (if paused then Some(old(e.voiceClient).value.(status := Paused)) else old(e.voiceClient))
        && e.State() == old(e.State()).(voiceClient := e.voiceClient, timePlayedBeforePause := e.timePlayedBeforePause)
    {
      var e := GetEngine(guild);
      paused := e.PausePlayback(now);
    }

    /** The `resume` command on the guild's engine (created if absent). */
    method Resume(guild: GuildId, now: Instant) returns (resumed: bool)
      requires Valid()
      modifies this, if guild in engines then {engines[guild]} else {}
      ensures Valid()
      ensures guild in engines
      ensures resumed == (guild in old(engines) && old(engines[guild].PlayState()) == Paused)
      ensures guild in old(engines) ==> engines == old(engines)
      ensures guild !in old(engines) ==>
        fresh(engines[guild]) && engines == old(engines)[guild := engines[guild]] && engines[guild].IsNew()
      ensures guild in old(engines) ==>
        var e := engines[guild];
        && e.TimerState() == Timing.Resume(old(e.TimerState()), now)
        && (resumed ==> e.playbackStartTime == now && e.CurrentPlaybackTime(now) == old(e.timePlayedBeforePause))
        && e.voiceClient == (if resumed then Some(old(e.voiceClient).value.(status := Playing)) else old(e.voiceClient))
        && e.State() == old(e.State()).(voiceClient := e.voiceClient, playbackStartTime := e.playbackStartTime)
    {
      var e := GetEngine(guild);
      resumed := e.ResumePlayback(now);
    }

    /**
     * The `leave` command: tears down the guild's engine when one is
     * registered, and otherwise only answers that the bot is in no channel;
     * it never creates an engine.
     */
    method Leave(guild: GuildId) returns (left: Option<Teardown>)
      requires Valid()
      modifies this, if guild in engines then {engines[guild]} else {}
      ensures Valid()
      ensures left.Some? <==> guild in old(engines)
      ensures engines == old(engines) - {guild}
      ensures left.Some? ==>
        var e := old(engines[guild]);
        && left.value == Teardown(|old(e.queue)|, old(e.voiceClient).Some?, old(e.nowPlayingMessage).Some?, false)
        && e.State() == old(e.State()).(queue := [], voiceClient := None, nowPlayingMessage := None,
                                        trackerRunning := false, playerAt := Cancelled)
    {
      if guild in engines {
        var e := engines[guild];
        var t := e.StopAndCleanup(false);
        left := Some(t);
      } else {
        left := None;
      }
    }

    /** The `queue` command: the listing of the guild's engine (created if absent). */
    method ShowQueue(guild: GuildId) returns (embed: QueueEmbed)
      requires Valid()
      modifies this
      ensures Valid()
      ensures guild in engines
      ensures guild in old(engines) ==>
        engines == old(engines) && embed == QueueEmbedOf(old(engines[guild].queue), old(engines[guild].currentSong))
      ensures guild !in old(engines) ==>
        fresh(engines[guild]) && engines == old(engines)[guild := engines[guild]] && engines[guild].IsNew()
      ensures guild !in old(engines) ==> embed == EmptyQueue(EmptyQueueText)
    {
      var e := GetEngine(guild);
      embed := e.CreateQueueEmbed();
    }
  }
}
