# MusicEngine playback core

A model of the playback core of a Discord music bot (`discord_bot.py`) and
proofs about it. Each guild has one `MusicEngine`. The engine keeps a FIFO
queue of `play` requests and a player loop that takes one request at a time.
For each request the loop resolves the song, connects to the requester's
voice channel, plays the song and waits for it to end. The engine also covers:

- elapsed-time accounting across pause and resume;
- a progress bar (`MM:SS` clocks around a 20-segment bar) that a tracker
  task edits into the now-playing message only when its text changes;
- the text of the queue listing;
- teardown, which drains the queue, disconnects and removes the guild from
  the process-wide `music_engines` registry.

The outside world is replaced by inputs:

- The song resolver and the voice connection answer through `Attempt` values
  (found or not, connects or not).
- The clock is an explicit `now` reading in whole seconds that never goes
  backwards.
- Discord message edits succeed or fail through `accepted` flags.

Modules, one per part of the core:

- `Wrappers`: `Option`.
- `TimeFormat`: `format_time`, with decimal digits and a parser back.
- `Progress`: `create_progress_bar` and the tracker's dedupe rule as a function on values.
- `Timing`: `get_current_playback_time`, `pause_playback` and `resume_playback` on a value `Timer`.
- `Player`: one player-loop iteration as a function, and the FIFO lemmas about a whole run.
- `QueueListing`: the text of `create_queue_embed`.
- `Engine`: the class `MusicEngine`, whose methods update its fields in place, and the class `Registry` (`music_engines` plus the bot commands).

The float ratio `current_time / total_time` is modelled as the integer floor
`(20 * elapsed) / duration`. Python's rule that a string repeated a negative
number of times is empty is kept. That rule matters once the elapsed time
passes the duration.

## Model

| member | source | states |
|---|---|---|
| TimeFormat.Decimal | discord_bot.py:121-122 | the digits of `n`: all decimal digits denoting `n`, one digit exactly when `n < 10`, at most two below 100, no leading zero |
| TimeFormat.ZeroPad | discord_bot.py:122 | `:02d` padding: the value is kept, the length is the larger of the width and the original length, the original digits are a suffix and everything before them is `0`; a string already as wide as the width is returned unchanged |
| TimeFormat.FormatTime | discord_bot.py:118-122 | `None` gives `00:00`; otherwise the text is `minutes:SS` whose minutes field (at least 2 digits) denotes `s / 60` and whose 2-digit seconds field denotes `s % 60`; a minutes field wider than two digits has no leading zero, so the text is fixed by the number; only digits and `:` occur |
| TimeFormat.FormatTimeRoundTrip | discord_bot.py:118-122 | reading the clock back gives the number of seconds again |
| TimeFormat.FormatTimeInjective | discord_bot.py:118-122 | distinct numbers of seconds render distinct clocks |
| TimeFormat.NoneRendersAsZero | discord_bot.py:119 | `format_time(None)` is the clock of 0 seconds |
| Progress.FilledLength | discord_bot.py:127-129 | `int(20 * elapsed / duration)` on integers; its bounds are stated by `FilledLengthScaled` |
| Progress.ProgressBar | discord_bot.py:124-133 | the live marker for duration 0, otherwise the quoted elapsed clock, the bar and the quoted total clock; its properties are stated by the lemmas below |
| Progress.Poll | discord_bot.py:144-151 | one tracker poll: no edit for the cached bar; otherwise an edit that updates the cache when accepted and stops the tracker when rejected |
| Progress.Track | discord_bot.py:138-151 | successive polls, stopping at the first rejected edit; its properties are stated by `TrackNeverRepeats`, `TrackCache` and `SameRenderingEditedOnce` |
| Progress.Repeat | discord_bot.py:130 | Python's `c * n`: length `n` (0 when `n` is negative), every character `c` |
| Progress.Bar | discord_bot.py:130 | filled segments at indices below `filled`, the knob at `filled`, empty segments after it; 21 characters while `filled <= 20` |
| Progress.LiveIgnoresElapsed | discord_bot.py:125-126 | duration 0 renders the live marker whatever the elapsed time |
| Progress.FilledLengthScaled | discord_bot.py:127-129 | within the song the filled length is the floor of `20 * elapsed / duration`, and at most 20 |
| Progress.BarWithinSong | discord_bot.py:127-130 | within the song: exactly one knob, `filled` filled segments and `20 - filled` empty ones, 21 characters in all |
| Progress.BarBeyondSong | discord_bot.py:129-130 | past the end of the song, the filled length is at least 20 and the bar has no empty segment |
| Progress.HalfwayFillsHalf | discord_bot.py:127-130 | 100 seconds of 200 fill 10 segments and leave 10 empty |
| Progress.ProgressBarSeparatesSeconds | discord_bot.py:131-133 | for a song of known length, distinct elapsed seconds render distinct strings |
| Progress.TrackNeverRepeats | discord_bot.py:144-149 | over any run of polls, at most one edit per poll, the first edit differs from the cached bar, and no two consecutive edits are equal |
| Progress.TrackCache | discord_bot.py:146-151 | the cache holds the last accepted edit, or the starting cache when none was accepted; a stopped run stopped at its last edit, which was rejected |
| Progress.SameRenderingEditedOnce | discord_bot.py:144 | any positive number of polls rendering the same text make exactly one edit when that text is not cached, and none when it is |
| Progress.CachedRenderingSkipped | discord_bot.py:144 | polls rendering the cached text make no edit and leave the cache as it is |
| Timing.Elapsed | discord_bot.py:161-166 | `get_current_playback_time`: the accumulated time while paused, 0 when never started, otherwise the accumulated time plus the time since the last start; its properties are stated by the lemmas below |
| Timing.Pause | discord_bot.py:168-171 | `pause_playback` on the timer: only while playing, pauses and adds the time since the last start |
| Timing.Resume | discord_bot.py:173-176 | `resume_playback` on the timer: only while paused, plays and restarts the clock at `now` |
| Timing.Start | discord_bot.py:216-217 | the timer of a song started at `now`: playing, started at `now`, nothing accumulated |
| Timing.ElapsedZeroBeforeStart | discord_bot.py:164-165 | with a start time of 0 and not paused, the elapsed time is 0 whatever the clock says |
| Timing.StartsAtZero | discord_bot.py:161-166 | a song started at `now` has played 0 seconds at `now` |
| Timing.ElapsedMonotone | discord_bot.py:164-166 | while not paused, elapsed time never decreases as the clock advances |
| Timing.ElapsedFrozenWhilePaused | discord_bot.py:162-163 | while paused, elapsed time is `time_played_before_pause` whatever the clock says |
| Timing.PauseResumeContinuity | discord_bot.py:168-176 | pausing freezes elapsed time at its value at the pause; right after resuming it still has that value; later it grows with the clock from there |
| Timing.PauseOnlyWhilePlaying | discord_bot.py:168-169 | pausing while paused or stopped changes nothing |
| Timing.ResumeOnlyWhilePaused | discord_bot.py:173-174 | resuming while playing or stopped changes nothing |
| Timing.PauseResumeIdempotent | discord_bot.py:168-176 | a second pause, or a second resume, is a no-op |
| Player.Connection | discord_bot.py:203-209 | no connection or a disconnected one: connect, failing when the connect fails; a connected one is reused and moved to the request's channel |
| Player.Attempted | discord_bot.py:197-223 | a request is dropped as not found exactly when the resolver finds nothing, and as a failed connect exactly when a new connection is needed and fails; a started song is the resolved one tagged with the requester, playing on a connection in the request's channel |
| Player.Played | discord_bot.py:180-226 | the songs a run of the loop plays: at most one per request |
| Player.PlayedInRequestOrder | discord_bot.py:189-212 | the songs a run plays are a subsequence of the found requests, in queue order |
| Player.ConnectedPlaysAllFound | discord_bot.py:199-212 | from a connected voice client, every found request is played, in order |
| Player.AllFoundPlayedInOrder | discord_bot.py:189-212 | when every request is found and connects, one song per request is played, in queue order, each tagged with its requester |
| QueueListing.NowPlayingField | discord_bot.py:313-314 | the current song's field: its title in bold and its requester's mention |
| QueueListing.Line | discord_bot.py:317-319 | one pending line: the backquoted 1-based position, the title and the requester's mention |
| QueueListing.Footer | discord_bot.py:321-322 | the footer text with the number of requests not listed |
| QueueListing.QueueEmbedOf | discord_bot.py:307-323 | the empty-list message exactly when nothing waits and nothing plays; otherwise the current song's field exactly when one plays, the first 10 pending requests numbered from 1 in queue order exactly when any wait, and the footer with `len - 10` exactly when more than 10 wait |
| QueueListing.Shown | discord_bot.py:316 | `[:10]`: at most 10 and at most the queue length, and all of the queue when it is shorter |
| QueueListing.LinesNumbered | discord_bot.py:316-319 | line `i` of the list shows queue item `i` numbered `i + 1` |
| QueueListing.LineStartsWithNumber | discord_bot.py:319 | each line starts with a backquote and its number |
| QueueListing.ListPending | discord_bot.py:315-319 | the `for` loop builds exactly the concatenation of the numbered lines, in queue order |
| Engine.MusicEngine.constructor | discord_bot.py:102-116 | a new engine for the guild: empty queue, nothing playing, timers at 0, no message, no tracker, loop waiting on the queue |
| Engine.MusicEngine.CurrentPlaybackTime | discord_bot.py:161-166 | `get_current_playback_time` of the engine: `Elapsed` of its voice state and its two timing fields |
| Engine.MusicEngine.CreateProgressBar | discord_bot.py:124-133 | `create_progress_bar` of the engine: `ProgressBar` for the current song's duration |
| Engine.MusicEngine.Enqueue | discord_bot.py:385 | `queue.put`: the request is appended at the end |
| Engine.MusicEngine.PausePlayback | discord_bot.py:168-171 | acts exactly when playing; the new timer is `Pause` of the old one, and the elapsed time at `now` is unchanged |
| Engine.MusicEngine.ResumePlayback | discord_bot.py:173-176 | acts exactly when paused; the new timer is `Resume` of the old one, and the elapsed time at `now` is the time played before the pause |
| Engine.MusicEngine.Skip | discord_bot.py:391-393 | stops exactly when playing or paused; afterwards nothing plays; nothing else changes |
| Engine.MusicEngine.Advance | discord_bot.py:180-223 | the tracker is cancelled and the message cleared; an empty queue (the idle timeout) tears the engine down, leaving the context, current song, timers and cached bar as they were; otherwise the head of the queue is taken and its context remembered; a failed resolve or connect drops it, leaves no current song and changes nothing else; success sets the song with its requester, resets the timers to `now`, plays, and starts the message and the tracker |
| Engine.MusicEngine.StartRequest | discord_bot.py:197-223 | the outcome is `Attempted` of the request; on a failure nothing changes; on success the current song carries the requester, the timer is `Start(now)`, the loop waits for the end, the message is sent with the bar at 0 cached and the tracker runs |
| Engine.MusicEngine.OnFinished | discord_bot.py:225-226 | after the finish signal nothing plays, there is no current song and the loop is back at the queue |
| Engine.MusicEngine.StopAndCleanup | discord_bot.py:325-344 | the queue is drained (the count is reported), the voice client and the message are gone, the tracker and the loop are cancelled, the idle notice is sent only when idle with a context, and the guild is removed from the registry |
| Engine.MusicEngine.TrackerTick | discord_bot.py:138-151 | exits when nothing plays; waits when paused or when there is no message; otherwise one `Poll`: no edit when the bar equals the cache, cache updated only on an accepted edit, the tracker ends on a rejected one; playback state untouched |
| Engine.MusicEngine.RunTracker | discord_bot.py:136-151 | the tracker loop over a sequence of polls, from the state in which the tracker is started: its edits, final cache and whether it stopped are exactly `Track` of the renderings at those clock readings |
| Engine.MusicEngine.CreateQueueEmbed | discord_bot.py:307-323 | the result is `QueueEmbedOf` of the engine's queue and current song, with the numbered lines built by the loop |
| Engine.PlayThrough | discord_bot.py:178-226 | running the loop over the whole queue plays exactly `Played` of the queue, so in FIFO order, and empties the queue |
| Engine.TeardownTwice | discord_bot.py:325-341 | a second teardown discards nothing, disconnects and clears nothing, and the guild stays out of the registry |
| Engine.Registry.constructor | discord_bot.py:350 | the registry starts empty |
| Engine.Registry.GetEngine | discord_bot.py:351-356 | returns the registered engine when there is one, leaving the map unchanged; otherwise registers and returns a new engine for the guild |
| Engine.Registry.Play | discord_bot.py:363-387 | no query: usage reply, no engine created and the guild's engine untouched; author not in voice: refusal, nothing queued; otherwise the request is appended with the looked-up title, or the query when the lookup finds nothing; only the guild's queue changes, and only the guild's engine may be touched |
| Engine.Registry.Skip | discord_bot.py:389-395 | skips exactly when the guild's engine was playing or paused; afterwards nothing plays; only that engine's voice state changes |
| Engine.Registry.Pause | discord_bot.py:398-402 | pauses exactly when the guild's engine was playing; its timer becomes `Pause` of the old one, keeping its elapsed time; only its voice state and accumulated time change |
| Engine.Registry.Resume | discord_bot.py:405-409 | resumes exactly when the guild's engine was paused; its timer becomes `Resume` of the old one, continuing from the time played before the pause; only its voice state and start time change |
| Engine.Registry.Leave | discord_bot.py:412-419 | tears down exactly when the guild is registered, never creates an engine, and the guild is not registered afterwards; the teardown report and the engine's new fields are those of `stop_and_cleanup` |
| Engine.Registry.ShowQueue | discord_bot.py:422-425 | `QueueEmbedOf` of the guild's engine's queue and current song; the empty-list message for a guild that had no engine, which it registers |

## Left out

- The Discord UI is not modelled: `MusicControlsView`, its buttons, `interaction_check`, embed colours and field names (discord_bot.py:47-98). The buttons call the same engine operations as the commands.
- Song resolution is an input. `get_song_info` and `get_title_from_url` (discord_bot.py:228-295) are HTTP and `yt_dlp` calls, so the model takes their result as given.
- Audio transport is abstract state. FFmpeg, `connect`, `move_to`, `disconnect` and `voice_client.play` are not modelled. An exception from `move_to` (discord_bot.py:209) is not caught by the source, and the model treats the move as always succeeding.
- asyncio concurrency is not modelled: task creation and cancellation, `wait_for`, `call_soon_threadsafe`, the `finished` event, and the one-second sleep. Commands may run while the loop waits on the queue (discord_bot.py:189) or for the end of a song (discord_bot.py:225), but each step of the loop up to one of those waits runs to completion. So neither of these is captured:
  - a command running during the other awaits of one loop step: the edit of the old message (discord_bot.py:184), the resolver (discord_bot.py:197), the sends (discord_bot.py:200, 206), `connect` (discord_bot.py:204), `move_to` (discord_bot.py:209) and the now-playing send (discord_bot.py:222);
  - two teardowns racing.
- The idle timeout is not modelled as a number. `wait_for` waiting 180 seconds on the queue (discord_bot.py:189) becomes `Advance` on an empty queue, which stands for that wait timing out. A request that arrives within the timeout is a non-empty queue at the next `Advance`.
- Chat sends are assumed to succeed. In the source, the replies to a song not found (discord_bot.py:200) and to a failed connect (discord_bot.py:206), the now-playing message (discord_bot.py:305, sent from discord_bot.py:222) and the idle notice (discord_bot.py:340) are sent without a `try`. An exception from one of them ends `player_loop` and no later request is played; one from the idle notice also skips the removal from the registry. The model follows the path on which every send succeeds.
- The text of the bot's chat replies is not modelled. `Teardown.idleNotice` and `PlayReply` record which reply is sent, not its wording.
- Real time and floats are simplified. `time.time()` becomes a whole-second `now`, so `int(seconds)` truncation of a float is not modelled. Clock readings are positive (`Instant`), and every method that subtracts the start time requires `playbackStartTime <= now`, because the clock never goes backwards.
- `playback_start_time == 0` keeps the source's meaning of "never started" (discord_bot.py:164). A real clock reading is never 0.
- A song's duration is a natural number, with 0 for unknown. The case where `yt_dlp` reports no duration at all is not modelled.
- The view's `update_buttons` label choice is not modelled (discord_bot.py:53-61).
- After `stop_and_cleanup`, the `finished` signal and `current_song = None` of the cancelled loop are not modelled. `StopAndCleanup` leaves `currentSong` as it was.
- Configuration and startup are not modelled: `.env`, token checks, `bot.run`, `on_ready` (discord_bot.py:12-31, 359-361, 429).
- Registry removal is by key, as `pop(self.guild_id, None)` is. An engine's teardown therefore also removes a newer engine registered for the same guild; no guard against that is modelled, because the source has none.
- Engine.MusicEngine.RunTracker: stated only for a run that starts while playing with a now-playing message, which is the state `Advance` starts the tracker in. The other states are covered poll by poll by `TrackerTick`: nothing playing exits, and paused or no message waits. Without interleaved commands, the state does not change during a run.
