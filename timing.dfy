/**
 * Elapsed-time accounting of the current song across pause and resume
 * (`get_current_playback_time`, `pause_playback`, `resume_playback`), on a
 * value that holds the transport state and the engine's two timing fields.
 * Time is whole seconds read from a clock that never goes backwards.
 */
module Timing {

  /** What the voice connection is doing: nothing, playing or paused. */
  datatype Status = Stopped | Playing | Paused

  /**
   * `start` is `playback_start_time` (0 before any song started),
   * `before` is `time_played_before_pause`.
   */
  datatype Timer = Timer(status: Status, start: nat, before: nat)

  /** A clock reading: positive, as seconds since the epoch are. */
  type Instant = n: nat | n > 0 witness 1

  /** `get_current_playback_time` at clock reading `now`. */
  function Elapsed(t: Timer, now: nat): nat
    requires t.start <= now
  {
    if t.status == Paused then t.before
    else if t.start == 0 then 0
    else t.before + (now - t.start)
  }

  /** `pause_playback`: acts only while playing. */
  function Pause(t: Timer, now: nat): Timer
    requires t.start <= now
  {
    if t.status == Playing then Timer(Paused, t.start, t.before + (now - t.start)) else t
  }

  /** `resume_playback`: acts only while paused. */
  function Resume(t: Timer, now: Instant): Timer {
    if t.status == Paused then Timer(Playing, now, t.before) else t
  }

  /** The state in which a song starts playing at `now`. */
  function Start(now: Instant): Timer {
    Timer(Playing, now, 0)
  }

  /** A song that has just started has played for no time. */
  lemma StartsAtZero(now: Instant)
    ensures Elapsed(Start(now), now) == 0
  {
  }

  /**
   * A start time of 0 means no song was started: elapsed time is 0 unless
   * paused, whatever the clock says.
   */
  lemma ElapsedZeroBeforeStart(t: Timer, now: nat)
    requires t.start == 0 && t.status != Paused
    ensures Elapsed(t, now) == 0
  {
  }

  /** While not paused, elapsed time never decreases as the clock advances. */
  lemma ElapsedMonotone(t: Timer, now1: nat, now2: nat)
    requires t.status != Paused && t.start <= now1 <= now2
    ensures Elapsed(t, now1) <= Elapsed(t, now2)
  {
  }

  /** While paused, elapsed time is the accumulated time, whatever the clock says. */
  lemma ElapsedFrozenWhilePaused(t: Timer, now1: nat, now2: nat)
    requires t.status == Paused && t.start <= now1 && t.start <= now2
    ensures Elapsed(t, now1) == Elapsed(t, now2) == t.before
  {
  }

  /**
   * Pause then resume: elapsed time is frozen during the pause at its value
   * at the moment of pausing, right after the resume it still has that
   * value, and afterwards it grows with the clock from there.
   */
  lemma PauseResumeContinuity(t: Timer, paused: nat, resumed: Instant, later: nat)
    requires t.status == Playing && t.start > 0
    requires t.start <= paused <= resumed <= later
    ensures Pause(t, paused).status == Paused
    ensures Elapsed(Pause(t, paused), resumed) == Elapsed(t, paused)
    ensures Resume(Pause(t, paused), resumed).status == Playing
    ensures Elapsed(Resume(Pause(t, paused), resumed), resumed) == Elapsed(t, paused)
    ensures Elapsed(Resume(Pause(t, paused), resumed), later) == Elapsed(t, paused) + (later - resumed)
  {
  }

  /** Pausing while paused, or while nothing plays, changes nothing. */
  lemma PauseOnlyWhilePlaying(t: Timer, now: nat)
    requires t.status != Playing && t.start <= now
    ensures Pause(t, now) == t
  {
  }

  /** Resuming while playing, or while nothing plays, changes nothing. */
  lemma ResumeOnlyWhilePaused(t: Timer, now: Instant)
    requires t.status != Paused
    ensures Resume(t, now) == t
  {
  }

  /** A second pause or a second resume is a no-op. */
  lemma PauseResumeIdempotent(t: Timer, now1: Instant, now2: Instant)
    requires t.start <= now1 <= now2
    ensures Pause(Pause(t, now1), now2) == Pause(t, now1)
    ensures Resume(Resume(t, now1), now2) == Resume(t, now1)
  {
  }
}
