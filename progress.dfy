/**
 * The progress indicator of the now-playing message (`create_progress_bar`)
 * and the rule by which the progress tracker decides to edit that message
 * (`progress_updater`): only when the rendered string changed, and never
 * again after an edit is rejected.
 */
module Progress {
  import opened Wrappers
  import opened TimeFormat

  /** Number of segments of the bar. */
  const BarLength: nat := 20

  const FilledSegment: char := '\U{25AC}'
  const Knob: char := '\U{1F518}'
  const EmptySegment: char := '\U{2500}'

  /** Shown instead of a bar when the duration is unknown (0), as for a live stream. */
  const LiveMarker: string := "`直播中，無進度條`"

  /** Python's `c * n`: a negative count repeats nothing. */
  function Repeat(c: char, n: int): (r: string)
    ensures |r| == if n < 0 then 0 else n
    ensures forall i :: 0 <= i < |r| ==> r[i] == c
    decreases n
  {
    if n <= 0 then [] else [c] + Repeat(c, n - 1)
  }

  /**
   * Number of filled segments: `int(20 * (elapsed / duration))` of the source,
   * taken on integers as the floor of `20 * elapsed / duration`.
   */
  function FilledLength(elapsed: nat, duration: nat): nat
    requires duration > 0
  {
    (BarLength * elapsed) / duration
  }

  /** The bar itself: filled segments, one knob, then the remaining empty segments. */
  function Bar(filled: nat): (r: string)
    ensures |r| == if filled <= BarLength then BarLength + 1 else filled + 1
    ensures forall i :: 0 <= i < filled ==> r[i] == FilledSegment
    ensures r[filled] == Knob
    ensures forall i :: filled < i < |r| ==> r[i] == EmptySegment
  {
    Repeat(FilledSegment, filled) + [Knob] + Repeat(EmptySegment, BarLength - filled)
  }

  /** `create_progress_bar(elapsed)` for a current song of the given duration. */
  function ProgressBar(elapsed: nat, duration: nat): string {
    if duration == 0 then LiveMarker
    else "`" + FormatTime(Some(elapsed)) + "`" + AfterClock(elapsed, duration)
  }

  /** Duration 0 always renders the live marker, whatever the elapsed time. */
  lemma LiveIgnoresElapsed(elapsed: nat)
    ensures ProgressBar(elapsed, 0) == LiveMarker
  {
  }

  /**
   * Within the song, the filled length is the floor of `20 * elapsed / duration`:
   * at most 20, and exactly the largest count whose share does not exceed the
   * elapsed share.
   */
  lemma {:induction false} FilledLengthScaled(elapsed: nat, duration: nat)
    requires 0 < duration && elapsed <= duration
    ensures FilledLength(elapsed, duration) <= BarLength
    ensures FilledLength(elapsed, duration) * duration <= BarLength * elapsed
    ensures BarLength * elapsed < (FilledLength(elapsed, duration) + 1) * duration
  {
    var f := FilledLength(elapsed, duration);
    var q, m := BarLength * elapsed, duration;
    assert q == f * m + q % m && 0 <= q % m < m;
    if f > BarLength {
      assert false;
    }
  }

  /**
   * Within the song (elapsed not beyond the duration) the rendered bar has
   * exactly 20 segments around a single knob: `FilledLength` filled ones, the
   * rest empty.
   */
  lemma BarWithinSong(elapsed: nat, duration: nat)
    requires 0 < duration && elapsed <= duration
    ensures |Bar(FilledLength(elapsed, duration))| == BarLength + 1
    ensures Count(Bar(FilledLength(elapsed, duration)), Knob) == 1
    ensures Count(Bar(FilledLength(elapsed, duration)), FilledSegment) == FilledLength(elapsed, duration)
    ensures Count(Bar(FilledLength(elapsed, duration)), EmptySegment) == BarLength - FilledLength(elapsed, duration)
  {
    FilledLengthScaled(elapsed, duration);
    var f := FilledLength(elapsed, duration);
    BarCount(f, Knob);
    BarCount(f, FilledSegment);
    BarCount(f, EmptySegment);
  }

  /** The count of a character in the bar, part by part. */
  lemma BarCount(filled: nat, c: char)
    ensures Count(Bar(filled), c) ==
      (if FilledSegment == c then filled else 0) + (if Knob == c then 1 else 0)
      + (if EmptySegment == c && filled < BarLength then BarLength - filled else 0)
  {
    var front := Repeat(FilledSegment, filled);
    var back := Repeat(EmptySegment, BarLength - filled);
    CountRepeat(FilledSegment, filled, c);
    CountRepeat(EmptySegment, BarLength - filled, c);
    CountAppend(front, [Knob], c);
    CountAppend(front + [Knob], back, c);
    assert Count([Knob], c) == if Knob == c then 1 else 0 by {
      assert [Knob][..0] == [];
    }
  }

  /**
   * Beyond the end of the song Python's negative repeat leaves out the empty
   * segments entirely: the bar is all filled up to a final knob.
   */
  lemma BarBeyondSong(elapsed: nat, duration: nat)
    requires 0 < duration && elapsed > duration
    ensures FilledLength(elapsed, duration) >= BarLength
    ensures Count(Bar(FilledLength(elapsed, duration)), EmptySegment) == 0
  {
    var f := FilledLength(elapsed, duration);
    var q, m := BarLength * elapsed, duration;
    assert q == f * m + q % m && 0 <= q % m < m;
    assert q > BarLength * m;
    if f < BarLength {
      assert false;
    }
    BarCount(f, EmptySegment);
  }

  /** Half of a 200-second song fills 10 of the 20 segments. */
  lemma HalfwayFillsHalf()
    ensures FilledLength(100, 200) == 10
    ensures Count(Bar(FilledLength(100, 200)), FilledSegment) == 10
    ensures Count(Bar(FilledLength(100, 200)), EmptySegment) == 10
  {
    BarWithinSong(100, 200);
  }

  /** Number of occurrences of `c` in `s`. */
  function Count(s: string, c: char): nat {
    if s == [] then 0 else Count(s[..|s| - 1], c) + (if s[|s| - 1] == c then 1 else 0)
  }

  lemma {:induction false} CountAppend(a: string, b: string, c: char)
    ensures Count(a + b, c) == Count(a, c) + Count(b, c)
  {
    if b != [] {
      assert (a + b)[..|a + b| - 1] == a + b[..|b| - 1];
      CountAppend(a, b[..|b| - 1], c);
    } else {
      assert a + b == a;
    }
  }

  lemma {:induction false} CountRepeat(d: char, n: int, c: char)
    ensures Count(Repeat(d, n), c) == if d == c && n > 0 then n else 0
    decreases n
  {
    if n > 0 {
      CountRepeat(d, n - 1, c);
      CountAppend([d], Repeat(d, n - 1), c);
      assert Count([d], c) == if d == c then 1 else 0 by {
        assert [d][..0] == [];
      }
    }
  }

  /** What follows the elapsed clock in a rendering for a song of known length. */
  function AfterClock(elapsed: nat, duration: nat): string
    requires duration > 0
  {
    " " + Bar(FilledLength(elapsed, duration)) + " `" + FormatTime(Some(duration)) + "`"
  }

  /**
   * A song of known length renders distinct strings for distinct whole
   * seconds, so the tracker's string comparison suppresses an edit exactly
   * when the elapsed second did not change.
   */
  lemma ProgressBarSeparatesSeconds(e1: nat, e2: nat, duration: nat)
    requires duration > 0
    requires e1 != e2
    ensures ProgressBar(e1, duration) != ProgressBar(e2, duration)
  {
    if ProgressBar(e1, duration) == ProgressBar(e2, duration) {
      ClockHasNoBackquote(e1);
      ClockHasNoBackquote(e2);
      QuotedPrefix(FormatTime(Some(e1)), AfterClock(e1, duration), FormatTime(Some(e2)), AfterClock(e2, duration));
      FormatTimeInjective(e1, e2);
      assert false;
    }
  }

  lemma ClockHasNoBackquote(e: nat)
    ensures forall i :: 0 <= i < |FormatTime(Some(e))| ==> FormatTime(Some(e))[i] != '`'
  {
  }

  /** The text between the first two backquotes is determined when it holds no backquote. */
  lemma QuotedPrefix(a: string, x: string, b: string, y: string)
    requires forall i :: 0 <= i < |a| ==> a[i] != '`'
    requires forall i :: 0 <= i < |b| ==> b[i] != '`'
    requires "`" + a + "`" + x == "`" + b + "`" + y
    ensures a == b
  {
    var s := "`" + a + "`" + x;
    if |a| < |b| {
      QuotedAt(a, x, |a|);
      QuotedAt(b, y, |a|);
      assert false;
    } else if |b| < |a| {
      QuotedAt(a, x, |b|);
      QuotedAt(b, y, |b|);
      assert false;
    }
    assert a == s[1..1 + |a|];
    assert b == s[1..1 + |b|];
  }

  lemma QuotedAt(a: string, x: string, i: nat)
    ensures i < |a| ==> ("`" + a + "`" + x)[1 + i] == a[i]
    ensures i == |a| ==> ("`" + a + "`" + x)[1 + i] == '`'
  {
  }

  /**
   * What a run of tracker polls does to the now-playing message: the edit
   * calls it makes (the last one possibly rejected), the cached last rendering
   * afterwards, and whether a rejected edit ended the tracker. `renders` are
   * the successive renderings; `accepted[i]` says whether an edit with
   * `renders[i]` would be accepted, and is consulted only when that edit is made.
   */
  datatype TrackerRun = TrackerRun(edits: seq<string>, cache: Option<string>, stopped: bool)

  /**
   * One poll that renders `bar`: no edit when it equals the cached
   * rendering; otherwise an edit, which updates the cache when accepted and
   * stops the tracker when rejected.
   */
  function Poll(last: Option<string>, bar: string, accepted: bool): TrackerRun {
    if Some(bar) == last then TrackerRun([], last, false)
    else if accepted then TrackerRun([bar], Some(bar), false)
    else TrackerRun([bar], last, true)
  }

  /** A tracker run preceded by edits already made. */
  function Prefixed(edits: seq<string>, run: TrackerRun): TrackerRun {
    TrackerRun(edits + run.edits, run.cache, run.stopped)
  }

  function Track(last: Option<string>, renders: seq<string>, accepted: seq<bool>): TrackerRun
    requires |accepted| == |renders|
    decreases |renders|
  {
    if renders == [] then TrackerRun([], last, false)
    else
      var p := Poll(last, renders[0], accepted[0]);
      if p.stopped then p else Prefixed(p.edits, Track(p.cache, renders[1..], accepted[1..]))
  }

  /**
   * One more poll of a run after edits already made, given what that poll
   * did: the run continues from the new cache, or ends at this poll.
   */
  lemma TrackStep(edits: seq<string>, last: Option<string>, renders: seq<string>, accepted: seq<bool>,
                  made: seq<string>, cache: Option<string>, stopped: bool)
    requires |accepted| == |renders| > 0
    requires Poll(last, renders[0], accepted[0]) == TrackerRun(made, cache, stopped)
    ensures !stopped ==>
      Prefixed(edits, Track(last, renders, accepted)) == Prefixed(edits + made, Track(cache, renders[1..], accepted[1..]))
    ensures stopped ==> Prefixed(edits, Track(last, renders, accepted)) == TrackerRun(edits + made, cache, true)
  {
    if !stopped {
      var rest := Track(cache, renders[1..], accepted[1..]);
      assert edits + (made + rest.edits) == (edits + made) + rest.edits;
    }
  }

  /**
   * The tracker never sends the cached rendering, and never sends the same
   * rendering twice in a row; at most one edit per poll is made.
   */
  lemma {:induction false} TrackNeverRepeats(last: Option<string>, renders: seq<string>, accepted: seq<bool>)
    requires |accepted| == |renders|
    ensures var r := Track(last, renders, accepted);
      && |r.edits| <= |renders|
      && (r.edits != [] ==> Some(r.edits[0]) != last)
      && (forall i :: 0 <= i < |r.edits| - 1 ==> r.edits[i] != r.edits[i + 1])
    decreases |renders|
  {
    if renders != [] {
      if Some(renders[0]) == last {
        TrackNeverRepeats(last, renders[1..], accepted[1..]);
      } else if accepted[0] {
        TrackNeverRepeats(Some(renders[0]), renders[1..], accepted[1..]);
      }
    }
  }

  /**
   * The cache changes only by an accepted edit: after a run it holds the last
   * accepted rendering, or the starting cache when no edit was accepted; a run
   * that stopped did so at its last edit call, which was rejected.
   */
  lemma {:induction false} TrackCache(last: Option<string>, renders: seq<string>, accepted: seq<bool>)
    requires |accepted| == |renders|
    ensures var r := Track(last, renders, accepted);
      && (!r.stopped ==> r.cache == if r.edits == [] then last else Some(r.edits[|r.edits| - 1]))
      && (r.stopped ==> r.edits != [] && r.cache == if |r.edits| == 1 then last else Some(r.edits[|r.edits| - 2]))
    decreases |renders|
  {
    if renders != [] {
      if Some(renders[0]) == last {
        TrackCache(last, renders[1..], accepted[1..]);
      } else if accepted[0] {
        TrackCache(Some(renders[0]), renders[1..], accepted[1..]);
      }
    }
  }

  /**
   * However many consecutive polls render the same string, exactly one edit
   * is made for it when it is not the cached rendering, and none when it is;
   * in particular two equal renderings in a row produce one edit, not two.
   */
  lemma {:induction false} SameRenderingEditedOnce(last: Option<string>, bar: string, k: nat, accepted: seq<bool>)
    requires |accepted| == k
    ensures |Track(last, seq(k, _ => bar), accepted).edits| == if k > 0 && Some(bar) != last then 1 else 0
    decreases k
  {
    var renders := seq(k, _ => bar);
    if k > 0 {
      assert renders[1..] == seq(k - 1, _ => bar);
      if Some(bar) == last {
        SameRenderingEditedOnce(last, bar, k - 1, accepted[1..]);
      } else if accepted[0] {
        CachedRenderingSkipped(bar, k - 1, accepted[1..]);
      }
    }
  }

  /** Polls that keep rendering the cached string make no edit at all. */
  lemma {:induction false} CachedRenderingSkipped(bar: string, k: nat, accepted: seq<bool>)
    requires |accepted| == k
    ensures Track(Some(bar), seq(k, _ => bar), accepted) == TrackerRun([], Some(bar), false)
    decreases k
  {
    if k > 0 {
      assert seq(k, _ => bar)[1..] == seq(k - 1, _ => bar);
      CachedRenderingSkipped(bar, k - 1, accepted[1..]);
    }
  }
}
