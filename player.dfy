/**
 * The records the player loop works on and one iteration of `player_loop`
 * as a function of the answers of its collaborators: whether the resolver
 * found the song and whether connecting to the voice channel succeeded.
 * From it, the songs a run of the loop plays, in order.
 */
module Player {
  import opened Wrappers
  import opened Timing

  type GuildId = nat
  type ChannelId = nat
  /** The reply context of a command (where answers and the now-playing message go). */
  type ContextId = nat
  type MessageId = nat

  datatype Member = Member(mention: string)

  /** A queued `play` request: context, target voice channel, query, display title, requester. */
  datatype Request = Request(ctx: ContextId, channel: ChannelId, search: string, songTitle: string, requester: Member)

  /** What the resolver returns for a found song; a duration of 0 means unknown (live). */
  datatype SongInfo = SongInfo(source: string, title: string, duration: nat, webpageUrl: string)

  /** The current song: the resolved information tagged with its requester. */
  datatype Song = Song(info: SongInfo, requester: Member)

  /** The voice connection: its channel, whether it is connected, what it is doing. */
  datatype Voice = Voice(channel: ChannelId, connected: bool, status: Status)

  /**
   * The outside world's answers to one iteration: the resolver's result, whether
   * a connection attempt (if one is made) succeeds, and the id of the
   * now-playing message that gets sent.
   */
  datatype Attempt = Attempt(resolved: Option<SongInfo>, connects: bool, message: MessageId)

  /** The fate of one dequeued request. */
  datatype Outcome = NotFound | ConnectFailed | Started(song: Song, voice: Voice)

  /**
   * The voice connection a request for `channel` is played on: a new one when
   * there is none or it is not connected (None when that connection fails),
   * otherwise the existing one, moved to `channel` if it is elsewhere.
   */
  function Connection(voice: Option<Voice>, channel: ChannelId, connects: bool): (r: Option<Voice>)
    ensures r.None? <==> (voice.None? || !voice.value.connected) && !connects
    ensures r.Some? ==> r.value.connected && r.value.channel == channel
    ensures voice.Some? && voice.value.connected ==> r == Some(voice.value.(channel := channel))
    ensures (voice.None? || !voice.value.connected) && connects ==> r == Some(Voice(channel, true, Stopped))
  {
    if voice.None? || !voice.value.connected then
      if connects then Some(Voice(channel, true, Stopped)) else None
    else if voice.value.channel != channel then Some(voice.value.(channel := channel))
    else voice
  }

  /**
   * One iteration after a request is dequeued: resolve, connect, start
   * playing. A request is dropped exactly when its song is not found or no
   * connection can be had; a started song is the resolved one tagged with the
   * requester, playing on a connection in the requester's channel.
   */
  function Attempted(voice: Option<Voice>, req: Request, a: Attempt): (r: Outcome)
    ensures r.NotFound? <==> a.resolved.None?
    ensures r.ConnectFailed? <==> a.resolved.Some? && (voice.None? || !voice.value.connected) && !a.connects
    ensures r.Started? ==> r.song == Song(a.resolved.value, req.requester)
    ensures r.Started? ==> r.voice.connected && r.voice.channel == req.channel && r.voice.status == Playing
  {
    if a.resolved.None? then NotFound
    else match Connection(voice, req.channel, a.connects)
      case None => ConnectFailed
      case Some(v) => Started(Song(a.resolved.value, req.requester), v.(status := Playing))
  }

  /**
   * The songs played, in order, when the loop works through `reqs` with
   * nothing else happening: each started song plays to its end before the
   * next request is dequeued.
   */
  function Played(voice: Option<Voice>, reqs: seq<Request>, attempts: seq<Attempt>): (r: seq<Song>)
    requires |attempts| == |reqs|
    ensures |r| <= |reqs|
    decreases |reqs|
  {
    if reqs == [] then []
    else match Attempted(voice, reqs[0], attempts[0])
      case Started(song, v) => [song] + Played(Some(v.(status := Stopped)), reqs[1..], attempts[1..])
      case _ => Played(voice, reqs[1..], attempts[1..])
  }

  /**
   * One step of a run: the song the first request plays, if any, followed by
   * what the rest of the run plays from the connection that step leaves.
   */
  lemma PlayedStep(voice: Option<Voice>, reqs: seq<Request>, attempts: seq<Attempt>, after: Option<Voice>)
    requires |attempts| == |reqs| > 0
    requires after == match Attempted(voice, reqs[0], attempts[0])
      case Started(_, v) => Some(v.(status := Stopped))
      case _ => voice
    ensures Played(voice, reqs, attempts) == match Attempted(voice, reqs[0], attempts[0])
      case Started(song, _) => [song] + Played(after, reqs[1..], attempts[1..])
      case _ => Played(after, reqs[1..], attempts[1..])
  {
  }

  /** The songs the resolver found, in request order: all a run could play. */
  function Candidates(reqs: seq<Request>, attempts: seq<Attempt>): seq<Song>
    requires |attempts| == |reqs|
  {
    if reqs == [] then []
    else if attempts[0].resolved.Some? then
      [Song(attempts[0].resolved.value, reqs[0].requester)] + Candidates(reqs[1..], attempts[1..])
    else Candidates(reqs[1..], attempts[1..])
  }

  /** `xs` is `ys` with some elements left out, the rest in their order. */
  predicate IsSubsequence<T(==)>(xs: seq<T>, ys: seq<T>)
    decreases |ys|
  {
    if xs == [] then true
    else if ys == [] then false
    else if xs[0] == ys[0] then IsSubsequence(xs[1..], ys[1..])
    else IsSubsequence(xs, ys[1..])
  }

  /** Adding an element in front keeps a subsequence a subsequence. */
  lemma {:induction false} SubsequenceOfLonger<T>(xs: seq<T>, y: T, ys: seq<T>)
    requires IsSubsequence(xs, ys)
    ensures IsSubsequence(xs, [y] + ys)
    decreases |ys|, 1
  {
    assert ([y] + ys)[1..] == ys;
    if xs != [] && xs[0] == y {
      SubsequenceTail(xs, ys);
    }
  }

  /** Dropping the first element of a subsequence keeps it a subsequence. */
  lemma {:induction false} SubsequenceTail<T>(xs: seq<T>, ys: seq<T>)
    requires xs != [] && IsSubsequence(xs, ys)
    ensures IsSubsequence(xs[1..], ys)
    decreases |ys|, 0
  {
    assert [ys[0]] + ys[1..] == ys;
    if xs[0] == ys[0] {
      SubsequenceOfLonger(xs[1..], ys[0], ys[1..]);
    } else {
      SubsequenceTail(xs, ys[1..]);
      SubsequenceOfLonger(xs[1..], ys[0], ys[1..]);
    }
  }

  /**
   * FIFO: the loop plays found songs in the order they were requested, never
   * reordering and never playing a request the resolver did not find.
   */
  lemma {:induction false} PlayedInRequestOrder(voice: Option<Voice>, reqs: seq<Request>, attempts: seq<Attempt>)
    requires |attempts| == |reqs|
    ensures IsSubsequence(Played(voice, reqs, attempts), Candidates(reqs, attempts))
    decreases |reqs|
  {
    if reqs != [] {
      match Attempted(voice, reqs[0], attempts[0])
      case Started(song, v) =>
        PlayedInRequestOrder(Some(v.(status := Stopped)), reqs[1..], attempts[1..]);
        assert ([song] + Played(Some(v.(status := Stopped)), reqs[1..], attempts[1..]))[1..]
            == Played(Some(v.(status := Stopped)), reqs[1..], attempts[1..]);
      case NotFound =>
        PlayedInRequestOrder(voice, reqs[1..], attempts[1..]);
      case ConnectFailed =>
        PlayedInRequestOrder(voice, reqs[1..], attempts[1..]);
        SubsequenceOfLonger(Played(voice, reqs[1..], attempts[1..]),
          Song(attempts[0].resolved.value, reqs[0].requester), Candidates(reqs[1..], attempts[1..]));
    }
  }

  /**
   * Once a connection is up, every found request is played, in order: the
   * only way to lose a found song is a failed connection.
   */
  lemma {:induction false} ConnectedPlaysAllFound(voice: Voice, reqs: seq<Request>, attempts: seq<Attempt>)
    requires |attempts| == |reqs| && voice.connected
    ensures Played(Some(voice), reqs, attempts) == Candidates(reqs, attempts)
    decreases |reqs|
  {
    if reqs != [] {
      var next := voice.(channel := reqs[0].channel, status := Stopped);
      if attempts[0].resolved.Some? {
        assert Attempted(Some(voice), reqs[0], attempts[0])
            == Started(Song(attempts[0].resolved.value, reqs[0].requester), voice.(channel := reqs[0].channel, status := Playing));
        ConnectedPlaysAllFound(next, reqs[1..], attempts[1..]);
      } else {
        ConnectedPlaysAllFound(voice, reqs[1..], attempts[1..]);
      }
    }
  }

  /**
   * Requests A, B, C that are all found and can all connect are played as
   * A, B, C: one song per request, in queue order, each tagged with its requester.
   */
  lemma {:induction false} AllFoundPlayedInOrder(voice: Option<Voice>, reqs: seq<Request>, attempts: seq<Attempt>)
    requires |attempts| == |reqs|
    requires forall i :: 0 <= i < |attempts| ==> attempts[i].resolved.Some? && attempts[i].connects
    ensures |Played(voice, reqs, attempts)| == |reqs|
    ensures forall i :: 0 <= i < |reqs| ==>
      Played(voice, reqs, attempts)[i] == Song(attempts[i].resolved.value, reqs[i].requester)
    decreases |reqs|
  {
    if reqs != [] {
      match Attempted(voice, reqs[0], attempts[0])
      case Started(song, v) =>
        AllFoundPlayedInOrder(Some(v.(status := Stopped)), reqs[1..], attempts[1..]);
        var rest := Played(Some(v.(status := Stopped)), reqs[1..], attempts[1..]);
        assert Played(voice, reqs, attempts) == [song] + rest;
        forall i | 0 < i < |reqs|
          ensures Played(voice, reqs, attempts)[i] == Song(attempts[i].resolved.value, reqs[i].requester)
        {
          assert Played(voice, reqs, attempts)[i] == rest[i - 1];
          assert attempts[1..][i - 1] == attempts[i] && reqs[1..][i - 1] == reqs[i];
        }
    }
  }
}
