/**
 * The text of the queue listing (`create_queue_embed`): the current song, at
 * most the first ten pending requests numbered from 1 in queue order, and a
 * footer counting the requests not shown.
 */
module QueueListing {
  import opened Wrappers
  import opened TimeFormat
  import opened Player

  /** At most this many pending requests are listed. */
  const MaxListed: nat := 10

  const EmptyQueueText: string := "目前播放清單是空的。"
  const ListTitle: string := "\U{1F3B6} 播放清單"

  /** The listing: either the empty-list message, or titled fields that may each be absent. */
  datatype QueueEmbed =
    | EmptyQueue(description: string)
    | Listing(title: string, nowPlaying: Option<string>, pending: Option<string>, footer: Option<string>)

  /** The now-playing field: the title in bold and the requester's mention. */
  function NowPlayingField(song: Song): string {
    "**" + song.info.title + "**\n(點播者: " + song.requester.mention + ")"
  }

  /** One line of the pending list, for the request at 1-based `position`. */
  function Line(position: nat, item: Request): string {
    "`" + Decimal(position) + ".` " + item.songTitle + " (點播者: " + item.requester.mention + ")\n"
  }

  /** The footer for `remaining` requests not listed. */
  function Footer(remaining: nat): string {
    "...還有 " + Decimal(remaining) + " 首歌"
  }

  /** How many of `n` pending requests are listed: `queue_items[:10]`. */
  function Shown(n: nat): (k: nat)
    ensures k <= n && k <= MaxListed
    ensures k == n || k == MaxListed
  {
    if n <= MaxListed then n else MaxListed
  }

  /** The lines for `items`, numbered from 1. */
  function Lines(items: seq<Request>): seq<string> {
    if items == [] then [] else Lines(items[..|items| - 1]) + [Line(|items|, items[|items| - 1])]
  }

  function Concat(parts: seq<string>): string {
    if parts == [] then "" else Concat(parts[..|parts| - 1]) + parts[|parts| - 1]
  }

  /** Listing one more item appends its line to the text. */
  lemma ListedSnoc(items: seq<Request>, i: nat)
    requires i < |items|
    ensures Concat(Lines(items[..i + 1])) == Concat(Lines(items[..i])) + Line(i + 1, items[i])
  {
    assert items[..i + 1][..i] == items[..i];
  }

  /** The `for` loop of `create_queue_embed`: one numbered line per request, in order. */
  method ListPending(shown: seq<Request>) returns (list: string)
    ensures list == Concat(Lines(shown))
  {
    list := "";
    for i := 0 to |shown|
      invariant list == Concat(Lines(shown[..i]))
    {
      ListedSnoc(shown, i);
      list := list + Line(i + 1, shown[i]);
    }
    assert shown[..|shown|] == shown;
  }

  /**
   * The listing for pending requests `queue` with current song `current`:
   * the empty-list message exactly when nothing waits and nothing plays;
   * otherwise the current song's field when there is one, the first ten
   * pending requests numbered from 1 in queue order when any wait, and a
   * footer counting the rest exactly when more than ten wait.
   */
  function QueueEmbedOf(queue: seq<Request>, current: Option<Song>): (e: QueueEmbed)
    ensures e.EmptyQueue? <==> queue == [] && current.None?
    ensures e.EmptyQueue? ==> e.description == EmptyQueueText
    ensures e.Listing? ==> e.title == ListTitle
    ensures e.Listing? ==> (e.nowPlaying.Some? <==> current.Some?)
    ensures e.Listing? && current.Some? ==> e.nowPlaying == Some(NowPlayingField(current.value))
    ensures e.Listing? ==> (e.pending.Some? <==> queue != [])
    ensures e.Listing? && queue != [] ==> e.pending == Some(Concat(Lines(queue[..Shown(|queue|)])))
    ensures e.Listing? ==> (e.footer.Some? <==> |queue| > MaxListed)
    ensures e.Listing? && |queue| > MaxListed ==> e.footer == Some(Footer(|queue| - MaxListed))
  {
    if queue == [] && current.None? then EmptyQueue(EmptyQueueText)
    else
      Listing(ListTitle,
              if current.Some? then Some(NowPlayingField(current.value)) else None,
              if queue != [] then Some(Concat(Lines(queue[..Shown(|queue|)]))) else None,
              if |queue| > MaxListed then Some(Footer(|queue| - MaxListed)) else None)
  }

  /** Line `i` (0-based) of the list shows request `i` of the queue, numbered `i + 1`. */
  lemma {:induction false} LinesNumbered(items: seq<Request>)
    ensures |Lines(items)| == |items|
    ensures forall i :: 0 <= i < |items| ==> Lines(items)[i] == Line(i + 1, items[i])
  {
    if items != [] {
      var init := items[..|items| - 1];
      LinesNumbered(init);
      assert forall i :: 0 <= i < |init| ==> init[i] == items[i];
    }
  }

  /** Each listed line starts with its number `i + 1`, so the numbers run 1..10 at most. */
  lemma LineStartsWithNumber(position: nat, item: Request)
    ensures Line(position, item)[..1 + |Decimal(position)|] == "`" + Decimal(position)
    ensures Value(Line(position, item)[1..1 + |Decimal(position)|]) == position
  {
    var d := Decimal(position);
    assert Line(position, item) == "`" + d + (".` " + item.songTitle + " (點播者: " + item.requester.mention + ")\n");
    assert Line(position, item)[1..1 + |d|] == d;
  }
}
