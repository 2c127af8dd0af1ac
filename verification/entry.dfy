/**
  The entry point of lyricsipsum: with an artist to save, run save mode;
  otherwise run read mode. The outcome of the artist search, the cache file's
  contents and the random index are inputs.
 */
module Entry {
  import opened Wrappers
  import opened Songs
  import opened Reader

  /** The two modes the command line selects. In save mode, `search` is the
      list the artist search returned, or `None` when the search raised. */
  datatype Mode =
    | SaveMode(search: Option<seq<Fetched>>)
    | ReadMode(showTitle: bool, pick: nat)

  /** What one invocation does: rewrite the cache file with a list (and report
      its length), end save mode with the search's error before anything is
      written, print a song, or stop with a read-mode error. */
  datatype Outcome =
    | Wrote(songs: seq<Song>, saved: nat)
    | SearchFailed
    | Printed(text: string)
    | Stopped(error: ReadError)

  method Run(mode: Mode, cache: Cache) returns (outcome: Outcome)
    requires mode.ReadMode? && cache.Present? && cache.songs != [] ==> mode.pick < |cache.songs|
    ensures outcome.Wrote? <==> mode.SaveMode? && mode.search.Some?
    ensures outcome.SearchFailed? <==> mode.SaveMode? && mode.search.None?
    ensures mode.SaveMode? && mode.search.Some? ==>
              outcome.songs == Existing(cache) + NewEntries(mode.search.value) &&
              outcome.saved == |Existing(cache)| + WithLyrics(mode.search.value)
    ensures mode.ReadMode? && outcome.Printed? ==>
              cache.Present? && exists s :: s in cache.songs && outcome.text == Render(s, mode.showTitle)
    ensures mode.ReadMode? && outcome.Stopped? ==>
              outcome.error == (if cache.Missing? then NoLyricsFile else EmptyCache)
    ensures mode.ReadMode? ==> (outcome.Stopped? <==> cache.Missing? || cache.songs == [])
  {
    match mode
    case SaveMode(search) =>
      if search.None? {
        outcome := SearchFailed;
      } else {
        var songs, saved := SaveLyrics(cache, search.value);
        outcome := Wrote(songs, saved);
      }
    case ReadMode(showTitle, pick) =>
      match ReadLyrics(cache, pick, showTitle)
      case Success(text) => outcome := Printed(text);
      case Failure(e) => outcome := Stopped(e);
  }
}
