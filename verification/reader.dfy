/**
  Read mode of lyricsipsum: one song is picked from the cached list and its
  lyrics are printed, preceded by its title when the title flag is given.
  The random choice is a caller-supplied index into the list.
 */
module Reader {
  import opened Wrappers
  import opened Normaliser
  import opened Songs

  /** Why read mode prints nothing: no cache file (the program tells the user
      to run save mode and exits with status 1), or a cache file holding an
      empty list (the random choice raises an error). */
  datatype ReadError = NoLyricsFile | EmptyCache

  /** `random.choice`, with the index supplied by the caller. */
  function Choose(songs: seq<Song>, pick: nat): (s: Song)
    requires pick < |songs|
    ensures s in songs
  {
    songs[pick]
  }

  /** The text read mode prints for a song (the trailing newline of `print`
      is not included). */
  function Render(song: Song, showTitle: bool): string {
    if showTitle then song.title + "\n\n" + song.lyrics + "\n"
    else "\n" + song.lyrics + "\n"
  }

  /** Read mode: load, choose, format. */
  function ReadLyrics(cache: Cache, pick: nat, showTitle: bool): (r: Result<string, ReadError>)
    requires cache.Present? && cache.songs != [] ==> pick < |cache.songs|
    ensures cache.Missing? ==> r == Failure(NoLyricsFile)
    ensures cache.Present? && cache.songs == [] ==> r == Failure(EmptyCache)
    ensures r.Success? <==> cache.Present? && cache.songs != []
    ensures r.Success? ==> cache.Present? && exists s :: s in cache.songs && r.value == Render(s, showTitle)
    ensures cache.Present? && cache.songs != [] ==> r == Success(Render(cache.songs[pick], showTitle))
  {
    match cache
    case Missing => Failure(NoLyricsFile)
    case Present(songs) =>
      if songs == [] then Failure(EmptyCache)
      else
        var song := Choose(songs, pick);
        Success(Render(song, showTitle))
  }

  // ---------------------------------------------------------------------
  // Reading the printed text back

  /** Position of the last blank line (two adjacent newlines) in `s`. */
  function FindLastBreak(s: string): (r: Option<nat>)
    ensures r.Some? ==> r.value + 1 < |s| && s[r.value] == '\n' && s[r.value + 1] == '\n'
    ensures forall p, q | 0 <= p < |s| && 0 <= q < |s| && q == p + 1 && (r.None? || r.value < p) ::
              !(s[p] == '\n' && s[q] == '\n')
  {
    if |s| < 2 then None
    else if s[|s| - 2] == '\n' && s[|s| - 1] == '\n' then Some(|s| - 2)
    else FindLastBreak(s[..|s| - 1])
  }

  /** Recovers title and lyrics from the text printed with the title flag:
      the lyrics are what follows the last blank line. */
  function ParseTitled(out: string): Option<Song> {
    if out == [] || out[|out| - 1] != '\n' then None
    else
      var body := out[..|out| - 1];
      match FindLastBreak(body)
      case None => None
      case Some(p) => Some(Song(body[..p], body[p + 2..]))
  }

  /** Recovers the lyrics from the text printed without the title flag. */
  function ParseUntitled(out: string): Option<string> {
    if |out| >= 2 && out[0] == '\n' && out[|out| - 1] == '\n' then Some(out[1..|out| - 1])
    else None
  }

  /** With the title flag, the printed text determines the song, because
      stored lyrics are normalised: they contain no blank line and do not
      start with a newline. */
  lemma RenderTitledRoundTrip(song: Song)
    requires IsNormalised(song.lyrics)
    ensures ParseTitled(Render(song, true)) == Some(song)
  {
    var out := Render(song, true);
    var t := song.title;
    var l := song.lyrics;
    var body := t + "\n\n" + l;
    assert out[..|out| - 1] == body;
    assert body[|t|] == '\n' && body[|t| + 1] == '\n';
    // no blank line starts after the separator: it would lie inside the
    // lyrics, or join the separator to a newline opening the lyrics
    forall p, q | 0 <= p < |body| && 0 <= q < |body| && q == p + 1 && |t| < p
      ensures !(body[p] == '\n' && body[q] == '\n')
    {
      assert body[q] == l[q - |t| - 2];
      if p > |t| + 1 {
        assert body[p] == l[p - |t| - 2];
      }
    }
    var r := FindLastBreak(body);
    assert r == Some(|t|);
    assert body[..|t|] == t;
    assert body[|t| + 2..] == l;
  }

  /** Without the title flag, the printed text determines the lyrics. */
  lemma RenderUntitledRoundTrip(song: Song)
    ensures ParseUntitled(Render(song, false)) == Some(song.lyrics)
  {
  }

  /** Without normalisation the titled text would be ambiguous: two different
      songs, one with a blank line in its lyrics, print the same text. */
  // The literals are parameters fixed by `requires` so that the verifier
  // does not unroll the functions on literal arguments without bound.
  lemma RenderAmbiguousWithoutNormalising(a: Song, b: Song)
    requires a == Song("A", "x\n\ny") && b == Song("A\n\nx", "y")
    ensures a != b && Render(a, true) == Render(b, true)
  {
  }

  /** The read-mode scenarios: a cache holding one song prints its lyrics
      between newlines, or its title, a blank line and its lyrics; a missing
      cache file prints no song. */
  // The cache is a parameter fixed by `requires`, for the same reason.
  lemma ReadScenarios(cache: Cache)
    requires cache == Present([Song("A", "la la")])
    ensures ReadLyrics(cache, 0, false) == Success("\nla la\n")
    ensures ReadLyrics(cache, 0, true) == Success("A\n\nla la\n")
    ensures ReadLyrics(Missing, 0, true) == Failure(NoLyricsFile)
  {
    assert "\n" + "la la" + "\n" == "\nla la\n";
    assert "A" + "\n\n" + "la la" + "\n" == "A\n\nla la\n";
  }
}
