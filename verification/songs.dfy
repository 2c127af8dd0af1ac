/**
  Song records and save mode of lyricsipsum: the songs fetched for an artist
  are merged into the cached list, skipping songs without lyrics and storing
  the others with normalised lyrics.
 */
module Songs {
  import opened Normaliser

  /** A cached song: a title and its normalised lyrics. */
  datatype Song = Song(title: string, lyrics: string)

  /** A song as the lyrics service returns it, with its raw lyrics (lyrics the
      service could not find are the empty string). */
  datatype Fetched = Fetched(title: string, lyrics: string)

  /** What loading the cache file yields: no file yet, or the stored list. */
  datatype Cache = Missing | Present(songs: seq<Song>)

  /** The list save mode starts from: the cached songs, or none when there is
      no cache file. */
  function Existing(cache: Cache): seq<Song> {
    if cache.Present? then cache.songs else []
  }

  /** The truthiness test on the raw lyrics: non-empty text. */
  predicate HasLyrics(f: Fetched) {
    f.lyrics != []
  }

  /** The record stored for a fetched song. */
  function Stored(f: Fetched): Song {
    Song(f.title, Normalise(f.lyrics))
  }

  /** Number of fetched songs that have lyrics. */
  function WithLyrics(fetched: seq<Fetched>): nat {
    if fetched == [] then 0
    else WithLyrics(fetched[..|fetched| - 1]) + (if HasLyrics(fetched[|fetched| - 1]) then 1 else 0)
  }

  /** The records save mode appends, in the order the service returned the
      songs: the stored form of every fetched song with lyrics. */
  function NewEntries(fetched: seq<Fetched>): (r: seq<Song>)
    ensures |r| == WithLyrics(fetched)
  {
    if fetched == [] then []
    else
      var last := fetched[|fetched| - 1];
      NewEntries(fetched[..|fetched| - 1]) + (if HasLyrics(last) then [Stored(last)] else [])
  }

  /** Save mode's merge loop: start from the cached songs (none when the
      file is missing) and append the stored form of every fetched song with
      non-empty raw lyrics. Also returns the count the confirmation message
      reports. */
  method SaveLyrics(cache: Cache, fetched: seq<Fetched>) returns (songs: seq<Song>, saved: nat)
    ensures songs == Existing(cache) + NewEntries(fetched)
    ensures |songs| == |Existing(cache)| + WithLyrics(fetched)
    ensures songs[..|Existing(cache)|] == Existing(cache)
    ensures saved == |songs|
  {
    songs := if cache.Present? then cache.songs else [];
    assert fetched[..0] == [];
    assert songs == Existing(cache) + NewEntries([]);
    for i := 0 to |fetched|
      invariant songs == Existing(cache) + NewEntries(fetched[..i])
    {
      ghost var done := fetched[..i + 1];
      assert done[..i] == fetched[..i] && done[i] == fetched[i];
      var song := fetched[i];
      if song.lyrics != [] {
        assert NewEntries(done) == NewEntries(fetched[..i]) + [Stored(song)];
        songs := songs + [Song(song.title, Normalise(song.lyrics))];
      } else {
        assert NewEntries(done) == NewEntries(fetched[..i]) + [];
      }
    }
    assert fetched[..|fetched|] == fetched;
    saved := |songs|;
  }

  // ---------------------------------------------------------------------
  // What the appended entries are

  /** Counting over a longer prefix never gives less. */
  lemma {:induction false} WithLyricsMonotone(fetched: seq<Fetched>, i: nat, j: nat)
    requires i <= j <= |fetched|
    ensures WithLyrics(fetched[..i]) <= WithLyrics(fetched[..j])
    decreases j
  {
    if i < j {
      assert fetched[..j][..j - 1] == fetched[..j - 1];
      WithLyricsMonotone(fetched, i, j - 1);
    }
  }

  /** Every fetched song with lyrics is appended, at the position given by the
      number of songs with lyrics before it. */
  lemma {:induction false} NewEntryAt(fetched: seq<Fetched>, i: nat)
    requires i < |fetched| && HasLyrics(fetched[i])
    ensures WithLyrics(fetched[..i]) < |NewEntries(fetched)|
    ensures NewEntries(fetched)[WithLyrics(fetched[..i])] == Stored(fetched[i])
    decreases |fetched|
  {
    var n := |fetched|;
    var init := fetched[..n - 1];
    if i == n - 1 {
      assert init == fetched[..i];
    } else {
      NewEntryAt(init, i);
      assert init[..i] == fetched[..i];
      assert init[i] == fetched[i];
    }
  }

  /** Every appended entry is the stored form of a fetched song with lyrics,
      at the position its rank among those songs gives. */
  lemma {:induction false} NewEntryOrigin(fetched: seq<Fetched>, k: nat)
    requires k < |NewEntries(fetched)|
    ensures exists i :: 0 <= i < |fetched| && HasLyrics(fetched[i]) &&
                        WithLyrics(fetched[..i]) == k && NewEntries(fetched)[k] == Stored(fetched[i])
    decreases |fetched|
  {
    var n := |fetched|;
    var init := fetched[..n - 1];
    if k < |NewEntries(init)| {
      NewEntryOrigin(init, k);
      var i :| 0 <= i < |init| && HasLyrics(init[i]) &&
               WithLyrics(init[..i]) == k && NewEntries(init)[k] == Stored(init[i]);
      assert init[..i] == fetched[..i];
      assert fetched[i] == init[i];
    } else {
      assert init == fetched[..n - 1];
      assert fetched[n - 1] == fetched[n - 1];
    }
  }

  /** Every appended entry has the fetched title's normalised lyrics: no two
      adjacent newlines and no whitespace at either end. */
  lemma NewEntriesNormalised(fetched: seq<Fetched>, k: nat)
    requires k < |NewEntries(fetched)|
    ensures IsNormalised(NewEntries(fetched)[k].lyrics)
  {
    NewEntryOrigin(fetched, k);
    var i :| 0 <= i < |fetched| && HasLyrics(fetched[i]) &&
             WithLyrics(fetched[..i]) == k && NewEntries(fetched)[k] == Stored(fetched[i]);
    NormaliseIsNormalised(fetched[i].lyrics);
  }

  /** Appended entries keep the order of the fetch: of two fetched songs with
      lyrics, the earlier one is stored at the smaller position. */
  lemma NewEntriesInFetchOrder(fetched: seq<Fetched>, i: nat, j: nat)
    requires i < j < |fetched| && HasLyrics(fetched[i]) && HasLyrics(fetched[j])
    ensures WithLyrics(fetched[..i]) < WithLyrics(fetched[..j])
  {
    assert fetched[..i + 1][..i] == fetched[..i];
    WithLyricsMonotone(fetched, i + 1, j);
  }

  /** Whitespace-only raw lyrics pass the emptiness test and are stored as
      the empty string: stored lyrics may be empty. */
  lemma WhitespaceOnlyStoredEmpty(fetched: seq<Fetched>, i: nat)
    requires i < |fetched| && HasLyrics(fetched[i]) && AllWs(fetched[i].lyrics)
    ensures WithLyrics(fetched[..i]) < |NewEntries(fetched)|
    ensures NewEntries(fetched)[WithLyrics(fetched[..i])] == Song(fetched[i].title, "")
  {
    NewEntryAt(fetched, i);
    NormaliseEmptyIff(fetched[i].lyrics);
  }

  /** The save-mode scenario: three fetched songs, one of them without lyrics,
      add two entries after the cached ones. */
  lemma SaveScenario(existing: seq<Song>, a: Fetched, b: Fetched, c: Fetched)
    requires HasLyrics(a) && !HasLyrics(b) && HasLyrics(c)
    ensures Existing(Present(existing)) + NewEntries([a, b, c])
            == existing + [Stored(a), Stored(c)]
  {
    var f := [a, b, c];
    assert [a, b, c][..2] == [a, b];
    assert [a, b][..1] == [a];
    assert [a][..0] == [];
    assert NewEntries([a]) == [Stored(a)];
    assert NewEntries([a, b]) == [Stored(a)];
    assert NewEntries(f) == [Stored(a), Stored(c)];
  }
}
