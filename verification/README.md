# lyricsipsum, modelled in Dafny

lyricsipsum prints the lyrics of one song picked at random from a local
cache file, optionally preceded by the song's title. In save mode it fetches
an artist's most popular songs from the Genius lyrics service and appends
them to the cache file. Before a song is stored, its raw lyrics are
normalised: every run of newlines becomes one newline, then the text is
stripped of leading and trailing whitespace.

This project models the deterministic core of that script:

- `wrappers.dfy`: module `Wrappers`, the `Option` and `Result` values used for error paths.
- `subsequence.dfy`: module `Subsequences`, "obtained by deleting elements", with reflexivity, transitivity and the prefix and suffix cases.
- `normaliser.dfy`: module `Normaliser`, the lyrics normaliser.
  - `IsWs` is the whitespace set of Python's `str.strip()`, that is, the characters for which `str.isspace()` holds.
  - `CollapseNewlines` is `re.sub(r"\n+", "\n", …)`. It walks left to right and replaces each maximal newline run (`LeadingNewlines`) with one newline.
  - `TrimStart`, `TrimEnd` and `Strip` are `str.strip()`.
  - `Normalise` composes them.
  - The lemmas state what the normaliser guarantees.
- `songs.dfy`: module `Songs`, the `Song` record and save mode's merge.
  - `SaveLyrics` is a loop that appends to the list it starts from.
  - It is proved equal to a filter-map specification, `Existing(cache) + NewEntries(fetched)`.
  - Lemmas say which fetched song ends up at which position.
- `reader.dfy`: module `Reader`, read mode.
  - `Choose` stands for `random.choice` with a caller-supplied index.
  - `Render` builds the printed text and `ReadLyrics` is the whole of read mode.
  - `Render` is the argument passed to `print`, without the newline `print` adds after it.
  - Parsers of the printed text (`ParseTitled`, `ParseUntitled`) are the inverse of `Render` for normalised lyrics; without the title flag, for any lyrics.
- `entry.dfy`: module `Entry`, the dispatch in `main` between save mode and read mode.

Two behaviours of the code worth knowing:

- Stored lyrics can be empty. The test at line 78 looks at the raw lyrics, so whitespace-only lyrics are stored as `""` (`Songs.WhitespaceOnlyStoredEmpty`).
- For a cache file holding an empty list, `random.choice` at line 54 raises. The model returns `EmptyCache`, separate from `NoLyricsFile` for a missing file.

## Model

| member | source | states |
|---|---|---|
| Normaliser.LeadingNewlines | src/lyricsipsum/__main__.py:79 | the newline run matched by `\n+` at the front is maximal: every character before the returned length is a newline and the next one is not |
| Normaliser.CollapseNoDoubleNewline | src/lyricsipsum/__main__.py:79 | after replacing each `\n+` run by one newline, no two newlines are adjacent |
| Normaliser.CollapseSubsequence | src/lyricsipsum/__main__.py:79 | the collapse only deletes characters |
| Normaliser.CollapseFixesNoDoubleNewline | src/lyricsipsum/__main__.py:79 | a string with no adjacent newlines is left unchanged by the collapse |
| Normaliser.CollapseAllWsIff | src/lyricsipsum/__main__.py:79 | the collapse output is all whitespace exactly when its input is (only newlines are removed) |
| Normaliser.CollapsePlainPrefix | src/lyricsipsum/__main__.py:79 | characters other than newlines pass through the collapse unchanged |
| Normaliser.CollapseNewlineRun | src/lyricsipsum/__main__.py:79 | a maximal run of one or more newlines becomes exactly one newline |
| Normaliser.TrimStartSpec | src/lyricsipsum/__main__.py:79 | the leading half of `strip()` removes a whitespace-only prefix and leaves text that is empty or starts with non-whitespace |
| Normaliser.TrimEndSpec | src/lyricsipsum/__main__.py:79 | the trailing half of `strip()` removes a whitespace-only suffix and leaves text that is empty or ends with non-whitespace |
| Normaliser.StripSpec | src/lyricsipsum/__main__.py:79 | `strip()` returns a contiguous slice of its input, with only whitespace cut on either side, that is empty or begins and ends with non-whitespace |
| Normaliser.StripKeepsNoDoubleNewline | src/lyricsipsum/__main__.py:79 | stripping cannot create adjacent newlines |
| Normaliser.StripFixesTrimmed | src/lyricsipsum/__main__.py:79 | `strip()` leaves already trimmed text unchanged |
| Normaliser.StripEmptyIff | src/lyricsipsum/__main__.py:79 | `strip()` returns the empty string exactly for whitespace-only input |
| Normaliser.StripSubsequence | src/lyricsipsum/__main__.py:79 | `strip()` only deletes characters |
| Normaliser.NormaliseIsNormalised | src/lyricsipsum/__main__.py:79 | normalised lyrics never contain two adjacent newlines and are empty or begin and end with non-whitespace |
| Normaliser.NormaliseIdempotent | src/lyricsipsum/__main__.py:79 | normalising normalised lyrics changes nothing |
| Normaliser.NormaliseFixedPoints | src/lyricsipsum/__main__.py:79 | the strings the normaliser leaves unchanged are exactly those with no adjacent newlines and trimmed ends |
| Normaliser.NormaliseSubsequence | src/lyricsipsum/__main__.py:79 | the normalised lyrics are a subsequence of the raw lyrics |
| Normaliser.NormaliseEmptyIff | src/lyricsipsum/__main__.py:79 | the normalised lyrics are empty exactly when the raw lyrics are whitespace only |
| Normaliser.NormaliseBlankLines | src/lyricsipsum/__main__.py:79 | two lines separated by blank lines and followed by trailing newlines normalise to the two lines joined by one newline |
| Normaliser.NormaliseExample | src/lyricsipsum/__main__.py:79 | `"Line1\n\n\n\nLine2\n\n"` normalises to `"Line1\nLine2"` |
| Songs.SaveLyrics | src/lyricsipsum/__main__.py:75-84 | the loop starts from the cached list, or from the empty list when there is no cache file, and appends the stored form of each fetched song with non-empty raw lyrics. The cached songs stay an unchanged prefix, the length is the cached count plus the number of fetched songs with lyrics, and the reported count is that length |
| Songs.NewEntries | src/lyricsipsum/__main__.py:77-79 | the number of appended entries equals the number of fetched songs whose raw lyrics are non-empty |
| Songs.NewEntryAt | src/lyricsipsum/__main__.py:77-79 | each fetched song with non-empty raw lyrics is appended, with its fetched title and normalised lyrics, at the position given by how many songs with lyrics precede it |
| Songs.NewEntryOrigin | src/lyricsipsum/__main__.py:77-79 | every appended entry is the stored form of a fetched song with non-empty raw lyrics, at that song's rank, so nothing else is added |
| Songs.NewEntriesInFetchOrder | src/lyricsipsum/__main__.py:77-79 | appended entries keep the order in which the service returned the songs |
| Songs.NewEntriesNormalised | src/lyricsipsum/__main__.py:79 | every appended entry's lyrics have no adjacent newlines and trimmed ends |
| Songs.WhitespaceOnlyStoredEmpty | src/lyricsipsum/__main__.py:78-79 | whitespace-only raw lyrics pass the emptiness test and are stored as the empty string |
| Songs.SaveScenario | src/lyricsipsum/__main__.py:75-79 | three fetched songs, the middle one without lyrics, append exactly the first and third after the cached songs |
| Reader.Choose | src/lyricsipsum/__main__.py:54 | the chosen song is an element of the loaded list |
| Reader.ReadLyrics | src/lyricsipsum/__main__.py:54-58 | a missing cache file gives `NoLyricsFile` and an empty cached list gives `EmptyCache`. Read mode succeeds exactly when the cached list is non-empty, and then the text is the rendering of the song at the chosen index, an element of the cached list |
| Reader.RenderTitledRoundTrip | src/lyricsipsum/__main__.py:56 | with the title flag, `title + "\n\n" + lyrics + "\n"` can be parsed back into the same title and lyrics whenever the lyrics are normalised |
| Reader.RenderUntitledRoundTrip | src/lyricsipsum/__main__.py:58 | without the title flag, `"\n" + lyrics + "\n"` can be parsed back into the lyrics |
| Reader.RenderAmbiguousWithoutNormalising | src/lyricsipsum/__main__.py:56 | for lyrics that are not normalised, two different songs can print the same titled text |
| Reader.ReadScenarios | src/lyricsipsum/__main__.py:54-58 | a cache holding `A` / `la la` passes `"\nla la\n"` to `print`, or `"A\n\nla la\n"` with the title flag. A missing cache file prints no song |
| Entry.Run | src/lyricsipsum/__main__.py:51-84 | the cache file is written only in save mode and only when the artist search returned, and then with the merged list; a search that raised writes nothing. Read mode prints a song of the cache or stops with the matching error exactly when the cache is missing or empty |

## Left out

- Reading and writing `songs.json` (JSON serialisation, file paths, the configuration directory) is not modelled. The cache file's contents are an input, `Cache = Missing | Present(songs)`, and save mode's result is the list it would write.
- The message that tells the user to run save mode, and the process exit codes (including exit on keyboard interrupt), are not modelled. Read mode's failure is the value `NoLyricsFile`.
- Command-line parsing and the global argument dictionary are left out. The mode and its flags are a parameter of `Entry.Run`.
- Building the Genius client is left out: the configuration file, the access token from the environment, and the client options.
- The network search for the artist's songs is left out. Its result is an input: the fetched songs as a sequence of title and raw-lyrics pairs, or `None` when the search raised (network, authentication or rate-limit errors, which the code does not catch). A song whose lyrics the client reports as missing is modelled as having empty lyrics, since both are falsy in the emptiness test.
- The randomness of `random.choice` is replaced by a caller-supplied index.
- Concurrent save-mode runs against the same cache file are left out.
- Songs.SaveLyrics: the confirmation message is reduced to the count it reports, without the text or the file path around it.
