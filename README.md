# spotdl core, modelled in Dafny

spotdl downloads Spotify songs by finding them on YouTube. This project
models the parts of spotdl that decide things, and proves what they
guarantee:

- **Formatting** (`spotdl/utils/formatter.py`): song titles, sanitized file
  names, placeholder templates (`{title}`, `{artists}`, `{list-position}`,
  ...), search queries, file paths, and durations written `h:m:s`.
- **YouTube search** (`spotdl/providers/audio/youtube.py`): the search term
  (a template, an ISRC short cut, or the song title), the gates and score a
  search result must pass, and the pick of the best-scoring URL.
- **The query dispatcher** (`spotdl/utils/query.py`): how each command-line
  token becomes songs, which tokens raise `QueryError`, and the order the
  songs come out in.
- **M3U playlists** (`spotdl/utils/m3u.py`): one line per song, holding the
  song's file name.
- **The sync command** (`spotdl/console/sync.py`): which files are deleted,
  and which songs are downloaded again.
- **Progress accounting** (`spotdl/download/progress_handler.py`): the
  handler's counters, its log-level gate, and the per-song trackers that
  report into it.
- **The downloader's accounting** (`spotdl/download/downloader.py`): the
  handler it builds from a level name, and its calls into the handler and
  the trackers while a run of songs downloads.

Python exceptions are values of `Errors.Error`. An operation that can raise
returns a `Result`.

Foreign code becomes parameters or inputs, so every fact holds whatever that
code computes:

- `slugify` and `match_percentage` are fields of `YouTube.Provider`.
- The YouTube search engine is also a field of `YouTube.Provider`.
- `Song.from_url`, the playlist, album, artist and saved-track lookups,
  `create_empty_song` and the records of a `.spotdl` manifest are fields of
  `Query.Catalog`.
- The filesystem is the set of paths in `Sync.Disk`. What sync does that can
  be seen from outside is a list of `Sync.Event`s.

Scores are exact reals. Template values arrive already in their `str()`
form.

Files:

- `wrappers.dfy`: `Option` and `Result`.
- `errors.dfy`: the exceptions.
- `types.dfy`: songs and song lists.
- `strings.dfy`: the Python string operations used: `in`, `replace`,
  `split`, `join`, `lower`, `int()`, `str()` and `zfill`.
- `templates.dfy`: the sequential `str.replace` loop of `format_query`, and
  its equivalence to replacing every placeholder at once.
- `formatter.dfy` and `formatter_facts.dfy`: formatting.
- `youtube.dfy` and `youtube_facts.dfy`: search.
- `query.dfy` and `query_facts.dfy`: the dispatcher.
- `m3u.dfy`: playlists.
- `sync.dfy` and `sync_facts.dfy`: sync.
- `progress.dfy`: progress accounting.
- `downloader.dfy`: the downloader's side of it.

The source has the following loops. Each is a Dafny method with a `while`
loop, proved equal to a specification function:

- `format_query`: the sanitizing loop and the replacing loop.
- `create_file_name`: the trimming loop.
- `create_m3u_content`: the `+=` loop.
- `parse_query` and `get_simple_songs`: their loops.
- `order_results`: its loops.
- `sync`: the deletion loop and the scheduling loop.

The progress handler and its trackers are classes whose methods update
their fields in place. `ProgressHandler.Valid` keeps the overall progress
equal to the sum of what every tracker last reported. The downloader's
methods drive them as a run does, and state the whole new state of the
handler and of every tracker: status, progress, last reported progress,
slot and task removal.

## Model

| member | source | states |
|---|---|---|
| Formatter.CreateSongTitle | spotdl/utils/formatter.py:33-42 | With no artists the title is the name. Otherwise it is the artists joined by ", ", then " - ", then the name. It always ends with the name. |
| FormatterFacts.CreateSongTitleExamples | tests/utils/test_formatter.py:16-19 | The two create_song_title test cases hold. |
| Formatter.SanitizeString | spotdl/utils/formatter.py:45-59 | The definition of sanitize_string: the filter that drops seven path characters, then `"` to `'`, then `:` to `-`. Its contract is stated by the FormatterFacts rows below: the per-character meaning, the identity on clean text, idempotence. |
| FormatterFacts.SanitizeStringMeaning | spotdl/utils/formatter.py:45-59 | The filter followed by the two replacements is a character-by-character map: each of the six characters `/?\*<>` and the bar is dropped, `"` becomes `'`, `:` becomes `-`, and every other character stays in order. No output character is one of those nine. |
| FormatterFacts.SanitizedIdentity | spotdl/utils/formatter.py:53-57 | On a string with none of the nine characters, the map changes nothing. |
| FormatterFacts.SanitizedRemoved | spotdl/utils/formatter.py:53 | A string made only of dropped characters maps to the empty string. |
| FormatterFacts.SanitizeIdempotent | spotdl/utils/formatter.py:45-59 | Sanitizing twice gives the same as sanitizing once. |
| FormatterFacts.SanitizeDropsTail | spotdl/utils/formatter.py:53 | Clean text followed by dropped characters sanitizes to the clean text. |
| FormatterFacts.SanitizeMapsQuoteColon | spotdl/utils/formatter.py:57 | A double quote and a colon between clean texts become `'` and `-`. |
| FormatterFacts.SanitizeStringExamples | tests/utils/test_formatter.py:27-29 | The three sanitize_string test cases hold. |
| Formatter.IndexOf | spotdl/utils/formatter.py:79 | `list.index` is the first position holding the song. |
| FormatterFacts.ListPositionCases | spotdl/utils/formatter.py:78-82 | With no list, False or an empty list, the position and the length are both "". Otherwise the position is the 1-based index of the song's first occurrence, written with as many digits as the list's length (zero-padded), and the length is the list's length. A song missing from the list raises ValueError. True, or a song-list object, in the list slot raises AttributeError. |
| Formatter.FieldsHaveKeys | spotdl/utils/formatter.py:84-104 | The `formats` dictionary has exactly the placeholders of VARS as keys, in insertion order, with `{list-position}` before `{list-length}`. |
| FormatterFacts.FieldKeysDistinct | spotdl/utils/formatter.py:84-104 | No key of the dictionary occurs twice. |
| FormatterFacts.FieldKeysAreKeys | spotdl/utils/formatter.py:84-104 | Every key is a placeholder `{word}`: it has braces at both ends and nowhere else. |
| Formatter.FormatValues | spotdl/utils/formatter.py:84-112 | The dictionary, after its optional sanitizing pass, keeps those keys in that order. |
| Formatter.SanitizeFormats | spotdl/utils/formatter.py:106-112 | The sanitizing loop keeps each key and each None value, and sanitizes every other value in place. |
| Formatter.ReplaceFormats | spotdl/utils/formatter.py:115-116 | The replacing loop replaces each key everywhere with its value's `str()`, key by key in dictionary order. |
| Formatter.FormatQuery | spotdl/utils/formatter.py:62-118 | format_query, in the order the source checks things. A template using `{output-ext}` without an extension raises ValueError. A bad list slot raises the position's error. A song without artists raises IndexError. Otherwise the result is the sequential replacement over the sanitized dictionary. |
| FormatterFacts.FormattedExtError | spotdl/utils/formatter.py:74-75 | format_query raises the output-extension ValueError exactly when the template contains `{output-ext}` and the extension is None. |
| Templates.ReplaceFieldsExpands | spotdl/utils/formatter.py:115-116 | On a template of literal text and placeholders, with keys that are placeholders and values that print no `{`, the sequential replacement equals replacing every placeholder at once by the value of its first entry. |
| FormatterFacts.FormattedExpands | spotdl/utils/formatter.py:114-118 | When no error applies and no value prints a `{`, format_query replaces every placeholder of the template by its dictionary value. |
| FormatterFacts.ValueAt | spotdl/utils/formatter.py:84-112 | Each placeholder of the dictionary expands to its own value, sanitized when asked for, or to "None" when that value is None. |
| FormatterFacts.ArtistSlots | spotdl/utils/formatter.py:77-87 | `{title}` is the name and `{artist}` the first artist. `{artists}` is the first artist when `short is True`, and all artists joined by ", " otherwise. |
| FormatterFacts.ListSlots | spotdl/utils/formatter.py:101-102 | `{list-position}` and `{list-length}` are the list position and length described above. |
| FormatterFacts.OtherSlots | spotdl/utils/formatter.py:90-103 | `{genre}` is the first genre, or "" without genres. `{isrc}` and `{output-ext}` print "None" when absent. |
| Formatter.CreateSearchQuery | spotdl/utils/formatter.py:121-137 | The definition of create_search_query: format_query on the template, with "{artist} - {title}" in front when it has no placeholder. Stated by CreateSearchQueryDefault and CreateSearchQueryAsGiven. |
| FormatterFacts.CreateSearchQueryDefault | spotdl/utils/formatter.py:132-137 | A template with no placeholder gets "{artist} - {title}" in front. So a plain text `t` gives the first artist, " - ", the name, then `t`. |
| FormatterFacts.CreateSearchQueryAsGiven | spotdl/utils/formatter.py:134-137 | A template that uses some placeholder of VARS is formatted as it is. |
| Formatter.FileTemplateDefaults | spotdl/utils/formatter.py:152-164 | The defaulted template starts with the given one and always ends in ".{output-ext}". A placeholder-free template, or one ending in "/", gets "/{artists} - {title}.{output-ext}" appended. One already ending in ".{output-ext}" that uses a placeholder is unchanged. |
| Formatter.DefaultTemplate | spotdl/utils/formatter.py:152-164 | The three reassignments of the template compute the defaulted template. |
| Formatter.FileTemplateIdempotent | spotdl/utils/formatter.py:184-188 | Defaulting twice changes nothing, so the retry's defaulting is a no-op. |
| Formatter.Components | spotdl/utils/formatter.py:171 | The components of `Path(s)` are neither empty nor ".". |
| FormatterFacts.HasMatchBounds | spotdl/utils/formatter.py:175 | The pattern matches a component exactly when its first character other than `.` and `*` lies before its last character other than `.`, `*` and `$`. |
| FormatterFacts.TrimPartMeaning | spotdl/utils/formatter.py:174-179 | A matching component becomes its slice from the first character other than `.`/`*` to the last one other than `.`/`*`/`$`. That slice has at least two characters, and only such characters lie outside it. A component with no match is kept whole. |
| FormatterFacts.TrimPartShape | spotdl/utils/formatter.py:174-179 | Trimming a non-empty component without "/" leaves it non-empty and without "/". |
| Formatter.TrimComponents | spotdl/utils/formatter.py:173-179 | The loop collects every component trimmed, in order. |
| Formatter.CreateFileNameOnce | spotdl/utils/formatter.py:152-182 | One attempt: default the template, format it sanitized with the extension, split it into components, and trim each one. |
| FormatterFacts.OnceShape | spotdl/utils/formatter.py:166-182 | Every component of an attempt's path is non-empty and holds no "/". |
| Formatter.FileName | spotdl/utils/formatter.py:140-190 | The definition of create_file_name: one attempt, then the 255-character check, the single retry with `short=True`, or RecursionError. Stated by FileNameRetried, FileNameRetry and FileNameShape; CreateFileName computes it step by step. |
| Formatter.CreateFileName | spotdl/utils/formatter.py:140-190 | create_file_name: one attempt, then the length check and the retry. |
| Formatter.FileNameRetried | spotdl/utils/formatter.py:184-188 | A last component over 255 characters with `short` not True gives the retry's answer. The retry uses the defaulted template and `short=True`. |
| FormatterFacts.FileNameRetry | spotdl/utils/formatter.py:184-188 | Over 255 characters: with `short` True the recursion never ends and raises RecursionError. Otherwise the answer is the short attempt, its error, or RecursionError when it is still too long. |
| FormatterFacts.FileNameShape | spotdl/utils/formatter.py:140-190 | A returned file name has a last component of at most 255 characters. None of its components is empty or holds "/". |
| Formatter.ParseDuration | spotdl/utils/formatter.py:193-209 | The definition of parse_duration: 0 for None, else the weighted sum of the reversed `:` fields, 0 when a field is not an integer. Stated by the ParseDuration rows below. |
| FormatterFacts.ParseDurationHms | spotdl/utils/formatter.py:193-205 | `h:m:s` is 3600h + 60m + s seconds. |
| FormatterFacts.HmsDuration | spotdl/utils/formatter.py:203-204 | Any three integer fields are read as hours, minutes and seconds. |
| FormatterFacts.ParseDurationMs | spotdl/utils/formatter.py:203-204 | `m:s` is 60m + s seconds. |
| FormatterFacts.ParseDurationSeconds | spotdl/utils/formatter.py:203-204 | A plain number is that many seconds. |
| FormatterFacts.ParseDurationIgnoresLeading | spotdl/utils/formatter.py:203-204 | Only the last three fields count; anything before them is never read. |
| FormatterFacts.WeightedSumPrefix | spotdl/utils/formatter.py:203 | `zip` stops at the shorter side, so fields beyond the three weights are never parsed. |
| FormatterFacts.WeightedSumFails | spotdl/utils/formatter.py:204-209 | The sum fails exactly when one of the zipped fields is not an integer. |
| FormatterFacts.ParseDurationInvalid | spotdl/utils/formatter.py:198-209 | None gives 0. So does any of the last three fields not being an integer. |
| FormatterFacts.WordDuration | spotdl/utils/formatter.py:208-209 | A word without ":" that starts with an ASCII letter, lower or upper case, gives 0. |
| FormatterFacts.ParseDurationExamples | tests/utils/test_formatter.py:107-112 | The six string cases of the parse_duration test hold. |
| YouTube.Put | spotdl/providers/audio/youtube.py:194 | Dict assignment. A new key goes to the end. An existing key keeps its place and takes the new value. No other lookup changes. |
| YouTube.PutDistinct | spotdl/providers/audio/youtube.py:194 | Assignment keeps the keys distinct. |
| YouTube.Best | spotdl/providers/audio/youtube.py:115-121 | The head of the reverse-sorted items is the first entry of highest score. Python's sort is stable even when reversed. |
| YouTube.FirstMaxUnique | spotdl/providers/audio/youtube.py:118-121 | At most one entry is the first of highest score. |
| YouTube.SlugTitleOf | spotdl/providers/audio/youtube.py:139-144 | The title results are compared with: the slugified search query when a template is set, else the slugified song title. |
| YouTube.Score | spotdl/providers/audio/youtube.py:146-194 | The definition of one result's score: the four gates and the weighted match, or ZeroDivisionError. Stated by ScoreKept, ScoreRaises and TimeMatchAbove; ScoreResult computes it with the source's loops. |
| YouTube.ScoreResult | spotdl/providers/audio/youtube.py:146-194 | One pass of the loop, with its inner artist loop: None for a dropped result, else the average score. Division raises ZeroDivisionError. |
| YouTube.OrderResults | spotdl/providers/audio/youtube.py:130-196 | order_results is the fold of the per-result score into an insertion-ordered dict. It raises the first error a result raises. |
| YouTubeFacts.ScoreKept | spotdl/providers/audio/youtube.py:146-194 | A result is scored exactly when four things hold: it has a video id; some non-empty word of the slugified name (hyphens made spaces, split on spaces) is in its slugified title; the average artist match is at least 70; the name match is at least 50. The song's duration must also be non-zero. Its score is the mean of the artist, name and time matches, with the time match unclamped. |
| YouTubeFacts.ScoreRaises | spotdl/providers/audio/youtube.py:175-188 | Scoring raises ZeroDivisionError exactly in two cases. One: a result past the first two gates when the song has no artists. Two: a result past all gates when the duration is zero. |
| YouTubeFacts.TimeMatchAbove | spotdl/providers/audio/youtube.py:187-189 | The time match exceeds 100 exactly when the result's length is below the square of the duration. It is unclamped. |
| YouTubeFacts.RankedScores | spotdl/providers/audio/youtube.py:146-196 | order_results succeeds only when every result's scoring succeeds. |
| YouTubeFacts.RankedDistinct | spotdl/providers/audio/youtube.py:136-194 | The dict never holds a key twice. |
| YouTubeFacts.RankedSound | spotdl/providers/audio/youtube.py:194 | Every value in the dict is the score of a kept result with that URL. |
| YouTubeFacts.RankedLastWins | spotdl/providers/audio/youtube.py:194 | A kept result's score is the one stored under its URL unless a later kept result has the same URL: the last one wins. |
| YouTubeFacts.RankedComplete | spotdl/providers/audio/youtube.py:194 | Every kept result's URL is a key of the dict. |
| YouTubeFacts.RankedIgnoresResults | spotdl/providers/audio/youtube.py:130-196 | Scoring never calls the search engine. |
| YouTube.SearchTerm | spotdl/providers/audio/youtube.py:80-95 | The definition of the search term: the template's query when one is set, else the ISRC hit, else the lower-cased song title. Stated by TemplateSkipsIsrc, TemplateError, IsrcShortCircuit and TitleTerm. |
| YouTubeFacts.TemplateSkipsIsrc | spotdl/providers/audio/youtube.py:80-83 | With a template set, the term is `create_search_query(song, template, False, None, True)` and the ISRC is never looked up. |
| YouTubeFacts.TemplateError | spotdl/providers/audio/youtube.py:80-83 | A template that cannot be formatted makes the search raise the same error. |
| YouTubeFacts.IsrcShortCircuit | spotdl/providers/audio/youtube.py:85-93 | Without a template, an ISRC lookup with exactly one result that has a watch URL returns that URL, unscored. |
| YouTubeFacts.TitleTerm | spotdl/providers/audio/youtube.py:85-95 | Otherwise, without a template, the term is the lower-cased song title. |
| YouTube.Search | spotdl/providers/audio/youtube.py:72-121 | The definition of YouTube.search: the term, the results, the filtered first hit or the best of order_results. Stated by the YouTubeFacts rows from NoResults to SearchProvenance. |
| YouTubeFacts.NoResults | spotdl/providers/audio/youtube.py:100-103 | Results of None give None. |
| YouTubeFacts.FilteredFirst | spotdl/providers/audio/youtube.py:105-121 | With filter_results the answer is the first result's watch URL. An empty result list raises IndexError. |
| YouTubeFacts.PicksFirstMax | spotdl/providers/audio/youtube.py:107-121 | Without filtering, the answer is the first dict key of highest score. |
| YouTubeFacts.NothingKept | spotdl/providers/audio/youtube.py:111-113 | Without filtering, no kept result means None. |
| YouTubeFacts.SearchWinner | spotdl/providers/audio/youtube.py:107-121 | Without filtering, the answer is the URL of a kept result. Its final score is the highest in the dict. |
| YouTubeFacts.SearchProvenance | spotdl/providers/audio/youtube.py:73-121 | A URL the search returns is either the ISRC hit or the watch URL of one of the engine's results for the term. |
| Query.Classify | spotdl/utils/query.py:21-64 | The definition of the branch a token takes in the `if`/`elif` chain, tested in the source's order. Stated by BareWatchUrl and by Dispatch. |
| QueryFacts.BareWatchUrl | spotdl/utils/query.py:21-37 | `and` binds tighter than `or`, so any token holding "youtube.com/watch?v=" takes the paired branch. Without a bar it raises QueryError. |
| QueryFacts.ValidPair | spotdl/utils/query.py:28-38 | A bar-free YouTube part and a bar-free Spotify part, joined by a bar, form a valid pair. |
| QueryFacts.ExtraPartsIgnored | spotdl/utils/query.py:28-46 | Parts after the second are ignored. |
| QueryFacts.PairedSong | spotdl/utils/query.py:39-46 | A valid pair yields one song: Song.from_url of part 1 with download_url part 0. get_simple_songs yields a bare song with url part 1 and download_url part 0. |
| Query.Contribution | spotdl/utils/query.py:21-64 | The definition of what one token adds: a paired song, URLs to resolve, manifest songs or a search-term song. Stated by ValidPair, PairedSong, ContributionFails, ManifestSongs and ArtistUrlsConcat. |
| QueryFacts.ContributionFails | spotdl/utils/query.py:28-37 | One token fails exactly when it is paired and malformed, and then with QueryError. |
| QueryFacts.CollectFails | spotdl/utils/query.py:20-37 | The token loop raises exactly when some token is rejected, and then with QueryError. |
| QueryFacts.CollectSimpleFails | spotdl/utils/query.py:82-99 | get_simple_songs rejects exactly the same queries, with the same error. |
| QueryFacts.ParseQueryFails | spotdl/utils/query.py:17-37 | parse_query raises exactly when some token is rejected. get_simple_songs raises then too, with QueryError. |
| Query.Dispatch | spotdl/utils/query.py:20-64 | One pass of the if/elif chain appends a token's contribution. The branches, in order: paired, track, playlist, album, artist (each album's URLs in turn), exactly "saved", a ".spotdl" suffix, else a search term. |
| Query.CollectFailureSticks | spotdl/utils/query.py:35-37 | Once a token raises, the loop raises that error whatever tokens follow. |
| Query.Resolve | spotdl/utils/query.py:66-68 | The thread pool's map, taken as an in-order map: one Song.from_url per URL, in URL order. |
| Query.ParseQuery | spotdl/utils/query.py:17-70 | parse_query: the songs built directly, then the URL-resolved songs. |
| QueryFacts.CollectConcat | spotdl/utils/query.py:20-64 | The loop over two runs of tokens concatenates what each run gathers. |
| QueryFacts.ResolveConcat | spotdl/utils/query.py:66-68 | Resolving two runs of URLs resolves each in turn. |
| QueryFacts.QueryOrder | spotdl/utils/query.py:58-70 | For two runs of tokens, the direct songs of both come first, then the resolved songs of both. So the output is not in token order. |
| QueryFacts.TrackAfterSearch | spotdl/utils/query.py:47-70 | A track token before a search term comes out after the search term's song. |
| QueryFacts.ManifestSongs | spotdl/utils/query.py:58-62 | A manifest yields one song per record, in file order. |
| QueryFacts.ArtistUrlsConcat | spotdl/utils/query.py:53-55 | An artist's URLs are each album's URLs, in album order. |
| Query.DispatchSimple | spotdl/utils/query.py:82-125 | One pass of get_simple_songs' chain: a song for paired, track, manifest and search tokens, and a collection for the others. |
| Query.CollectSimpleFailureSticks | spotdl/utils/query.py:97-99 | Once a token raises, get_simple_songs' loop raises that error. |
| Query.Placeholders | spotdl/utils/query.py:128 | A collection gives one empty song per URL, in collection order, each tied to that collection. |
| Query.GetSimpleSongs | spotdl/utils/query.py:73-130 | get_simple_songs: the direct songs, then every collection's placeholders, collection after collection. |
| QueryFacts.ExpandLength | spotdl/utils/query.py:127-128 | There are as many placeholders as URLs in the collections. |
| QueryFacts.ExpandAt | spotdl/utils/query.py:127-128 | URL j of collection l is the placeholder at the URL count of the collections before l, plus j. |
| QueryFacts.SimpleShape | spotdl/utils/query.py:127-130 | The output length is the number of direct songs plus the number of collection URLs. The direct songs come first. |
| M3u.CreateLine | spotdl/utils/m3u.py:14-17 | A song's line is `str(create_file_name(song, template, ext, song.song_list, short))` plus a newline. The arguments keep the source's swapped order. |
| M3u.CreateM3uContent | spotdl/utils/m3u.py:6-19 | The `+=` loop: the in-order concatenation of the songs' lines, or the first error a line raises. |
| M3u.LinesSucceed | spotdl/utils/m3u.py:13-17 | The lines are joined exactly when every song's line can be built. |
| M3u.LinesConcat | spotdl/utils/m3u.py:13-17 | The lines of two runs of songs are the first run's followed by the second's. |
| M3u.LinesCount | spotdl/utils/m3u.py:13-17 | When each line holds one newline, the text holds one newline per song. |
| M3u.ContentSucceeds | spotdl/utils/m3u.py:12-19 | The content exists exactly when every song's file name can be built. It is "" for no songs. |
| M3u.ContentConcat | spotdl/utils/m3u.py:12-19 | The content for two runs of songs is the first's followed by the second's. |
| M3u.LineCount | spotdl/utils/m3u.py:13-17 | When no file name holds a newline, the content has exactly one newline per song. |
| M3u.ContentEndsInNewline | spotdl/utils/m3u.py:14-17 | A non-empty playlist ends in a newline. |
| M3u.ShortRaises | spotdl/utils/m3u.py:15 | With `short` True, the flag lands in the song-list slot, where `True.index` raises AttributeError. So no playlist with a song can be built. |
| M3u.FormattedSameArgs | spotdl/utils/formatter.py:77-104 | format_query reads `short` only through `short is True`, and the list only through the position and length it yields. |
| M3u.FileNameIgnoresList | spotdl/utils/m3u.py:15 | Without `short`, a line's file name is the one create_file_name gives with no short flag and no list. |
| M3u.CreateM3uFile | spotdl/utils/m3u.py:22-38 | It returns exactly the content it writes. Nothing is written when the content raises. |
| Sync.Disk.Unlink | spotdl/console/sync.py:47 | Unlinking removes exactly that file. |
| Sync.OldFiles | spotdl/console/sync.py:31-34 | The old files are exactly the existing files of the output's parent directory named `*.<format>` and not hidden. |
| Sync.NewFiles | spotdl/console/sync.py:37-40 | One path per song. |
| SyncFacts.PathsMeaning | spotdl/console/sync.py:37-40 | The new files exist exactly when every song's file name can be built. They are then the songs' names in song order; otherwise the first error is raised. |
| SyncFacts.NewFilesMeaning | spotdl/console/sync.py:37-40 | The same, for `new_files` with the downloader's output and format. |
| SyncFacts.ToDeleteMeaning | spotdl/console/sync.py:43 | A file is deleted exactly when it is old and not new. No new file is ever deleted. |
| Sync.Unlinks | spotdl/console/sync.py:45-47 | The deletion loop removes exactly the files to delete, recording each once. |
| Sync.ScheduleDownloads | spotdl/console/sync.py:50-61 | The scheduling loop computes the wanted songs and the "Overwriting" messages. |
| SyncFacts.WantedIndicesMeaning | spotdl/console/sync.py:52-61 | The wanted positions increase, and a position is wanted exactly when its file is absent or overwrite is "force". |
| SyncFacts.ScheduledPicks | spotdl/console/sync.py:51-61 | The downloads are the songs at the wanted positions, in song order. |
| SyncFacts.ScheduledIndices | spotdl/console/sync.py:51-61 | `to_download` is the subsequence of songs at increasing positions, holding exactly the wanted songs. |
| SyncFacts.AbsentScheduled | spotdl/console/sync.py:60-61 | A song whose file does not exist is always downloaded. |
| SyncFacts.ForceSchedulesAll | spotdl/console/sync.py:56-59 | With overwrite "force", every song is downloaded, in order. |
| SyncFacts.NoForceSkipsExisting | spotdl/console/sync.py:56-61 | Without "force", exactly the songs whose file is absent are downloaded, in order. |
| SyncFacts.OverwriteLogCount | spotdl/console/sync.py:57-58 | One "Overwriting" message per existing file under "force", and none otherwise. |
| SyncFacts.NothingToDoIff | spotdl/console/sync.py:63-67 | "Nothing to do..." is logged, and no download requested, exactly when no song is scheduled. |
| SyncFacts.ScheduledAfterDeletion | spotdl/console/sync.py:46-61 | Deleting files that are not new changes neither the schedule nor the messages. |
| Sync.DeleteAndDownload | spotdl/console/sync.py:42-67 | After the names are known, the events are, in order: the playlist event, one deletion per file to delete, the overwrite messages, then the final log or download request. |
| Sync.Sync | spotdl/console/sync.py:13-70 | sync: errors from parsing, the playlist or the new names escape before any deletion. Otherwise the run ends as above. |
| SyncFacts.SyncDeletes | spotdl/console/sync.py:42-47 | A file disappears exactly when it was old and no song's name. The files only shrink, and no song's file is touched. |
| SyncFacts.SyncErrorKeepsFiles | spotdl/console/sync.py:22-40 | An error leaves every file in place. The only thing that may have happened is the playlist write. |
| SyncFacts.SyncWritesM3uFirst | spotdl/console/sync.py:25-28 | With a playlist name, the playlist built from the full song list is the first event, before any deletion. |
| SyncFacts.SyncM3uFails | spotdl/console/sync.py:25-28 | A playlist that cannot be built stops sync before anything is deleted. |
| Progress.Emitted | spotdl/download/progress_handler.py:218-268 | A message is shown, once and at its severity, exactly when the level does not exceed the severity. |
| Progress.ProgressHandler.constructor | spotdl/download/progress_handler.py:123-140 | The initial counters: no songs, total 100, no progress, nothing completed. `quiet` holds exactly when the level is below 10. |
| Progress.NewProgressHandler | spotdl/download/progress_handler.py:123-140 | A level outside {0, 10, 20, 30, 40, 50} raises ProgressHandlerError, and only such a level does. Otherwise the new handler has every counter at its initial value, no songs, no trackers, no "Total" bar and nothing shown. |
| Progress.NamedLevelsAccepted | spotdl/download/progress_handler.py:36-54 | Every level NAME_TO_LEVEL names is a key of LEVEL_TO_NAME. |
| Downloader.NewDownloaderHandler | spotdl/download/downloader.py:119-121 | The downloader's handler. A name outside NAME_TO_LEVEL raises KeyError, and only such a name does; a named level never raises ProgressHandlerError. The handler starts as a new one, and "Downloader initialized" is shown exactly when the level admits debug messages. |
| Progress.ProgressHandler.SetSongCount | spotdl/download/progress_handler.py:198-216 | Sets the count to `count` and the total to 100 times it. Rich mode adds the "Total" bar for more than four songs. Nothing else changes. |
| Progress.ProgressHandler.AddSong | spotdl/download/progress_handler.py:182-188 | Appends the song and keeps the count equal to the number of songs. |
| Progress.ProgressHandler.SetSongs | spotdl/download/progress_handler.py:190-196 | Replaces the songs and sets the count to their number. |
| Progress.ProgressHandler.Emit | spotdl/download/progress_handler.py:218-268 | The shared gate of the four message methods, in both the rich and the simple branch. |
| Progress.ProgressHandler.DebugMessage | spotdl/download/progress_handler.py:218-229 | Debug is shown exactly when the level is at most 10. |
| Progress.ProgressHandler.LogMessage | spotdl/download/progress_handler.py:231-242 | Log is shown exactly when the level is at most 20. |
| Progress.ProgressHandler.WarnMessage | spotdl/download/progress_handler.py:244-255 | Warn is shown exactly when the level is at most 30. |
| Progress.ProgressHandler.ErrorMessage | spotdl/download/progress_handler.py:257-268 | Error is shown exactly when the level is at most 40. |
| Progress.ProgressHandler.UpdateOverall | spotdl/download/progress_handler.py:270-290 | In simple mode it logs the completed count only when it moved since the last call, then records it. In rich mode it logs nothing. |
| Progress.ProgressHandler.NewTracker | spotdl/download/progress_handler.py:292-297 | A new tracker at progress 0 reports into this handler and keeps the accounting valid. It takes the next free slot, so the slots of the trackers created before it are untouched. |
| Progress.SongTracker.constructor | spotdl/download/progress_handler.py:311-321 | A tracker starts at progress 0 with an empty status. |
| Progress.SongTracker.Update | spotdl/download/progress_handler.py:333-376 | In rich mode, an update after a finishing one raises KeyError, because the task was removed; only the status has changed by then. Otherwise it adds the progress made since the last update to this tracker's slot and to the overall progress, leaving the other slots alone, so the overall progress stays the sum of every tracker's last report. The completed count goes up by exactly 1 when progress is 100 or the message is "Error"; in simple mode nothing stops a song from counting twice. A finishing update in rich mode removes the task. Simple mode logs the status and the overall count. The handler's settings do not change. |
| Progress.SumUpdate | spotdl/download/progress_handler.py:341-365 | Changing one tracker's report changes the overall sum by the difference. |
| Progress.SumAllComplete | spotdl/download/progress_handler.py:362-372 | Once every tracker has reported 100, the overall progress is 100 per tracker. |
| Progress.SongTracker.NotifyError | spotdl/download/progress_handler.py:378-386 | An update with "Error", so the song counts as finished, with this tracker's slot, the log and the frame as in Update. The message is then logged at debug and the exception at error. A rejected update raises KeyError before anything is logged. |
| Progress.SongTracker.NotifyDownloadComplete | spotdl/download/progress_handler.py:388-394 | Progress is set to 75, then the update happens with the status: its KeyError, or its new slot, overall progress, count, log and frame. |
| Progress.SongTracker.NotifyConversionComplete | spotdl/download/progress_handler.py:396-402 | Progress is set to 95, then the update happens with the status, with everything Update states. |
| Progress.SongTracker.NotifyComplete | spotdl/download/progress_handler.py:404-410 | Progress is set to 100, so the song counts as finished. In simple mode it counts again if it already finished. In rich mode, a second completion raises KeyError. |
| Progress.SongTracker.NotifyDownloadSkip | spotdl/download/progress_handler.py:412-418 | A skipped song is finished at 100, with everything Update states. |
| Progress.SongTracker.CustomNotify | spotdl/download/progress_handler.py:420-426 | Sets the given progress, then the update happens with everything Update states. |
| Downloader.DownloadOne | spotdl/download/downloader.py:195-282 | A song whose download, conversion and tagging all succeed is never rejected. It adds 100 to the overall progress, counts as finished once, and changes only its own slot; rich mode removes its task. With no progress-hook calls, the messages shown are the three tracker updates, the missing-lyrics debug line before completion when no lyrics were found, and the "Downloaded" line. `previous_overall` is the new completed count in simple mode and unchanged in rich mode. The settings do not change. |
| Downloader.Convert | spotdl/download/downloader.py:222-263 | The download and conversion notifications take the tracker to 95 with status "Tagging", count nothing as finished, and show their two updates. |
| Downloader.Finish | spotdl/download/downloader.py:280-282 | The completion notification takes the tracker to 100 and counts the song once, then the "Downloaded" line is logged. |
| Downloader.NewTrackers | spotdl/download/downloader.py:289-299 | Every song of a run gets a fresh tracker, in order, at the next slots, before any song reports, each with an empty status. That order is possible only when there are at most `threads` songs, since each tracker is created inside the semaphore (downloader.py:91, 311-312); for more songs it is assumed. Nothing is shown, and no counter or setting changes. |
| Downloader.DownloadSongs | spotdl/download/downloader.py:132-144 | After the song count is set and every song downloads successfully, the overall progress has grown by 100 per song and the completed count by one per song. With no progress-hook calls, the messages shown are those of each song's download, in song order. Tracker j reports at slot `|old(reported)| + j`, and both its progress and its last reported progress are 100. The run's slots of `reported` are at 100 and the earlier slots are unchanged. Every tracker stays valid through the other trackers' updates and ends at 100, with its task removed in rich mode. The Total bar is there per set_song_count; the songs, level, mode and quiet flag do not change. |
| Downloader.DownloadNext | spotdl/download/downloader.py:195-282 | The download of one song of a run sets its tracker's slot to 100 and adds that song's messages. Every other tracker, and every slot before the run's, stays as it was. |
| Downloader.DownloadEach | spotdl/download/downloader.py:289-299 | The downloads of a run, one after another, leave every tracker done at its slot and every song's messages shown in order. The slots before the run's are unchanged. |

## Left out

- Downloading, conversion, lyrics, tagging, the thread pools and the asyncio semaphore are left out (spotdl/download/downloader.py). So is the downloader's fall-back from `download_url` to a search, which raises LookupError on None: it belongs to callers outside this model.
- Downloader.DownloadOne: the message log assumes the audio provider never calls the tracker's progress hook (downloader.py:197). Each call ends in a "Downloading" update (progress_handler.py:444), which in simple mode is logged before "Converting", and it may set the progress to downloaded/total·75.
- Downloader.DownloadSongs: only the downloader's calls into the progress handler are modelled, and only on the path where every step succeeds; the failure path through `notify_error` is not. The URL and whether lyrics were found are inputs. The model takes the order where every tracker is created first and the songs then finish one after another. The program allows that order only when there are at most `threads` songs (4 by default, downloader.py:53), because the `asyncio.Semaphore(threads)` (downloader.py:91) covers all of download_song_async, tracker creation included (downloader.py:196, 311-312); for a longer run the order is an assumption of the model. The message log also assumes the audio provider never calls the tracker's progress hook (registered at downloader.py:197); every such call would add a "Downloading" update (progress_handler.py:428-444) and could move the progress.
- The JSON writes of the preload and save commands are left out, and so are `Spotdl.get_download_urls`. They are I/O, and their output order depends on thread completion.
- The CLI, configuration and web front ends are not part of this model.
- Network and file I/O are not modelled: reading a `.spotdl` manifest, writing the m3u file, globbing and unlinking. Each becomes an input, a returned value or an event.
- `slugify`, `match_percentage`, `restrict_filename` and the YouTube search engine are foreign code, taken as arbitrary functions.
- `Song.from_url` and `Song.from_search_term` are taken as arbitrary functions, as are the playlist, album, artist and saved-track lookups and `create_empty_song`. `Song.from_dict` of a manifest record is folded into the manifest input. The Song class (spotdl/types/song.py) is not part of this model, so the other two constructions below are assumptions.
- Query.Contribution: `Song.from_dict({**Song.from_url(b).json, "download_url": a})` is assumed to give the song from `from_url` with its download URL set to `a`, and never to raise.
- Query.SimpleContribution: `Song.from_dict({"url": b, "download_url": a})` and `Song(url=request)` are assumed to give a song with that URL (and download URL) and empty metadata, and never to raise. The source would raise TypeError if Song required further fields.
- Query.ParseQuery: the thread pool is an in-order sequential map. An exception raised inside `executor.map` is not modelled.
- Sync.Sync: the `except` clause around scheduling and download is not modelled. With the new names already built, nothing the model contains can raise there; `download_multiple_songs` is recorded as an event.
- Sync.ScheduleDownloads: the path of each song comes from `new_files` rather than from a second call of create_file_name. The two calls take the same arguments, and create_file_name is deterministic.
- Sync.Disk.Unlink: `FileNotFoundError` is not modelled. Unlinking requires the file to exist, which holds because every file to delete was found by the glob.
- Sync.OldFiles: glob metacharacters inside the output format are not modelled.
- The rich progress bars, the console, task ids and colours are not modelled, and neither is `close()`. Of the rich task that `get_new_tracker` adds for each song, only whether it has been removed is kept. The KeyError of a removed task carries no task id.
- SongTracker.progress_hook is left out: its downloaded/total·75 is a float ratio. The downloader's members assume it is never called.
- Progress.Shows: simple mode relies on `logging.basicConfig`, which configures the level only on its first call in a process. The model assumes that call took effect. progress_handler.py itself never reads NAME_TO_LEVEL. The downloader maps the `--log-level` name through it (downloader.py:119), and the command line offers only its names (arguments.py:296). So a handler built from the command line always gets a level it accepts.
- YouTube.Score: scores use exact reals, not floating point.
- Formatter.ParseDuration: an int is returned where the source returns a float.
- Formatter.ParseDuration: `int()` is modelled on an optional sign followed by ASCII digits. Whitespace, underscores and non-ASCII digits are not accepted. Non-string arguments, such as the list and dict of the source's tests, are not modelled.
- Formatter.FormatValues: template values arrive already in their `str()` form, so `str()` of ints and floats is not modelled.
- Strings.Lower: only ASCII letters are lower-cased.
- Formatter.ParsePath: paths follow pathlib only in splitting on "/" and dropping empty and "." components; a leading "//" is an ordinary root.
- Formatter.TrimPart: the pattern's `.` does not match a newline, while the model treats every character alike.
- Formatter.FileName: the endless recursion of a retry that is still too long is modelled as one retry followed by RecursionError.
