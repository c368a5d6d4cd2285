# plexm3u core, modelled in Dafny

plexm3u exports a playlist from a Plex media server as an M3U file. The
core modelled here is the pure data transformation inside it:

- **Entry resolver** (`Tracks`, `track.dfy`). A playlist's items, as the
  server lists them, are tracks and videos. Each has media variants, and
  each variant has file parts (`key`, `file`). The resolver flattens them
  into an ordered list of `Item`s. Each item's path is the part's file
  after an optional literal rewrite. Each item's metadata is the part's
  key. All tracks' items come before all videos' items. The module also
  covers the playlist's document metadata (`RatingKey`, `Title`) and the
  labelled descriptive values of tracks and videos.
- **Literal rewrite** (`Strings`, `strings.dfy`). This is Rust's
  `str::replace`: a left-to-right scan that replaces every
  non-overlapping occurrence. An empty pattern inserts the replacement at
  every character boundary. There is a recursive definition and the
  imperative scan, and the two are proved equal.
- **Playlist listing** (`Playlists`, `playlist.dfy`). The exact-type filter
  and the one-line rendering of a playlist.
- **M3U writer** (`M3u`, `m3u.dfy`). The file text is the `#EXTM3U` header
  line, then every row verbatim on its own line. Creating the file is the
  only failure that is reported. File creation and each line write
  succeed or fail according to parameters. `Item`, `TrackData` and
  `Metadata` live here because the resolver imports them from the
  writer's module. This version of `src/m3u.rs` does not define them,
  so they are declared minimally.
- **Request addressing** (`PlexClient`, `plex_client.dfy`). The request
  URL is the server address followed by the resource path. When a token
  is configured, `?X-Plex-Token=<token>` is appended.
- **Integer booleans** (`Deserializer`, `deserializer.dfy`). Only the
  exact string `"1"` means true. A failed string read means false.
- `Common` holds `Option`, `Result` and the `u32` range. `Decimal` holds
  the decimal rendering used by Rust's `to_string` on `u32`, with its
  reading back.

These equivalence and round-trip lemmas are proved:
- `ReplaceScan` matches `ReplaceAll`.
- Splitting the rendered file into lines gives back the header and the rows.
- Decimal text parses back to the number.
- The request path can be read back from its URL, for every request.
- The playlist key can be read back from the items path.
- The track count can be read back from the playlist line.
- Equal container metadata means equal rating key and title.
- Among decimal renderings of numbers, only that of 1 decodes to true.

## Model

| member | source | states |
|---|---|---|
| Tracks.FilesOf | src/plex_client/track.rs:94-113 | `files` yields one item per part of the flattened media-then-part sequence. Item k's path is the rewritten file of part k, and its metadata is exactly `[Key(part.key)]`, whatever the rewrite rule |
| Tracks.RewritePath | src/plex_client/track.rs:98-105 | Without `rewrite_from` the file is kept verbatim and `rewrite_to` is ignored. With one, the path is `ReplaceAll(file, from, to or "")`. A file not containing `from` is unchanged. Without `rewrite_to`, each replaced occurrence shortens the path by `|from|` |
| Tracks.AllPartsCount | src/plex_client/track.rs:96-97 | The flattened part sequence has exactly the summed number of parts over all medias |
| Tracks.FilesCount | src/plex_client/track.rs:94-113 | `files` returns exactly as many items as there are parts |
| Tracks.AllPartsOrder | src/plex_client/track.rs:96-108 | Part `pi` of media `mi` sits at position (parts of earlier medias) + `pi`: media order first, then part order |
| Tracks.TracksFiles | src/plex_client/track.rs:159-163 | The tracks' items are the items of the tracks' medias concatenated in track order |
| Tracks.VideosFiles | src/plex_client/track.rs:164-168 | The videos' items are the items of the videos' medias concatenated in video order |
| Tracks.TrackFiles | src/plex_client/track.rs:153-171 | `track_files` equals the items of the single media list "tracks' medias, then videos' medias". Its length is the sum of both part counts |
| Tracks.TracksBeforeVideos | src/plex_client/track.rs:153-171 | The first (track part count) items are the tracks' items and the rest are the videos' items |
| Tracks.CollectTracks | src/plex_client/track.rs:159-163 | The loop over tracks that pushes each track's files produces the tracks' items |
| Tracks.CollectVideos | src/plex_client/track.rs:164-168 | The loop over videos that pushes each video's files produces the videos' items |
| Tracks.CollectTrackFiles | src/plex_client/track.rs:153-171 | The Rust code's nested push loops, pushing into one list, compute exactly `TrackFiles` |
| Tracks.PushAll | src/plex_client/track.rs:160-162 | Pushing each file in turn appends the whole list, in order |
| Tracks.ContainerMetadata | src/plex_client/track.rs:63-69 | Container metadata is exactly two entries: `RatingKey(rating_key)` then `Title(title)` |
| Tracks.ContainerMetadataDetermines | src/plex_client/track.rs:63-69 | Two containers with the same metadata have the same rating key and title |
| Tracks.InformationsAgree | src/plex_client/track.rs:125-149 | Tracks and videos list the same values: the title, always present, then the grandparent, then the parent. Only the labels differ: Artist/Album for tracks, Show/Season for videos |
| Tracks.KeyRoundTrip | src/plex_client/track.rs:121-141 | The `key` of a track or video is decimal digits that read back as its rating key |
| Tracks.RewriteExample | src/plex_client/track.rs:99-104 | The rule `/old/` → `/new/` maps `/old/music/song.mp3` to `/new/music/song.mp3`. With no rule, the path is unchanged |
| Strings.ReplaceAbsent | src/plex_client/track.rs:102 | `replace` leaves a string that does not contain the pattern unchanged |
| Strings.MatchCountZeroIff | src/plex_client/track.rs:102 | The scan replaces nothing exactly when the pattern does not occur (both directions) |
| Strings.ReplaceLength | src/plex_client/track.rs:102 | The result length is the input length plus (number of replaced occurrences) × (`|to| - |from|`) |
| Strings.ReplaceBySelf | src/plex_client/track.rs:102 | Replacing a pattern by itself is the identity, including the empty pattern |
| Strings.InsertAtBoundariesLength | src/plex_client/track.rs:102 | An empty pattern inserts the replacement `|s| + 1` times |
| Strings.ReplaceScan | src/plex_client/track.rs:102 | The imperative left-to-right scan equals the recursive definition of `replace` |
| Strings.ScanOne | src/plex_client/track.rs:102 | One scan step advances past a match or one character and keeps the invariant "output so far + replacement of the rest = replacement of the whole" |
| M3u.Write | src/m3u.rs:4-11 | `write` fails exactly when the file cannot be created, and the only error is that one. Line-write failures are discarded. When every write succeeds, the file holds `Render(rows)` |
| M3u.LinesOfRender | src/m3u.rs:6-9 | When no row contains a line break, the file reads back as the header line `#EXTM3U` followed by the rows in order. That is `|rows| + 1` lines, and only the header when `rows` is empty |
| M3u.RenderLayout | src/m3u.rs:6-9 | For any rows, the file starts with the header line. Row k appears verbatim right after the earlier rows' lines and is followed by a line break |
| Playlists.Matches | src/plex_client/playlist.rs:59-64 | No type filter accepts every playlist. `Some(t)` accepts exactly when `t` equals `playlist_type` |
| Playlists.MatchesDependsOnTypeOnly | src/plex_client/playlist.rs:59-64 | Two playlists with the same type match the same filters, whatever their other fields |
| Playlists.MatchesIsCaseSensitive | src/plex_client/playlist.rs:62 | The comparison is exact: an `audio` playlist matches `audio` but not `Audio` |
| Playlists.ToString | src/plex_client/playlist.rs:48-57 | The line starts `<rating_key>: <title> [<type>]` and ends with ` [<leaf_count> tracks]`. Its length adds ` [Smart]` only for smart playlists |
| Playlists.SmartInsertsMark | src/plex_client/playlist.rs:53-55 | The smart line is the plain line with ` [Smart]` inserted right after the type, and nothing else changes |
| Playlists.LeafCountRoundTrip | src/plex_client/playlist.rs:56 | The digits before the closing ` tracks]` read back as `leaf_count`, whatever the other fields contain |
| PlexClient.ClientUrl | src/plex_client/plex_client.rs:65-71 | `server + path` is a prefix of the URL. With no token the URL is exactly that. With token t it continues with `?X-Plex-Token=` + t |
| PlexClient.PathOfClientUrl | src/plex_client/plex_client.rs:65-71 | The path can be read back from every URL, so the token parameter is appended exactly once, after the path |
| PlexClient.ClientUrlInjective | src/plex_client/plex_client.rs:65-71 | Distinct request paths give distinct URLs |
| PlexClient.RequestUrl | src/plex_client/plex_client.rs:20-45 | Each request URL is server + resource path (+ token parameter), and the path read back from it is exactly the request's path: `/playlists` for `list_playlists`, and the part key, unmodified, for `get_part` |
| PlexClient.GetPlaylistPathRoundTrip | src/plex_client/plex_client.rs:29-30 | `get_playlist(k)` requests `/playlists/<k>/items`, and k can be read back from that path |
| Deserializer.DeserializeIntegerBool | src/plex_client/deserializer.rs:2-10 | Never an error. True exactly when the string read succeeded and gave `"1"` |
| Deserializer.OnlyExactOneIsTrue | src/plex_client/deserializer.rs:7-8 | `"0"`, `""`, `"true"`, `" 1"` and a failed read decode to false, and `"1"` decodes to true |
| Deserializer.DecodeDecimal | src/plex_client/deserializer.rs:7 | The decimal rendering of n decodes to true exactly when n is 1 |
| Decimal.NatToString | src/plex_client/track.rs:122 | The decimal text of a `u32` is non-empty, all digits, and has no leading zero |
| Decimal.ParseNatToString | src/plex_client/playlist.rs:56 | Decimal text reads back as the number |

## Left out

- HTTP transport: the `reqwest` calls, response-to-text conversion and the panics on network failure (`src/plex_client/plex_client.rs:44-63`). The model states only which URL each request fetches.
- XML decoding panics in `list_playlists` and `get_playlist` (`src/plex_client/plex_client.rs:23-26`, `34-37`): the decoded records are taken as given.
- Logging: the `info!` calls in `get_playlist` and `call` (`src/plex_client/plex_client.rs:32`, `58`) only write log lines.
- The playlist listing container (`src/plex_client/playlist.rs:5-11`): its `size` and list are only printed and iterated by `main.rs`; the model covers each playlist's filter and rendering.
- XML deserialization: the serde attribute mappings are library behaviour. Records are taken as given datatypes, and `deserialize_integer_bool` takes the outcome of the string read as an `Option<string>`.
- `print_informations` (`src/plex_client/track.rs:78-92`): console output only.
- File creation and writing in `src/m3u.rs:5-9`: abstracted into a creation flag and one success flag per line write. A failed line write is modelled as writing nothing, which does not model partial writes.
- `src/main.rs`: argument parsing, logger setup, printing, and the `--file`/`--stdout` guard. `main.rs:84` passes the item list from `track_files` to `write`, which takes strings. How an `Item` is rendered as text is not defined in this version of the code, so the model does not invent it. `write` is modelled over rows of text.
- `src/plex_client.rs`: a superseded duplicate of the client, playlist and deserializer code. It declares none of the submodules `main.rs:6` imports (`crate::plex_client::playlist`), and its `get_playlist` returns `()` (`src/plex_client.rs:114`) while `main.rs:80-81` uses a returned container. The `src/plex_client/` files are modelled instead.
- `u32` arithmetic: rating keys and counts are bounded to `u32` by type. No operation here does arithmetic on them, so no wrap-around arises.
- Character model: strings are sequences of Unicode scalar values, so Rust's char boundaries are character positions. UTF-8 byte layout is not modelled.
- URL escaping: none happens in the Rust code, and none is modelled. A token or key containing `?`, `&` or `/` is copied as it is.
