/** The entry resolver: a playlist's items, as the library lists them
    (tracks and videos, each with media variants, each with file parts),
    flattened into the ordered list of playlist items. */
module Tracks {
  import opened Common
  import opened Strings
  import opened Decimal
  import opened M3u

  /** One file of a media variant: the library key that fetches it and
      its path on the server. */
  datatype Part = Part(key: string, file: string)

  datatype Media = Media(id: U32, parts: seq<Part>)

  /** An audio item of the playlist. */
  datatype Track = Track(
    ratingKey: U32,
    title: string,
    parentTitle: Option<string>,
    grandparentTitle: Option<string>,
    medias: seq<Media>)
  {
    /** The rating key as decimal text. */
    function Key(): string
    {
      NatToString(ratingKey)
    }

    /** Labelled descriptive values: album is the parent, artist the
        grandparent. */
    function Informations(): seq<(string, Option<string>)>
    {
      [("Title", Some(title)), ("Artist", grandparentTitle), ("Album", parentTitle)]
    }

    function Files(rewriteFrom: Option<string>, rewriteTo: Option<string>): seq<Item>
    {
      FilesOf(medias, rewriteFrom, rewriteTo)
    }
  }

  /** A video item of the playlist: season is the parent, show the
      grandparent. */
  datatype Video = Video(
    ratingKey: U32,
    title: string,
    parentTitle: Option<string>,
    grandparentTitle: Option<string>,
    medias: seq<Media>)
  {
    function Key(): string
    {
      NatToString(ratingKey)
    }

    function Informations(): seq<(string, Option<string>)>
    {
      [("Title", Some(title)), ("Show", grandparentTitle), ("Season", parentTitle)]
    }

    function Files(rewriteFrom: Option<string>, rewriteTo: Option<string>): seq<Item>
    {
      FilesOf(medias, rewriteFrom, rewriteTo)
    }
  }

  /** The items of one playlist, with the playlist's own key and title. */
  datatype MediaContainer = MediaContainer(
    tracks: seq<Track>,
    videos: seq<Video>,
    ratingKey: U32,
    title: string)

  /** The document-level metadata of the playlist. */
  function ContainerMetadata(c: MediaContainer): (r: seq<Metadata>)
    ensures |r| == 2
    ensures r[0].RatingKey? && r[0].ratingKey == c.ratingKey
    ensures r[1].Title? && r[1].title == c.title
  {
    [RatingKey(c.ratingKey), Title(c.title)]
  }

  /** The metadata determines the playlist's rating key and title: two
      containers with the same metadata agree on both. */
  lemma ContainerMetadataDetermines(c: MediaContainer, d: MediaContainer)
    requires ContainerMetadata(c) == ContainerMetadata(d)
    ensures c.ratingKey == d.ratingKey && c.title == d.title
  {
  }

  /** The path of a part after the optional literal rewrite: without a
      `rewriteFrom` the file path is kept and `rewriteTo` is ignored; with
      one, every occurrence is replaced by `rewriteTo`, or removed when
      there is no `rewriteTo`. */
  function RewritePath(file: string, rewriteFrom: Option<string>, rewriteTo: Option<string>): (r: string)
    ensures rewriteFrom.None? ==> r == file
    ensures rewriteFrom.Some? && !Contains(file, rewriteFrom.value) ==> r == file
    ensures rewriteFrom.Some? && rewriteTo.None? && |rewriteFrom.value| > 0 ==>
      |r| == |file| - MatchCount(file, rewriteFrom.value) * |rewriteFrom.value|
    ensures rewriteFrom.Some? ==> r == ReplaceAll(file, rewriteFrom.value, rewriteTo.UnwrapOr(""))
  {
    match rewriteFrom
    case None => file
    case Some(from) =>
      var to := rewriteTo.UnwrapOr("");
      var r := ReplaceAll(file, from, to);
      assert !Contains(file, from) ==> r == file by {
        if !Contains(file, from) { ReplaceAbsent(file, from, to); }
      }
      assert |from| > 0 ==> |r| == |file| + MatchCount(file, from) * (|to| - |from|) by {
        if |from| > 0 { ReplaceLength(file, from, to); }
      }
      r
  }

  /** The item one part yields. */
  function PartItem(p: Part, rewriteFrom: Option<string>, rewriteTo: Option<string>): Item
  {
    Item(RewritePath(p.file, rewriteFrom, rewriteTo), [Key(p.key)])
  }

  /** Every part of every media, media order first, then part order. */
  function AllParts(medias: seq<Media>): seq<Part>
    decreases |medias|
  {
    if |medias| == 0 then [] else medias[0].parts + AllParts(medias[1..])
  }

  /** The number of parts over all medias. */
  function PartCount(medias: seq<Media>): nat
    decreases |medias|
  {
    if |medias| == 0 then 0 else |medias[0].parts| + PartCount(medias[1..])
  }

  /** `files`: one item per part, in media-then-part order. Each item's
      path is the rewritten file path and its metadata is exactly the
      part's key, whatever the rewrite rule. */
  function FilesOf(medias: seq<Media>, rewriteFrom: Option<string>, rewriteTo: Option<string>): (r: seq<Item>)
    ensures |r| == |AllParts(medias)|
    ensures forall k :: 0 <= k < |r| ==>
      r[k].path == RewritePath(AllParts(medias)[k].file, rewriteFrom, rewriteTo)
      && r[k].meta == [Key(AllParts(medias)[k].key)]
    decreases |medias|
  {
    if |medias| == 0 then []
    else
      var parts := medias[0].parts;
      seq(|parts|, k requires 0 <= k < |parts| => PartItem(parts[k], rewriteFrom, rewriteTo))
      + FilesOf(medias[1..], rewriteFrom, rewriteTo)
  }

  /** There are as many parts as the medias hold together. */
  lemma {:induction false} AllPartsCount(medias: seq<Media>)
    ensures |AllParts(medias)| == PartCount(medias)
    decreases |medias|
  {
    if |medias| > 0 {
      AllPartsCount(medias[1..]);
    }
  }

  /** Part `pi` of media `mi` sits after all parts of the earlier medias. */
  lemma {:induction false} AllPartsOrder(medias: seq<Media>, mi: nat, pi: nat)
    requires mi < |medias| && pi < |medias[mi].parts|
    ensures PartCount(medias[..mi]) + pi < |AllParts(medias)|
    ensures AllParts(medias)[PartCount(medias[..mi]) + pi] == medias[mi].parts[pi]
    decreases mi
  {
    AllPartsCount(medias);
    if mi == 0 {
      assert medias[..0] == [];
    } else {
      AllPartsOrder(medias[1..], mi - 1, pi);
      assert medias[..mi][1..] == medias[1..][..mi - 1];
      assert medias[..mi][0] == medias[0];
    }
  }

  /** `files` yields exactly one item per part. */
  lemma FilesCount(medias: seq<Media>, rewriteFrom: Option<string>, rewriteTo: Option<string>)
    ensures |FilesOf(medias, rewriteFrom, rewriteTo)| == PartCount(medias)
  {
  }

  /** The items of consecutive media lists are the concatenated items. */
  lemma {:induction false} FilesOfAppend(a: seq<Media>, b: seq<Media>, rewriteFrom: Option<string>, rewriteTo: Option<string>)
    ensures FilesOf(a + b, rewriteFrom, rewriteTo)
      == FilesOf(a, rewriteFrom, rewriteTo) + FilesOf(b, rewriteFrom, rewriteTo)
    decreases |a|
  {
    if |a| == 0 {
      assert a + b == b;
    } else {
      assert (a + b)[1..] == a[1..] + b;
      FilesOfAppend(a[1..], b, rewriteFrom, rewriteTo);
    }
  }

  /** The medias of the tracks, in track order. */
  function TrackMedias(tracks: seq<Track>): seq<Media>
    decreases |tracks|
  {
    if |tracks| == 0 then [] else TrackMedias(tracks[..|tracks| - 1]) + tracks[|tracks| - 1].medias
  }

  function VideoMedias(videos: seq<Video>): seq<Media>
    decreases |videos|
  {
    if |videos| == 0 then [] else VideoMedias(videos[..|videos| - 1]) + videos[|videos| - 1].medias
  }

  /** Every track's items, in track order. */
  function TracksFiles(tracks: seq<Track>, rewriteFrom: Option<string>, rewriteTo: Option<string>): (r: seq<Item>)
    ensures r == FilesOf(TrackMedias(tracks), rewriteFrom, rewriteTo)
    decreases |tracks|
  {
    if |tracks| == 0 then []
    else
      var init := tracks[..|tracks| - 1];
      var last := tracks[|tracks| - 1];
      FilesOfAppend(TrackMedias(init), last.medias, rewriteFrom, rewriteTo);
      TracksFiles(init, rewriteFrom, rewriteTo) + last.Files(rewriteFrom, rewriteTo)
  }

  /** Every video's items, in video order. */
  function VideosFiles(videos: seq<Video>, rewriteFrom: Option<string>, rewriteTo: Option<string>): (r: seq<Item>)
    ensures r == FilesOf(VideoMedias(videos), rewriteFrom, rewriteTo)
    decreases |videos|
  {
    if |videos| == 0 then []
    else
      var init := videos[..|videos| - 1];
      var last := videos[|videos| - 1];
      FilesOfAppend(VideoMedias(init), last.medias, rewriteFrom, rewriteTo);
      VideosFiles(init, rewriteFrom, rewriteTo) + last.Files(rewriteFrom, rewriteTo)
  }

  /** `track_files`: all tracks' items, then all videos' items. The result
      is the items of one media list, the tracks' medias followed by the
      videos', so its length is the total part count. */
  function TrackFiles(c: MediaContainer, rewriteFrom: Option<string>, rewriteTo: Option<string>): (r: seq<Item>)
    ensures r == FilesOf(TrackMedias(c.tracks) + VideoMedias(c.videos), rewriteFrom, rewriteTo)
    ensures |r| == PartCount(TrackMedias(c.tracks)) + PartCount(VideoMedias(c.videos))
  {
    FilesOfAppend(TrackMedias(c.tracks), VideoMedias(c.videos), rewriteFrom, rewriteTo);
    AllPartsCount(TrackMedias(c.tracks));
    AllPartsCount(VideoMedias(c.videos));
    TracksFiles(c.tracks, rewriteFrom, rewriteTo) + VideosFiles(c.videos, rewriteFrom, rewriteTo)
  }

  /** Tracks always precede videos: the items of the tracks' parts come
      first, and the items of the videos' parts fill the rest. */
  lemma TracksBeforeVideos(c: MediaContainer, rewriteFrom: Option<string>, rewriteTo: Option<string>)
    ensures var r := TrackFiles(c, rewriteFrom, rewriteTo);
      var n := PartCount(TrackMedias(c.tracks));
      n <= |r|
      && r[..n] == FilesOf(TrackMedias(c.tracks), rewriteFrom, rewriteTo)
      && r[n..] == FilesOf(VideoMedias(c.videos), rewriteFrom, rewriteTo)
  {
    var tf := FilesOf(TrackMedias(c.tracks), rewriteFrom, rewriteTo);
    var vf := FilesOf(VideoMedias(c.videos), rewriteFrom, rewriteTo);
    FilesOfAppend(TrackMedias(c.tracks), VideoMedias(c.videos), rewriteFrom, rewriteTo);
    AllPartsCount(TrackMedias(c.tracks));
    assert TrackFiles(c, rewriteFrom, rewriteTo) == tf + vf;
    assert (tf + vf)[..|tf|] == tf;
    assert (tf + vf)[|tf|..] == vf;
  }

  /** `for file in files.iter() { out.push(file.clone()) }`. */
  method PushAll(acc: seq<Item>, items: seq<Item>) returns (out: seq<Item>)
    ensures out == acc + items
  {
    out := acc;
    var j := 0;
    while j < |items|
      invariant 0 <= j <= |items|
      invariant out == acc + items[..j]
    {
      out := out + [items[j]];
      j := j + 1;
    }
    assert items[..j] == items;
  }

  lemma TracksFilesSnoc(tracks: seq<Track>, i: nat, rewriteFrom: Option<string>, rewriteTo: Option<string>)
    requires i < |tracks|
    ensures TracksFiles(tracks[..i + 1], rewriteFrom, rewriteTo)
      == TracksFiles(tracks[..i], rewriteFrom, rewriteTo) + tracks[i].Files(rewriteFrom, rewriteTo)
  {
    assert tracks[..i + 1][..i] == tracks[..i];
  }

  lemma VideosFilesSnoc(videos: seq<Video>, i: nat, rewriteFrom: Option<string>, rewriteTo: Option<string>)
    requires i < |videos|
    ensures VideosFiles(videos[..i + 1], rewriteFrom, rewriteTo)
      == VideosFiles(videos[..i], rewriteFrom, rewriteTo) + videos[i].Files(rewriteFrom, rewriteTo)
  {
    assert videos[..i + 1][..i] == videos[..i];
  }

  /** The loop over the tracks in `track_files`. */
  method CollectTracks(tracks: seq<Track>, rewriteFrom: Option<string>, rewriteTo: Option<string>)
    returns (files: seq<Item>)
    ensures files == TracksFiles(tracks, rewriteFrom, rewriteTo)
  {
    files := [];
    var i := 0;
    while i < |tracks|
      invariant 0 <= i <= |tracks|
      invariant files == TracksFiles(tracks[..i], rewriteFrom, rewriteTo)
    {
      TracksFilesSnoc(tracks, i, rewriteFrom, rewriteTo);
      files := PushAll(files, tracks[i].Files(rewriteFrom, rewriteTo));
      i := i + 1;
    }
    assert tracks[..i] == tracks;
  }

  /** The loop over the videos in `track_files`, pushing onto the items
      already collected (`acc`). */
  method CollectVideos(acc: seq<Item>, videos: seq<Video>, rewriteFrom: Option<string>, rewriteTo: Option<string>)
    returns (files: seq<Item>)
    ensures files == acc + VideosFiles(videos, rewriteFrom, rewriteTo)
  {
    files := acc;
    var i := 0;
    assert acc + VideosFiles(videos[..i], rewriteFrom, rewriteTo) == acc;
    while i < |videos|
      invariant 0 <= i <= |videos|
      invariant files == acc + VideosFiles(videos[..i], rewriteFrom, rewriteTo)
    {
      VideosFilesSnoc(videos, i, rewriteFrom, rewriteTo);
      var videoFiles := videos[i].Files(rewriteFrom, rewriteTo);
      AppendAssoc(acc, VideosFiles(videos[..i], rewriteFrom, rewriteTo), videoFiles);
      files := PushAll(files, videoFiles);
      i := i + 1;
    }
    assert videos[..i] == videos;
  }

  lemma AppendAssoc(a: seq<Item>, b: seq<Item>, c: seq<Item>)
    ensures (a + b) + c == a + (b + c)
  {
  }

  /** `track_files` as the Rust code writes it: the tracks' loop, then
      the videos' loop, both pushing into one list. */
  method CollectTrackFiles(c: MediaContainer, rewriteFrom: Option<string>, rewriteTo: Option<string>)
    returns (files: seq<Item>)
    ensures files == TrackFiles(c, rewriteFrom, rewriteTo)
  {
    files := CollectTracks(c.tracks, rewriteFrom, rewriteTo);
    files := CollectVideos(files, c.videos, rewriteFrom, rewriteTo);
  }

  /** Tracks and videos with the same fields describe the same values:
      the title always present, then the grandparent and the parent; only
      the labels differ (artist/album for tracks, show/season for
      videos). */
  lemma InformationsAgree(t: Track, v: Video)
    requires t.title == v.title && t.parentTitle == v.parentTitle && t.grandparentTitle == v.grandparentTitle
    ensures |t.Informations()| == |v.Informations()| == 3
    ensures forall i :: 0 <= i < 3 ==> t.Informations()[i].1 == v.Informations()[i].1
    ensures t.Informations()[0] == v.Informations()[0] == ("Title", Some(t.title))
    ensures t.Informations()[1].0 == "Artist" && v.Informations()[1].0 == "Show"
    ensures t.Informations()[2].0 == "Album" && v.Informations()[2].0 == "Season"
    ensures t.Informations()[1].1 == t.grandparentTitle && t.Informations()[2].1 == t.parentTitle
  {
  }

  /** The key of a track or video reads back as its rating key. */
  lemma KeyRoundTrip(t: Track, v: Video)
    ensures AllDigits(t.Key()) && ParseDigits(t.Key()) == t.ratingKey
    ensures AllDigits(v.Key()) && ParseDigits(v.Key()) == v.ratingKey
  {
    ParseNatToString(t.ratingKey);
    ParseNatToString(v.ratingKey);
  }

  /** A rewrite rule turning `/old/` into `/new/` maps
      `/old/music/song.mp3` to `/new/music/song.mp3`; without a rule the
      path is kept. The values are parameters fixed by `requires` because
      string literals in an `ensures` make the solver unroll `ReplaceAll`. */
  lemma RewriteExample(path: string, from: string, to: string, rest: string)
    requires path == "/old/music/song.mp3" && from == "/old/" && to == "/new/" && rest == "music/song.mp3"
    ensures RewritePath(path, Some(from), Some(to)) == to + rest
    ensures RewritePath(path, None, Some(to)) == path
  {
    assert 'l' !in rest;
    MissingCharNoMatch(rest, from, 2);
    assert path[..5] == from;
    assert path[5..] == rest;
    ReplaceLeadingMatch(path, from, to, rest);
  }
}
