/** The playlist listing: the filter on playlist type and the one-line
    rendering of a playlist. */
module Playlists {
  import opened Common
  import opened Decimal

  datatype Playlist = Playlist(
    ratingKey: string,
    title: string,
    key: string,
    summary: string,
    smart: bool,
    playlistType: string,
    leafCount: U32,
    addedAt: U32,
    updatedAt: U32)

  /** An optional playlist type to restrict the listing to. */
  datatype PlaylistFilter = PlaylistFilter(onlyPlaylistType: Option<string>)

  /** `matches`: no filter accepts every playlist; a type filter accepts
      exactly the playlists of that type, compared as exact
      (case-sensitive) strings. */
  function Matches(p: Playlist, filter: PlaylistFilter): (r: bool)
    ensures filter.onlyPlaylistType.None? ==> r
    ensures filter.onlyPlaylistType.Some? ==> (r <==> filter.onlyPlaylistType.value == p.playlistType)
  {
    match filter.onlyPlaylistType
    case None => true
    case Some(only) => only == p.playlistType
  }

  /** Only the playlist type decides whether a playlist matches. */
  lemma MatchesDependsOnTypeOnly(p: Playlist, q: Playlist, filter: PlaylistFilter)
    requires p.playlistType == q.playlistType
    ensures Matches(p, filter) == Matches(q, filter)
  {
  }

  /** The comparison is case-sensitive: an `audio` playlist does not match
      the filter `Audio`. */
  lemma MatchesIsCaseSensitive(p: Playlist)
    requires p.playlistType == "audio"
    ensures !Matches(p, PlaylistFilter(Some("Audio")))
    ensures Matches(p, PlaylistFilter(Some("audio")))
  {
  }

  const SmartMark: string := " [Smart]"
  const TracksWord: string := " tracks]"

  /** The closing segment: the track count in brackets. */
  function CountSegment(leafCount: U32): string
  {
    " [" + NatToString(leafCount) + TracksWord
  }

  /** `to_string`: `<ratingKey>: <title> [<type>]`, then ` [Smart]` for a
      smart playlist, then ` [<leafCount> tracks]`. */
  function ToString(p: Playlist): (r: string)
    ensures p.ratingKey + ": " + p.title + " [" + p.playlistType + "]" <= r
    ensures |r| == |p.ratingKey| + |p.title| + |p.playlistType| + 5
      + (if p.smart then |SmartMark| else 0) + |CountSegment(p.leafCount)|
    ensures r[|r| - |CountSegment(p.leafCount)|..] == CountSegment(p.leafCount)
  {
    var head := p.ratingKey + ": " + p.title + " [" + p.playlistType + "]";
    var flagged := if p.smart then head + SmartMark else head;
    var r := flagged + CountSegment(p.leafCount);
    assert r[..|head|] == head;
    assert r[|flagged|..] == CountSegment(p.leafCount);
    r
  }

  /** The smart rendering is the plain rendering with ` [Smart]` inserted
      right after the type, and nothing else changed. */
  lemma SmartInsertsMark(p: Playlist)
    ensures var k := |p.ratingKey| + |p.title| + |p.playlistType| + 5;
      var plain := ToString(p.(smart := false));
      k <= |plain|
      && ToString(p.(smart := true)) == plain[..k] + SmartMark + plain[k..]
  {
  }

  /** The maximal run of digits at the end of `s`. */
  function TrailingDigits(s: string): (d: string)
    ensures AllDigits(d)
    ensures |d| <= |s| && s[|s| - |d|..] == d
    ensures |d| < |s| ==> !IsDigit(s[|s| - |d| - 1])
    decreases |s|
  {
    if |s| == 0 || !IsDigit(s[|s| - 1]) then ""
    else
      var init := s[..|s| - 1];
      var rest := TrailingDigits(init);
      var d := rest + [s[|s| - 1]];
      assert s[|s| - |d|..] == init[|init| - |rest|..] + [s[|s| - 1]];
      assert |d| < |s| ==> s[|s| - |d| - 1] == init[|init| - |rest| - 1];
      d
  }

  /** Reads the track count back from a rendered line: the digits just
      before the closing ` tracks]`. */
  function LeafCountOf(line: string): Option<nat>
  {
    if |line| < |TracksWord| || line[|line| - |TracksWord|..] != TracksWord then None
    else
      var digits := TrailingDigits(line[..|line| - |TracksWord|]);
      if |digits| == 0 then None else Some(ParseDigits(digits))
  }

  lemma {:induction false} TrailingDigitsOfAppend(x: string, d: string)
    requires |x| > 0 && !IsDigit(x[|x| - 1]) && AllDigits(d)
    ensures TrailingDigits(x + d) == d
    decreases |d|
  {
    if |d| == 0 {
      assert x + d == x;
    } else {
      var init := d[..|d| - 1];
      assert (x + d)[..|x + d| - 1] == x + init;
      TrailingDigitsOfAppend(x, init);
      assert init + [d[|d| - 1]] == d;
    }
  }

  lemma LeafCountOfLayout(before: string, digits: string)
    requires |before| > 0 && !IsDigit(before[|before| - 1])
    requires AllDigits(digits) && |digits| > 0
    ensures LeafCountOf(before + digits + TracksWord) == Some(ParseDigits(digits))
  {
    var line := before + digits + TracksWord;
    assert line[|line| - |TracksWord|..] == TracksWord;
    assert line[..|line| - |TracksWord|] == before + digits;
    TrailingDigitsOfAppend(before, digits);
  }

  /** The track count is recoverable from every rendering, whatever the
      other fields contain. */
  lemma LeafCountRoundTrip(p: Playlist)
    ensures LeafCountOf(ToString(p)) == Some(p.leafCount)
  {
    var head := p.ratingKey + ": " + p.title + " [" + p.playlistType + "]";
    var flagged := if p.smart then head + SmartMark else head;
    var digits := NatToString(p.leafCount);
    var before := flagged + " [";
    assert ToString(p) == before + digits + TracksWord;
    assert before[|before| - 1] == '[';
    LeafCountOfLayout(before, digits);
    ParseNatToString(p.leafCount);
  }
}
