/** The playlist file writer and the item types the resolver produces.

    `write` creates the file, writes the header line `#EXTM3U` and then
    every row verbatim on a line of its own. Creating the file is the only
    step whose failure is reported; the outcome of each line write is
    discarded. The file system is abstract here: creation succeeds or not
    according to a parameter, and so does each line write. */
module M3u {
  import opened Common

  /** Per-item metadata attached by the resolver. */
  datatype TrackData = Key(key: string)

  /** Document-level metadata of a playlist. */
  datatype Metadata = RatingKey(ratingKey: U32) | Title(title: string)

  /** One playlist entry: its path and its metadata. */
  datatype Item = Item(path: string, meta: seq<TrackData>)

  /** The error of `write`: the file could not be created. */
  datatype IoError = CreateFailed

  const Header: string := "#EXTM3U"

  /** A line as `writeln!` emits it. */
  function Line(text: string): string
  {
    text + "\n"
  }

  /** The rows, each as a line. */
  function RenderRows(rows: seq<string>): string
    decreases |rows|
  {
    if |rows| == 0 then "" else Line(rows[0]) + RenderRows(rows[1..])
  }

  /** The whole file text when every write succeeds. */
  function Render(rows: seq<string>): string
  {
    Line(Header) + RenderRows(rows)
  }

  /** The text actually written: each line whose write succeeded, in
      order; a failed write contributes nothing and is not reported. */
  function Written(lines: seq<string>, writeOk: seq<bool>): string
    requires |writeOk| == |lines|
    decreases |lines|
  {
    if |lines| == 0 then ""
    else (if writeOk[0] then Line(lines[0]) else "") + Written(lines[1..], writeOk[1..])
  }

  /** `write(filename, rows)`: `createOk` says whether the file could be
      created, `writeOk[i]` whether the i-th `writeln!` (header first)
      succeeded. The file content is returned on success. */
  function Write(createOk: bool, writeOk: seq<bool>, rows: seq<string>): (r: Result<string, IoError>)
    requires |writeOk| == |rows| + 1
    ensures r.Err? <==> !createOk
    ensures r.Err? ==> r.error == CreateFailed
    ensures r.Ok? && (forall i :: 0 <= i < |writeOk| ==> writeOk[i]) ==> r.value == Render(rows)
  {
    if !createOk then Err(CreateFailed)
    else
      AllWritesRender(rows, writeOk);
      Ok(Written([Header] + rows, writeOk))
  }

  lemma {:induction false} AllWritesRender(rows: seq<string>, writeOk: seq<bool>)
    requires |writeOk| == |rows| + 1
    ensures (forall i :: 0 <= i < |writeOk| ==> writeOk[i]) ==> Written([Header] + rows, writeOk) == Render(rows)
  {
    if forall i :: 0 <= i < |writeOk| ==> writeOk[i] {
      assert ([Header] + rows)[1..] == rows;
      WrittenAllOk(rows, writeOk[1..]);
    }
  }

  lemma {:induction false} WrittenAllOk(lines: seq<string>, writeOk: seq<bool>)
    requires |writeOk| == |lines|
    requires forall i :: 0 <= i < |writeOk| ==> writeOk[i]
    ensures Written(lines, writeOk) == RenderRows(lines)
    decreases |lines|
  {
    if |lines| > 0 {
      WrittenAllOk(lines[1..], writeOk[1..]);
    }
  }

  /** No line break inside a row. */
  predicate SingleLine(text: string)
  {
    forall i :: 0 <= i < |text| ==> text[i] != '\n'
  }

  /** Position of the first `c` in `s`, or `|s|` when there is none. */
  function IndexOf(s: string, c: char): (i: nat)
    ensures i <= |s|
    ensures i < |s| ==> s[i] == c
    ensures forall j :: 0 <= j < i ==> s[j] != c
    decreases |s|
  {
    if |s| == 0 then 0
    else if s[0] == c then 0
    else 1 + IndexOf(s[1..], c)
  }

  /** Splits text into lines at each `'\n'`; a final line break does not
      start an extra empty line. This is the reading view of the file. */
  function Lines(s: string): seq<string>
    decreases |s|
  {
    if |s| == 0 then []
    else
      var i := IndexOf(s, '\n');
      if i == |s| then [s] else [s[..i]] + Lines(s[i + 1..])
  }

  lemma LinesOfLine(text: string, rest: string)
    requires SingleLine(text)
    ensures Lines(Line(text) + rest) == [text] + Lines(rest)
  {
    var s := Line(text) + rest;
    assert s[|text|] == '\n';
    assert IndexOf(s, '\n') == |text|;
    assert s[..|text|] == text;
    assert s[|text| + 1..] == rest;
  }

  /** The rendered file reads back as the header line followed by the
      rows, one line per row in input order, so it has `|rows| + 1`
      lines; an empty `rows` gives the header line alone. */
  lemma {:induction false} LinesOfRender(rows: seq<string>)
    requires forall i :: 0 <= i < |rows| ==> SingleLine(rows[i])
    ensures Lines(Render(rows)) == [Header] + rows
    ensures |Lines(Render(rows))| == |rows| + 1
  {
    LinesOfRows(rows);
    LinesOfLine(Header, RenderRows(rows));
  }

  lemma {:induction false} LinesOfRows(rows: seq<string>)
    requires forall i :: 0 <= i < |rows| ==> SingleLine(rows[i])
    ensures Lines(RenderRows(rows)) == rows
    decreases |rows|
  {
    if |rows| > 0 {
      LinesOfRows(rows[1..]);
      LinesOfLine(rows[0], RenderRows(rows[1..]));
    }
  }

  /** Whatever the rows contain, the file starts with the header line and
      each row appears verbatim, directly followed by a line break, at
      the position after the previous rows. */
  lemma {:induction false} RenderLayout(rows: seq<string>, k: nat)
    requires k < |rows|
    ensures Line(Header) <= Render(rows)
    ensures var at := |Line(Header)| + |RenderRows(rows[..k])|;
      at + |rows[k]| < |Render(rows)|
      && Render(rows)[at..at + |rows[k]|] == rows[k]
      && Render(rows)[at + |rows[k]|] == '\n'
  {
    RowsSplit(rows, k);
    var pre := RenderRows(rows[..k]);
    var post := RenderRows(rows[k + 1..]);
    assert Render(rows) == Line(Header) + pre + rows[k] + "\n" + post;
  }

  lemma {:induction false} RowsSplit(rows: seq<string>, k: nat)
    requires k < |rows|
    ensures RenderRows(rows) == RenderRows(rows[..k]) + Line(rows[k]) + RenderRows(rows[k + 1..])
    decreases k
  {
    if k == 0 {
      assert rows[..0] == [];
    } else {
      RowsSplit(rows[1..], k - 1);
      assert rows[1..][..k - 1] == rows[..k][1..];
      assert rows[1..][k..] == rows[k + 1..];
    }
  }
}
