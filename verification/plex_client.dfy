/** The media server client's request addressing. Each request is a GET
    of the server address followed by a resource path, with the access
    token appended as a query parameter when one is configured. The HTTP
    exchange itself is not modelled. */
module PlexClient {
  import opened Common

  datatype Client = Client(server: string, token: Option<string>)

  const TokenParam: string := "?X-Plex-Token="

  /** `client_url`: the server followed by the path, then the token
      parameter when a token is present. */
  function ClientUrl(c: Client, path: string): (r: string)
    ensures c.server + path <= r
    ensures c.token.None? ==> r == c.server + path
    ensures c.token.Some? ==> r[|c.server + path|..] == TokenParam + c.token.value
  {
    var url := c.server + path;
    match c.token
    case None => url
    case Some(t) =>
      var r := url + TokenParam + t;
      assert r[..|url|] == url;
      assert r[|url|..] == TokenParam + t;
      r
  }

  /** Reads the request path back from a URL built by `c`: strip the
      server in front and, with a token, the token parameter behind. */
  function PathOf(c: Client, url: string): Option<string>
  {
    var suffix := match c.token case None => "" case Some(t) => TokenParam + t;
    if |url| < |c.server| + |suffix| then None
    else if url[..|c.server|] != c.server || url[|url| - |suffix|..] != suffix then None
    else Some(url[|c.server|..|url| - |suffix|])
  }

  /** The path is recovered from every URL: the token parameter is
      appended exactly once, after the path. */
  lemma PathOfClientUrl(c: Client, path: string)
    ensures PathOf(c, ClientUrl(c, path)) == Some(path)
  {
    var url := ClientUrl(c, path);
    var suffix := match c.token case None => "" case Some(t) => TokenParam + t;
    assert url == c.server + path + suffix;
    assert url[..|c.server|] == c.server;
    assert url[|url| - |suffix|..] == suffix;
    assert url[|c.server|..|url| - |suffix|] == path;
  }

  /** Distinct paths give distinct URLs. */
  lemma ClientUrlInjective(c: Client, p: string, q: string)
    requires ClientUrl(c, p) == ClientUrl(c, q)
    ensures p == q
  {
    PathOfClientUrl(c, p);
    PathOfClientUrl(c, q);
  }

  /** The requests the client makes. */
  datatype Request =
    | ListPlaylists
    | GetPlaylist(ratingKey: string)
    | GetPart(partKey: string)

  const PlaylistsPath: string := "/playlists"
  const ItemsSuffix: string := "/items"

  /** The resource path of a request: the playlists listing, the items of
      one playlist, or a part's key used verbatim. */
  function RequestPath(req: Request): string
  {
    match req
    case ListPlaylists => PlaylistsPath
    case GetPlaylist(k) => PlaylistsPath + "/" + k + ItemsSuffix
    case GetPart(k) => k
  }

  /** The URL fetched for a request. */
  function RequestUrl(c: Client, req: Request): (r: string)
    ensures c.server + RequestPath(req) <= r
    ensures PathOf(c, r) == Some(RequestPath(req))
    ensures req.ListPlaylists? ==> PathOf(c, r) == Some("/playlists")
    ensures req.GetPart? ==> PathOf(c, r) == Some(req.partKey)
  {
    PathOfClientUrl(c, RequestPath(req));
    ClientUrl(c, RequestPath(req))
  }

  /** Reads the playlist key back from an items path. */
  function PlaylistKeyOf(path: string): Option<string>
  {
    var prefix := PlaylistsPath + "/";
    if |path| < |prefix| + |ItemsSuffix| then None
    else if path[..|prefix|] != prefix || path[|path| - |ItemsSuffix|..] != ItemsSuffix then None
    else Some(path[|prefix|..|path| - |ItemsSuffix|])
  }

  /** `get_playlist(k)` asks for `/playlists/<k>/items`, from which `k` is
      recovered whatever it contains. */
  lemma GetPlaylistPathRoundTrip(k: string)
    ensures PlaylistKeyOf(RequestPath(GetPlaylist(k))) == Some(k)
    ensures RequestPath(GetPlaylist(k)) == "/playlists/" + k + "/items"
  {
  }
}
