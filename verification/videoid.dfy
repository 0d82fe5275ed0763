/** Extraction of a YouTube video identifier from an already parsed URL
    (`ytvideoid`). Parsing the URL text into host, path and query parameters is
    done by the URL library and is not part of this model: the function takes
    the parsed parts. */
module VideoIds {
  import opened Wrappers
  import opened Strings

  /** A URL as the URL library parses it: the lower-cased host name (absent for
      a relative URL), the path, and the query string decoded into a map from
      parameter name to the list of its values. */
  datatype ParsedUrl = ParsedUrl(hostname: Option<string>, path: string, query: map<string, seq<string>>)

  const ShortHost := "youtu.be"
  const FullHosts: set<string> := {"www.youtube.com", "youtube.com"}
  const WatchPath := "/watch"
  const EmbedPrefix := "/embed/"
  const LegacyPrefix := "/v/"

  predicate IsFullHost(u: ParsedUrl)
  {
    u.hostname.Some? && u.hostname.value in FullHosts
  }

  /** The `/watch` shape without a usable `v` parameter: indexing the query map raises. */
  predicate WatchWithoutId(u: ParsedUrl)
  {
    IsFullHost(u) && u.path == WatchPath && !("v" in u.query && |u.query["v"]| > 0)
  }

  /** `path.split('/')[2]` for a path that starts with `/<word>/`: the split always
      has at least three pieces, so the index never fails. */
  function ThirdPiece(path: string, word: string): (r: string)
    requires '/' !in word
    requires StartsWith(path, "/" + word + "/")
    ensures r == TakeUntil(path[|word| + 2..], '/')
  {
    var rest := path[|word| + 2..];
    assert path == [] + ['/'] + (word + ['/'] + rest) by {
      assert path == path[..|word| + 2] + rest;
    }
    SplitSegment([], word + ['/'] + rest, '/');
    SplitSegment(word, rest, '/');
    SplitHead(rest, '/');
    Split(path, '/')[2]
  }

  /** `ytvideoid(url)`: the identifier named by a short link, a watch link, an
      embed link or a legacy `/v/` link; `None` for any other URL; raises for a
      watch link that has no `v` parameter. */
  function VideoId(u: ParsedUrl): (r: PyResult<Option<string>>)
    // short links: the path without its leading slash
    ensures u.hostname == Some(ShortHost) ==> r == Returned(Some(DropFirst(u.path)))
    // watch links: the first value of the `v` parameter
    ensures (IsFullHost(u) && u.path == WatchPath && "v" in u.query && |u.query["v"]| > 0) ==>
              r == Returned(Some(u.query["v"][0]))
    // embed and legacy links: the path segment after the prefix
    ensures (IsFullHost(u) && StartsWith(u.path, EmbedPrefix)) ==>
              r == Returned(Some(TakeUntil(u.path[|EmbedPrefix|..], '/')))
    ensures (IsFullHost(u) && StartsWith(u.path, LegacyPrefix)) ==>
              r == Returned(Some(TakeUntil(u.path[|LegacyPrefix|..], '/')))
    // the only failing shape
    ensures r.Raised? <==> WatchWithoutId(u)
    // every other host or path gives no identifier
    ensures r == Returned(None) <==>
              u.hostname != Some(ShortHost) &&
              !(IsFullHost(u) && (u.path == WatchPath || StartsWith(u.path, EmbedPrefix) || StartsWith(u.path, LegacyPrefix)))
  {
    if u.hostname == Some(ShortHost) then Returned(Some(DropFirst(u.path)))
    else if IsFullHost(u) then
      if u.path == WatchPath then
        assert !StartsWith(u.path, LegacyPrefix) by { assert u.path[1] != LegacyPrefix[1]; }
        if "v" in u.query && |u.query["v"]| > 0 then Returned(Some(u.query["v"][0])) else Raised
      else if StartsWith(u.path, EmbedPrefix) then
        assert !StartsWith(u.path, LegacyPrefix) by { assert u.path[1] != LegacyPrefix[1]; }
        assert EmbedPrefix == "/" + "embed" + "/";
        Returned(Some(ThirdPiece(u.path, "embed")))
      else if StartsWith(u.path, LegacyPrefix) then
        assert LegacyPrefix == "/" + "v" + "/";
        Returned(Some(ThirdPiece(u.path, "v")))
      else Returned(None)
    else Returned(None)
  }

  /** The four recognised shapes and the two other outcomes, on concrete URLs. */
  lemma ShortLinkExample()
    ensures VideoId(ParsedUrl(Some("youtu.be"), "/dQw4w9WgXcQ", map[])) == Returned(Some("dQw4w9WgXcQ"))
  {
  }

  lemma WatchLinkExample()
    ensures VideoId(ParsedUrl(Some("www.youtube.com"), "/watch", map["v" := ["dQw4w9WgXcQ"]])) == Returned(Some("dQw4w9WgXcQ"))
  {
  }

  lemma {:induction false} EmbedLinkExample()
    ensures VideoId(ParsedUrl(Some("youtube.com"), "/embed/dQw4w9WgXcQ/extra", map[])) == Returned(Some("dQw4w9WgXcQ"))
  {
    var u := ParsedUrl(Some("youtube.com"), "/embed/dQw4w9WgXcQ/extra", map[]);
    assert IsFullHost(u);
    assert StartsWith(u.path, EmbedPrefix);
    assert u.path[|EmbedPrefix|..] == "dQw4w9WgXcQ" + "/" + "extra";
    TakeUntilSegment("dQw4w9WgXcQ", "extra", '/');
  }

  lemma {:induction false} LegacyLinkExample()
    ensures VideoId(ParsedUrl(Some("www.youtube.com"), "/v/dQw4w9WgXcQ", map[])) == Returned(Some("dQw4w9WgXcQ"))
  {
    var u := ParsedUrl(Some("www.youtube.com"), "/v/dQw4w9WgXcQ", map[]);
    assert IsFullHost(u);
    assert StartsWith(u.path, LegacyPrefix);
    assert u.path[|LegacyPrefix|..] == "dQw4w9WgXcQ";
    TakeUntilWhole("dQw4w9WgXcQ", '/');
  }

  lemma OtherHostExample()
    ensures VideoId(ParsedUrl(Some("vimeo.com"), "/watch", map["v" := ["x"]])) == Returned(None)
  {
  }

  lemma WatchWithoutIdExample()
    ensures VideoId(ParsedUrl(Some("www.youtube.com"), "/watch", map["list" := ["PL1"]])).Raised?
  {
  }
}
