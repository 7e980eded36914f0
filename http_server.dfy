/**
 * The static file server used to test web pages: how a request path is
 * mapped to a file, which status a request gets, and which content type a
 * served file is labelled with.
 */
module StaticServer {
  import opened Wrappers
  import opened Strings

  /** The content type for each file suffix, in the table's own order. */
  const CONTENT_TYPE_BY_SUFFIX: seq<(string, string)> := [
    (".css", "text/css"),
    (".html", "text/html"),
    (".js", "text/javascript"),
    (".gif", "image/gif"),
    (".jpg", "image/jpeg"),
    (".png", "image/png"),
    (".svg", "image/svg+xml")
  ]

  const DEFAULT_CONTENT_TYPE := "text/plain"

  /** The content type of the first table entry whose suffix ends `pathname`. */
  function ContentTypeFrom(table: seq<(string, string)>, pathname: string): (r: string)
    ensures r == DEFAULT_CONTENT_TYPE || exists i :: 0 <= i < |table| && r == table[i].1
  {
    if table == [] then DEFAULT_CONTENT_TYPE
    else if EndsWith(pathname, table[0].0) then table[0].1
    else ContentTypeFrom(table[1..], pathname)
  }

  function ContentTypeOf(pathname: string): string {
    ContentTypeFrom(CONTENT_TYPE_BY_SUFFIX, pathname)
  }

  /** `getContentType`: scan the table in order and return on the first matching suffix. */
  method GetContentType(pathname: string) returns (contentType: string)
    ensures contentType == ContentTypeOf(pathname)
  {
    var table := CONTENT_TYPE_BY_SUFFIX;
    for i := 0 to |table|
      invariant ContentTypeFrom(table[i..], pathname) == ContentTypeOf(pathname)
    {
      assert table[i..][1..] == table[i + 1..];
      if EndsWith(pathname, table[i].0) {
        return table[i].1;
      }
    }
    return DEFAULT_CONTENT_TYPE;
  }

  /** A string ending with both `a` and the longer `b` shows that `b` ends with `a`. */
  lemma NestedSuffixes(p: string, a: string, b: string)
    requires EndsWith(p, a) && EndsWith(p, b) && |a| <= |b|
    ensures EndsWith(b, a)
  {
    assert b[|b| - |a|..] == p[|p| - |a|..];
  }

  /** No suffix of the table ends another, so at most one entry matches any path. */
  lemma SuffixesExclusive(p: string, i: int, j: int)
    requires 0 <= i < |CONTENT_TYPE_BY_SUFFIX| && 0 <= j < |CONTENT_TYPE_BY_SUFFIX| && i != j
    ensures !(EndsWith(p, CONTENT_TYPE_BY_SUFFIX[i].0) && EndsWith(p, CONTENT_TYPE_BY_SUFFIX[j].0))
  {
    var a, b := CONTENT_TYPE_BY_SUFFIX[i].0, CONTENT_TYPE_BY_SUFFIX[j].0;
    if EndsWith(p, a) && EndsWith(p, b) {
      if |a| <= |b| {
        NestedSuffixes(p, a, b);
      } else {
        NestedSuffixes(p, b, a);
      }
    }
  }

  /** Scanning a table from index `k` on yields entry `i` when only entry `i` matches. */
  lemma {:induction false} ContentTypeFromMatch(table: seq<(string, string)>, p: string, k: nat, i: nat)
    requires k <= i < |table| && EndsWith(p, table[i].0)
    requires forall j :: k <= j < i ==> !EndsWith(p, table[j].0)
    ensures ContentTypeFrom(table[k..], p) == table[i].1
    decreases i - k
  {
    if k < i {
      assert table[k..][1..] == table[k + 1..];
      ContentTypeFromMatch(table, p, k + 1, i);
    }
  }

  /** Scanning a table with no matching suffix yields the default. */
  lemma {:induction false} ContentTypeFromNoMatch(table: seq<(string, string)>, p: string)
    requires forall j :: 0 <= j < |table| ==> !EndsWith(p, table[j].0)
    ensures ContentTypeFrom(table, p) == DEFAULT_CONTENT_TYPE
  {
    if table != [] {
      ContentTypeFromNoMatch(table[1..], p);
    }
  }

  /** A path ending with a suffix of the table gets exactly that suffix's content type, whatever its position. */
  lemma ContentTypeOfSuffix(p: string, i: int)
    requires 0 <= i < |CONTENT_TYPE_BY_SUFFIX| && EndsWith(p, CONTENT_TYPE_BY_SUFFIX[i].0)
    ensures ContentTypeOf(p) == CONTENT_TYPE_BY_SUFFIX[i].1
  {
    forall j | 0 <= j < i
      ensures !EndsWith(p, CONTENT_TYPE_BY_SUFFIX[j].0)
    {
      SuffixesExclusive(p, i, j);
    }
    ContentTypeFromMatch(CONTENT_TYPE_BY_SUFFIX, p, 0, i);
  }

  /** A path ending with none of the suffixes is served as plain text. */
  lemma ContentTypeOfOther(p: string)
    requires forall j :: 0 <= j < |CONTENT_TYPE_BY_SUFFIX| ==> !EndsWith(p, CONTENT_TYPE_BY_SUFFIX[j].0)
    ensures ContentTypeOf(p) == DEFAULT_CONTENT_TYPE
  {
    ContentTypeFromNoMatch(CONTENT_TYPE_BY_SUFFIX, p);
  }

  /**
   * `/` becomes `/index.html`, and any other path ending in `/` gets
   * `index.html` appended; other paths are kept.
   */
  function RewritePathname(pathname: string): (r: string)
    ensures EndsWith(pathname, "/") ==> r == pathname + "index.html"
    ensures !EndsWith(pathname, "/") ==> r == pathname
  {
    var p := if pathname == "/" then "/index.html" else pathname;
    if EndsWith(p, "/") then p + "index.html" else p
  }

  /** A rewritten path never names a directory, and a directory request is served as HTML. */
  lemma DirectoryRequestsServeIndexHtml(pathname: string)
    requires EndsWith(pathname, "/")
    ensures !EndsWith(RewritePathname(pathname), "/")
    ensures ContentTypeOf(RewritePathname(pathname)) == "text/html"
  {
    var r := RewritePathname(pathname);
    assert r[|r| - 5..] == ".html";
    assert r[|r| - 1] == 'l';
    ContentTypeOfSuffix(r, 1);
  }

  /** Rewriting is idempotent. */
  lemma RewriteIdempotent(pathname: string)
    ensures RewritePathname(RewritePathname(pathname)) == RewritePathname(pathname)
  {
    if EndsWith(pathname, "/") {
      var r := RewritePathname(pathname);
      assert r[|r| - 1] == 'l';
    }
  }

  /** What the server sees of the file a request maps to. */
  datatype FileState = Missing | Readable(bytes: seq<bv8>) | Unreadable

  datatype Response = Response(status: nat, headers: seq<(string, string)>, body: seq<bv8>)

  /** The header a response carries under `name`, if any. */
  function Header(r: Response, name: string): Option<string> {
    HeaderIn(r.headers, name)
  }

  function HeaderIn(headers: seq<(string, string)>, name: string): Option<string> {
    if headers == [] then None
    else if headers[0].0 == name then Some(headers[0].1)
    else HeaderIn(headers[1..], name)
  }

  /**
   * The request handler. `pathnameOf` is the URL parser's `pathname`, which
   * begins with `/`, so the file lies at `dir` followed by the rewritten path.
   * A missing file is 404, a file that cannot be read is 500, otherwise the
   * file is sent with status 200, caching disabled and its content type.
   */
  method Handle(dir: string, requestUrl: Option<string>, pathnameOf: string -> string, fileAt: string -> FileState)
    returns (r: Response)
    ensures var path := RewritePathname(pathnameOf(requestUrl.GetOr("/")));
            match fileAt(dir + path)
            case Missing => r == Response(404, [], [])
            case Unreadable => r == Response(500, [], [])
            case Readable(bytes) =>
              && r.status == 200 && r.body == bytes
              && Header(r, "Content-Type") == Some(ContentTypeOf(path))
              && Header(r, "Cache-Control") == Some("no-cache")
              && Header(r, "Pragma") == Some("no-cache")
              && Header(r, "Access-Control-Allow-Origin") == Some("*")
  {
    var pathname := pathnameOf(requestUrl.GetOr("/"));
    if pathname == "/" {
      pathname := "/index.html";
    }
    var withIndexHtml := if EndsWith(pathname, "/") then pathname + "index.html" else pathname;
    var filePath := dir + withIndexHtml;
    match fileAt(filePath)
    case Missing =>
      r := Response(404, [], []);
    case Unreadable =>
      r := Response(500, [], []);
    case Readable(bytes) =>
      var contentType := GetContentType(withIndexHtml);
      var headers := [("Access-Control-Allow-Origin", "*"), ("Pragma", "no-cache"),
                      ("Cache-Control", "no-cache"), ("Content-Type", contentType)];
      assert withIndexHtml == RewritePathname(pathnameOf(requestUrl.GetOr("/")));
      assert HeaderIn(headers, "Pragma") == HeaderIn(headers[1..], "Pragma") == Some("no-cache");
      assert HeaderIn(headers, "Cache-Control") == HeaderIn(headers[1..], "Cache-Control")
          == HeaderIn(headers[1..][1..], "Cache-Control") == Some("no-cache");
      assert HeaderIn(headers, "Content-Type") == HeaderIn(headers[1..], "Content-Type")
          == HeaderIn(headers[1..][1..], "Content-Type") == HeaderIn(headers[1..][1..][1..], "Content-Type")
          == Some(contentType);
      r := Response(200, headers, bytes);
  }
}
