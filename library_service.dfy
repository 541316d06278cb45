/**
 * The library listing request: which query parameters `useGetLibrary`
 * puts on `/audio-processing/library`, in which order, and the cache key
 * it files the response under.
 *
 * `ServerView` reads a URL back the way a server reads its query string,
 * so the URL the hook builds is checked against what it was asked for.
 */
module LibraryService {
  import opened Wrappers
  import opened Numbers

  const BasePath: string := "/audio-processing/library"
  const KeyRoot: string := "library"
  /** The page filed under the key when none is given. */
  const DefaultPage: int := 1

  /** The optional `{ page, limit }` argument; each field may be missing. */
  datatype LibraryParams = LibraryParams(page: Option<int>, limit: Option<int>)

  /** A JavaScript `if (x)` on an optional number: present and not zero. */
  predicate Truthy(v: Option<int>) {
    v.Some? && v.value != 0
  }

  /** `params?.page` and `params?.limit`. */
  function PageOf(params: Option<LibraryParams>): Option<int> {
    if params.Some? then params.value.page else None
  }

  function LimitOf(params: Option<LibraryParams>): Option<int> {
    if params.Some? then params.value.limit else None
  }

  /** What reaches the query string for one field: the value when it is truthy. */
  function Sent(v: Option<int>): (r: Option<int>)
    ensures r.Some? <==> Truthy(v)
    ensures r.Some? ==> r == v
  {
    if Truthy(v) then v else None
  }

  /** The `name=value&name=value` form of a parameter list; empty only for no pairs. */
  function Serialize(pairs: seq<(string, string)>): (query: string)
    ensures query == "" <==> pairs == []
  {
    if pairs == [] then ""
    else if |pairs| == 1 then pairs[0].0 + "=" + pairs[0].1
    else pairs[0].0 + "=" + pairs[0].1 + "&" + Serialize(pairs[1..])
  }

  /** `URLSearchParams`: an ordered list of name/value pairs that `append` extends. */
  class SearchParams {
    var entries: seq<(string, string)>

    constructor()
      ensures entries == []
    {
      entries := [];
    }

    method Append(name: string, value: string)
      modifies this`entries
      ensures entries == old(entries) + [(name, value)]
    {
      entries := entries + [(name, value)];
    }

    /** `toString()`. */
    function Text(): string
      reads this
    {
      Serialize(entries)
    }
  }

  /** The parameters the hook appends, in order: `page` first, then `limit`, each only when truthy. */
  function AppendedParams(params: Option<LibraryParams>): (pairs: seq<(string, string)>)
    ensures |pairs| <= 2
    ensures |pairs| == 0 <==> !Truthy(PageOf(params)) && !Truthy(LimitOf(params))
  {
    (if Truthy(PageOf(params)) then [("page", IntToString(PageOf(params).value))] else [])
    + (if Truthy(LimitOf(params)) then [("limit", IntToString(LimitOf(params).value))] else [])
  }

  /** The request URL: the base path, and `?` plus the query string only when it is not empty. */
  function LibraryUrl(params: Option<LibraryParams>): (url: string)
    ensures BasePath <= url
    ensures url == BasePath <==> !Truthy(PageOf(params)) && !Truthy(LimitOf(params))
    ensures url != BasePath ==> url[|BasePath|] == '?'
  {
    var query := Serialize(AppendedParams(params));
    BasePath + (if query != "" then "?" + query else "")
  }

  /** `["library", String(params?.page ?? 1)]`: only a missing page falls back to 1. */
  function QueryKey(params: Option<LibraryParams>): (key: seq<string>)
    ensures |key| == 2 && key[0] == KeyRoot
    ensures ParseInt(key[1]) == Some(PageOf(params).GetOr(DefaultPage))
  {
    IntToStringRoundTrip(PageOf(params).GetOr(DefaultPage));
    [KeyRoot, IntToString(PageOf(params).GetOr(DefaultPage))]
  }

  /** `useGetLibrary`: fills a fresh `URLSearchParams`, then composes the URL and the key. */
  method UseGetLibrary(params: Option<LibraryParams>) returns (key: seq<string>, url: string)
    ensures key == QueryKey(params)
    ensures url == LibraryUrl(params)
  {
    var searchParams := new SearchParams();
    if Truthy(PageOf(params)) {
      searchParams.Append("page", IntToString(PageOf(params).value));
    }
    if Truthy(LimitOf(params)) {
      searchParams.Append("limit", IntToString(LimitOf(params).value));
    }
    var queryString := searchParams.Text();
    url := BasePath + (if queryString != "" then "?" + queryString else "");
    key := [KeyRoot, IntToString(PageOf(params).GetOr(DefaultPage))];
  }

  // ---------------------------------------------------------------------
  // Reading a URL back

  /** Splits `s` at every `sep`; always at least one piece. */
  function SplitOn(s: string, sep: char): (parts: seq<string>)
    ensures |parts| >= 1
    decreases |s|
  {
    if |s| == 0 then [""]
    else
      var rest := SplitOn(s[1..], sep);
      if s[0] == sep then [""] + rest else [[s[0]] + rest[0]] + rest[1..]
  }

  lemma {:induction false} SplitWithoutSeparator(a: string, sep: char)
    requires sep !in a
    ensures SplitOn(a, sep) == [a]
    decreases |a|
  {
    if |a| > 0 {
      SplitWithoutSeparator(a[1..], sep);
      assert [a[0]] + a[1..] == a;
    }
  }

  lemma {:induction false} SplitAtFirstSeparator(a: string, sep: char, b: string)
    requires sep !in a
    ensures SplitOn(a + [sep] + b, sep) == [a] + SplitOn(b, sep)
    decreases |a|
  {
    var s := a + [sep] + b;
    if |a| == 0 {
      assert s[1..] == b;
    } else {
      assert s[1..] == a[1..] + [sep] + b;
      SplitAtFirstSeparator(a[1..], sep, b);
      assert [a[0]] + a[1..] == a;
    }
  }

  /** The value of the first `name=value` piece, read as an integer. */
  function Lookup(pieces: seq<string>, name: string): Option<int> {
    if pieces == [] then None
    else if name + "=" <= pieces[0] then ParseInt(pieces[0][|name| + 1..])
    else Lookup(pieces[1..], name)
  }

  /** The query string of a URL on the base path; empty when there is none. */
  function QueryOf(url: string): string {
    if BasePath + "?" <= url then url[|BasePath| + 1..] else ""
  }

  /** The page and limit a server reads from the URL. */
  function ServerView(url: string): LibraryParams {
    var query := QueryOf(url);
    var pieces := if query == "" then [] else SplitOn(query, '&');
    LibraryParams(Lookup(pieces, "page"), Lookup(pieces, "limit"))
  }

  /** A rendered number never contains the separators of a query string. */
  lemma NumberHasNoSeparator(n: int)
    ensures '&' !in IntToString(n) && '=' !in IntToString(n)
  {
    var s := IntToString(n);
    if n < 0 {
      assert s == [s[0]] + s[1..];
    }
  }

  lemma PieceReadsBack(name: string, n: int, other: string)
    requires '=' !in name && |name| >= 1 && other != name
    requires |other| >= 1 && other[0] != name[0]
    ensures Lookup([name + "=" + IntToString(n)], name) == Some(n)
    ensures Lookup([name + "=" + IntToString(n)], other) == None
  {
    var piece := name + "=" + IntToString(n);
    assert piece[..|name| + 1] == name + "=";
    assert name + "=" <= piece;
    assert piece[|name| + 1..] == IntToString(n);
    IntToStringRoundTrip(n);
    assert (other + "=")[0] != piece[0];
    assert !(other + "=" <= piece);
    assert [piece][1..] == [];
  }

  /** The `name=value` pieces the hook's query string consists of, in order. */
  function Pieces(params: Option<LibraryParams>): seq<string> {
    (if Truthy(PageOf(params)) then ["page=" + IntToString(PageOf(params).value)] else [])
    + (if Truthy(LimitOf(params)) then ["limit=" + IntToString(LimitOf(params).value)] else [])
  }

  lemma QueryReadsBack(params: Option<LibraryParams>)
    ensures QueryOf(LibraryUrl(params)) == Serialize(AppendedParams(params))
  {
    var query := Serialize(AppendedParams(params));
    var url := LibraryUrl(params);
    if query != "" {
      assert url == BasePath + "?" + query;
      assert url[..|BasePath| + 1] == BasePath + "?";
      assert url[|BasePath| + 1..] == query;
    } else {
      assert url == BasePath;
      assert !(BasePath + "?" <= url);
    }
  }

  lemma QuerySplitsIntoPieces(params: Option<LibraryParams>)
    ensures var query := Serialize(AppendedParams(params));
      (if query == "" then [] else SplitOn(query, '&')) == Pieces(params)
  {
    var query := Serialize(AppendedParams(params));
    var page := PageOf(params);
    var limit := LimitOf(params);
    if Truthy(page) && Truthy(limit) {
      var p := "page=" + IntToString(page.value);
      var l := "limit=" + IntToString(limit.value);
      NumberHasNoSeparator(page.value);
      NumberHasNoSeparator(limit.value);
      assert query == p + ['&'] + l;
      assert '&' !in p && '&' !in l;
      SplitAtFirstSeparator(p, '&', l);
      SplitWithoutSeparator(l, '&');
    } else if Truthy(page) {
      var p := "page=" + IntToString(page.value);
      NumberHasNoSeparator(page.value);
      assert query == p;
      assert '&' !in p;
      SplitWithoutSeparator(p, '&');
    } else if Truthy(limit) {
      var l := "limit=" + IntToString(limit.value);
      NumberHasNoSeparator(limit.value);
      assert query == l;
      assert '&' !in l;
      SplitWithoutSeparator(l, '&');
    }
  }

  lemma PiecesReadBack(params: Option<LibraryParams>)
    ensures Lookup(Pieces(params), "page") == Sent(PageOf(params))
    ensures Lookup(Pieces(params), "limit") == Sent(LimitOf(params))
  {
    var page := PageOf(params);
    var limit := LimitOf(params);
    if Truthy(page) && Truthy(limit) {
      BothTruthyReadBack(params);
    } else if Truthy(page) {
      OnlyPageReadsBack(params);
    } else if Truthy(limit) {
      OnlyLimitReadsBack(params);
    } else {
      assert Pieces(params) == [];
    }
  }

  lemma BothTruthyReadBack(params: Option<LibraryParams>)
    requires Truthy(PageOf(params)) && Truthy(LimitOf(params))
    ensures Lookup(Pieces(params), "page") == PageOf(params)
    ensures Lookup(Pieces(params), "limit") == LimitOf(params)
  {
    var page := PageOf(params).value;
    var limit := LimitOf(params).value;
    assert Pieces(params) == ["page=" + IntToString(page), "limit=" + IntToString(limit)];
    BothPiecesReadBack(page, limit);
  }

  lemma OnlyPageReadsBack(params: Option<LibraryParams>)
    requires Truthy(PageOf(params)) && !Truthy(LimitOf(params))
    ensures Lookup(Pieces(params), "page") == PageOf(params)
    ensures Lookup(Pieces(params), "limit") == None
  {
    var page := PageOf(params).value;
    assert Pieces(params) == ["page=" + IntToString(page)];
    PieceReadsBack("page", page, "limit");
  }

  lemma OnlyLimitReadsBack(params: Option<LibraryParams>)
    requires !Truthy(PageOf(params)) && Truthy(LimitOf(params))
    ensures Lookup(Pieces(params), "page") == None
    ensures Lookup(Pieces(params), "limit") == LimitOf(params)
  {
    var limit := LimitOf(params).value;
    var l := "limit=" + IntToString(limit);
    assert Pieces(params) == [] + [l];
    assert [] + [l] == [l];
    PieceReadsBack("limit", limit, "page");
  }

  /** Looking a name up in two pieces: the first if it matches, else the second. */
  lemma LookupOfPair(p: string, l: string, name: string)
    ensures name + "=" <= p ==> Lookup([p, l], name) == Lookup([p], name)
    ensures !(name + "=" <= p) ==> Lookup([p, l], name) == Lookup([l], name)
  {
    assert [p, l][1..] == [l];
  }

  lemma BothPiecesReadBack(pageValue: int, limitValue: int)
    ensures Lookup(["page=" + IntToString(pageValue), "limit=" + IntToString(limitValue)], "page") == Some(pageValue)
    ensures Lookup(["page=" + IntToString(pageValue), "limit=" + IntToString(limitValue)], "limit") == Some(limitValue)
  {
    var p := "page=" + IntToString(pageValue);
    var l := "limit=" + IntToString(limitValue);
    PieceReadsBack("page", pageValue, "limit");
    PieceReadsBack("limit", limitValue, "page");
    assert p[..5] == "page" + "=";
    assert "page" + "=" <= p;
    assert ("limit" + "=")[0] != p[0];
    assert !("limit" + "=" <= p);
    LookupOfPair(p, l, "page");
    LookupOfPair(p, l, "limit");
  }

  /** The server reads back exactly the truthy page and limit: nothing lost, nothing added. */
  lemma UrlRoundTrip(params: Option<LibraryParams>)
    ensures ServerView(LibraryUrl(params)) == LibraryParams(Sent(PageOf(params)), Sent(LimitOf(params)))
  {
    QueryReadsBack(params);
    QuerySplitsIntoPieces(params);
    PiecesReadBack(params);
  }

  /** With nothing truthy to send the URL is the bare path, without a `?`. */
  lemma BareUrlWithoutParams(params: Option<LibraryParams>)
    requires !Truthy(PageOf(params)) && !Truthy(LimitOf(params))
    ensures LibraryUrl(params) == BasePath
    ensures '?' !in LibraryUrl(params)
  {
    assert '?' !in BasePath;
  }

  /** With something to send the URL is the path, `?`, and a non-empty query string. */
  lemma QueryAfterQuestionMark(params: Option<LibraryParams>)
    requires Truthy(PageOf(params)) || Truthy(LimitOf(params))
    ensures exists query: string :: query != "" && LibraryUrl(params) == BasePath + "?" + query
  {
    var pairs := AppendedParams(params);
    var query := Serialize(pairs);
    assert query != "" by {
      assert |pairs| >= 1;
      assert |query| >= 1;
    }
    assert LibraryUrl(params) == BasePath + "?" + query;
  }

  /** When both are sent, `page` comes before `limit`. */
  lemma PageBeforeLimit(page: int, limit: int)
    requires page != 0 && limit != 0
    ensures LibraryUrl(Some(LibraryParams(Some(page), Some(limit))))
      == BasePath + "?page=" + IntToString(page) + "&limit=" + IntToString(limit)
  {
    var params := Some(LibraryParams(Some(page), Some(limit)));
    var p := IntToString(page);
    var l := IntToString(limit);
    var pairs := AppendedParams(params);
    assert pairs == [("page", p), ("limit", l)];
    assert pairs[1..] == [("limit", l)];
    var query := Serialize(pairs);
    assert Serialize(pairs[1..]) == "limit" + "=" + l;
    assert query == "page" + "=" + p + "&" + ("limit" + "=" + l);
    assert query != "";
    assert LibraryUrl(params) == BasePath + "?" + query;
    assert BasePath + "?" + query == BasePath + "?page=" + p + "&limit=" + l;
  }

  /** The key ignores the limit, although the URL does not. */
  lemma KeyIgnoresLimit(page: Option<int>, limit1: Option<int>, limit2: Option<int>)
    ensures QueryKey(Some(LibraryParams(page, limit1))) == QueryKey(Some(LibraryParams(page, limit2)))
    ensures Sent(limit1) != Sent(limit2) ==>
      LibraryUrl(Some(LibraryParams(page, limit1))) != LibraryUrl(Some(LibraryParams(page, limit2)))
  {
    if Sent(limit1) != Sent(limit2) {
      UrlRoundTrip(Some(LibraryParams(page, limit1)));
      UrlRoundTrip(Some(LibraryParams(page, limit2)));
    }
  }

  /** Page 0 is filed under key "0" but sends no `page` at all, so the key and the request part ways. */
  lemma PageZero(limit: Option<int>)
    ensures QueryKey(Some(LibraryParams(Some(0), limit))) == [KeyRoot, "0"]
    ensures ServerView(LibraryUrl(Some(LibraryParams(Some(0), limit)))).page == None
    ensures LibraryUrl(Some(LibraryParams(Some(0), limit))) == LibraryUrl(Some(LibraryParams(None, limit)))
    ensures QueryKey(Some(LibraryParams(None, limit))) == [KeyRoot, "1"]
  {
    UrlRoundTrip(Some(LibraryParams(Some(0), limit)));
  }

  /** Two keys are equal exactly when they stand for the same page (a missing page counting as 1). */
  lemma KeyIdentifiesPage(a: Option<LibraryParams>, b: Option<LibraryParams>)
    ensures QueryKey(a) == QueryKey(b) <==> PageOf(a).GetOr(DefaultPage) == PageOf(b).GetOr(DefaultPage)
  {
    if QueryKey(a) == QueryKey(b) {
      IntToStringInjective(PageOf(a).GetOr(DefaultPage), PageOf(b).GetOr(DefaultPage));
    }
  }
}
