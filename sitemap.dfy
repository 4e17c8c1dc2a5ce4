/**
 * `GET /sitemap.xml`: a sitemap in the sitemaps.org 0.9 format listing six
 * fixed pages under the site's base URL.
 */
module Sitemap {
  import opened Text

  const DefaultBase: string := "https://skyarmenia.com"

  /** The pages, in the order they are listed. */
  const Pages: seq<string> := ["", "/search", "/login", "/signup", "/offers", "/contact"]

  /** `.replace(/\/+$/, '')`: drops the run of slashes at the end. */
  function StripTrailingSlashes(s: string): (r: string)
    ensures |r| <= |s| && r == s[..|r|]
    ensures forall i :: |r| <= i < |s| ==> s[i] == '/'
    ensures r == [] || r[|r| - 1] != '/'
    decreases |s|
  {
    if s != [] && s[|s| - 1] == '/' then StripTrailingSlashes(s[..|s| - 1]) else s
  }

  /** Stripping twice is stripping once. */
  lemma StripIdempotent(s: string)
    ensures StripTrailingSlashes(StripTrailingSlashes(s)) == StripTrailingSlashes(s)
  {
  }

  /** The configured site URL when it is non-empty, else the default, without trailing slashes. */
  function Base(siteUrl: Option<string>): (r: string)
    ensures r == [] || r[|r| - 1] != '/'
    ensures siteUrl.Some? && siteUrl.value != "" ==> r == StripTrailingSlashes(siteUrl.value)
    ensures siteUrl.None? || siteUrl.value == "" ==> r == DefaultBase
  {
    StripTrailingSlashes(OrDefault(siteUrl, DefaultBase))
  }

  /** One `<url>` element; the location is not escaped. */
  function Entry(base: string, path: string): string {
    "<url><loc>" + base + path + "</loc></url>"
  }

  /** `pages.map(...)`. */
  function Entries(base: string): (r: seq<string>)
    ensures |r| == |Pages|
    ensures forall i :: 0 <= i < |Pages| ==> r[i] == Entry(base, Pages[i])
  {
    seq(|Pages|, i requires 0 <= i < |Pages| => Entry(base, Pages[i]))
  }

  /** `.join('\n')`. */
  function JoinLines(lines: seq<string>): string {
    if lines == [] then "" else if |lines| == 1 then lines[0] else lines[0] + "\n" + JoinLines(lines[1..])
  }

  /** Position of the first newline, or |s| when there is none. */
  function NewlineIndex(s: string): (i: nat)
    ensures i <= |s| && '\n' !in s[..i]
    ensures i < |s| ==> s[i] == '\n'
  {
    if s == [] || s[0] == '\n' then 0 else 1 + NewlineIndex(s[1..])
  }

  /** `s.split('\n')`. */
  function SplitLines(s: string): (r: seq<string>)
    decreases |s|
  {
    var i := NewlineIndex(s);
    if i == |s| then [s] else [s[..i]] + SplitLines(s[i + 1..])
  }

  /** Splitting the joined lines gives them back when no line holds a newline. */
  lemma {:induction false} SplitJoin(lines: seq<string>)
    requires |lines| >= 1
    requires forall k :: 0 <= k < |lines| ==> '\n' !in lines[k]
    ensures SplitLines(JoinLines(lines)) == lines
  {
    if |lines| == 1 {
      assert NewlineIndex(lines[0]) == |lines[0]|;
    } else {
      var head, rest := lines[0], JoinLines(lines[1..]);
      var s := head + "\n" + rest;
      NewlineAfter(head, rest);
      assert s[..|head|] == head && s[|head| + 1..] == rest;
      SplitJoin(lines[1..]);
    }
  }

  /** The first newline of `head + "\n" + rest` is the one after `head`. */
  lemma {:induction false} NewlineAfter(head: string, rest: string)
    requires '\n' !in head
    ensures NewlineIndex(head + "\n" + rest) == |head|
    decreases |head|
  {
    if head != [] {
      assert (head + "\n" + rest)[1..] == head[1..] + "\n" + rest;
      NewlineAfter(head[1..], rest);
    }
  }

  /** The `<urlset>` body lists exactly the six entries, one per line, when the base holds no newline. */
  lemma UrlLinesAreEntries(base: string)
    requires '\n' !in base
    ensures SplitLines(JoinLines(Entries(base))) == Entries(base)
    ensures |SplitLines(JoinLines(Entries(base)))| == 6
  {
    var e := Entries(base);
    forall k | 0 <= k < |e|
      ensures '\n' !in e[k]
    {
      assert e[k] == "<url><loc>" + base + Pages[k] + "</loc></url>";
    }
    SplitJoin(e);
  }

  const XmlDeclaration: string := "<?xml version=\"1.0\" encoding=\"UTF-8\"?>"
  const SitemapNamespace: string := "http://www.sitemaps.org/schemas/sitemap/0.9"
  const UrlsetOpen: string := "<urlset xmlns=\"" + SitemapNamespace + "\">"
  const UrlsetClose: string := "</urlset>"

  /** The response: the document, served as `application/xml`. */
  datatype XmlResponse = XmlResponse(body: string, contentType: string)

  /** The handler. */
  function Get(siteUrl: Option<string>): (r: XmlResponse)
    ensures r.contentType == "application/xml"
    ensures r.body == XmlDeclaration + "\n" + UrlsetOpen + "\n" + JoinLines(Entries(Base(siteUrl))) + "\n" + UrlsetClose
  {
    XmlResponse(XmlDeclaration + "\n" + UrlsetOpen + "\n" + JoinLines(Entries(Base(siteUrl))) + "\n" + UrlsetClose,
                "application/xml")
  }

  /** Joining a list with one more line appends that line after a newline. */
  lemma {:induction false} JoinAppend(lines: seq<string>, last: string)
    requires |lines| >= 1
    ensures JoinLines(lines + [last]) == JoinLines(lines) + "\n" + last
    decreases |lines|
  {
    if |lines| > 1 {
      assert (lines + [last])[1..] == lines[1..] + [last];
      JoinAppend(lines[1..], last);
    }
  }

  /** The fixed lines of the document hold no newline. */
  lemma FixedLinesOneLine()
    ensures '\n' !in XmlDeclaration && '\n' !in UrlsetOpen && '\n' !in UrlsetClose
  {
    assert '\n' !in SitemapNamespace;
  }

  /** The body is the newline-join of the declaration, the opening tag, the entries and the closing tag. */
  lemma BodyIsJoin(siteUrl: Option<string>)
    ensures Get(siteUrl).body == JoinLines([XmlDeclaration, UrlsetOpen] + Entries(Base(siteUrl)) + [UrlsetClose])
  {
    var e := Entries(Base(siteUrl));
    var lines := [XmlDeclaration, UrlsetOpen] + e + [UrlsetClose];
    JoinAppend(e, UrlsetClose);
    assert lines[1..] == [UrlsetOpen] + (e + [UrlsetClose]);
    assert lines[1..][1..] == e + [UrlsetClose];
  }

  /** The whole document splits into the declaration, the opening tag, the six entries and the closing tag. */
  lemma DocumentLines(siteUrl: Option<string>)
    requires '\n' !in Base(siteUrl)
    ensures SplitLines(Get(siteUrl).body) == [XmlDeclaration, UrlsetOpen] + Entries(Base(siteUrl)) + [UrlsetClose]
  {
    var e := Entries(Base(siteUrl));
    var lines := [XmlDeclaration, UrlsetOpen] + e + [UrlsetClose];
    BodyIsJoin(siteUrl);
    FixedLinesOneLine();
    UrlLinesAreEntries(Base(siteUrl));
    forall k | 0 <= k < |lines|
      ensures '\n' !in lines[k]
    {
      if 2 <= k < |lines| - 1 {
        assert lines[k] == e[k - 2];
      }
    }
    SplitJoin(lines);
  }

  /** With no site URL configured (or an empty one), every entry sits on the default site. */
  lemma DefaultSite(siteUrl: Option<string>)
    requires siteUrl.None? || siteUrl.value == ""
    ensures forall i :: 0 <= i < |Pages| ==> Entries(Base(siteUrl))[i] == Entry(DefaultBase, Pages[i])
    ensures Entries(Base(siteUrl))[0] == "<url><loc>https://skyarmenia.com</loc></url>"
  {
    assert Base(siteUrl) == DefaultBase;
    assert Pages[0] == "";
    assert Entry(DefaultBase, "") == "<url><loc>https://skyarmenia.com</loc></url>";
  }
}
