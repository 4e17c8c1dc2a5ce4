/** `GET /www-redirect`: moves the `www.` host to the bare domain, keeping path and query. */
module WwwRedirect {

  const WwwHost: string := "www.skyarmenia.com"
  const CanonicalOrigin: string := "https://skyarmenia.com"

  /** A 308 permanent redirect (section 15.4.9 of RFC 9110), or 204 No Content with no body. */
  datatype Reply = PermanentRedirect(status: int, location: string) | NoContent(status: int)

  /** The handler, on the request URL's hostname, pathname and search (`?...` or empty). */
  function Get(hostname: string, pathname: string, search: string): (r: Reply)
    ensures r.PermanentRedirect? <==> hostname == WwwHost
    ensures r.PermanentRedirect? ==> r.status == 308
    ensures r.PermanentRedirect? ==>
      && |r.location| >= |CanonicalOrigin|
      && r.location[..|CanonicalOrigin|] == CanonicalOrigin
      && r.location[|CanonicalOrigin|..] == pathname + search
    ensures r.NoContent? ==> r.status == 204
  {
    if hostname == WwwHost then PermanentRedirect(308, CanonicalOrigin + pathname + search)
    else NoContent(204)
  }

  /** The bare domain is not redirected again, so the redirect cannot loop. */
  lemma CanonicalHostStays(pathname: string, search: string)
    ensures Get("skyarmenia.com", pathname, search) == NoContent(204)
  {
  }
}
