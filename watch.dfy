/**
 * Vocabulary shared by the three revisions of the content watch: the
 * platform constants, JavaScript truthiness, URL normalisation, request
 * headers, notification messages and the outcome of one check cycle.
 */
module Watch {
  import opened Wrappers
  import opened Platform

  /**
   * The values of Constants.js, which is not part of this model: they are
   * left unspecified, so nothing proved here depends on what they are.
   */
  const WEB_PLATFORM_DESKTOP: string
  const WEB_PLATFORM_MOBILE: string
  const USER_AGENT_DESKTOP: string

  /** A value held in the app's React state: a string or a boolean. */
  datatype JsValue = Str(s: string) | Bool(b: bool)

  /** `!v` for a string that may be null or undefined: missing or empty. */
  predicate IsFalsy(v: Option<string>)
  {
    v == None || v == Some("")
  }

  /** How one check cycle ended. */
  datatype Outcome =
    | Skipped     // url or search text missing: the background job was stopped
    | Failed      // fetch or response.text() threw
    | Completed   // the page was read and compared

  /** The collaborators after one cycle, and how it ended. */
  datatype Run = Run(after: World, outcome: Outcome)

  /**
   * The request headers: a desktop User-Agent exactly for the desktop
   * platform type, no header otherwise.
   */
  function RequestHeaders(webPlatformType: Option<string>): (headers: map<string, string>)
    ensures "User-Agent" in headers <==> webPlatformType == Some(WEB_PLATFORM_DESKTOP)
    ensures "User-Agent" in headers ==> headers["User-Agent"] == USER_AGENT_DESKTOP
    ensures headers.Keys <= {"User-Agent"}
  {
    if webPlatformType == Some(WEB_PLATFORM_DESKTOP) then map["User-Agent" := USER_AGENT_DESKTOP] else map[]
  }

  /** `url.substring(0, 4) == "http"`. */
  predicate StartsWithHttp(url: string) {
    |url| >= 4 && url[..4] == "http"
  }

  /** Prefixes "https://" unless the URL already begins with "http". */
  function NormalizeUrl(url: string): (r: string)
    ensures StartsWithHttp(r)
    ensures StartsWithHttp(url) ==> r == url
    ensures !StartsWithHttp(url) ==> r == "https://" + url
    ensures |r| >= |url| && r[|r| - |url|..] == url
  {
    if StartsWithHttp(url) then url else "https://" + url
  }

  /** Normalising twice is normalising once. */
  lemma NormalizeUrlIdempotent(url: string)
    ensures NormalizeUrl(NormalizeUrl(url)) == NormalizeUrl(url)
  {
  }

  /**
   * The check is on four letters, not on a scheme, so a bare host whose name
   * begins with "http" is fetched without any scheme.
   */
  lemma NormalizeUrlKeepsHttpHost()
    ensures NormalizeUrl("httpbin.org") == "httpbin.org"
  {
    assert "httpbin.org"[..4] == "http";
  }

  function FoundMessage(searchText: string, url: string): string {
    searchText + " was found on " + url
  }

  function NotFoundMessage(searchText: string, url: string): string {
    searchText + " was not found on " + url
  }

  /** The two messages never coincide, and both begin with the search text and end with the URL. */
  lemma MessagesShape(searchText: string, url: string)
    ensures FoundMessage(searchText, url) != NotFoundMessage(searchText, url)
    ensures var m := FoundMessage(searchText, url);
            m[..|searchText|] == searchText && m[|m| - |url|..] == url
    ensures var m := NotFoundMessage(searchText, url);
            m[..|searchText|] == searchText && m[|m| - |url|..] == url
  {
    assert |NotFoundMessage(searchText, url)| == |FoundMessage(searchText, url)| + 4;
  }
}
