/**
 * How the three revisions of the check cycle relate. Each is modelled on its
 * own; these lemmas say where one agrees with another and where it does not.
 */
module Revisions {
  import opened Wrappers
  import opened JsText
  import opened Platform
  import opened Watch
  import BackgroundService
  import SrcApp
  import RootApp

  /**
   * For a URL that already begins with "http", the current engine with case
   * folding and presence mode behaves exactly like the cycle of src/App.js.
   */
  lemma ServiceMatchesSrcAppDefaults(w: World, url: Option<string>, searchText: Option<string>,
                                     webPlatformType: Option<string>, caseSensitiveSearch: Option<string>,
                                     searchAbsence: Option<string>, response: Option<string>, now: nat)
    requires url.Some? ==> StartsWithHttp(url.value)
    requires caseSensitiveSearch != Some("yes") && searchAbsence != Some("yes")
    ensures BackgroundService.Cycle(w, BackgroundService.CheckData(url, searchText, webPlatformType, caseSensitiveSearch, searchAbsence), response, now)
            == SrcApp.Cycle(w, url, searchText, webPlatformType, response, now)
  {
  }

  /**
   * For a URL that already begins with "http", the current engine in
   * case-sensitive presence mode notifies exactly as the first revision does;
   * it differs only in recording lastChecked and in the User-Agent header.
   */
  lemma ServiceMatchesRootAppWhenCaseSensitive(w: World, url: Option<string>, searchText: Option<string>,
                                               webPlatformType: Option<string>, searchAbsence: Option<string>,
                                               response: Option<string>, now: nat)
    requires url.Some? ==> StartsWithHttp(url.value)
    requires searchAbsence != Some("yes")
    ensures var service := BackgroundService.Cycle(w, BackgroundService.CheckData(url, searchText, webPlatformType, Some("yes"), searchAbsence), response, now);
            var root := RootApp.Cycle(w, url, searchText, response);
            && service.outcome == root.outcome
            && service.after.notifications == root.after.notifications
            && service.after.timers == root.after.timers
  {
  }

  /** Whatever the first revision reports, the second reports too, with the same message. */
  lemma RootNotificationImpliesSrcNotification(w: World, url: Option<string>, searchText: Option<string>,
                                               webPlatformType: Option<string>, response: Option<string>, now: nat)
    requires |RootApp.Cycle(w, url, searchText, response).after.notifications| > |w.notifications|
    ensures SrcApp.Cycle(w, url, searchText, webPlatformType, response, now).after.notifications ==
            RootApp.Cycle(w, url, searchText, response).after.notifications
  {
    ExactMatchSurvivesFolding(response.value, searchText.value);
  }

  /** "example.com" does not start with "http", so both app revisions prefix it. */
  lemma BareHostGetsScheme()
    ensures !StartsWithHttp("example.com") && NormalizeUrl("example.com") == "https://example.com"
  {
    assert "example.com"[..4] == "exam";
  }

  /**
   * A bare host name is fetched as typed by the current engine but with
   * "https://" in front by both app revisions.
   */
  lemma OnlyAppRevisionsAddScheme(w: World, searchText: string, response: Option<string>, now: nat)
    requires searchText != ""
    ensures BackgroundService.Cycle(w, BackgroundService.CheckData(Some("example.com"), Some(searchText), None, None, None), response, now)
              .after.requests[|w.requests|].url == "example.com"
    ensures SrcApp.Cycle(w, Some("example.com"), Some(searchText), None, response, now)
              .after.requests[|w.requests|].url == "https://example.com"
    ensures RootApp.Cycle(w, Some("example.com"), Some(searchText), response)
              .after.requests[|w.requests|].url == "https://example.com"
  {
    BareHostGetsScheme();
  }
}
