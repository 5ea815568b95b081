/**
 * The scenarios of __tests__/BackgroundService.test.js, stated over the
 * model of the cycle: each lemma fixes the inputs of one test and proves the
 * observations the test makes, for every starting state of the collaborators.
 */
module ServiceExamples {
  import opened Wrappers
  import opened JsText
  import opened Platform
  import opened Watch
  import opened BackgroundService

  const PAGE: string := "<html><body>Hello World</body></html>"
  const LOWER_WORLD_PAGE: string := "<html><body>Hello world</body></html>"

  function Settings(searchText: string, caseSensitiveSearch: string, searchAbsence: string): CheckData {
    CheckData(Some("http://example.com"), Some(searchText), Some("mobile"), Some(caseSensitiveSearch), Some(searchAbsence))
  }

  lemma PageHasWorld()
    ensures Found(PAGE, "World", Some("no"))
  {
    assert PAGE[18..23] == "World";
    assert OccursFoldedAt(PAGE, "World", 18);
    ContainsIgnoringCaseIff(PAGE, "World");
  }

  lemma PageLacksUniverse()
    ensures !Found(PAGE, "Universe", Some("no"))
  {
    assert 'u' !in PAGE && 'U' !in PAGE;
    FirstCharAbsent(LowerCase(PAGE), LowerCase("Universe"));
  }

  lemma LowerWorldPageLacksWorldExactly()
    ensures !Found(LOWER_WORLD_PAGE, "World", Some("yes"))
  {
    assert 'W' !in LOWER_WORLD_PAGE;
    FirstCharAbsent(LOWER_WORLD_PAGE, "World");
  }

  lemma LowerWorldPageHasWorldFolded()
    ensures Found(LOWER_WORLD_PAGE, "World", Some("no"))
  {
    assert LOWER_WORLD_PAGE[18..23] == "world";
    assert OccursFoldedAt(LOWER_WORLD_PAGE, "World", 18);
    ContainsIgnoringCaseIff(LOWER_WORLD_PAGE, "World");
  }

  lemma FooBarHasFoo()
    ensures Found("foo bar", "foo", Some("no"))
  {
    assert "foo bar"[..3] == "foo";
    assert OccursFoldedAt("foo bar", "foo", 0);
    ContainsIgnoringCaseIff("foo bar", "foo");
  }

  lemma WorldMessage()
    ensures FoundMessage("World", "http://example.com") == "World was found on http://example.com"
  {
  }

  lemma UniverseMessage()
    ensures NotFoundMessage("Universe", "http://example.com") == "Universe was not found on http://example.com"
  {
  }

  lemma FooMessage()
    ensures FoundMessage("foo", "http://test.com") == "foo was found on http://test.com"
  {
  }

  /** Presence mode, text present: one notification naming the URL as given, and lastChecked written. */
  lemma NotifiesWhenFound(w: World, now: nat)
    ensures var run := Cycle(w, Settings("World", "no", "no"), Some(PAGE), now);
            && run.after.notifications == w.notifications + ["World was found on http://example.com"]
            && run.after.requests[|w.requests|].url == "http://example.com"
            && run.after.storage == w.storage["lastChecked" := NatToDecimal(now)]
  {
    PageHasWorld();
    WorldMessage();
  }

  /** Presence mode, text absent: no notification. */
  lemma SilentWhenNotFound(w: World, now: nat)
    ensures Cycle(w, Settings("Universe", "no", "no"), Some(PAGE), now).after.notifications == w.notifications
  {
    PageLacksUniverse();
  }

  /** Absence mode, text absent: the "was not found" notification. */
  lemma AbsenceNotifiesWhenNotFound(w: World, now: nat)
    ensures Cycle(w, Settings("Universe", "no", "yes"), Some(PAGE), now).after.notifications ==
            w.notifications + ["Universe was not found on http://example.com"]
  {
    PageLacksUniverse();
    UniverseMessage();
  }

  /** Absence mode, text present: no notification. */
  lemma AbsenceSilentWhenFound(w: World, now: nat)
    ensures Cycle(w, Settings("World", "no", "yes"), Some(PAGE), now).after.notifications == w.notifications
  {
    PageHasWorld();
  }

  /** "World" is not in "Hello world" when case matters ... */
  lemma CaseSensitiveMisses(w: World, now: nat)
    ensures Cycle(w, Settings("World", "yes", "no"), Some(LOWER_WORLD_PAGE), now).after.notifications == w.notifications
  {
    LowerWorldPageLacksWorldExactly();
    assert Decide(false, Some("no"), "World", "http://example.com").show == false;
  }

  /** ... and is when it does not. */
  lemma CaseInsensitiveHits(w: World, now: nat)
    ensures Cycle(w, Settings("World", "no", "no"), Some(LOWER_WORLD_PAGE), now).after.notifications ==
            w.notifications + ["World was found on http://example.com"]
  {
    LowerWorldPageHasWorldFolded();
    WorldMessage();
  }

  /** `background_task` on the stored settings of the test fetches the stored URL and reports the match. */
  lemma BackgroundTaskUsesStoredSettings(w: World, now: nat)
    requires w.storage == map["url" := "http://test.com", "searchText" := "foo", "webPlatformType" := "mobile",
                              "caseSensitiveSearch" := "no", "searchAbsence" := "no"]
    ensures var run := Cycle(w, StoredCheckData(w.storage), Some("foo bar"), now);
            && run.after.requests[|w.requests|].url == "http://test.com"
            && run.after.notifications == w.notifications + ["foo was found on http://test.com"]
  {
    FooBarHasFoo();
    FooMessage();
  }

  /** An empty search text only stops the timer. */
  lemma EmptySearchTextOnlyStopsTimer(w: World, response: Option<string>, now: nat)
    ensures Cycle(w, Settings("", "no", "no"), response, now) == Run(w.(timers := 0), Skipped)
  {
  }
}
