/**
 * The current watch engine: `checkUrlForText` runs one cycle over a record of
 * five settings, and `background_task` reads those settings from storage and
 * runs the cycle. Every failure inside either is caught and logged.
 */
module BackgroundService {
  import opened Wrappers
  import opened JsText
  import opened Platform
  import opened Watch

  /** The argument of `checkUrlForText`; a missing or null field is None. */
  datatype CheckData = CheckData(
    url: Option<string>,
    searchText: Option<string>,
    webPlatformType: Option<string>,
    caseSensitiveSearch: Option<string>,
    searchAbsence: Option<string>
  )

  /** Whether the page text holds the search text: exact for "yes", folded otherwise. */
  function Found(htmlText: string, searchText: string, caseSensitiveSearch: Option<string>): bool {
    if caseSensitiveSearch == Some("yes") then Contains(htmlText, searchText)
    else ContainsIgnoringCase(htmlText, searchText)
  }

  /** What `Found` means: an exact window for "yes", a window equal up to case otherwise. */
  lemma FoundIff(htmlText: string, searchText: string, caseSensitiveSearch: Option<string>)
    ensures caseSensitiveSearch == Some("yes") ==>
              (Found(htmlText, searchText, caseSensitiveSearch) <==> exists i :: OccursAt(htmlText, searchText, i))
    ensures caseSensitiveSearch != Some("yes") ==>
              (Found(htmlText, searchText, caseSensitiveSearch) <==> exists i :: OccursFoldedAt(htmlText, searchText, i))
  {
    ContainsIffOccurs(htmlText, searchText);
    ContainsIgnoringCaseIff(htmlText, searchText);
  }

  /** Switching case sensitivity off never loses a match. */
  lemma CaseSensitiveFoundImpliesInsensitive(htmlText: string, searchText: string, other: Option<string>)
    requires other != Some("yes")
    requires Found(htmlText, searchText, Some("yes"))
    ensures Found(htmlText, searchText, other)
  {
    ExactMatchSurvivesFolding(htmlText, searchText);
  }

  /** Whether to show a notification, and with which message. */
  datatype Decision = Decision(show: bool, message: string)

  function Decide(textFound: bool, searchAbsence: Option<string>, searchText: string, url: string): Decision {
    if searchAbsence == Some("yes") then Decision(!textFound, NotFoundMessage(searchText, url))
    else Decision(textFound, FoundMessage(searchText, url))
  }

  /**
   * Absence mode is the exact negation of presence mode for the same match
   * result, and each mode reports with its own message.
   */
  lemma AbsenceFlipsDecision(textFound: bool, other: Option<string>, searchText: string, url: string)
    requires other != Some("yes")
    ensures Decide(textFound, Some("yes"), searchText, url).show == !Decide(textFound, other, searchText, url).show
    ensures Decide(textFound, other, searchText, url).show <==> textFound
    ensures Decide(textFound, Some("yes"), searchText, url).message == NotFoundMessage(searchText, url)
    ensures Decide(textFound, other, searchText, url).message == FoundMessage(searchText, url)
  {
  }

  /** `!url || !searchText`: the guard that stops the background timer. */
  predicate Incomplete(data: CheckData) {
    IsFalsy(data.url) || IsFalsy(data.searchText)
  }

  /** One run of `checkUrlForText` over the collaborators `w`; `response` is what the fetch yields. */
  function Cycle(w: World, data: CheckData, response: Option<string>, now: nat): (run: Run)
    // Incomplete configuration: the timer is stopped and nothing else happens.
    ensures run.outcome == Skipped <==> Incomplete(data)
    ensures run.outcome == Skipped ==> run.after == w.(timers := 0)
    // Otherwise the timer is left alone and the URL is fetched exactly as given.
    ensures run.outcome != Skipped ==> run.after.timers == w.timers
    ensures run.outcome != Skipped ==>
              run.after.requests == w.requests + [Request(data.url.value, RequestHeaders(data.webPlatformType))]
    // A throwing fetch is contained: no notification and no write.
    ensures run.outcome == Failed <==> !Incomplete(data) && response.None?
    // lastChecked is written once exactly when the page was compared.
    ensures run.after.storage == if run.outcome == Completed then w.storage["lastChecked" := NatToDecimal(now)] else w.storage
    // At most one notification, and only the one the decision calls for.
    ensures |w.notifications| <= |run.after.notifications| <= |w.notifications| + 1
    ensures run.after.notifications[..|w.notifications|] == w.notifications
    ensures |run.after.notifications| == |w.notifications| + 1 <==>
              run.outcome == Completed &&
              Decide(Found(response.value, data.searchText.value, data.caseSensitiveSearch),
                     data.searchAbsence, data.searchText.value, data.url.value).show
    ensures |run.after.notifications| == |w.notifications| + 1 ==>
              run.after.notifications[|w.notifications|] ==
              Decide(Found(response.value, data.searchText.value, data.caseSensitiveSearch),
                     data.searchAbsence, data.searchText.value, data.url.value).message
  {
    if Incomplete(data) then Run(w.(timers := 0), Skipped)
    else
      var url := data.url.value;
      var searchText := data.searchText.value;
      var fetched := w.(requests := w.requests + [Request(url, RequestHeaders(data.webPlatformType))]);
      match response
      case None => Run(fetched, Failed)
      case Some(htmlText) =>
        var decision := Decide(Found(htmlText, searchText, data.caseSensitiveSearch), data.searchAbsence, searchText, url);
        var notified := if decision.show then fetched.notifications + [decision.message] else fetched.notifications;
        Run(fetched.(notifications := notified, storage := fetched.storage["lastChecked" := NatToDecimal(now)]), Completed)
  }

  /** `checkUrlForText(data)`; the returned outcome is what the caller cannot see but the model records. */
  method CheckUrlForText(device: Device, data: CheckData, response: Option<string>, now: nat) returns (outcome: Outcome)
    modifies device
    ensures var run := Cycle(old(device.View()), data, response, now);
            device.View() == run.after && outcome == run.outcome
  {
    if Incomplete(data) {
      device.Cancel();
      return Skipped;
    }
    var url := data.url.value;
    var searchText := data.searchText.value;
    var headers := RequestHeaders(data.webPlatformType);
    var body := device.Fetch(url, headers, response);
    if body.None? {
      // the catch block only logs the error
      return Failed;
    }
    var decision := Decide(Found(body.value, searchText, data.caseSensitiveSearch), data.searchAbsence, searchText, url);
    if decision.show {
      device.Notify(decision.message);
    }
    device.SetItem("lastChecked", NatToDecimal(now));
    outcome := Completed;
  }

  // ---------------------------------------------------------------------------
  // background_task
  // ---------------------------------------------------------------------------

  /** The keys `background_task` asks storage for, in order. */
  const CHECK_KEYS: seq<string> := ["url", "searchText", "webPlatformType", "caseSensitiveSearch", "searchAbsence"]

  /** `AsyncStorage.multiGet(keys)`: each key with its value or null, in the order asked. */
  function MultiGet(storage: map<string, string>, keys: seq<string>): seq<(string, Option<string>)> {
    seq(|keys|, i requires 0 <= i < |keys| => (keys[i], Lookup(storage, keys[i])))
  }

  /**
   * The `forEach` that turns `[key, value]` pairs into an object: every key
   * that occurs gets a field, holding the value of its last pair.
   */
  method RecordFromPairs(values: seq<(string, Option<string>)>) returns (data: map<string, Option<string>>)
    ensures forall k :: k in data <==> exists i :: 0 <= i < |values| && values[i].0 == k
    ensures forall i :: 0 <= i < |values| && (forall j :: i < j < |values| ==> values[j].0 != values[i].0) ==>
              values[i].0 in data && data[values[i].0] == values[i].1
  {
    data := map[];
    var n := 0;
    while n < |values|
      invariant 0 <= n <= |values|
      invariant forall k :: k in data <==> exists i :: 0 <= i < n && values[i].0 == k
      invariant forall i :: 0 <= i < n && (forall j :: i < j < n ==> values[j].0 != values[i].0) ==>
                  values[i].0 in data && data[values[i].0] == values[i].1
    {
      var (key, value) := values[n];
      data := data[key := value];
      n := n + 1;
    }
  }

  /** `data.key` for a plain object: undefined, i.e. None, when the key was never set. */
  function Field(data: map<string, Option<string>>, key: string): Option<string> {
    if key in data then data[key] else None
  }

  /** The five settings as `background_task` hands them on, read from `storage`. */
  function StoredCheckData(storage: map<string, string>): CheckData {
    CheckData(Lookup(storage, "url"), Lookup(storage, "searchText"), Lookup(storage, "webPlatformType"),
              Lookup(storage, "caseSensitiveSearch"), Lookup(storage, "searchAbsence"))
  }

  /**
   * `background_task()`. When `multiGetFails` the storage read throws and the
   * error is only logged (the result is None); otherwise the cycle runs on the
   * stored settings.
   */
  method BackgroundTask(device: Device, multiGetFails: bool, response: Option<string>, now: nat)
    returns (outcome: Option<Outcome>)
    modifies device
    ensures multiGetFails ==> device.View() == old(device.View()) && outcome == None
    ensures !multiGetFails ==>
              var run := Cycle(old(device.View()), StoredCheckData(old(device.storage)), response, now);
              device.View() == run.after && outcome == Some(run.outcome)
  {
    if multiGetFails {
      return None;
    }
    var values := MultiGet(device.storage, CHECK_KEYS);
    var data := RecordFromPairs(values);
    ghost var expected := StoredCheckData(device.storage);
    forall i | 0 <= i < |CHECK_KEYS|
      ensures Field(data, CHECK_KEYS[i]) == Lookup(device.storage, CHECK_KEYS[i])
    {
      assert values[i].0 == CHECK_KEYS[i];
      assert forall j :: i < j < |values| ==> values[j].0 != values[i].0;
    }
    var checkData := CheckData(Field(data, "url"), Field(data, "searchText"), Field(data, "webPlatformType"),
                               Field(data, "caseSensitiveSearch"), Field(data, "searchAbsence"));
    assert checkData.url == expected.url by { assert CHECK_KEYS[0] == "url"; }
    assert checkData.searchText == expected.searchText by { assert CHECK_KEYS[1] == "searchText"; }
    assert checkData.webPlatformType == expected.webPlatformType by { assert CHECK_KEYS[2] == "webPlatformType"; }
    assert checkData.caseSensitiveSearch == expected.caseSensitiveSearch by { assert CHECK_KEYS[3] == "caseSensitiveSearch"; }
    assert checkData.searchAbsence == expected.searchAbsence by { assert CHECK_KEYS[4] == "searchAbsence"; }
    assert checkData == expected;
    var result := CheckUrlForText(device, checkData, response, now);
    outcome := Some(result);
  }
}
