/**
 * The second revision of the app screen (src/App.js): a module-level check
 * cycle that normalises the URL and always matches case-insensitively, and
 * the `App` component, whose state is mirrored into storage and whose
 * "Start Checking" / "Stop Checking" buttons switch the background job.
 */
module SrcApp {
  import opened Wrappers
  import opened JsText
  import opened Platform
  import opened Watch

  /** One run of `checkUrlForText(url, searchText, webPlatformType)`; `response` is what the fetch yields. */
  function Cycle(w: World, url: Option<string>, searchText: Option<string>, webPlatformType: Option<string>,
                 response: Option<string>, now: nat): (run: Run)
    // Incomplete configuration: the background task is cancelled and nothing else happens.
    ensures run.outcome == Skipped <==> IsFalsy(url) || IsFalsy(searchText)
    ensures run.outcome == Skipped ==> run.after == w.(timers := 0)
    // Otherwise the normalised URL is fetched once and the timer is left alone.
    ensures run.outcome != Skipped ==> run.after.timers == w.timers
    ensures run.outcome != Skipped ==>
              run.after.requests == w.requests + [Request(NormalizeUrl(url.value), RequestHeaders(webPlatformType))]
    // A throwing fetch propagates: nothing after it happens.
    ensures run.outcome == Failed <==> !IsFalsy(url) && !IsFalsy(searchText) && response.None?
    ensures run.after.storage ==
              if run.outcome == Completed then w.storage["lastChecked" := NatToDecimal(now)] else w.storage
    // Case-insensitive presence only, reported with the normalised URL.
    ensures run.after.notifications ==
              if run.outcome == Completed && ContainsIgnoringCase(response.value, searchText.value)
              then w.notifications + [FoundMessage(searchText.value, NormalizeUrl(url.value))]
              else w.notifications
  {
    if IsFalsy(url) || IsFalsy(searchText) then Run(w.(timers := 0), Skipped)
    else
      var target := NormalizeUrl(url.value);
      var fetched := w.(requests := w.requests + [Request(target, RequestHeaders(webPlatformType))]);
      match response
      case None => Run(fetched, Failed)
      case Some(htmlText) =>
        var notified :=
          if ContainsIgnoringCase(htmlText, searchText.value)
          then fetched.notifications + [FoundMessage(searchText.value, target)]
          else fetched.notifications;
        Run(fetched.(notifications := notified, storage := fetched.storage["lastChecked" := NatToDecimal(now)]), Completed)
  }

  /** `checkUrlForText`; outcome Failed stands for the rejected promise. */
  method CheckUrlForText(device: Device, url: Option<string>, searchText: Option<string>,
                         webPlatformType: Option<string>, response: Option<string>, now: nat)
    returns (outcome: Outcome)
    modifies device
    ensures var run := Cycle(old(device.View()), url, searchText, webPlatformType, response, now);
            device.View() == run.after && outcome == run.outcome
  {
    if IsFalsy(url) || IsFalsy(searchText) {
      device.Cancel();
      return Skipped;
    }
    var target := NormalizeUrl(url.value);
    var headers := RequestHeaders(webPlatformType);
    var body := device.Fetch(target, headers, response);
    if body.None? {
      return Failed;
    }
    if ContainsIgnoringCase(body.value, searchText.value) {
      device.Notify(FoundMessage(searchText.value, target));
    }
    device.SetItem("lastChecked", NatToDecimal(now));
    outcome := Completed;
  }

  /**
   * The `BackgroundTask.define` callback: reads three settings from storage,
   * runs the cycle and then calls `BackgroundTask.finish()`, which a
   * rejected cycle skips.
   */
  method BackgroundJob(device: Device, response: Option<string>, now: nat) returns (outcome: Outcome, finished: bool)
    modifies device
    ensures var stored := old(device.storage);
            var run := Cycle(old(device.View()), Lookup(stored, "url"), Lookup(stored, "searchText"),
                             Lookup(stored, "webPlatformType"), response, now);
            device.View() == run.after && outcome == run.outcome
    ensures finished <==> outcome != Failed
  {
    var url := Lookup(device.storage, "url");
    var searchText := Lookup(device.storage, "searchText");
    var webPlatformType := Lookup(device.storage, "webPlatformType");
    outcome := CheckUrlForText(device, url, searchText, webPlatformType, response, now);
    finished := outcome != Failed;
  }

  /** The keys of the component's state, in the order the constructor creates them. */
  const STATE_KEYS: seq<string> := ["url", "searchText", "taskSet", "loading", "webPlatformType", "lastChecked"]

  /** The state the constructor sets before anything is loaded. */
  function DefaultState(): map<string, JsValue> {
    map["url" := Str(""), "searchText" := Str(""), "taskSet" := Str("no"), "loading" := Bool(false),
        "webPlatformType" := Str(WEB_PLATFORM_MOBILE), "lastChecked" := Str("0")]
  }

  /** The six keys are present, and `loading` is the only boolean among them. */
  ghost predicate WellTyped(state: map<string, JsValue>) {
    && state.Keys == {"url", "searchText", "taskSet", "loading", "webPlatformType", "lastChecked"}
    && state["url"].Str? && state["searchText"].Str? && state["taskSet"].Str? && state["loading"].Bool?
    && state["webPlatformType"].Str? && state["lastChecked"].Str?
  }

  /** No key is listed twice, so the loop over them visits each key once. */
  lemma StateKeysDistinct()
    ensures forall a, b :: 0 <= a < b < |STATE_KEYS| ==> STATE_KEYS[a] != STATE_KEYS[b]
  {
    assert forall a :: 0 <= a < |STATE_KEYS| ==> |STATE_KEYS[a]| == [3, 10, 7, 7, 15, 11][a];
    assert STATE_KEYS[2][0] != STATE_KEYS[3][0];
  }

  /** The keys visited after step `i` are those before it plus the next one, which is new. */
  lemma StateKeysPrefix(i: nat)
    requires i < |STATE_KEYS|
    ensures STATE_KEYS[..i + 1] == STATE_KEYS[..i] + [STATE_KEYS[i]]
    ensures STATE_KEYS[i] !in STATE_KEYS[..i]
  {
    StateKeysDistinct();
  }

  /** Writing `lastChecked` leaves a saved `taskSet` as it was. */
  lemma TimestampKeepsTaskSet(storage: map<string, string>, stamp: string)
    requires "taskSet" in storage
    ensures "taskSet" in storage["lastChecked" := stamp] && storage["lastChecked" := stamp]["taskSet"] == storage["taskSet"]
  {
    assert |"taskSet"| != |"lastChecked"|;
  }

  class App {
    const device: Device
    var state: map<string, JsValue>

    ghost predicate Valid()
      reads this
    {
      WellTyped(state)
    }

    /** The constructor's state; the storage load it starts is `InitAsyncStorage`. */
    constructor (device: Device)
      ensures Valid() && this.device == device && state == DefaultState()
    {
      this.device := device;
      state := DefaultState();
    }

    /**
     * Whether a key is mirrored into storage: its current value is not a
     * boolean and it is not `loading`. On the component's own state that
     * leaves out `loading` alone.
     */
    predicate ShouldUseAsyncStorage(stateKey: string)
      reads this
      ensures Valid() && stateKey in state ==> (ShouldUseAsyncStorage(stateKey) <==> stateKey != "loading")
    {
      !(stateKey in state && state[stateKey].Bool?) && stateKey != "loading"
    }

    /**
     * `persistState(key, value)`: sets one key of the state and, when the key
     * is mirrored, writes the same value to storage. The value keeps the type
     * the key already has, as at every call in the component.
     */
    method PersistState(key: string, value: JsValue)
      requires Valid() && key in state && (value.Bool? <==> key == "loading")
      modifies this, device
      ensures Valid()
      ensures state == old(state)[key := value]
      ensures device.View() == old(device.View()).(storage :=
                if ShouldUseAsyncStorage(key) then old(device.storage)[key := value.s] else old(device.storage))
    {
      state := state[key := value];
      if ShouldUseAsyncStorage(key) {
        device.SetItem(key, value.s);
      }
    }

    /** One step of `initAsyncStorage()`: a mirrored key takes its stored value when that value is truthy. */
    method LoadKey(stateKey: string)
      requires Valid() && stateKey in state
      modifies this, device
      ensures Valid()
      ensures device.View() == old(device.View())
      ensures state == if stateKey != "loading" && !IsFalsy(Lookup(device.storage, stateKey))
                       then old(state)[stateKey := Str(device.storage[stateKey])] else old(state)
    {
      if ShouldUseAsyncStorage(stateKey) {
        var value := Lookup(device.storage, stateKey);
        if !IsFalsy(value) {
          ghost var before := device.storage;
          PersistState(stateKey, Str(value.value));
          assert before[stateKey := value.value] == before;
        }
      }
    }

    /**
     * `initAsyncStorage()`: every mirrored key takes its stored value when
     * that value is truthy (present and non-empty) and keeps its default
     * otherwise; what it writes back is what storage already holds.
     */
    method InitAsyncStorage()
      requires Valid()
      modifies this, device
      ensures Valid()
      ensures device.View() == old(device.View())
      ensures state.Keys == old(state).Keys
      ensures forall k :: k in state ==>
                state[k] == if k != "loading" && !IsFalsy(Lookup(device.storage, k)) then Str(device.storage[k]) else old(state)[k]
    {
      var i := 0;
      while i < |STATE_KEYS|
        invariant 0 <= i <= |STATE_KEYS|
        invariant Valid()
        invariant device.View() == old(device.View())
        invariant state.Keys == old(state).Keys
        invariant forall k :: k in state ==>
                    state[k] == if k in STATE_KEYS[..i] && k != "loading" && !IsFalsy(Lookup(device.storage, k))
                                then Str(device.storage[k]) else old(state)[k]
      {
        var stateKey := STATE_KEYS[i];
        StateKeysPrefix(i);
        LoadKey(stateKey);
        i := i + 1;
      }
      assert STATE_KEYS[..i] == STATE_KEYS;
    }

    /** `componentDidMount()`: the job ends up registered once when `taskSet` is "yes", and not at all otherwise. */
    method ComponentDidMount()
      requires Valid()
      modifies device
      ensures device.View() == old(device.View()).(timers := if state["taskSet"] == Str("yes") then 1 else 0)
    {
      if state["taskSet"] == Str("yes") {
        device.Cancel();
        device.Schedule();
      } else {
        device.Cancel();
      }
    }

    /**
     * The part of `createPrefetchJobs()` before the cycle: `loading` is set,
     * the URL (trimmed by the caller) and `taskSet` "yes" are saved and the
     * job is registered again.
     */
    method StartWatching(url: string)
      requires Valid()
      modifies this, device
      ensures Valid()
      ensures state == old(state)["loading" := Bool(true)]["url" := Str(url)]["taskSet" := Str("yes")]
      ensures device.View() == old(device.View()).(storage := old(device.storage)["url" := url]["taskSet" := "yes"], timers := 1)
    {
      PersistState("loading", Bool(true));
      PersistState("url", Str(url));
      PersistState("taskSet", Str("yes"));
      device.Cancel();
      device.Schedule();
    }

    /**
     * `createPrefetchJobs()` ("Start Checking"): trims and saves the URL, sets
     * `taskSet` to "yes", re-registers the job and runs one cycle on the new
     * state. When the cycle rejects, the rest is skipped: `loading` stays
     * true and `lastChecked` is not updated.
     */
    method CreatePrefetchJobs(response: Option<string>, checkTime: nat, doneTime: nat) returns (outcome: Outcome)
      requires Valid()
      modifies this, device
      ensures Valid()
      ensures var url := Trim(old(state)["url"].s);
              var started := old(state)["loading" := Bool(true)]["url" := Str(url)]["taskSet" := Str("yes")];
              var registered := old(device.View()).(storage := old(device.storage)["url" := url]["taskSet" := "yes"], timers := 1);
              var run := Cycle(registered, Some(url), Some(old(state)["searchText"].s),
                               Some(old(state)["webPlatformType"].s), response, checkTime);
              && outcome == run.outcome
              && (outcome == Failed ==> state == started && device.View() == run.after)
              && (outcome != Failed ==>
                    && state == started["lastChecked" := Str(NatToDecimal(doneTime))]["loading" := Bool(false)]
                    && device.View() == run.after.(storage := run.after.storage["lastChecked" := NatToDecimal(doneTime)]))
      // Re-registering never stacks a second job; only a skipped cycle leaves none.
      ensures device.timers <= 1
      ensures device.timers == 0 <==> outcome == Skipped
      ensures state["taskSet"] == Str("yes") && "taskSet" in device.storage && device.storage["taskSet"] == "yes"
      ensures state["loading"] == Bool(outcome == Failed)
    {
      var url := Trim(state["url"].s);
      var searchText := state["searchText"].s;
      var webPlatformType := state["webPlatformType"].s;
      StartWatching(url);
      ghost var started := state;
      ghost var started_storage := device.storage;
      assert started_storage["taskSet"] == "yes";
      ghost var run := Cycle(device.View(), Some(url), Some(searchText), Some(webPlatformType), response, checkTime);
      outcome := CheckUrlForText(device, Some(url), Some(searchText), Some(webPlatformType), response, checkTime);
      assert device.View() == run.after && outcome == run.outcome;
      assert device.timers == 0 <==> outcome == Skipped;
      TimestampKeepsTaskSet(started_storage, NatToDecimal(checkTime));
      assert "taskSet" in device.storage && device.storage["taskSet"] == "yes";
      if outcome == Failed {
        return;
      }
      TimestampKeepsTaskSet(device.storage, NatToDecimal(doneTime));
      RecordCheck(doneTime);
      assert state == started["lastChecked" := Str(NatToDecimal(doneTime))]["loading" := Bool(false)];
    }

    /** The part of `createPrefetchJobs()` after a cycle that did not reject: `lastChecked` is set and `loading` cleared. */
    method RecordCheck(doneTime: nat)
      requires Valid()
      modifies this, device
      ensures Valid()
      ensures state == old(state)["lastChecked" := Str(NatToDecimal(doneTime))]["loading" := Bool(false)]
      ensures device.View() == old(device.View()).(storage := old(device.storage)["lastChecked" := NatToDecimal(doneTime)])
    {
      PersistState("lastChecked", Str(NatToDecimal(doneTime)));
      PersistState("loading", Bool(false));
    }

    /** `deletePrefetchJobs()` ("Stop Checking"): no job is left and `taskSet` is "no" in state and storage. */
    method DeletePrefetchJobs()
      requires Valid()
      modifies this, device
      ensures Valid()
      ensures state == old(state)["taskSet" := Str("no")]
      ensures device.View() == old(device.View()).(timers := 0, storage := old(device.storage)["taskSet" := "no"])
    {
      device.Cancel();
      PersistState("taskSet", Str("no"));
    }

    /**
     * `refreshWebView()`: blanks and restores the URL so the preview reloads;
     * afterwards only `loading` has changed in state and storage holds the URL.
     */
    method RefreshWebView()
      requires Valid()
      modifies this, device
      ensures Valid()
      ensures state == old(state)["loading" := Bool(false)]
      ensures device.View() == old(device.View()).(storage := old(device.storage)["url" := old(state)["url"].s])
    {
      PersistState("loading", Bool(true));
      var url := state["url"];
      PersistState("url", Str(""));
      PersistState("url", url);
      PersistState("loading", Bool(false));
      assert state == old(state)["loading" := Bool(false)];
    }

    /** `pickerValueChanged(newValue)`: saves the platform type and refreshes the preview. */
    method PickerValueChanged(newValue: string)
      requires Valid()
      modifies this, device
      ensures Valid()
      ensures state == old(state)["webPlatformType" := Str(newValue)]["loading" := Bool(false)]
      ensures device.View() == old(device.View()).(storage :=
                old(device.storage)["webPlatformType" := newValue]["url" := old(state)["url"].s])
    {
      PersistState("webPlatformType", Str(newValue));
      RefreshWebView();
    }
  }
}
