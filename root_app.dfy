/**
 * The first revision of the app screen (App.js at the repository root): the
 * check cycle matches case-sensitively, sends no extra header and never
 * records when it ran; the component mirrors every non-boolean value it sets.
 */
module RootApp {
  import opened Wrappers
  import opened JsText
  import opened Platform
  import opened Watch

  /** One run of `checkUrlForText(url, searchText)`; `response` is what the fetch yields. */
  function Cycle(w: World, url: Option<string>, searchText: Option<string>, response: Option<string>): (run: Run)
    // Incomplete configuration: the background task is cancelled and nothing else happens.
    ensures run.outcome == Skipped <==> IsFalsy(url) || IsFalsy(searchText)
    ensures run.outcome == Skipped ==> run.after == w.(timers := 0)
    // Otherwise the normalised URL is fetched with default headers and the timer is left alone.
    ensures run.outcome != Skipped ==> run.after.timers == w.timers
    ensures run.outcome != Skipped ==> run.after.requests == w.requests + [Request(NormalizeUrl(url.value), map[])]
    ensures run.outcome == Failed <==> !IsFalsy(url) && !IsFalsy(searchText) && response.None?
    // Storage is never written.
    ensures run.after.storage == w.storage
    // Exact presence only, reported with the normalised URL.
    ensures run.after.notifications ==
              if run.outcome == Completed && Contains(response.value, searchText.value)
              then w.notifications + [FoundMessage(searchText.value, NormalizeUrl(url.value))]
              else w.notifications
  {
    if IsFalsy(url) || IsFalsy(searchText) then Run(w.(timers := 0), Skipped)
    else
      var target := NormalizeUrl(url.value);
      var fetched := w.(requests := w.requests + [Request(target, map[])]);
      match response
      case None => Run(fetched, Failed)
      case Some(htmlText) =>
        if Contains(htmlText, searchText.value)
        then Run(fetched.(notifications := fetched.notifications + [FoundMessage(searchText.value, target)]), Completed)
        else Run(fetched, Completed)
  }

  /** `checkUrlForText`; outcome Failed stands for the rejected promise. */
  method CheckUrlForText(device: Device, url: Option<string>, searchText: Option<string>, response: Option<string>)
    returns (outcome: Outcome)
    modifies device
    ensures var run := Cycle(old(device.View()), url, searchText, response);
            device.View() == run.after && outcome == run.outcome
  {
    if IsFalsy(url) || IsFalsy(searchText) {
      device.Cancel();
      return Skipped;
    }
    var target := NormalizeUrl(url.value);
    var body := device.Fetch(target, map[], response);
    if body.None? {
      return Failed;
    }
    if Contains(body.value, searchText.value) {
      device.Notify(FoundMessage(searchText.value, target));
    }
    outcome := Completed;
  }

  /**
   * The `BackgroundTask.define` callback: reads the URL and the search text
   * from storage, runs the cycle, then calls `BackgroundTask.finish()`, which
   * a rejected cycle skips.
   */
  method BackgroundJob(device: Device, response: Option<string>) returns (outcome: Outcome, finished: bool)
    modifies device
    ensures var run := Cycle(old(device.View()), Lookup(old(device.storage), "url"),
                             Lookup(old(device.storage), "searchText"), response);
            device.View() == run.after && outcome == run.outcome
    ensures finished <==> outcome != Failed
  {
    var url := Lookup(device.storage, "url");
    var searchText := Lookup(device.storage, "searchText");
    outcome := CheckUrlForText(device, url, searchText, response);
    finished := outcome != Failed;
  }

  /** The state the constructor sets before anything is loaded. */
  function DefaultState(): map<string, JsValue> {
    map["url" := Str(""), "searchText" := Str(""), "taskSet" := Str("no"), "loading" := Bool(false)]
  }

  /** The four keys are present, and `loading` is the only boolean among them. */
  ghost predicate WellTyped(state: map<string, JsValue>) {
    && state.Keys == {"url", "searchText", "taskSet", "loading"}
    && state["url"].Str? && state["searchText"].Str? && state["taskSet"].Str? && state["loading"].Bool?
  }

  class App {
    const device: Device
    var state: map<string, JsValue>

    ghost predicate Valid()
      reads this
    {
      WellTyped(state)
    }

    /** The constructor's state; the storage load it starts is `InitAsyncStorage`. */
    constructor (device: Device)
      ensures Valid() && this.device == device && state == DefaultState()
    {
      this.device := device;
      state := DefaultState();
    }

    /**
     * `persistState(key, value)`: sets one key of the state and writes the
     * value to storage unless it is a boolean. The value keeps the type the
     * key already has, as at every call in the component.
     */
    method PersistState(key: string, value: JsValue)
      requires Valid() && key in state && (value.Bool? <==> key == "loading")
      modifies this, device
      ensures Valid()
      ensures state == old(state)[key := value]
      ensures device.View() == old(device.View()).(storage :=
                if value.Str? then old(device.storage)[key := value.s] else old(device.storage))
    {
      state := state[key := value];
      if value.Str? {
        device.SetItem(key, value.s);
      }
    }

    /** Loads one key when its stored value is truthy, writing the same value back. */
    method LoadKey(key: string)
      requires Valid() && key in state && key != "loading"
      modifies this, device
      ensures Valid()
      ensures device.View() == old(device.View())
      ensures state == if !IsFalsy(Lookup(device.storage, key)) then old(state)[key := Str(device.storage[key])] else old(state)
    {
      var value := Lookup(device.storage, key);
      if !IsFalsy(value) {
        ghost var before := device.storage;
        PersistState(key, Str(value.value));
        assert before[key := value.value] == before;
      }
    }

    /**
     * `initAsyncStorage()`: only `url`, `searchText` and `taskSet` are loaded,
     * each only from a truthy stored value; storage is left as it was.
     */
    method InitAsyncStorage()
      requires Valid()
      modifies this, device
      ensures Valid()
      ensures device.View() == old(device.View())
      ensures state.Keys == old(state).Keys
      ensures forall k :: k in state ==>
                state[k] == if k in {"url", "searchText", "taskSet"} && !IsFalsy(Lookup(device.storage, k))
                            then Str(device.storage[k]) else old(state)[k]
    {
      LoadKey("url");
      LoadKey("searchText");
      LoadKey("taskSet");
    }

    /** `componentDidMount()`: the job ends up registered once when `taskSet` is "yes", and not at all otherwise. */
    method ComponentDidMount()
      requires Valid()
      modifies device
      ensures device.View() == old(device.View()).(timers := if state["taskSet"] == Str("yes") then 1 else 0)
    {
      if state["taskSet"] == Str("yes") {
        device.Cancel();
        device.Schedule();
      } else {
        device.Cancel();
      }
    }

    /**
     * The part of `createPrefetchJobs()` before the cycle: `loading` is set,
     * the URL (trimmed by the caller) and `taskSet` "yes" are saved and the job is
     * registered again.
     */
    method StartWatching(url: string)
      requires Valid()
      modifies this, device
      ensures Valid()
      ensures state == old(state)["loading" := Bool(true)]["url" := Str(url)]["taskSet" := Str("yes")]
      ensures device.View() == old(device.View()).(storage := old(device.storage)["url" := url]["taskSet" := "yes"], timers := 1)
    {
      PersistState("loading", Bool(true));
      PersistState("url", Str(url));
      PersistState("taskSet", Str("yes"));
      device.Cancel();
      device.Schedule();
    }

    /**
     * `createPrefetchJobs()` ("Start Checking"): trims and saves the URL, sets
     * `taskSet` to "yes", re-registers the job and runs one cycle on the new
     * state. When the cycle rejects, `loading` stays true.
     */
    method CreatePrefetchJobs(response: Option<string>) returns (outcome: Outcome)
      requires Valid()
      modifies this, device
      ensures Valid()
      ensures var url := Trim(old(state)["url"].s);
              var started := old(state)["loading" := Bool(true)]["url" := Str(url)]["taskSet" := Str("yes")];
              var registered := old(device.View()).(storage := old(device.storage)["url" := url]["taskSet" := "yes"], timers := 1);
              var run := Cycle(registered, Some(url), Some(old(state)["searchText"].s), response);
              && outcome == run.outcome
              && device.View() == run.after
              && state == if outcome == Failed then started else started["loading" := Bool(false)]
      // Re-registering never stacks a second job; only a skipped cycle leaves none.
      ensures device.timers <= 1
      ensures device.timers == 0 <==> outcome == Skipped
      ensures state["taskSet"] == Str("yes") && "taskSet" in device.storage && device.storage["taskSet"] == "yes"
    {
      var url := Trim(state["url"].s);
      var searchText := state["searchText"].s;
      StartWatching(url);
      ghost var registered := device.View();
      outcome := CheckUrlForText(device, Some(url), Some(searchText), response);
      assert device.View() == Cycle(registered, Some(url), Some(searchText), response).after;
      if outcome == Failed {
        return;
      }
      PersistState("loading", Bool(false));
    }

    /** `deletePrefetchJobs()` ("Stop Checking"): no job is left and `taskSet` is "no" in state and storage. */
    method DeletePrefetchJobs()
      requires Valid()
      modifies this, device
      ensures Valid()
      ensures state == old(state)["taskSet" := Str("no")]
      ensures device.View() == old(device.View()).(timers := 0, storage := old(device.storage)["taskSet" := "no"])
    {
      device.Cancel();
      PersistState("taskSet", Str("no"));
    }
  }
}
