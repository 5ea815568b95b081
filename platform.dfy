/**
 * The collaborators the watch talks to, reduced to what it can observe of
 * them: a key-value store (AsyncStorage), the background job registration
 * (BackgroundTask / BackgroundTimer), the local-notification sink
 * (PushNotification) and the network (fetch), whose answer is supplied by
 * the caller.
 */
module Platform {
  import opened Wrappers

  /** One `fetch` call as the page server would see it. */
  datatype Request = Request(url: string, headers: map<string, string>)

  /** A snapshot of everything the collaborators hold. */
  datatype World = World(
    storage: map<string, string>,
    timers: nat,                    // background job registrations currently active
    notifications: seq<string>,     // messages handed to the notification sink, oldest first
    requests: seq<Request>          // fetches issued, oldest first
  )

  /** `AsyncStorage.getItem(key)`: the stored string, or null. */
  function Lookup(storage: map<string, string>, key: string): Option<string> {
    if key in storage then Some(storage[key]) else None
  }

  class Device {
    var storage: map<string, string>
    var timers: nat
    var notifications: seq<string>
    var requests: seq<Request>

    function View(): World
      reads this
    {
      World(storage, timers, notifications, requests)
    }

    constructor (stored: map<string, string>)
      ensures View() == World(stored, 0, [], [])
    {
      storage, timers, notifications, requests := stored, 0, [], [];
    }

    /** `AsyncStorage.setItem(key, value)`. */
    method SetItem(key: string, value: string)
      modifies this
      ensures View() == old(View()).(storage := old(storage)[key := value])
    {
      storage := storage[key := value];
    }

    /** `BackgroundTask.cancel()` / `BackgroundTimer.stopBackgroundTimer()`: no registration is left. */
    method Cancel()
      modifies this
      ensures View() == old(View()).(timers := 0)
    {
      timers := 0;
    }

    /**
     * `BackgroundTask.schedule()`: adds one registration. Whether the library
     * replaces an earlier one is not visible, so the model assumes it does not.
     */
    method Schedule()
      modifies this
      ensures View() == old(View()).(timers := old(timers) + 1)
    {
      timers := timers + 1;
    }

    /** `PushNotification.localNotification({message})`. */
    method Notify(message: string)
      modifies this
      ensures View() == old(View()).(notifications := old(notifications) + [message])
    {
      notifications := notifications + [message];
    }

    /**
     * `fetch(url, {headers})` followed by `response.text()`. The body, or None
     * when either step throws, is the caller's `response`; the request is
     * logged in both cases.
     */
    method Fetch(url: string, headers: map<string, string>, response: Option<string>) returns (body: Option<string>)
      modifies this
      ensures body == response
      ensures View() == old(View()).(requests := old(requests) + [Request(url, headers)])
    {
      requests := requests + [Request(url, headers)];
      body := response;
    }
  }
}
