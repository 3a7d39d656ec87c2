/** frontend/src/components/OfflineDetector.js: two pieces of state driven
    by the browser's `online` and `offline` events. While offline a red
    banner is shown; the "Connection restored!" snackbar is guarded by a
    condition that no reachable state satisfies. */
module OfflineDetector {

  /** A connectivity notification from the browser, or the user closing the snackbar. */
  datatype Event = WentOnline | WentOffline | SnackbarClosed

  /** What the component renders. */
  datatype View = View(banner: bool, snackbarOpen: bool)

  class Detector {
    var isOnline: bool
    var showOfflineMessage: bool

    /** The state invariant: the offline message is only ever raised while offline. */
    ghost predicate Valid()
      reads this
    {
      showOfflineMessage ==> !isOnline
    }

    /** `useState(navigator.onLine)` and `useState(false)`. */
    constructor (navigatorOnline: bool)
      ensures isOnline == navigatorOnline && !showOfflineMessage
      ensures Valid()
    {
      isOnline := navigatorOnline;
      showOfflineMessage := false;
    }

    /** `handleOnline`. */
    method HandleOnline()
      requires Valid()
      modifies this
      ensures isOnline && !showOfflineMessage
      ensures Valid()
    {
      isOnline := true;
      showOfflineMessage := false;
    }

    /** `handleOffline`. */
    method HandleOffline()
      requires Valid()
      modifies this
      ensures !isOnline && showOfflineMessage
      ensures Valid()
    {
      isOnline := false;
      showOfflineMessage := true;
    }

    /** The snackbar's `onClose`: only the message flag is cleared. */
    method CloseSnackbar()
      requires Valid()
      modifies this`showOfflineMessage
      ensures isOnline == old(isOnline) && !showOfflineMessage
      ensures Valid()
    {
      showOfflineMessage := false;
    }

    /** One event, dispatched to its handler. */
    method Handle(e: Event)
      requires Valid()
      modifies this
      ensures isOnline == After(old(isOnline), e)
      ensures showOfflineMessage == (e == WentOffline)
      ensures Valid()
    {
      match e
      case WentOnline => HandleOnline();
      case WentOffline => HandleOffline();
      case SnackbarClosed => CloseSnackbar();
    }

    /** The render: the banner when offline, otherwise the snackbar with
        `open={showOfflineMessage && isOnline}`. */
    function Render(): (v: View)
      reads this
      requires Valid()
      ensures v.banner <==> !isOnline
      ensures !v.snackbarOpen
    {
      View(!isOnline, showOfflineMessage && isOnline)
    }
  }

  /** Connectivity after one event. */
  function After(online: bool, e: Event): bool {
    match e
    case WentOnline => true
    case WentOffline => false
    case SnackbarClosed => online
  }

  /** Connectivity after a run of events: the last connectivity event wins. */
  function AfterAll(online: bool, events: seq<Event>): bool
    decreases |events|
  {
    if events == [] then online else AfterAll(After(online, events[0]), events[1..])
  }

  /** The connectivity a run of events leaves is the one the last
      `online`/`offline` event announced, or the initial one if there was none. */
  lemma {:induction false} AfterAllIsLastAnnounced(online: bool, events: seq<Event>, i: int)
    requires 0 <= i < |events| && events[i] != SnackbarClosed
    requires forall j :: i < j < |events| ==> events[j] == SnackbarClosed
    ensures AfterAll(online, events) == (events[i] == WentOnline)
    decreases |events|
  {
    if i > 0 {
      AfterAllIsLastAnnounced(After(online, events[0]), events[1..], i - 1);
    } else {
      ClosingKeepsConnectivity(After(online, events[0]), events[1..]);
    }
  }

  lemma {:induction false} ClosingKeepsConnectivity(online: bool, events: seq<Event>)
    requires forall j :: 0 <= j < |events| ==> events[j] == SnackbarClosed
    ensures AfterAll(online, events) == online
    decreases |events|
  {
    if events != [] {
      ClosingKeepsConnectivity(online, events[1..]);
    }
  }

  /** Any run of events from any starting connectivity: the banner tracks
      connectivity and the "Connection restored!" snackbar never opens. */
  method Replay(navigatorOnline: bool, events: seq<Event>) returns (views: seq<View>)
    ensures |views| == |events| + 1
    ensures forall k :: 0 <= k < |views| ==> !views[k].snackbarOpen
    ensures forall k :: 0 <= k < |views| ==> (views[k].banner <==> !AfterAll(navigatorOnline, events[..k]))
  {
    var d := new Detector(navigatorOnline);
    views := [d.Render()];
    var i := 0;
    while i < |events|
      invariant 0 <= i <= |events|
      invariant d.Valid()
      invariant d.isOnline == AfterAll(navigatorOnline, events[..i])
      invariant |views| == i + 1
      invariant forall k :: 0 <= k < |views| ==> !views[k].snackbarOpen
      invariant forall k :: 0 <= k < |views| ==> (views[k].banner <==> !AfterAll(navigatorOnline, events[..k]))
    {
      AfterAllSnoc(navigatorOnline, events[..i], events[i]);
      assert events[..i + 1] == events[..i] + [events[i]];
      d.Handle(events[i]);
      views := views + [d.Render()];
      i := i + 1;
    }
  }

  /** One more event at the end of a run. */
  lemma {:induction false} AfterAllSnoc(online: bool, events: seq<Event>, e: Event)
    ensures AfterAll(online, events + [e]) == After(AfterAll(online, events), e)
    decreases |events|
  {
    if events != [] {
      assert (events + [e])[1..] == events[1..] + [e];
      AfterAllSnoc(After(online, events[0]), events[1..], e);
    }
  }
}
