/**
 * One browser tab (wpe/src/main/java/com/wpe/wpe/Page.java): the page's
 * lifecycle against its native handle, touch and zoom input, navigation
 * notifications, and the routing of launched auxiliary services into the
 * browser's per-kind slots.
 *
 * Native calls and calls on the host platform (the view, the input method
 * manager, the service binder) are recorded in two ghost logs.
 */
module PageModel {
  import opened Wrappers
  import opened ProcessProvider

  // Load events, as the page declares them.
  const LOAD_STARTED: int := 0
  const LOAD_REDIRECTED: int := 1
  const LOAD_COMMITTED: int := 2
  const LOAD_FINISHED: int := 3

  // android.view.MotionEvent action codes.
  const ACTION_DOWN: int := 0
  const ACTION_UP: int := 1
  const ACTION_MOVE: int := 2

  // android.content.Context binding flags.
  const BIND_AUTO_CREATE: bv32 := 0x1
  const BIND_IMPORTANT: bv32 := 0x40

  // Bounds of the zoom factor.
  const MIN_ZOOM: real := 0.1
  const MAX_ZOOM: real := 5.0

  /** The part of a MotionEvent the page looks at; x and y are pointer 0's coordinates. */
  datatype MotionEvent = MotionEvent(pointerCount: int, actionMasked: int, eventTime: int, x: real, y: real)

  datatype NativeCall =
    | NativeInit(pageId: int, width: int, height: int)
    | NativeUpdateAllSettings
    | NativeClose
    | NativeDestroy
    | NativeTouchEvent(time: int, eventType: int, x: real, y: real)
    | NativeSetZoomLevel(zoom: real)

  datatype HostCall =
    | ViewLoadChanged(loadEvent: int)
    | HideSoftInput
    | ViewTitleChanged(title: string)
    | BindService(connection: ServiceConnection, flags: bv32)

  /** The event type the native side expects for a touch action, if the action is forwarded. */
  function TouchEventType(action: int): (r: Option<int>)
    ensures r.Some? <==> action == ACTION_DOWN || action == ACTION_MOVE || action == ACTION_UP
    ensures r.Some? ==> 0 <= r.value <= 2
  {
    if action == ACTION_DOWN then Some(0)
    else if action == ACTION_MOVE then Some(1)
    else if action == ACTION_UP then Some(2)
    else None
  }

  /** The touch action that each native event type stands for. */
  function ActionOf(eventType: int): int
    requires 0 <= eventType <= 2
  {
    [ACTION_DOWN, ACTION_MOVE, ACTION_UP][eventType]
  }

  /** DOWN, MOVE and UP map to 0, 1 and 2, and nothing else maps anywhere. */
  lemma TouchEventTypeMatchesActions(action: int)
    ensures forall t :: 0 <= t <= 2 ==> (TouchEventType(action) == Some(t) <==> action == ActionOf(t))
    ensures TouchEventType(action) == None <==> forall t :: 0 <= t <= 2 ==> action != ActionOf(t)
  {
    assert ActionOf(0) == ACTION_DOWN && ActionOf(1) == ACTION_MOVE && ActionOf(2) == ACTION_UP;
  }

  /** Math.max(0.1f, Math.min(z, 5.0f)), over the reals. */
  function ClampZoom(z: real): (r: real)
    ensures MIN_ZOOM <= r <= MAX_ZOOM
    ensures MIN_ZOOM <= z <= MAX_ZOOM ==> r == z
    ensures z < MIN_ZOOM ==> r == MIN_ZOOM
    ensures z > MAX_ZOOM ==> r == MAX_ZOOM
  {
    if z > MAX_ZOOM then MAX_ZOOM else if z < MIN_ZOOM then MIN_ZOOM else z
  }

  /** The zoom after a run of scale steps starting from z: each step multiplies, then clamps. */
  function ZoomAfter(z: real, factors: seq<real>): real
    decreases |factors|
  {
    if factors == [] then z else ZoomAfter(ClampZoom(z * factors[0]), factors[1..])
  }

  /** A run of at least one step ends inside the zoom bounds, whatever the factors. */
  lemma {:induction false} ZoomAfterInRange(z: real, factors: seq<real>)
    requires factors != [] || MIN_ZOOM <= z <= MAX_ZOOM
    ensures MIN_ZOOM <= ZoomAfter(z, factors) <= MAX_ZOOM
    decreases |factors|
  {
    if factors != [] {
      ZoomAfterInRange(ClampZoom(z * factors[0]), factors[1..]);
    }
  }

  /** Three tenfold steps from 1.0 saturate at the upper bound instead of reaching 1000. */
  lemma ZoomSaturates()
    ensures ZoomAfter(1.0, [10.0, 10.0, 10.0]) == MAX_ZOOM
  {
    var f := [10.0, 10.0, 10.0];
    assert f[1..] == [10.0, 10.0] && f[1..][1..] == [10.0] && f[1..][1..][1..] == [];
    assert ClampZoom(1.0 * 10.0) == MAX_ZOOM;
    assert ClampZoom(MAX_ZOOM * 10.0) == MAX_ZOOM;
  }

  /** The number of times c occurs in a log. */
  function Count(log: seq<NativeCall>, c: NativeCall): (n: nat)
    ensures n <= |log|
  {
    if log == [] then 0
    else Count(log[..|log| - 1], c) + (if log[|log| - 1] == c then 1 else 0)
  }

  lemma CountSnoc(log: seq<NativeCall>, x: NativeCall, c: NativeCall)
    ensures Count(log + [x], c) == Count(log, c) + (if x == c then 1 else 0)
  {
    assert (log + [x])[..|log|] == log;
  }

  /** com.wpe.wpe.services.WPEServiceConnection: one launched auxiliary service. */
  class ServiceConnection {
    const processType: ProcessType
    const fd: int

    constructor (processType: ProcessType, fd: int)
      ensures this.processType == processType && this.fd == fd
    {
      this.processType := processType;
      this.fd := fd;
    }
  }

  /** The browser's two service slots, one per supported process kind. */
  class Browser {
    var webProcess: ServiceConnection?
    var networkProcess: ServiceConnection?

    constructor ()
      ensures webProcess == null && networkProcess == null
    {
      webProcess := null;
      networkProcess := null;
    }

    method SetWebProcess(connection: ServiceConnection)
      modifies this
      ensures webProcess == connection && networkProcess == old(networkProcess)
    {
      webProcess := connection;
    }

    method SetNetworkProcess(connection: ServiceConnection)
      modifies this
      ensures networkProcess == connection && webProcess == old(webProcess)
    {
      networkProcess := connection;
    }
  }

  datatype Exception = IllegalArgumentException

  class Page {
    const id: int
    const width: int
    const height: int
    const browser: Browser

    var closed: bool
    var canGoBack: bool
    var canGoForward: bool
    var ignoreTouchEvent: bool
    var scaleFactor: real

    ghost var nativeCalls: seq<NativeCall>
    ghost var hostCalls: seq<HostCall>

    /** The native close has been emitted exactly when the page is closed, and the zoom is in range. */
    ghost predicate Valid()
      reads this
    {
      && Count(nativeCalls, NativeClose) == (if closed then 1 else 0)
      && MIN_ZOOM <= scaleFactor <= MAX_ZOOM
    }

    /** canGoBack(): the flag the last title notification carried, true before any. */
    function CanGoBack(): bool
      reads this
    {
      canGoBack
    }

    /** canGoForward(): the flag the last title notification carried, true before any. */
    function CanGoForward(): bool
      reads this
    {
      canGoForward
    }

    /** The view's measured size is read once, here. */
    constructor (browser: Browser, pageId: int, measuredWidth: int, measuredHeight: int)
      ensures Valid()
      ensures id == pageId && width == measuredWidth && height == measuredHeight && this.browser == browser
      ensures !closed && !ignoreTouchEvent && scaleFactor == 1.0
      ensures CanGoBack() && CanGoForward()
      ensures nativeCalls == [] && hostCalls == []
    {
      id := pageId;
      this.browser := browser;
      width := measuredWidth;
      height := measuredHeight;
      closed := false;
      canGoBack := true;
      canGoForward := true;
      ignoreTouchEvent := false;
      scaleFactor := 1.0;
      nativeCalls := [];
      hostCalls := [];
    }

    /** Creates the native page with the construction-time size, then pushes the settings. */
    method Init()
      requires Valid()
      modifies this`nativeCalls
      ensures Valid()
      ensures nativeCalls == old(nativeCalls) + [NativeInit(id, width, height), NativeUpdateAllSettings]
    {
      CountSnoc(nativeCalls, NativeInit(id, width, height), NativeClose);
      nativeCalls := nativeCalls + [NativeInit(id, width, height)];
      CountSnoc(nativeCalls, NativeUpdateAllSettings, NativeClose);
      nativeCalls := nativeCalls + [NativeUpdateAllSettings];
    }

    /** Emits the native close on the first call only. */
    method Close()
      requires Valid()
      modifies this`closed, this`nativeCalls
      ensures Valid()
      ensures closed
      ensures Count(nativeCalls, NativeClose) == 1
      ensures nativeCalls == old(nativeCalls) + (if old(closed) then [] else [NativeClose])
    {
      if closed {
        return;
      }
      closed := true;
      CountSnoc(nativeCalls, NativeClose, NativeClose);
      nativeCalls := nativeCalls + [NativeClose];
    }

    /** close(), then an unguarded native destroy. */
    method Destroy()
      requires Valid()
      modifies this`closed, this`nativeCalls
      ensures Valid()
      ensures closed
      ensures Count(nativeCalls, NativeClose) == 1
      ensures Count(nativeCalls, NativeDestroy) == old(Count(nativeCalls, NativeDestroy)) + 1
      ensures nativeCalls == old(nativeCalls) + (if old(closed) then [] else [NativeClose]) + [NativeDestroy]
    {
      ghost var before := nativeCalls;
      Close();
      if old(closed) {
        assert nativeCalls == before;
      } else {
        CountSnoc(before, NativeClose, NativeDestroy);
      }
      CountSnoc(nativeCalls, NativeDestroy, NativeClose);
      CountSnoc(nativeCalls, NativeDestroy, NativeDestroy);
      nativeCalls := nativeCalls + [NativeDestroy];
    }

    /** The finalizer destroys the page again. */
    method Finalize()
      requires Valid()
      modifies this`closed, this`nativeCalls
      ensures Valid()
      ensures Count(nativeCalls, NativeClose) == 1
      ensures nativeCalls == old(nativeCalls) + (if old(closed) then [] else [NativeClose]) + [NativeDestroy]
    {
      Destroy();
    }

    /** PageScaleListener.onScale: accumulate, clamp, forward the zoom level, set the ignore flag. */
    method OnScale(factor: real) returns (handled: bool)
      requires Valid()
      modifies this`scaleFactor, this`ignoreTouchEvent, this`nativeCalls
      ensures Valid()
      ensures handled && ignoreTouchEvent
      ensures scaleFactor == ClampZoom(old(scaleFactor) * factor)
      ensures nativeCalls == old(nativeCalls) + [NativeSetZoomLevel(scaleFactor)]
    {
      scaleFactor := ClampZoom(scaleFactor * factor);
      CountSnoc(nativeCalls, NativeSetZoomLevel(scaleFactor), NativeClose);
      nativeCalls := nativeCalls + [NativeSetZoomLevel(scaleFactor)];
      ignoreTouchEvent := true;
      handled := true;
    }

    /**
     * PageSurfaceView.onTouchEvent. `scale` is the factor of the scale step the
     * gesture detector reports while it consumes this event, if any.
     */
    method OnTouchEvent(event: MotionEvent, scale: Option<real>) returns (handled: bool)
      requires Valid()
      modifies this`scaleFactor, this`ignoreTouchEvent, this`nativeCalls
      ensures Valid()
      ensures handled <==> event.pointerCount >= 1 && TouchEventType(event.actionMasked).Some?
      ensures event.pointerCount < 1 ==>
        nativeCalls == old(nativeCalls) && scaleFactor == old(scaleFactor) && ignoreTouchEvent == old(ignoreTouchEvent)
      ensures event.pointerCount >= 1 ==> !ignoreTouchEvent
      ensures event.pointerCount >= 1 ==>
        scaleFactor == (if scale.Some? then ClampZoom(old(scaleFactor) * scale.value) else old(scaleFactor))
      ensures event.pointerCount >= 1 ==>
        nativeCalls == old(nativeCalls)
          + (if scale.Some? then [NativeSetZoomLevel(scaleFactor)] else [])
          + (if handled
             then [NativeTouchEvent(event.eventTime, TouchEventType(event.actionMasked).value, event.x, event.y)]
             else [])
    {
      if event.pointerCount < 1 {
        return false;
      }

      ScaleStep(scale);

      if ignoreTouchEvent {
        ignoreTouchEvent := false;
      }

      handled := ForwardTouch(event);
    }

    /** What the scale gesture detector does with an event: run onScale for the step it reports, if any. */
    method ScaleStep(scale: Option<real>)
      requires Valid()
      modifies this`scaleFactor, this`ignoreTouchEvent, this`nativeCalls
      ensures Valid()
      ensures scale.Some? ==>
        && ignoreTouchEvent
        && scaleFactor == ClampZoom(old(scaleFactor) * scale.value)
        && nativeCalls == old(nativeCalls) + [NativeSetZoomLevel(scaleFactor)]
      ensures scale.None? ==>
        && ignoreTouchEvent == old(ignoreTouchEvent)
        && scaleFactor == old(scaleFactor)
        && nativeCalls == old(nativeCalls)
    {
      if scale.Some? {
        var _ := OnScale(scale.value);
      }
    }

    /** The switch on the masked action: DOWN, MOVE and UP are forwarded to native, anything else is not handled. */
    method ForwardTouch(event: MotionEvent) returns (handled: bool)
      requires Valid()
      modifies this`nativeCalls
      ensures Valid()
      ensures handled <==> TouchEventType(event.actionMasked).Some?
      ensures nativeCalls == old(nativeCalls)
        + (if handled
           then [NativeTouchEvent(event.eventTime, TouchEventType(event.actionMasked).value, event.x, event.y)]
           else [])
    {
      var eventType := TouchEventType(event.actionMasked);
      if eventType.None? {
        return false;
      }

      var call := NativeTouchEvent(event.eventTime, eventType.value, event.x, event.y);
      CountSnoc(nativeCalls, call, NativeClose);
      nativeCalls := nativeCalls + [call];
      handled := true;
    }

    /**
     * The touch handler with the suppression the ignore flag was meant for: an
     * event during which the detector reported a scale step is consumed after
     * the zoom is forwarded, and is not forwarded as a touch.
     */
    method OnTouchEventSuppressingAfterScale(event: MotionEvent, scale: Option<real>) returns (handled: bool)
      requires Valid() && !ignoreTouchEvent
      modifies this`scaleFactor, this`ignoreTouchEvent, this`nativeCalls
      ensures Valid() && !ignoreTouchEvent
      ensures handled <==> event.pointerCount >= 1 && (scale.Some? || TouchEventType(event.actionMasked).Some?)
      ensures event.pointerCount < 1 ==> nativeCalls == old(nativeCalls) && scaleFactor == old(scaleFactor)
      ensures event.pointerCount >= 1 && scale.Some? ==>
        scaleFactor == ClampZoom(old(scaleFactor) * scale.value)
        && nativeCalls == old(nativeCalls) + [NativeSetZoomLevel(scaleFactor)]
      ensures event.pointerCount >= 1 && scale.None? ==>
        scaleFactor == old(scaleFactor)
        && nativeCalls == old(nativeCalls)
          + (if handled
             then [NativeTouchEvent(event.eventTime, TouchEventType(event.actionMasked).value, event.x, event.y)]
             else [])
    {
      if event.pointerCount < 1 {
        return false;
      }

      ScaleStep(scale);

      if ignoreTouchEvent {
        ignoreTouchEvent := false;
        return true;
      }

      handled := ForwardTouch(event);
    }

    /** Routes a new service connection into the browser slot for its kind, then binds it. */
    method LaunchService(processType: ProcessType, fd: int) returns (r: Result<ServiceConnection, Exception>)
      requires Valid()
      modifies this`hostCalls, browser
      ensures Valid()
      ensures processType == TypesCount ==>
        r == Err(IllegalArgumentException) && hostCalls == old(hostCalls)
        && browser.webProcess == old(browser.webProcess) && browser.networkProcess == old(browser.networkProcess)
      ensures processType != TypesCount ==>
        r.Ok? && fresh(r.value) && r.value.processType == processType && r.value.fd == fd
        && hostCalls == old(hostCalls) + [BindService(r.value, BIND_AUTO_CREATE | BIND_IMPORTANT)]
      ensures processType == WebProcess ==>
        browser.webProcess == r.value && browser.networkProcess == old(browser.networkProcess)
      ensures processType == NetworkProcess ==>
        browser.networkProcess == r.value && browser.webProcess == old(browser.webProcess)
    {
      var connection := new ServiceConnection(processType, fd);
      match processType {
        case WebProcess =>
          browser.SetWebProcess(connection);
        case NetworkProcess =>
          browser.SetNetworkProcess(connection);
        case TypesCount =>
          return Err(IllegalArgumentException);
      }
      hostCalls := hostCalls + [BindService(connection, BIND_AUTO_CREATE | BIND_IMPORTANT)];
      r := Ok(connection);
    }

    /** Stopping a service is not supported yet: nothing happens. */
    method StopService(connection: ServiceConnection)
      ensures unchanged(this) && unchanged(browser) && unchanged(connection)
    {
    }

    /** Forwards the load event to the view; a started load also hides the soft keyboard. */
    method OnLoadChanged(loadEvent: int)
      requires Valid()
      modifies this`hostCalls
      ensures Valid()
      ensures hostCalls == old(hostCalls) + [ViewLoadChanged(loadEvent)]
                           + (if loadEvent == LOAD_STARTED then [HideSoftInput] else [])
    {
      hostCalls := hostCalls + [ViewLoadChanged(loadEvent)];
      if loadEvent == LOAD_STARTED {
        hostCalls := hostCalls + [HideSoftInput];
      }
    }

    /** Stores the navigation flags that the getters report, and forwards the title. */
    method OnTitleChanged(title: string, canGoBack: bool, canGoForward: bool)
      requires Valid()
      modifies this`canGoBack, this`canGoForward, this`hostCalls
      ensures Valid()
      ensures CanGoBack() == canGoBack && CanGoForward() == canGoForward
      ensures hostCalls == old(hostCalls) + [ViewTitleChanged(title)]
    {
      this.canGoBack := canGoBack;
      this.canGoForward := canGoForward;
      hostCalls := hostCalls + [ViewTitleChanged(title)];
    }
  }

  // ---------------------------------------------------------------------------
  // Sequences of calls on one page
  // ---------------------------------------------------------------------------

  /**
   * The ignore flag that a scale step sets is cleared before it is read: a
   * forwardable touch that arrives with a scale step is still forwarded.
   */
  method ScaleStepStillForwardsTouch(event: MotionEvent, factor: real)
    returns (handled: bool, ignoring: bool, ghost log: seq<NativeCall>)
    requires event.pointerCount >= 1 && TouchEventType(event.actionMasked).Some?
    ensures handled && !ignoring
    ensures log == [NativeSetZoomLevel(ClampZoom(factor)),
                    NativeTouchEvent(event.eventTime, TouchEventType(event.actionMasked).value, event.x, event.y)]
  {
    var browser := new Browser();
    var page := new Page(browser, 0, 0, 0);
    handled := page.OnTouchEvent(event, Some(factor));
    ignoring := page.ignoreTouchEvent;
    log := page.nativeCalls;
    assert 1.0 * factor == factor;
  }

  /** With the suppression in place, the same touch is consumed by the gesture. */
  method ScaleStepSuppressesTouch(event: MotionEvent, factor: real)
    returns (handled: bool, zoom: real, ghost log: seq<NativeCall>)
    requires event.pointerCount >= 1
    ensures handled && zoom == ClampZoom(factor)
    ensures log == [NativeSetZoomLevel(ClampZoom(factor))]
  {
    var browser := new Browser();
    var page := new Page(browser, 0, 0, 0);
    handled := page.OnTouchEventSuppressingAfterScale(event, Some(factor));
    zoom := page.scaleFactor;
    log := page.nativeCalls;
    assert 1.0 * factor == factor;
  }

  /** A page that has not heard a title change reports both directions as possible; afterwards it reports what it heard. */
  method NavigationFlags(title: string, back: bool, forward: bool)
    returns (initialBack: bool, initialForward: bool, laterBack: bool, laterForward: bool)
    ensures initialBack && initialForward
    ensures laterBack == back && laterForward == forward
  {
    var browser := new Browser();
    var page := new Page(browser, 0, 0, 0);
    initialBack, initialForward := page.CanGoBack(), page.CanGoForward();
    page.OnTitleChanged(title, back, forward);
    laterBack, laterForward := page.CanGoBack(), page.CanGoForward();
  }

  /** Closing twice and then destroying emits one native close and one native destroy. */
  method CloseCloseDestroy(pageId: int, width: int, height: int)
    returns (closed: bool, ghost closes: nat, ghost destroys: nat)
    ensures closed && closes == 1 && destroys == 1
  {
    var browser := new Browser();
    var page := new Page(browser, pageId, width, height);
    page.Init();
    page.Close();
    page.Close();
    page.Destroy();
    closed := page.closed;
    closes, destroys := Count(page.nativeCalls, NativeClose), Count(page.nativeCalls, NativeDestroy);
    assert page.nativeCalls == [NativeInit(pageId, width, height), NativeUpdateAllSettings, NativeClose, NativeDestroy];
    var init := NativeInit(pageId, width, height);
    CountSnoc([], init, NativeDestroy);
    CountSnoc([init], NativeUpdateAllSettings, NativeDestroy);
    CountSnoc([init, NativeUpdateAllSettings], NativeClose, NativeDestroy);
    CountSnoc([init, NativeUpdateAllSettings, NativeClose], NativeDestroy, NativeDestroy);
    assert [] + [init] == [init] && [init] + [NativeUpdateAllSettings] == [init, NativeUpdateAllSettings];
    assert [init, NativeUpdateAllSettings] + [NativeClose] == [init, NativeUpdateAllSettings, NativeClose];
    assert [init, NativeUpdateAllSettings, NativeClose] + [NativeDestroy] == page.nativeCalls;
  }
}
