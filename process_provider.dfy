/**
 * The native process provider that the web engine calls to start and stop its
 * auxiliary processes (wpe/src/main/cpp/browser/entrypoints.cpp).
 *
 * The engine's fork is replaced by a callback into the managed controller (the
 * BrowserGlue object). Native code keeps only a weak reference to that
 * controller; every callback it makes is recorded in a ghost trace.
 */
module ProcessProvider {
  import opened Wrappers

  // ---------------------------------------------------------------------------
  // Machine integers
  // ---------------------------------------------------------------------------

  const TWO_31: int := 0x8000_0000
  const TWO_63: int := 0x8000_0000_0000_0000
  const TWO_64: int := 0x1_0000_0000_0000_0000

  type int32 = x: int | -TWO_31 <= x < TWO_31
  type int64 = x: int | -TWO_63 <= x < TWO_63

  /** C++ conversion of a signed value to uint64_t: reduction modulo 2^64. */
  function ToUint64(x: int): (u: nat)
    ensures u < TWO_64
    ensures u % TWO_64 == x % TWO_64
  {
    x % TWO_64
  }

  /** static_cast<jlong> of a uint64_t: the two's-complement reading of the bits. */
  function ToJlong(u: nat): (r: int64)
    requires u < TWO_64
    ensures r % TWO_64 == u
  {
    if u < TWO_63 then u else u - TWO_64
  }

  /**
   * A signed value that goes through uint64_t and back to jlong is unchanged:
   * the pid parsed by strtoll and the int32 pid widened in terminateProcess
   * both reach the controller with their original value.
   */
  lemma JlongOfUint64(x: int64)
    ensures ToJlong(ToUint64(x)) == x
  {
  }

  // ---------------------------------------------------------------------------
  // Process kinds
  // ---------------------------------------------------------------------------

  /**
   * The engine's enum wpe_process_type. Unlisted stands for a value outside the
   * four named kinds; Unlisted(0) to Unlisted(3) would alias them and never occur.
   */
  datatype WpeProcessType = Web | Network | Gpu | WebAuthn | Unlisted(value: int)

  /**
   * wpe::android::ProcessType. FirstType is an alias of WebProcess; TypesCount
   * is the sentinel one past the last valid kind.
   */
  datatype ProcessType = WebProcess | NetworkProcess | TypesCount

  /** The integer value of a ProcessType, as static_cast<jint> gives it. */
  function Ordinal(t: ProcessType): (n: nat)
    ensures n <= 2
    ensures n == 2 <==> t == TypesCount
  {
    match t
    case WebProcess => 0
    case NetworkProcess => 1
    case TypesCount => 2
  }

  const FirstType: ProcessType := WebProcess

  /** The lambda processTypeToAndroidProcessType. */
  function ToAndroidProcessType(t: WpeProcessType): (r: ProcessType)
    ensures r == TypesCount <==> !(t.Web? || t.Network?)
  {
    match t
    case Web => WebProcess
    case Network => NetworkProcess
    case _ => TypesCount
  }

  /** The range check that follows the mapping: it rejects exactly the sentinel. */
  predicate IsValidProcessType(r: ProcessType): (valid: bool)
    ensures valid <==> r != TypesCount
  {
    !(Ordinal(r) < Ordinal(FirstType) || Ordinal(r) >= Ordinal(TypesCount))
  }

  /**
   * Mapping followed by the range check accepts exactly the web and network
   * kinds, and the accepted kinds reach the controller as 0 and 1.
   */
  lemma MappingAcceptsOnlyWebAndNetwork(t: WpeProcessType)
    ensures IsValidProcessType(ToAndroidProcessType(t)) <==> t == Web || t == Network
    ensures t == Web ==> ToAndroidProcessType(t) == WebProcess && Ordinal(ToAndroidProcessType(t)) == 0
    ensures t == Network ==> ToAndroidProcessType(t) == NetworkProcess && Ordinal(ToAndroidProcessType(t)) == 1
    ensures t.Gpu? || t.WebAuthn? || t.Unlisted? ==> ToAndroidProcessType(t) == TypesCount
  {
  }

  // ---------------------------------------------------------------------------
  // Provider context
  // ---------------------------------------------------------------------------

  /** struct AndroidProcessProvider: wraps the engine's wpe_process_provider handle. */
  class AndroidProcessProvider {
    const wpeProvider: nat
    ghost var deleted: bool

    constructor (wpeProvider: nat)
      ensures this.wpeProvider == wpeProvider && !deleted
    {
      this.wpeProvider := wpeProvider;
      deleted := false;
    }
  }

  /** createProcessProvider: allocates the wrapper; never fails. */
  method CreateProcessProvider(wpeProvider: nat) returns (p: AndroidProcessProvider)
    ensures fresh(p) && p.wpeProvider == wpeProvider && !p.deleted
  {
    p := new AndroidProcessProvider(wpeProvider);
  }

  /** destroyProcessProvider: deletes the wrapper (deleting null is harmless). */
  method DestroyProcessProvider(p: AndroidProcessProvider?)
    requires p != null ==> !p.deleted
    modifies p
    ensures p != null ==> p.deleted
  {
    if p != null {
      p.deleted := true;
    }
  }

  // ---------------------------------------------------------------------------
  // Callbacks into the controller
  // ---------------------------------------------------------------------------

  /** The already-parsed launch options: pid from strtoll, fd from stoi. */
  datatype LaunchOptions = LaunchOptions(pid: int64, fd: int32)

  /** A call made on the controller object through JNI. */
  datatype Callback =
    | LaunchCallback(pid: int64, processType: int32, fd: int32)
    | TerminateCallback(pid: int64)

  /** How the JNI environment behaves during one call. */
  datatype Jni = Jni(
    envAvailable: bool,  // getCurrentThreadJNIEnv() returns instead of throwing
    methodFound: bool,   // GetMethodID finds the callback with the requested signature
    javaThrows: bool)    // the Java callback leaves an exception pending

  /** Which branch a launch or terminate request took (each logs its own message). */
  datatype Report =
    | NoProvider
    | NoOptions
    | InvalidProcessType
    | Called
    | JavaException
    | MethodNotFound
    | GlueCollected
    | JniError

  /** The reports under which the controller's Java method was actually entered. */
  predicate Reached(r: Report) {
    r == Called || r == JavaException
  }

  /** The try block shared by launchProcess and terminateProcess. */
  function Dispatch(live: bool, jni: Jni): (r: Report)
    ensures Reached(r) <==> jni.envAvailable && live && jni.methodFound
    ensures r == JavaException <==> jni.envAvailable && live && jni.methodFound && jni.javaThrows
    ensures r == GlueCollected <==> jni.envAvailable && !live
    ensures r == JniError <==> !jni.envAvailable
    ensures r == MethodNotFound <==> jni.envAvailable && live && !jni.methodFound
  {
    if !jni.envAvailable then JniError
    else if !live then GlueCollected
    else if !jni.methodFound then MethodNotFound
    else if jni.javaThrows then JavaException
    else Called
  }

  /** A jweak: the controller it designates, and whether the collector cleared it. */
  datatype WeakRef = WeakRef(target: nat, cleared: bool)

  /** The native side of BrowserGlue: the global s_browserGlue_object and the calls made through it. */
  class BrowserGlueNative {
    var glue: Option<WeakRef>
    ghost var callbacks: seq<Callback>

    /** Every launch callback carries one of the two supported kinds. */
    ghost predicate Valid()
      reads this
    {
      forall i :: 0 <= i < |callbacks| && callbacks[i].LaunchCallback? ==>
        callbacks[i].processType == 0 || callbacks[i].processType == 1
    }

    /** IsSameObject(s_browserGlue_object, nullptr) is false: a reference is stored and not cleared. */
    predicate GlueLive(): (live: bool)
      reads this
      ensures live ==> glue.Some?
    {
      glue.Some? && !glue.value.cleared
    }

    constructor ()
      ensures Valid() && glue == None && callbacks == []
    {
      glue := None;
      callbacks := [];
    }

    /** init: stores a new weak reference only when none is stored. */
    method Init(controller: nat)
      requires Valid()
      modifies this
      ensures Valid()
      ensures glue == if old(glue) == None then Some(WeakRef(controller, false)) else old(glue)
      ensures callbacks == old(callbacks)
    {
      if glue == None {
        glue := Some(WeakRef(controller, false));
      }
    }

    /** shut: deletes the weak reference, if any; repeating it changes nothing. */
    method Shut()
      requires Valid()
      modifies this
      ensures Valid()
      ensures glue == None
      ensures callbacks == old(callbacks)
    {
      if glue != None {
        glue := None;
      }
    }

    /** The collector reclaims the controller: a stored weak reference now reads as null. */
    method ControllerCollected()
      requires Valid()
      modifies this
      ensures Valid()
      ensures glue == if old(glue) == None then None else Some(old(glue).value.(cleared := true))
      ensures !GlueLive()
      ensures callbacks == old(callbacks)
    {
      if glue != None {
        glue := Some(glue.value.(cleared := true));
      }
    }

    /** launchProcess. */
    method LaunchProcess(provider: AndroidProcessProvider?, kind: WpeProcessType,
                         options: Option<LaunchOptions>, jni: Jni)
      returns (status: int32, report: Report)
      requires Valid()
      requires provider != null ==> !provider.deleted
      modifies this`callbacks
      ensures Valid()
      ensures status == -1 <==>
        provider == null || options == None || !(kind == Web || kind == Network)
      ensures status == 0 || status == -1
      ensures provider == null ==> report == NoProvider
      ensures provider != null && options == None ==> report == NoOptions
      ensures provider != null && options != None && !(kind == Web || kind == Network) ==>
        report == InvalidProcessType
      ensures status == -1 ==> callbacks == old(callbacks)
      ensures status == 0 ==> report == Dispatch(GlueLive(), jni)
      ensures status == 0 && Reached(report) ==>
        callbacks == old(callbacks) +
          [LaunchCallback(options.value.pid, Ordinal(ToAndroidProcessType(kind)), options.value.fd)]
      ensures !Reached(report) ==> callbacks == old(callbacks)
    {
      if provider == null {
        return -1, NoProvider;
      }
      if options == None {
        return -1, NoOptions;
      }
      var pid: nat := ToUint64(options.value.pid);
      var fd := options.value.fd;

      var processType := ToAndroidProcessType(kind);
      MappingAcceptsOnlyWebAndNetwork(kind);
      if !IsValidProcessType(processType) {
        return -1, InvalidProcessType;
      }

      report := Dispatch(GlueLive(), jni);
      if Reached(report) {
        JlongOfUint64(options.value.pid);
        callbacks := callbacks + [LaunchCallback(ToJlong(pid), Ordinal(processType), fd)];
      }
      status := 0;
    }

    /** terminateProcess: the int32 pid is widened to 64 bits before the call. */
    method TerminateProcess(provider: AndroidProcessProvider?, pid: int32, jni: Jni)
      returns (report: Report)
      requires Valid()
      requires provider != null ==> !provider.deleted
      modifies this`callbacks
      ensures Valid()
      ensures provider == null ==> report == NoProvider
      ensures provider != null ==> report == Dispatch(GlueLive(), jni)
      ensures Reached(report) ==> callbacks == old(callbacks) + [TerminateCallback(pid)]
      ensures !Reached(report) ==> callbacks == old(callbacks)
    {
      if provider == null {
        return NoProvider;
      }
      var pid64: nat := ToUint64(pid);

      report := Dispatch(GlueLive(), jni);
      if Reached(report) {
        JlongOfUint64(pid);
        callbacks := callbacks + [TerminateCallback(ToJlong(pid64))];
      }
    }
  }

  // ---------------------------------------------------------------------------
  // Sequences of calls on one bridge
  // ---------------------------------------------------------------------------

  /** A second init keeps the reference stored by the first. */
  method InitTwice(first: nat, second: nat) returns (stored: Option<WeakRef>)
    ensures stored == Some(WeakRef(first, false))
  {
    var bridge := new BrowserGlueNative();
    bridge.Init(first);
    bridge.Init(second);
    stored := bridge.glue;
  }

  /** After shut, init stores the new controller. */
  method ShutThenInit(first: nat, second: nat) returns (stored: Option<WeakRef>)
    ensures stored == Some(WeakRef(second, false))
  {
    var bridge := new BrowserGlueNative();
    bridge.Init(first);
    bridge.Shut();
    bridge.Shut();
    bridge.Init(second);
    stored := bridge.glue;
  }

  /** After shut, neither a launch nor a terminate reaches a controller. */
  method RequestsAfterShut(controller: nat, provider: AndroidProcessProvider?, kind: WpeProcessType,
                           options: Option<LaunchOptions>, pid: int32, jni: Jni)
    returns (launchReport: Report, terminateReport: Report)
    requires provider != null ==> !provider.deleted
    ensures !Reached(launchReport) && !Reached(terminateReport)
    ensures provider != null && jni.envAvailable ==> terminateReport == GlueCollected
  {
    var bridge := new BrowserGlueNative();
    bridge.Init(controller);
    bridge.Shut();
    var status;
    status, launchReport := bridge.LaunchProcess(provider, kind, options, jni);
    terminateReport := bridge.TerminateProcess(provider, pid, jni);
  }

  /**
   * init tests the raw jweak against null, not whether its referent is alive:
   * once the controller has been collected, a later init keeps the cleared
   * reference, so launches are still dropped.
   */
  method InitAfterCollection(first: nat, second: nat, provider: AndroidProcessProvider, options: LaunchOptions)
    returns (status: int32, report: Report)
    requires !provider.deleted
    ensures status == 0 && report == GlueCollected
  {
    var bridge := new BrowserGlueNative();
    bridge.Init(first);
    bridge.ControllerCollected();
    bridge.Init(second);
    status, report := bridge.LaunchProcess(provider, Web, Some(options), Jni(true, true, false));
  }
}
