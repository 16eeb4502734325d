# WPE Android: process bridge, page lifecycle and dependency bootstrap

This project models three parts of WPE Android, the port of the WPE WebKit
engine to Android.

- **The native process provider** (`process_provider.dfy`). The engine does not
  fork its auxiliary processes on Android. It asks a registered process
  provider to launch or terminate them. The provider forwards each request
  over JNI to the managed `BrowserGlue` controller. Native code holds that
  controller only through a weak global reference, stored by `init` and
  deleted by `shut`. Only the web and network kinds can be launched. Any
  other kind is refused with status -1. A request that reaches the JNI block
  reports success (0) whether or not the controller could be called. Every
  call made into the controller is recorded in a ghost trace. A class
  invariant proves that the trace only ever carries kind 0 or 1.
- **The page** (`page.dfy`). A `Page` is one browser tab.
  - The size is captured once at construction and passed to the native init.
  - `close` is idempotent: the native close happens exactly once, and
    `destroy` and the finalizer always go through `close`.
  - Touch actions DOWN, MOVE and UP map to event types 0, 1 and 2.
  - Pinch zoom multiplies a running factor and clamps it to [0.1, 5.0].
  - Navigation flags come from title notifications.
  - A launched auxiliary service is routed into the browser's slot for its
    kind. Any other kind raises `IllegalArgumentException`.
  - Native and host-platform calls are kept in ghost logs.
- **The dependency bootstrap script** (`bootstrap.dfy`, with the Python string
  operations it relies on in `pystr.dfy`). The script renames versioned
  shared libraries (`libfoo.so.1` becomes `libfoo_1.so`), because Android
  only unpacks `*.so` files. It records every renamed SONAME as a pair and
  asserts that both sides of each pair have the same length. It patches
  those pairs into the binaries byte for byte. It reports NEEDED entries that
  no library provides, and provided SONAMEs that nothing needs. It maps the
  target architecture to an ABI directory. It copies the JNI libraries,
  skipping the ones linked at build time.

`wrappers.dfy` holds the shared `Option` and `Result` types.

The model follows what the code does, including where it behaves in ways a
reader might not expect.

- A second `init` before `shut` silently keeps the first weak reference,
  where re-registration before `shut` would be expected to fail loudly. This
  is proved by `InitTwice`.
- `init` tests the raw weak reference against null. A reference whose
  controller was collected, but which was never deleted, therefore blocks a
  new `init`. This is proved by `InitAfterCollection`.
- The page keeps its finalizer, which destroys the page again.
- Touches are not suppressed after a scale step; see Findings.

## Model

| member | source | states |
|---|---|---|
| PyStr.Split | scripts/bootstrap.py:257 | `str.split('.')` gives one more piece than there are separators, and no piece contains the separator |
| PyStr.EndsWith | scripts/bootstrap.py:254 | `str.endswith`: the string ends with exactly the suffix; its uses are stated by `Bootstrap.AdjustSoname` and `Bootstrap.NotEndingInSo` |
| PyStr.Join | scripts/bootstrap.py:260-262 | `str.join` with a one-character separator; `PyStr.JoinSplit` and `PyStr.JoinSnoc` state its relation to `split` |
| PyStr.Replace | scripts/bootstrap.py:287 | `bytes.replace`: non-overlapping occurrences, left to right, the empty pattern matching between every element; `PyStr.ReplaceAbsent`, `PyStr.ReplaceFirst`, `PyStr.ReplaceKeepsLength` and `PyStr.ReplaceBySelf` state its properties |
| PyStr.JoinSplit | scripts/bootstrap.py:257-260 | `'.'.join(s.split('.')) == s` for every string |
| PyStr.SplitAround | scripts/bootstrap.py:257 | splitting `a + '.' + b` gives the pieces of `a` followed by the pieces of `b` |
| PyStr.SplitWithoutSeparator | scripts/bootstrap.py:257 | a string without a dot splits into itself alone |
| PyStr.JoinSnoc | scripts/bootstrap.py:260 | joining one more piece appends a dot and that piece |
| PyStr.ReplaceKeepsLength | scripts/bootstrap.py:287 | `bytes.replace` with a replacement of the pattern's length keeps the length of the contents |
| PyStr.ReplaceBySelf | scripts/bootstrap.py:287 | replacing a pattern by itself leaves the contents unchanged, the empty pattern included |
| PyStr.ReplaceAbsent | scripts/bootstrap.py:287 | a non-empty pattern that occurs nowhere leaves the contents unchanged |
| PyStr.ReplaceFirst | scripts/bootstrap.py:287 | the first occurrence of a non-empty pattern is replaced, the part before it is kept, and replacement resumes after it; with `PyStr.ReplaceAbsent` this fixes the result for every non-empty pattern |
| PyStr.Basename | scripts/bootstrap.py:350 | `os.path.basename` contains no '/', is a suffix of the path, and is either the whole path or exactly what follows its last '/' |
| ProcessProvider.ToUint64 | wpe/src/main/cpp/browser/entrypoints.cpp:83 | conversion to `uint64_t` is reduction modulo 2^64 |
| ProcessProvider.ToJlong | wpe/src/main/cpp/browser/entrypoints.cpp:116 | `static_cast<jlong>` of a `uint64_t` is a 64-bit signed value congruent to it modulo 2^64 |
| ProcessProvider.JlongOfUint64 | wpe/src/main/cpp/browser/entrypoints.cpp:143-155 | a signed 64-bit pid that goes through `uint64_t` and back to `jlong` reaches the controller unchanged, including the widened 32-bit pid of terminate |
| ProcessProvider.Ordinal | wpe/src/main/cpp/browser/entrypoints.cpp:116 | the integer passed for a kind is at most 2, and it is 2 exactly for the `TypesCount` sentinel |
| ProcessProvider.ToAndroidProcessType | wpe/src/main/cpp/browser/entrypoints.cpp:86-98 | the mapping yields the sentinel exactly for kinds other than web and network |
| ProcessProvider.IsValidProcessType | wpe/src/main/cpp/browser/entrypoints.cpp:101 | the range check after the mapping rejects exactly the `TypesCount` sentinel |
| ProcessProvider.MappingAcceptsOnlyWebAndNetwork | wpe/src/main/cpp/browser/entrypoints.cpp:86-104 | mapping then range check accepts exactly web and network, which become 0 and 1; GPU, WebAuthn and unlisted values fall on the sentinel |
| ProcessProvider.AndroidProcessProvider.constructor | wpe/src/main/cpp/browser/entrypoints.cpp:56-58 | the context wraps the engine's provider handle |
| ProcessProvider.CreateProcessProvider | wpe/src/main/cpp/browser/entrypoints.cpp:60-64 | creation always yields a fresh, live context wrapping the given handle |
| ProcessProvider.DestroyProcessProvider | wpe/src/main/cpp/browser/entrypoints.cpp:66-70 | a non-null context is deleted; null is accepted and nothing happens |
| ProcessProvider.Dispatch | wpe/src/main/cpp/browser/entrypoints.cpp:108-131 | the controller's method is entered iff the JNI env is available, the weak reference is live and the method is found; a Java exception is reported iff it is also thrown; "collected" is reported iff the env is available and the reference is dead; a JNI error iff the env is unavailable; "method not found" iff the env is available, the reference live and the lookup fails |
| ProcessProvider.BrowserGlueNative.constructor | wpe/src/main/cpp/browser/entrypoints.cpp:16 | no weak reference is stored initially and no call has been made |
| ProcessProvider.BrowserGlueNative.Init | wpe/src/main/cpp/browser/entrypoints.cpp:25-33 | a weak reference is stored only when none is stored; otherwise the old one is kept |
| ProcessProvider.BrowserGlueNative.Shut | wpe/src/main/cpp/browser/entrypoints.cpp:42-52 | afterwards no reference is stored, whether or not one was |
| ProcessProvider.BrowserGlueNative.ControllerCollected | wpe/src/main/cpp/browser/entrypoints.cpp:110 | after collection a stored reference reads as null and is not live |
| ProcessProvider.BrowserGlueNative.GlueLive | wpe/src/main/cpp/browser/entrypoints.cpp:110 | `IsSameObject(s_browserGlue_object, nullptr)` is false only when a reference is stored (and not cleared) |
| ProcessProvider.BrowserGlueNative.LaunchProcess | wpe/src/main/cpp/browser/entrypoints.cpp:72-134 | status -1 iff provider is null, options are null or the kind is unsupported (each with its own report), otherwise 0 whatever happens in the JNI block; the controller receives exactly (pid, 0 or 1, fd) when reached; the invariant that only kinds 0 and 1 are ever sent is kept |
| ProcessProvider.BrowserGlueNative.TerminateProcess | wpe/src/main/cpp/browser/entrypoints.cpp:136-171 | null provider: nothing happens; otherwise the JNI block's outcome, with the pid passed unchanged when the controller is reached |
| ProcessProvider.InitTwice | wpe/src/main/cpp/browser/entrypoints.cpp:29-30 | a second init keeps the first controller's reference |
| ProcessProvider.ShutThenInit | wpe/src/main/cpp/browser/entrypoints.cpp:42-52 | after shut, repeated or not, init stores the new controller |
| ProcessProvider.RequestsAfterShut | wpe/src/main/cpp/browser/entrypoints.cpp:127-128 | after shut, neither launch nor terminate reaches a controller; with an env available, terminate reports the controller as collected |
| ProcessProvider.InitAfterCollection | wpe/src/main/cpp/browser/entrypoints.cpp:29-30 | once the controller has been collected, a new init is ignored and a launch returns 0 reporting the controller as collected |
| PageModel.TouchEventType | wpe/src/main/java/com/wpe/wpe/Page.java:158-173 | an action is forwarded iff it is DOWN, MOVE or UP, and the event type is in 0..2 |
| PageModel.TouchEventTypeMatchesActions | wpe/src/main/java/com/wpe/wpe/Page.java:160-173 | DOWN, MOVE and UP become 0, 1 and 2 in both directions, and no other action maps to anything |
| PageModel.ClampZoom | wpe/src/main/java/com/wpe/wpe/Page.java:127 | the result is within [0.1, 5.0]; values inside are kept and values outside go to the nearer bound |
| PageModel.ZoomAfterInRange | wpe/src/main/java/com/wpe/wpe/Page.java:125-127 | a run of scale steps, each multiplying then clamping as `OnScale` does, ends within [0.1, 5.0] whatever the factors, negative or huge, once there is at least one step |
| PageModel.ZoomSaturates | wpe/src/main/java/com/wpe/wpe/Page.java:125-127 | from 1.0, three tenfold steps give 5.0 and not 1000 |
| PageModel.ServiceConnection.constructor | wpe/src/main/java/com/wpe/wpe/Page.java:250 | a connection records its kind and descriptor |
| PageModel.Browser.SetWebProcess | wpe/src/main/java/com/wpe/wpe/Page.java:254 | the web slot takes the connection and the network slot is untouched |
| PageModel.Browser.SetNetworkProcess | wpe/src/main/java/com/wpe/wpe/Page.java:258 | the network slot takes the connection and the web slot is untouched |
| PageModel.Page.constructor | wpe/src/main/java/com/wpe/wpe/Page.java:180-206 | the id and measured size are captured; the page starts open, both navigation flags set, zoom 1.0, nothing ignored, no native call |
| PageModel.Page.Init | wpe/src/main/java/com/wpe/wpe/Page.java:208-217 | native init with the construction-time id and size, then the settings push, in that order |
| PageModel.Page.Close | wpe/src/main/java/com/wpe/wpe/Page.java:219-227 | the page is closed and the native close has been emitted exactly once, appended only on the first call |
| PageModel.Page.Destroy | wpe/src/main/java/com/wpe/wpe/Page.java:229-233 | close (at most one native close ever), then one more native destroy on every call |
| PageModel.Page.Finalize | wpe/src/main/java/com/wpe/wpe/Page.java:235-242 | the finalizer performs a full destroy |
| PageModel.Page.OnScale | wpe/src/main/java/com/wpe/wpe/Page.java:121-134 | the zoom becomes the clamped product, is forwarded to native, the ignore flag is set and the gesture is handled |
| PageModel.Page.OnTouchEvent | wpe/src/main/java/com/wpe/wpe/Page.java:145-177 | no pointer: unhandled and nothing changes; otherwise any scale step is applied first, the ignore flag ends cleared, and the event is handled and forwarded (time, type, pointer 0's x and y) iff its action is DOWN, MOVE or UP |
| PageModel.Page.ScaleStep | wpe/src/main/java/com/wpe/wpe/Page.java:152 | the detector runs `onScale` for the step it reports (zoom clamped, forwarded, flag set); with no step nothing changes |
| PageModel.Page.ForwardTouch | wpe/src/main/java/com/wpe/wpe/Page.java:158-176 | the event is handled iff its action is DOWN, MOVE or UP, and exactly then one native touch (time, type, pointer 0's x and y) is emitted |
| PageModel.Page.OnTouchEventSuppressingAfterScale | wpe/src/main/java/com/wpe/wpe/Page.java:152-156 | corrected handler: an event carrying a scale step forwards only the zoom and is consumed without a touch |
| PageModel.Page.LaunchService | wpe/src/main/java/com/wpe/wpe/Page.java:244-267 | web and network connections go into their own browser slot (the other slot kept) and are bound with AUTO_CREATE and IMPORTANT; the sentinel raises IllegalArgumentException with no slot changed and nothing bound |
| PageModel.Page.StopService | wpe/src/main/java/com/wpe/wpe/Page.java:269-274 | stopping a service changes nothing |
| PageModel.Page.OnLoadChanged | wpe/src/main/java/com/wpe/wpe/Page.java:282-288 | the event is forwarded to the view; the keyboard is dismissed iff the load started |
| PageModel.Page.OnTitleChanged | wpe/src/main/java/com/wpe/wpe/Page.java:300-305 | the getters then report exactly the flags given, and the title is forwarded |
| PageModel.Page.CanGoBack | wpe/src/main/java/com/wpe/wpe/Page.java:341-344 | reports the back flag of the last title notification, true before any (`PageModel.NavigationFlags`) |
| PageModel.Page.CanGoForward | wpe/src/main/java/com/wpe/wpe/Page.java:346-349 | reports the forward flag of the last title notification, true before any (`PageModel.NavigationFlags`) |
| PageModel.ScaleStepStillForwardsTouch | wpe/src/main/java/com/wpe/wpe/Page.java:152-156 | as written, a forwardable touch arriving with a scale step is still handled, the ignore flag is already clear, and native receives the zoom level and then the touch |
| PageModel.ScaleStepSuppressesTouch | wpe/src/main/java/com/wpe/wpe/Page.java:152-156 | with the correction, the same event is consumed by the gesture with the zoom clamped, and native receives the zoom level only, no touch |
| PageModel.NavigationFlags | wpe/src/main/java/com/wpe/wpe/Page.java:341-349 | before any title change both directions are reported possible; afterwards the getters report the notified flags |
| PageModel.CloseCloseDestroy | wpe/src/main/java/com/wpe/wpe/Page.java:219-233 | init, close, close, destroy leaves the page closed with one native close and one native destroy |
| Bootstrap.AdjustSoname | scripts/bootstrap.py:253-262 | names ending ".so" are kept; the assertion fails iff the name has fewer than two dots; every name produced ends in ".so"; with two or more dots, None is returned iff "so" is neither the next-to-last nor the third-from-last piece |
| Bootstrap.WithSoSuffix | scripts/bootstrap.py:260 | appending ".so" keeps the base as a prefix and ends in ".so" |
| Bootstrap.SplitTail | scripts/bootstrap.py:257-262 | a name is the join of its front pieces, a dot, the next-to-last piece, a dot and the last piece |
| Bootstrap.AdjustSonameLength | scripts/bootstrap.py:253-262 | every produced name has the input's length, except a bare so.X.Y, which grows by exactly one |
| Bootstrap.BareSoVersionGrows | scripts/bootstrap.py:261-262 | so.X.Y (for instance so.1.2) is renamed _X_Y.so, one character longer |
| Bootstrap.AdjustSonameIdempotent | scripts/bootstrap.py:254-255 | renaming a renamed name changes nothing |
| Bootstrap.SplitTwoPiecesAfter | scripts/bootstrap.py:257 | p.a.b with dot-free a and b splits into p's pieces then a and b |
| Bootstrap.NotEndingInSo | scripts/bootstrap.py:254 | a dot followed by a dot-free piece other than "so" does not end in ".so" |
| Bootstrap.RenamesOneVersion | scripts/bootstrap.py:259-260 | p.so.X becomes p_X.so |
| Bootstrap.RenamesTwoVersions | scripts/bootstrap.py:261-262 | p.so.X.Y becomes p_X_Y.so |
| Bootstrap.ScanOne | scripts/bootstrap.py:328-333 | a rename that raises gives exactly that failure and nothing else; a pair (the name with its rename) is added iff the rename succeeds and changes the name; a copy under the new name is made iff the rename gives a name and the library is installed; TypeError iff the rename gives None for an installed library |
| Bootstrap.Installs | scripts/bootstrap.py:332 | `not install_list or lib_path in install_list`: None and the empty list install everything; `Bootstrap.ScanOne` uses it to decide the copy |
| Bootstrap.ScanLibsSnoc | scripts/bootstrap.py:327-333 | scanning one more library extends the pairs and copies by that library's, unless an earlier one already raised |
| Bootstrap.ScanLibs | scripts/bootstrap.py:327-333 | the first loop over all libraries, stopping at the first exception; `Bootstrap.ScanLibsSnoc`, `Bootstrap.ScanLibsStops`, `Bootstrap.ScanLibsPrefix`, `Bootstrap.ScanLibsRecordsEveryRename` and `Bootstrap.ScanLibsFacts` state its properties |
| Bootstrap.ScanLibsStops | scripts/bootstrap.py:327-333 | once a library raises, the later libraries change nothing |
| Bootstrap.ScanLibsPrefix | scripts/bootstrap.py:327-333 | scanning more libraries only extends the pairs and the copies |
| Bootstrap.ScanLibsRecordsEveryRename | scripts/bootstrap.py:327-333 | every library reached before an exception has its rename recorded as a pair when the name changes, and is copied under the new name when installed |
| Bootstrap.ScanLibsFacts | scripts/bootstrap.py:327-333 | every appended pair holds a changed name together with its rename; every copy is made under a ".so" name; at most one pair and one copy per library; the converse is `Bootstrap.ScanLibsRecordsEveryRename` |
| Bootstrap.ScanPairsConsistent | scripts/bootstrap.py:327-336 | the appended pairs pass the equal-length assertion iff every rename produced a name and none is a bare so.X.Y |
| Bootstrap.CheckPairs | scripts/bootstrap.py:335-336 | no error iff every pair has a name on both sides of equal length; otherwise TypeError (a None side) or AssertionError |
| Bootstrap.ApplyReplacements | scripts/bootstrap.py:286-287 | the patch succeeds iff every pair has a target, and it raises TypeError otherwise; with equal-length pairs it keeps the binary's length; `Bootstrap.ApplyReplacementsSnoc` states the order, and each step is `PyStr.Replace` |
| Bootstrap.ApplyReplacementsSnoc | scripts/bootstrap.py:286-287 | the pairs are applied in list order: one more pair replaces its pattern in the result of the earlier ones, or raises TypeError |
| Bootstrap.ElfSetsMembership | scripts/bootstrap.py:358-361 | the SONAME and NEEDED sets hold exactly the entries of the libraries |
| Bootstrap.Sonames | scripts/bootstrap.py:358-361 | the set of SONAMEs the libraries provide; membership is stated by `Bootstrap.ElfSetsMembership` |
| Bootstrap.Needed | scripts/bootstrap.py:358-361 | the union of the libraries' NEEDED entries; membership is stated by `Bootstrap.ElfSetsMembership` |
| Bootstrap.DepsReport | scripts/bootstrap.py:354-377 | a name is needed-but-not-provided iff the base set or some library needs it and no library provides it, and symmetrically; the two reports are disjoint |
| Bootstrap.AndroidAbi | scripts/bootstrap.py:384-389 | only arm64 and arm are supported; any other architecture raises "Architecture not supported" |
| Bootstrap.AndroidAbiValues | scripts/bootstrap.py:384-389 | arm64 maps to arm64-v8a and arm to armeabi-v7a, and no two architectures share a directory |
| Bootstrap.JniLibNamesMembership | scripts/bootstrap.py:349-352 | a name is copied iff some path has it as base name and it is not a build-time library |
| Bootstrap.JniLibNames | scripts/bootstrap.py:349-352 | the base names copied, in path order, skipping build libraries; membership is stated by `Bootstrap.JniLibNamesMembership` |
| Bootstrap.Bootstrap.constructor | scripts/bootstrap.py:91-94 | the pair list starts with the libnettle pair (which has equal sides) and the base NEEDED set with libWPEWebKit-1.0_3.so |
| Bootstrap.Bootstrap.CopyLibs | scripts/bootstrap.py:317-340 | the pairs appended are exactly the scan's, so every rename before an exception is recorded (`Bootstrap.ScanLibsRecordsEveryRename`); a raising library gives its error; otherwise the copies if all pairs are consistent, else the first pair's error |
| Bootstrap.Bootstrap.InstallDeps | scripts/bootstrap.py:378-397 | the ABI directory is chosen from the architecture before any copy: an unsupported architecture raises and leaves the pair list unchanged; otherwise the pairs are appended as by the copy, and then the scanning library's exception is raised if there is one, else the first bad pair's error if the assertion fails, else the ABI directory with the copies, which hold every installed library reached under its new name |
| Bootstrap.Bootstrap.ScanLibraries | scripts/bootstrap.py:327-333 | the loop computes exactly the scan of all libraries: its pairs, its copies and the exception that stopped it |
| Bootstrap.Bootstrap.ScanUntilFailure | scripts/bootstrap.py:327-333 | the loop stops after the last library or at the first exception, holding the scan of the libraries passed so far |
| Bootstrap.Bootstrap.CheckReplacements | scripts/bootstrap.py:335-336 | no error iff the pair list is consistent |
| Bootstrap.Bootstrap.ReplaceSonameValues | scripts/bootstrap.py:282-290 | the contents are patched by every pair in list order, each replacing every occurrence of its name (`Bootstrap.ApplyReplacementsSnoc`, `PyStr.ReplaceFirst`, `PyStr.ReplaceAbsent`), or TypeError at the first pair without a target |
| Bootstrap.Bootstrap.ResolveDeps | scripts/bootstrap.py:354-377 | the two reported sets, computed over a NEEDED set that aliases the base set, so the base set keeps every NEEDED entry afterwards |
| Bootstrap.Bootstrap.CopyJniLibs | scripts/bootstrap.py:342-352 | the base names copied, in order, none of them a build-time library |

## Findings

| source | as written | input that shows it | evidently intended | confidence | as-written member | corrected member |
|---|---|---|---|---|---|---|
| wpe/src/main/java/com/wpe/wpe/Page.java:152-156 | the ignore flag set by the scale listener is cleared before anything reads it, so no touch is ever suppressed | one pointer, ACTION_MOVE during a pinch, for which the detector reports a scale step: the zoom and the touch are both forwarded | the event carrying a scale step is consumed after the zoom is forwarded, and no touch is sent (avoids a spurious pan) | medium; not executed | PageModel.ScaleStepStillForwardsTouch | PageModel.Page.OnTouchEventSuppressingAfterScale |

## Left out

- ProcessProvider.BrowserGlueNative.LaunchProcess: the options arrive already parsed. Two parse behaviours are not modelled. `strtoll` returns 0 on garbage. `std::stoi` throws outside the try block and ends the process on a malformed descriptor.
- ProcessProvider.BrowserGlueNative.LaunchProcess: the lookup at wpe/src/main/cpp/browser/entrypoints.cpp:114 asks for "(JII)V", but wpe/src/main/java/com/wpe/wpe/BrowserGlue.java:50 declares `launchProcess(long, int, int[])`, whose descriptor is "(JI[I)V". As written the lookup does not find it on that class. The JNI lookup is not modelled, so `methodFound` is a parameter, and the model does not claim that the launch callback is ever reached.
- JNI mechanics are abstracted into three booleans: whether the thread's JNI environment is available, whether the callback method is found, and whether the Java callback leaves an exception pending. The logging calls become the returned `Report`. Local references and `ExceptionDescribe`/`ExceptionClear` are dropped.
- `setupEnvironment`, `initLooperHelper`, `JNI_OnLoad` and `Browser::init`/`shut` are not modelled.
- Threading is not modelled. Launch and terminate may run on engine worker threads; the model is sequential.
- PageModel.ClampZoom: the factor is a real, not a 32-bit float. Float rounding and NaN are not modelled; Java's `Math.min`/`Math.max` would propagate a NaN.
- PageModel.Page.OnTouchEvent: the scale gesture detector is a foreign component. Whether it reports a scale step for an event is a parameter.
- PageModel.Page.Init: the view calls `onPageSurfaceViewCreated`, `onPageSurfaceViewReady` and `getSettings().getPageSettings().setPage(this)` (wpe/src/main/java/com/wpe/wpe/Page.java:212-216) are not logged in `hostCalls`. The model records only the native init and the settings push.
- Surface callbacks, URL loading, history navigation, input method, full screen and the settings object are not modelled. They only forward to native or to the view.
- PageModel.Browser: Browser.java is not part of this model. Its two slots are modelled as plain fields.
- The Java `ProcessType` enum is not part of this model. It is taken to mirror the native enum: WebProcess, NetworkProcess, then a sentinel.
- Android constants come from the platform, not from the repository. They are ACTION_DOWN 0, ACTION_UP 1, ACTION_MOVE 2, BIND_AUTO_CREATE 0x1 and BIND_IMPORTANT 0x40.
- The bootstrap script's file system, archive and network work is left out: downloads, extraction, directory creation, globbing, copying, symlinks and headers. So are the gstreamer bundling step, `patchelf` and argument parsing.
- The script's subprocess calls are left out. `readelf` output is given as values, one SONAME and a NEEDED list per library.
- Bytes and their UTF-8 encoding are modelled as characters.
- The libnettle seed pair is not checked against the rename on the literal itself. It is the instance p = "libnettle", x = "6" of `Bootstrap.RenamesOneVersion`.
- Bootstrap.Bootstrap.CopyLibs: the pairs found by the first loop are appended to the list in one step after the loop, not pass by pass. The final list is the same in every outcome, because an exception leaves `__copy_libs` right after the pass that raised it.
- Printing of the dependency report is left out. `Bootstrap.Bootstrap.ResolveDeps` returns the two sets that would be printed.
