# Moodstocks demo apps: scanner and sync decision logic

A Dafny model of the decision logic that the Moodstocks SDK's Android demo
apps wrap around the recognition SDK. The SDK does the recognition and
syncing. The apps decide four things:

- which frames to scan;
- how the three recognition stages of a frame are chained;
- how an unstable stream of per-frame results becomes a steady overlay
  display;
- when to sync the local image database, and how to react to the outcome.

## Layout

- `results.dfy` (`Results`): the `Result` value class and its `equals`, plus
  the MSResultType codes.
- `scanner.dfy` (`Scanner`): what the screens see of the SDK. It has the
  error codes and the outcome of a call (`Answer`: returned a value, or
  threw). It also has the barcode-format and scan-option bits, and the
  decode flags derived from them.
- `status.dfy` (`StatusBundle`): the status Bundle handed to the overlay.
- `pipeline.dfy` (`Pipeline`): ScanThread's three stages as functions of
  the backend's answers (lock verification, image search, barcode decode).
  The first success wins.
- `stabilizer.dfy` (`Stabilizer`): one transition function `Next` for all
  four onResult variants, selected by a `Policy`:
  - the miss counter (threshold 2);
  - the miss counter plus a 1500 ms display clear;
  - the 1500 ms timeout;
  - no hysteresis.

  It comes with single-call, whole-run and scenario lemmas.
- `coldstart.dfy` (`ColdStart`): the sync policy of the demo app's home
  screen as a function of its callbacks, with trace lemmas.
- One module per screen package: `moodstocks_demo1.dfy`,
  `moodstocks_demo2.dfy`, `example_demo1.dfy`, `example_demo.dfy` and
  `example_demo2.dfy`.
  - Each module holds a `class` per activity, with the source's fields.
    Each callback is a method with a `modifies` frame and a full
    post-state.
  - Every onResult is proved to move the class's fields
    (`Lock()`) exactly as `Stabilizer.Next` says for that screen's
    policy.
  - The pipeline method `ScanThread.DoInBackground` is proved to return
    `Pipeline.Recognise`.
  - The demo home screen is proved to follow `ColdStart.Apply`.

How the outside world enters the model:

- Calls into the SDK and the camera become parameters of the operation
  that makes them. A backend answer is an `Answer<T>`, and the clock
  reading `System.currentTimeMillis()` is an `int` `now`.
- Effects on collaborators become counters on the screen objects:
  `overlay.onStatusUpdate` is `updates`, `CameraManager.requestNewFrame`
  is `frameRequests`, and there are counters for the sync, scan and API
  search calls and for the dialogs shown.
- The asynchronous callbacks become sequential method calls.

Where the code and its own comments or the design intent differ, the
model follows the code:

- In the counter variants the counter drops the lock without clearing
  the display (`Stabilizer.MissAgainstLock`).
- Re-seeing the locked result does not reset the counter
  (`Stabilizer.ReseeingDoesNotResetMisses`).
- In demo1 (com.moodstocks.android) the 1500 ms timer clears the display
  but keeps the lock, so the same result seen again stays hidden
  (`Stabilizer.ClearedDisplayStaysEmptyWhileLocked`).
- A sync failure never ends the cold start
  (`ColdStart.FailureIsFatalOnlyInColdStart`).
- In onSyncComplete, a throwing `count()` comes before
  `ready = true`, so `ready` is left as it was.
- onResume empties the displayed result without touching `_result`. By
  `Stabilizer.SameResultChangesNothing`, the result locked before the
  pause is not shown again while it stays in view.

## Model

| member | source | states |
|---|---|---|
| Results.EqualsIsStructural | sample/android/demo2/src/com/moodstocks/android/Result.java:21-25 | two results are equal iff their types and their value strings are equal, so equals is value identity |
| Results.EqualsIsReflexive | sample/android/demo2/src/com/moodstocks/android/Result.java:24 | every result equals itself |
| Results.EqualsIsSymmetric | sample/android/demo2/src/com/moodstocks/android/Result.java:24 | a equals b iff b equals a |
| Results.EqualsIsTransitive | sample/android/demo2/src/com/moodstocks/android/Result.java:24 | a equals b and b equals c imply a equals c |
| Results.AccessorsReturnArguments | sample/android/demo2/src/com/moodstocks/android/Result.java:8-19 | getType and getValue return exactly the constructor arguments |
| Scanner.EnablingAKindSetsOnlyItsFlag | sample/android/demo/src/com/example/android/ScanActivity.java:60-62 | setting one barcode bit in ScanOptions turns on exactly that decode flag and leaves the other two as they were |
| Scanner.DisablingAKindClearsOnlyItsFlag | sample/android/demo/src/com/example/android/ScanActivity.java:60-62 | clearing one barcode bit in ScanOptions turns off exactly that decode flag |
| Scanner.ImageBitLeavesFlags | sample/android/demo/src/com/example/android/ScanActivity.java:60-62 | the image-recognition bit has no decode flag and never changes the three flags |
| Scanner.FormatFlagFollowsItsBit | sample/android/demo1/src/com/moodstocks/android/ScanActivity.java:81-83 | each decode flag derived from BarcodeFormats follows its own format bit and no other |
| Pipeline.KindOfFormat | sample/android/demo1/src/com/moodstocks/android/ScanThread.java:98-109 | EAN-8, EAN-13 and QR code formats map to types 1, 2, 3 (both directions); any other format maps to NONE; never to IMAGE |
| Pipeline.LockVerdict | sample/android/demo1/src/com/moodstocks/android/ScanThread.java:56-72 | a lock yields the previous result, only for an image or QR-code result; an image lock holds iff match returned true |
| Pipeline.SearchVerdict | sample/android/demo1/src/com/moodstocks/android/ScanThread.java:81-86 | the search stage yields a result iff the search returned an id, and then it is IMAGE with that id |
| Pipeline.DecodeVerdict | sample/android/demo1/src/com/moodstocks/android/ScanThread.java:95-111 | the decode stage yields a result iff a barcode was decoded, keeping its text and typing it by its format |
| Pipeline.FirstFound | sample/android/demo1/src/com/moodstocks/android/ScanThread.java:51-118 | nothing is found iff every stage found nothing; otherwise the result is the first stage outcome that found something |
| Pipeline.RecogniseIsFirstSuccess | sample/android/demo1/src/com/moodstocks/android/ScanThread.java:69-111 | a confirmed lock wins; otherwise a search hit wins over a barcode; otherwise the barcode, if any, is the result |
| Pipeline.OnlyImageAndQrResultsLock | sample/android/demo1/src/com/moodstocks/android/ScanThread.java:57-68 | no previous result, or an EAN-8, EAN-13 or NONE result, never locks |
| Pipeline.QrLockIff | sample/android/demo1/src/com/moodstocks/android/ScanThread.java:63-67 | a QR-code lock holds iff a QR code is decoded and its text equals the previous value |
| Pipeline.ErrorsAreAbsorbed | sample/android/demo1/src/com/moodstocks/android/ScanThread.java:73-116 | the lock check whose backend call throws (match for an IMAGE prior, QR decode for a QRCODE prior) yields no verdict; a search or decode call that throws contributes nothing; with no lock verdict the search and decode stages still decide the result |
| MoodstocksDemo1.ScanThread.DoInBackground | sample/android/demo1/src/com/moodstocks/android/ScanThread.java:48-119 | the returned result is the first stage success; calls are made in stage order, each at most once; match is called iff the prior is IMAGE and the QR decode iff it is QRCODE; search iff no lock; decode with the configured formats iff no lock and no search hit; the image is released once, last; a confirmed image lock skips search and decode |
| MoodstocksDemo1.ScanThread.constructor | sample/android/demo1/src/com/moodstocks/android/ScanThread.java:32-40 | the ScanThread keeps its listener, formats and previous result |
| MoodstocksDemo1.ScanThread.OnPreExecute | sample/android/demo1/src/com/moodstocks/android/ScanThread.java:42-45 | starting the ScanThread sets the listener's running flag |
| MoodstocksDemo1.ScanThread.Cancel | sample/android/demo1/src/com/moodstocks/android/ScanActivity.java:104-106 | cancel marks the ScanThread cancelled |
| MoodstocksDemo1.ScanThread.OnPostExecute | sample/android/demo1/src/com/moodstocks/android/ScanThread.java:121-124 | normal completion hands the result to onResult, with all of onResult's effects |
| MoodstocksDemo1.ScanThread.OnCancelled | sample/android/demo1/src/com/moodstocks/android/ScanThread.java:126-129 | cancellation clears the running flag |
| MoodstocksDemo1.ScanThread.Complete | sample/android/demo1/src/com/moodstocks/android/ScanThread.java:121-129 | a cancelled task clears the running flag and delivers no result (lock, status, updates and frame requests unchanged); any other task delivers its result through onResult: the lock and update count follow one stabiliser step, only the shown result of the status changes, one more frame is requested |
| Stabilizer.Next | sample/android/demo1/src/com/moodstocks/android/ScanActivity.java:151-190 | at most one update per call; the new lock is the old one, the new result, or none; a miss never puts a new result on display |
| Stabilizer.LockOnIsInstant | sample/android/demo1/src/com/moodstocks/android/ScanActivity.java:153-173 | with nothing locked, a found result is adopted, shown, the counter reset, with exactly one update |
| Stabilizer.DifferentResultReplacesLock | sample/android/demo1/src/com/moodstocks/android/ScanActivity.java:160-173 | a found result different from the lock replaces it and is shown, with exactly one update |
| Stabilizer.SameResultChangesNothing | sample/android/demo1/src/com/moodstocks/android/ScanActivity.java:157-164 | re-seeing the locked result emits nothing and changes nothing but last_found; the miss counter is not reset |
| Stabilizer.ReaffirmationIsIdempotent | sample/android/demo/src/com/example/android/ScanActivity.java:141-160 | a second identical find emits nothing and leaves lock, display and counter as the first left them |
| Stabilizer.FindRecordsTime | sample/android/demo1/src/com/example/android/ScanActivity.java:192-193 | every found result sets last_found to now under a clock; the variants without a clock keep it |
| Stabilizer.MissAgainstLock | sample/android/demo1/src/com/moodstocks/android/ScanActivity.java:177-180 | a miss against a lock increments the counter and drops the lock iff the counter reaches 2; the counter alone never clears the display nor emits an update |
| Stabilizer.MissWithoutLock | sample/android/demo1/src/com/moodstocks/android/ScanActivity.java:177-180 | a miss with nothing locked leaves the counter unchanged |
| Stabilizer.TimerClearsDisplay | sample/android/demo1/src/com/example/android/ScanActivity.java:215-220 | a miss clears the display with one update iff last_found > 0 and more than 1500 ms have passed; last_found becomes -1; the timeout policy drops the lock too and otherwise changes nothing |
| Stabilizer.ClearCannotRepeat | sample/android/demo1/src/com/moodstocks/android/ScanActivity.java:182-186 | after a timer clear, the next miss emits nothing |
| Stabilizer.NoHysteresisIgnoresMisses | sample/android/demo2/src/com/example/android/ScanActivity.java:113-135 | without hysteresis a miss changes nothing and emits nothing |
| Stabilizer.MissBoundHolds | sample/android/demo1/src/com/moodstocks/android/ScanActivity.java:177-179 | over any sequence of onResult calls, a held lock has fewer than 2 counted misses |
| Stabilizer.InSyncStep | sample/android/demo1/src/com/example/android/ScanActivity.java:191-223 | for the timeout and no-hysteresis variants, one onResult keeps the display equal to the lock |
| Stabilizer.InSyncHolds | sample/android/demo1/src/com/example/android/ScanActivity.java:191-223 | for those variants, any sequence of onResult calls keeps the display equal to the lock |
| Stabilizer.UpdateIffDisplayChanges | sample/android/demo2/src/com/example/android/ScanActivity.java:113-133 | for those variants, from a state where the display shows the lock, a call emits an update exactly when the displayed result changes |
| Stabilizer.Displayed | sample/android/demo1/src/com/example/android/ScanActivity.java:208-218 | one displayed value per onResult call of a run |
| Stabilizer.DisplayedFollowsRun | sample/android/demo1/src/com/example/android/ScanActivity.java:208-218 | the i-th displayed value is the result left on display by the first i+1 onResult calls |
| Stabilizer.UpdatesCountDisplayChanges | sample/android/demo1/src/com/example/android/ScanActivity.java:208-219 | for those variants, over any run that starts with the display showing the lock, the overlay receives exactly one update per change of the displayed result |
| Stabilizer.MissesBeforeAFindAreSilent | sample/android/demo/src/com/example/android/ScanActivity.java:162-170 | while nothing was ever found (last_found 0) or after a clear (-1), misses emit no update and leave the display and last_found alone |
| Stabilizer.TwoMissesDropTheLock | sample/android/demo2/src/com/moodstocks/android/ScanActivity.java:163-166 | a lock survives one miss and is dropped by the second, without any update, so the display keeps the dropped result |
| Stabilizer.ReseeingDoesNotResetMisses | sample/android/demo1/src/com/moodstocks/android/ScanActivity.java:157-179 | find, miss, the same find, miss: the lock is dropped, after a single update |
| Stabilizer.CounterReAdoptsShownResult | sample/android/demo2/src/com/moodstocks/android/ScanActivity.java:143-159 | after the counter dropped a lock still on display, finding it again re-adopts it with an update that changes nothing visible |
| Stabilizer.ClearedDisplayStaysEmptyWhileLocked | sample/android/demo1/src/com/moodstocks/android/ScanActivity.java:157-186 | in demo1 the timer can clear the display while the lock is held; the same result found afterwards is not shown again |
| Stabilizer.ResumeLeavesSync | sample/android/demo1/src/com/example/android/ScanActivity.java:191-223 | out of sync (after onResume empties the display, or onApiSearchStart drops the lock) a Timeout timer clear or a NoHysteresis re-find emits an update with no change on display |
| MoodstocksDemo1.ScanActivity.constructor | sample/android/demo1/src/com/moodstocks/android/ScanActivity.java:46-51 | initial fields: no lock, no task, an empty status bundle |
| MoodstocksDemo1.ScanActivity.OnResume | sample/android/demo1/src/com/moodstocks/android/ScanActivity.java:70-99 | when count() succeeds: ready = count != 0, the decode flags of BarcodeFormats, the count, an empty display, one update and one sync; when it throws nothing changes; one frame is requested iff ready |
| MoodstocksDemo1.ScanActivity.OnPause | sample/android/demo1/src/com/moodstocks/android/ScanActivity.java:102-106 | a referenced task is cancelled |
| MoodstocksDemo1.ScanActivity.OnPreviewFrame | sample/android/demo1/src/com/moodstocks/android/ScanActivity.java:135-139 | a new task, locked on the current result with BarcodeFormats, starts iff ready and no task is running; it is then running |
| MoodstocksDemo1.ScanActivity.OnThreadRunning | sample/android/demo1/src/com/moodstocks/android/ScanActivity.java:145-147 | the running flag is set to its argument |
| MoodstocksDemo1.ScanActivity.OnResult | sample/android/demo1/src/com/moodstocks/android/ScanActivity.java:151-190 | lock, counter, last_found and display follow Stabilizer.Next with the counter-plus-display-clear policy, with its updates; the miss bound is kept; thread is null, not running, exactly one frame requested; other status entries unchanged |
| MoodstocksDemo1.ScanActivity.OnSyncStart | sample/android/demo1/src/com/moodstocks/android/ScanActivity.java:196-206 | progress shown iff not ready; syncing set; one update |
| MoodstocksDemo1.ScanActivity.OnSyncComplete | sample/android/demo1/src/com/moodstocks/android/ScanActivity.java:209-223 | syncing cleared; the first frame requested and progress dismissed iff it was not ready; when count() succeeds, the count stored, ready set, one update; when it throws, ready unchanged and no update |
| MoodstocksDemo1.ScanActivity.OnSyncFailed | sample/android/demo1/src/com/moodstocks/android/ScanActivity.java:226-240 | syncing cleared, ready set, one update, an error dialog; progress dismissed and the first frame requested iff it was not ready |
| MoodstocksDemo1.ScanActivity.OnOptionsItemSelected | sample/android/demo1/src/com/moodstocks/android/ScanActivity.java:254-260 | a sync is issued iff the sync item was chosen and no sync is running |
| MoodstocksDemo1.ScanOneFrame | sample/android/demo1/src/com/moodstocks/android/ScanActivity.java:135-190 | a frame through screen, task and onResult: started iff ready and idle; then the stabiliser sees exactly Recognise of the lock the ScanThread was started with, and one frame is requested; otherwise nothing changes |
| MoodstocksDemo2.ScanActivity.constructor | sample/android/demo2/src/com/moodstocks/android/ScanActivity.java:43-47 | initial fields: no lock, no task, no snap requested, an empty status bundle |
| MoodstocksDemo2.ScanActivity.OnResume | sample/android/demo2/src/com/moodstocks/android/ScanActivity.java:59-71 | searching cleared, display emptied, one update, one frame requested |
| MoodstocksDemo2.ScanActivity.OnPause | sample/android/demo2/src/com/moodstocks/android/ScanActivity.java:74-82 | a referenced task is cancelled and the API search is cancelled |
| MoodstocksDemo2.ScanActivity.OnBackPressed | sample/android/demo2/src/com/moodstocks/android/ScanActivity.java:84-94 | while searching: the search is cancelled, searching cleared and a NONE "Search cancelled" result goes through onResult (lock and update count follow one stabiliser step, one more frame requested, the screen stays); otherwise the screen is left and nothing else changes |
| MoodstocksDemo2.ScanActivity.OnPreviewFrame | sample/android/demo2/src/com/moodstocks/android/ScanActivity.java:110-125 | a pending snap clears its flag and starts an API search; else, with no task running and no search, an offline task locked on the current result starts; else only a frame is requested |
| MoodstocksDemo2.ScanActivity.OnThreadRunning | sample/android/demo2/src/com/moodstocks/android/ScanActivity.java:130-133 | the running flag is set to its argument |
| MoodstocksDemo2.ScanActivity.OnResult | sample/android/demo2/src/com/moodstocks/android/ScanActivity.java:137-170 | lock, counter and display follow Stabilizer.Next with the counter-only policy; the miss bound is kept; thread null, not running, exactly one frame requested |
| MoodstocksDemo2.ScanActivity.OnClick | sample/android/demo2/src/com/moodstocks/android/ScanActivity.java:172-177 | a snap is requested iff the snap button was pressed and no search is running |
| MoodstocksDemo2.ScanActivity.OnSearchStart | sample/android/demo2/src/com/moodstocks/android/ScanActivity.java:183-188 | searching set, one update, the lock dropped |
| MoodstocksDemo2.SearchOutcome | sample/android/demo2/src/com/moodstocks/android/ScanActivity.java:193-199 | an IMAGE result iff an id was returned, carrying that id; otherwise NONE "No match found" |
| MoodstocksDemo2.ScanActivity.OnSearchComplete | sample/android/demo2/src/com/moodstocks/android/ScanActivity.java:190-201 | searching cleared and only the shown result otherwise changes; the outcome goes through onResult (lock and update count follow one stabiliser step, one more frame requested, no task running); with no lock it is shown with one update |
| MoodstocksDemo2.ScanActivity.OnSearchFailed | sample/android/demo2/src/com/moodstocks/android/ScanActivity.java:203-212 | an error dialog, searching cleared, a NONE "Search error" result through onResult (lock and update count follow one stabiliser step, one more frame requested, no task running) |
| MoodstocksDemo2.Snap | sample/android/demo2/src/com/moodstocks/android/ScanActivity.java:110-201 | click, frame, search start and completion: the search outcome is locked and shown, whatever was locked before |
| ExampleDemo1.ScanActivity.constructor | sample/android/demo1/src/com/example/android/ScanActivity.java:39-42 | initial fields: compatible, no lock, never found |
| ExampleDemo1.ScanActivity.OnCreate | sample/android/demo1/src/com/example/android/ScanActivity.java:44-72 | an unsupported device makes the screen incompatible, with a dialog |
| ExampleDemo1.ScanActivity.OnResume | sample/android/demo1/src/com/example/android/ScanActivity.java:74-110 | on a compatible device: a fresh bundle and the scan options; when count() succeeds ready = count != 0, the decode flags, the count, one update and one sync; one frame requested iff ready; an incompatible screen does nothing |
| ExampleDemo1.ScanActivity.OnPause | sample/android/demo1/src/com/example/android/ScanActivity.java:112-120 | a compatible screen cancels the scan |
| ExampleDemo1.ScanActivity.OnPreviewFrame | sample/android/demo1/src/com/example/android/ScanActivity.java:141-146 | a frame is submitted for scanning iff ready |
| ExampleDemo1.ScanActivity.OnScanComplete | sample/android/demo1/src/com/example/android/ScanActivity.java:158-161 | the scan result goes through onResult |
| ExampleDemo1.ScanActivity.OnScanFailed | sample/android/demo1/src/com/example/android/ScanActivity.java:163-186 | a MISUSE error requests one frame; any other error shows a quit dialog and requests none |
| ExampleDemo1.ScanActivity.OnResult | sample/android/demo1/src/com/example/android/ScanActivity.java:191-223 | lock, last_found and display follow Stabilizer.Next with the timeout policy, with its updates; exactly one frame requested |
| ExampleDemo1.ScanActivity.OnSyncStart | sample/android/demo1/src/com/example/android/ScanActivity.java:228-239 | progress shown iff not ready; syncing set; one update |
| ExampleDemo1.ScanActivity.OnSyncComplete | sample/android/demo1/src/com/example/android/ScanActivity.java:241-256 | syncing cleared; the first frame requested iff it was not ready; ready set and the count stored when count() succeeds, ready unchanged when it throws |
| ExampleDemo1.ScanActivity.OnSyncFailed | sample/android/demo1/src/com/example/android/ScanActivity.java:258-273 | syncing cleared, ready set, one update, a network error dialog; the first frame requested iff it was not ready |
| ExampleDemo1.ScanActivity.OnOptionsItemSelected | sample/android/demo1/src/com/example/android/ScanActivity.java:286-293 | a sync is issued iff the sync item was chosen and no sync is running |
| ExampleDemo1.HomeScreen.constructor | sample/android/demo1/src/com/example/android/HomeScreen.java:22-74 | ready iff the scanner opened and count() returned non-zero; a sync is started iff open and count() succeeded; an unsupported device gets a dialog; a key/secret mismatch quits |
| ExampleDemo1.HomeScreen.OnSyncStart | sample/android/demo1/src/com/example/android/HomeScreen.java:98-108 | syncing set; progress shown iff not ready |
| ExampleDemo1.HomeScreen.OnSyncComplete | sample/android/demo1/src/com/example/android/HomeScreen.java:110-117 | syncing cleared, ready set; progress dismissed iff it was not ready |
| ExampleDemo1.HomeScreen.OnSyncFailed | sample/android/demo1/src/com/example/android/HomeScreen.java:119-131 | syncing cleared, ready set; if it was not ready, progress dismissed and one error dialog; if ready, nothing else |
| ExampleDemo1.HomeScreen.OnOptionsItemSelected | sample/android/demo1/src/com/example/android/HomeScreen.java:144-150 | a sync is issued iff the sync item was chosen and not syncing |
| ExampleDemo.ScanActivity.constructor | sample/android/demo/src/com/example/android/ScanActivity.java:34-35 | initial fields: no lock, never found |
| ExampleDemo.ScanActivity.OnResume | sample/android/demo/src/com/example/android/ScanActivity.java:45-71 | a fresh bundle and the scan options; when count() succeeds the decode flags (EAN-8 off, EAN-13 and QR on), the count and one update; no ready entry and no sync |
| ExampleDemo.ScanActivity.OnPause | sample/android/demo/src/com/example/android/ScanActivity.java:73-81 | the scan is cancelled |
| ExampleDemo.ScanActivity.OnPreviewFrame | sample/android/demo/src/com/example/android/ScanActivity.java:92-95 | every frame is submitted for scanning |
| ExampleDemo.ScanActivity.OnScanComplete | sample/android/demo/src/com/example/android/ScanActivity.java:107-110 | the scan result goes through onResult |
| ExampleDemo.ScanActivity.OnScanFailed | sample/android/demo/src/com/example/android/ScanActivity.java:112-135 | a MISUSE error requests one frame; any other error shows a quit dialog and requests none |
| ExampleDemo.ScanActivity.OnResult | sample/android/demo/src/com/example/android/ScanActivity.java:140-172 | lock, last_found and display follow Stabilizer.Next with the timeout policy, with its updates; exactly one frame requested |
| ColdStart.MessageFor | sample/android/demo/src/com/example/android/HomeScreen.java:180-189 | NOCONN, SLOWCONN and TIMEOUT get their own messages (both directions); every other code gets the internal-error message carrying the error |
| ColdStart.ResumeSyncsOnlyAfterADay | sample/android/demo/src/com/example/android/HomeScreen.java:128-132 | resume issues a sync iff now - last_sync > 86400000 and changes nothing else |
| ColdStart.FirstResumeSyncs | sample/android/demo/src/com/example/android/HomeScreen.java:128-132 | since last_sync starts at 0, the first resume syncs |
| ColdStart.RecentSyncSkipsResume | sample/android/demo/src/com/example/android/HomeScreen.java:130-131 | a resume two hours after the last sync changes nothing |
| ColdStart.CompletionEndsColdStart | sample/android/demo/src/com/example/android/HomeScreen.java:166-172 | a completed sync records its time and ends the cold start, hiding the splash |
| ColdStart.FailureIsFatalOnlyInColdStart | sample/android/demo/src/com/example/android/HomeScreen.java:175-200 | a failed sync never ends the cold start; during it, it raises the fatal dialog with the code's message; otherwise nothing changes |
| ColdStart.SplashOnlyInColdStart | sample/android/demo/src/com/example/android/HomeScreen.java:160-207 | splash and progress are shown or updated only during the cold start; otherwise sync start and progress change nothing |
| ColdStart.ManualSyncOnlyWhenIdle | sample/android/demo/src/com/example/android/HomeScreen.java:221-226 | a sync is issued iff the sync item was chosen and the scanner is not syncing |
| ColdStart.ColdStartNeverReturns | sample/android/demo/src/com/example/android/HomeScreen.java:166-172 | once ended, the cold start never returns, whatever the callbacks |
| ColdStart.ColdStartEndsOnlyByCompletion | sample/android/demo/src/com/example/android/HomeScreen.java:166-172 | a cold start ended by a sequence of callbacks contains a completed sync |
| ColdStart.ACompletionEndsColdStart | sample/android/demo/src/com/example/android/HomeScreen.java:166-172 | any sequence containing a completed sync ends out of cold start |
| ColdStart.SplashImpliesColdStart | sample/android/demo/src/com/example/android/HomeScreen.java:160-172 | the splash is shown only during the cold start, whatever the callbacks |
| ColdStart.NoFatalDialogAfterColdStart | sample/android/demo/src/com/example/android/HomeScreen.java:177-200 | after the cold start ended, no callback raises the fatal dialog |
| ExampleDemo.HomeScreen.constructor | sample/android/demo/src/com/example/android/HomeScreen.java:52-125 | the cold start ends at open iff the device is compatible, open and count() succeed and count() is non-zero; an incompatible device gets a dialog; a key/secret mismatch quits |
| ExampleDemo.HomeScreen.OnResume | sample/android/demo/src/com/example/android/HomeScreen.java:128-132 | the new state is ColdStart.Apply of the resume |
| ExampleDemo.HomeScreen.OnSyncStart | sample/android/demo/src/com/example/android/HomeScreen.java:160-163 | the new state is ColdStart.Apply of the sync start; the splash implies cold start stays true |
| ExampleDemo.HomeScreen.OnSyncComplete | sample/android/demo/src/com/example/android/HomeScreen.java:166-172 | the new state is ColdStart.Apply of the completion |
| ExampleDemo.HomeScreen.OnSyncFailed | sample/android/demo/src/com/example/android/HomeScreen.java:175-201 | the new state is ColdStart.Apply of the failure, the message by the error-code switch |
| ExampleDemo.HomeScreen.OnSyncProgress | sample/android/demo/src/com/example/android/HomeScreen.java:204-207 | the new state is ColdStart.Apply of the progress |
| ExampleDemo.HomeScreen.OnOptionsItemSelected | sample/android/demo/src/com/example/android/HomeScreen.java:221-226 | the new state is ColdStart.Apply of the menu choice |
| ExampleDemo.Drive | sample/android/demo/src/com/example/android/HomeScreen.java:128-226 | a home screen driven through any callback sequence ends in ColdStart.RunEvents of it; once out of cold start it stays out and no fatal dialog appears |
| ExampleDemo2.ScanActivity.constructor | sample/android/demo2/src/com/example/android/ScanActivity.java:34-36 | initial fields: no lock, no snap requested, an empty status bundle |
| ExampleDemo2.ScanActivity.OnResume | sample/android/demo2/src/com/example/android/ScanActivity.java:48-61 | the scan options set, searching cleared, display emptied, one update, one frame requested |
| ExampleDemo2.ScanActivity.OnPause | sample/android/demo2/src/com/example/android/ScanActivity.java:63-70 | the scan and the API search are cancelled |
| ExampleDemo2.ScanActivity.OnBackPressed | sample/android/demo2/src/com/example/android/ScanActivity.java:72-82 | while searching: the search is cancelled, searching cleared and a NONE "Search cancelled" result goes through onResult (lock and update count follow one stabiliser step, one more frame requested, the screen stays); otherwise the screen is left and nothing else changes |
| ExampleDemo2.ScanActivity.OnPreviewFrame | sample/android/demo2/src/com/example/android/ScanActivity.java:93-108 | a pending snap clears its flag and starts an API search; else, when not searching, the frame is scanned; else only a frame is requested |
| ExampleDemo2.ScanActivity.OnResult | sample/android/demo2/src/com/example/android/ScanActivity.java:113-135 | lock and display follow Stabilizer.Next without hysteresis; exactly one frame requested |
| ExampleDemo2.ScanActivity.OnClick | sample/android/demo2/src/com/example/android/ScanActivity.java:137-142 | a snap is requested iff the snap button was pressed and no search is running |
| ExampleDemo2.ScanActivity.OnScanComplete | sample/android/demo2/src/com/example/android/ScanActivity.java:153-156 | the scan result goes through onResult |
| ExampleDemo2.ScanActivity.OnScanFailed | sample/android/demo2/src/com/example/android/ScanActivity.java:158-181 | a MISUSE error requests one frame; any other error shows a quit dialog and requests none |
| ExampleDemo2.ScanActivity.OnApiSearchStart | sample/android/demo2/src/com/example/android/ScanActivity.java:187-192 | searching set, one update, the lock dropped |
| ExampleDemo2.SearchOutcome | sample/android/demo2/src/com/example/android/ScanActivity.java:197-203 | an IMAGE result iff an id was returned, carrying that id; otherwise NONE "No match found" |
| ExampleDemo2.ScanActivity.OnApiSearchComplete | sample/android/demo2/src/com/example/android/ScanActivity.java:194-205 | searching cleared and only the shown result otherwise changes; the outcome goes through onResult (lock and update count follow one stabiliser step, one more frame requested); with no lock it is locked and shown with one update |
| ExampleDemo2.ScanActivity.OnApiSearchFailed | sample/android/demo2/src/com/example/android/ScanActivity.java:207-216 | an error dialog, searching cleared, a NONE "Search error" result through onResult (lock and update count follow one stabiliser step, one more frame requested) |
| ExampleDemo2.Snap | sample/android/demo2/src/com/example/android/ScanActivity.java:93-205 | click, frame, search start and completion: the search outcome is locked and shown and no offline scan was issued |

## Left out

- Stabilizer.UpdateIffDisplayChanges: holds only from a state where the display shows the lock (true initially and kept by every onResult of those variants); onResume and onApiSearchStart leave that state, and `Stabilizer.ResumeLeavesSync` shows an update with no display change once they have.
- Stabilizer.UpdatesCountDisplayChanges: the same condition on the run's start state, for the same reason.
- The recognition backend, the sync service and the API search: scanner.match, search, decode, scan, sync, count, apiSearch, open and close. Their code is not part of this model; each call is an input (`Answer`, `OpenOutcome`, `Backend`) of the operation that makes it.
- The numeric values of the SDK constants: Barcode.Format, the com.example Result.Type and MoodstocksError.Code. They are not shown by the apps. The model uses distinct single bits and a datatype of the codes the apps test; the properties rely only on their being distinct.
- The com.example apps use the SDK's own Result class, which is not part of this model. It is taken to compare like demo2's Result.java: same type and same value.
- Results.Equals: Result.java's equals casts its argument, so a non-Result or null argument throws, and a null value string throws. These cases are not modelled, because model values are always results with a string value.
- Concurrency: AsyncTask threading, the SDK's asynchronous scan and search, and the interleaving of callbacks. Each callback is one sequential method call, and a task's completion is a separate call (`MoodstocksDemo1.ScanThread.Complete`), so the cancelled-versus-finished race is an input.
- Camera, orientation, preview size and image construction: CameraManager, OrientationListener, AutoFocusManager, the `Image` built from a frame, and the camera-start failure that calls finish(). The frame data is not modelled, only the decisions taken per frame.
- The overlays, the Splash widget and the iOS headers: rendering and declarations, with no decision logic. Splash drawing is reduced to the `splash` flag and the last `progress` pair.
- Dialog construction and texts, logging, menu inflation, startActivity and finish(). A dialog is a counter, a fatal or quit dialog a flag or counter, and finish() after a key/secret mismatch the `quit` flag. `super.onBackPressed()` is the `leftScreen` flag.
- onDestroy (closing the scanner) and onScanStart (empty in the source).
- demo's com.example HomeScreen on an incompatible device: `scanner` stays null, and onResume and the sync menu item would dereference it. `ExampleDemo.HomeScreen.OnResume` and `ExampleDemo.HomeScreen.OnOptionsItemSelected` therefore require `compatible`.
- ExampleDemo.HomeScreen.constructor: an UnsupportedDeviceException from open is not caught in that app and crashes it, so open's outcome there is only returned-or-threw.
- The demo2 HomeScreen classes (com.example and com.moodstocks): they only open the scanner and sync, and their callbacks are empty or log.
- MoodstocksDemo2.ScanActivity: demo2's ScanThread is the demo1 class, and its pipeline is not repeated there. The screen records the ScanThread it starts (`OfflineScan(prior)`), and the pipeline is modelled once, in `MoodstocksDemo1`.
