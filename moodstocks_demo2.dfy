/**
 * demo2, package com.moodstocks.android: the scanner screen with offline
 * scanning of every frame and an online API search of one frame on demand
 * (the snap button). The background task itself is the demo1 ScanThread
 * (see MoodstocksDemo1); here only the screen's side is modelled.
 */
module MoodstocksDemo2 {
  import opened Wrappers
  import opened Results
  import opened Scanner
  import opened StatusBundle
  import opened Stabilizer

  /** BarcodeFormats: EAN-13 and QR codes are decoded. */
  const BARCODE_FORMATS: bv32 := FMT_EAN13 | FMT_QRCODE

  /** What onPreviewFrame does with a frame. */
  datatype FrameAction =
    | OnlineSearch                        // scanner.apiSearch on this frame
    | OfflineScan(prior: Option<Result>)  // a new ScanThread, locked on `prior`
    | NextFrame                           // the frame is skipped

  /**
   * The scanner screen. `held` is `_result`, `losts` is `_losts`; `status`
   * is the overlay's bundle. A task is represented by `hasThread` (the
   * `thread` field is non-null) and `taskCancelled`. The counters record
   * calls to collaborators: overlay.onStatusUpdate, requestNewFrame,
   * scanner.apiSearch and scanner.ApiSearchCancel, and the error dialogs.
   */
  class ScanActivity {
    var status: Status
    var hasThread: bool
    var taskCancelled: bool
    var threadRunning: bool
    var searchRequested: bool
    var held: Option<Result>
    var losts: int
    var leftScreen: bool
    var updates: nat
    var frameRequests: nat
    var apiSearches: nat
    var apiCancels: nat
    var errorDialogs: nat

    ghost predicate Valid()
      reads this
    {
      MissBound(Lock())
    }

    /** The stabiliser's view of the screen; this variant has no clock. */
    ghost function Lock(): Stabilizer.Lock
      reads this
    {
      Stabilizer.Lock(held, losts, 0, status.shown)
    }

    /** The field initialisers and onCreate's fresh status bundle. */
    constructor ()
      ensures Valid() && Lock() == Initial && status == Empty
      ensures !hasThread && !taskCancelled && !threadRunning && !searchRequested && !leftScreen
      ensures updates == 0 && frameRequests == 0 && apiSearches == 0 && apiCancels == 0 && errorDialogs == 0
    {
      status := Empty;
      hasThread := false;
      taskCancelled := false;
      threadRunning := false;
      searchRequested := false;
      held := None;
      losts := 0;
      leftScreen := false;
      updates := 0;
      frameRequests := 0;
      apiSearches := 0;
      apiCancels := 0;
      errorDialogs := 0;
    }

    /** onResume: no search is running, the display is cleared and the first frame is asked for. */
    method OnResume()
      modifies this`status, this`updates, this`frameRequests
      ensures status == old(status).(searching := false, shown := None)
      ensures updates == old(updates) + 1 && frameRequests == old(frameRequests) + 1
    {
      status := status.(searching := false, shown := None);
      updates := updates + 1;
      frameRequests := frameRequests + 1;
    }

    /** onPause: the running task, if any, is cancelled, and so is any API search. */
    method OnPause()
      modifies this`taskCancelled, this`apiCancels
      ensures taskCancelled == (old(taskCancelled) || hasThread)
      ensures apiCancels == old(apiCancels) + 1
    {
      if hasThread {
        taskCancelled := true;
      }
      apiCancels := apiCancels + 1;
    }

    /**
     * onBackPressed: while a search runs, back cancels it and shows
     * "Search cancelled"; otherwise it leaves the screen.
     */
    method OnBackPressed()
      requires Valid()
      modifies this`status, this`apiCancels, this`leftScreen, this`hasThread, this`threadRunning,
               this`held, this`losts, this`updates, this`frameRequests
      ensures Valid()
      ensures old(status.searching) ==>
                var s := Next(MissCounter, old(Lock()), Some(Result(NONE, "Search cancelled")), 0);
                status == old(status).(searching := false, shown := status.shown)
                && apiCancels == old(apiCancels) + 1 && leftScreen == old(leftScreen)
                && Lock() == s.lock && updates == old(updates) + s.updates
                && frameRequests == old(frameRequests) + 1 && !hasThread && !threadRunning
      ensures !old(status.searching) ==>
                leftScreen && status == old(status) && Lock() == old(Lock())
                && apiCancels == old(apiCancels) && updates == old(updates)
                && frameRequests == old(frameRequests)
                && hasThread == old(hasThread) && threadRunning == old(threadRunning)
    {
      if status.searching {
        apiCancels := apiCancels + 1;
        status := status.(searching := false);
        OnResult(Some(Result(NONE, "Search cancelled")));
      } else {
        leftScreen := true;
      }
    }

    /**
     * onPreviewFrame: a requested snap sends this frame to the API search;
     * otherwise, with no task running and no search running, the frame goes
     * to a new offline task locked on the current result; otherwise the
     * next frame is asked for.
     */
    method OnPreviewFrame() returns (action: FrameAction)
      modifies this`searchRequested, this`apiSearches, this`hasThread, this`taskCancelled,
               this`threadRunning, this`frameRequests
      ensures old(searchRequested) ==>
                action == OnlineSearch && !searchRequested && apiSearches == old(apiSearches) + 1
      ensures !old(searchRequested) && !old(threadRunning) && !status.searching ==>
                action == OfflineScan(held) && hasThread && !taskCancelled && threadRunning
      ensures !old(searchRequested) && (old(threadRunning) || status.searching) ==>
                action == NextFrame && frameRequests == old(frameRequests) + 1
      ensures action.OnlineSearch? || action.NextFrame? ==>
                hasThread == old(hasThread) && taskCancelled == old(taskCancelled)
                && threadRunning == old(threadRunning)
      ensures !action.NextFrame? ==> frameRequests == old(frameRequests)
      ensures !action.OnlineSearch? ==>
                searchRequested == old(searchRequested) && apiSearches == old(apiSearches)
    {
      if searchRequested {
        searchRequested := false;
        apiSearches := apiSearches + 1;
        action := OnlineSearch;
      } else if !threadRunning && !status.searching {
        hasThread := true;
        taskCancelled := false;
        threadRunning := true;  // the ScanThread's onPreExecute
        action := OfflineScan(held);
      } else {
        frameRequests := frameRequests + 1;
        action := NextFrame;
      }
    }

    /** onThreadRunning. */
    method OnThreadRunning(b: bool)
      modifies this`threadRunning
      ensures threadRunning == b
    {
      threadRunning := b;
    }

    /**
     * onResult, fed by the offline task and by the API search: the
     * miss-counter stabiliser without a clock (see Stabilizer.Next); then the
     * next frame is asked for and no task is running.
     */
    method OnResult(r: Option<Result>)
      requires Valid()
      modifies this`hasThread, this`threadRunning, this`held, this`losts, this`status,
               this`updates, this`frameRequests
      ensures Valid()
      ensures Lock() == Next(MissCounter, old(Lock()), r, 0).lock
      ensures updates == old(updates) + Next(MissCounter, old(Lock()), r, 0).updates
      ensures status == old(status).(shown := status.shown)
      ensures !hasThread && !threadRunning
      ensures frameRequests == old(frameRequests) + 1
    {
      hasThread := false;
      if r.Some? {
        var result := r.value;
        var update := false;
        if held.None? {
          update := true;
        } else if !Equals(held.value, result) {
          update := true;
        }
        if update {
          held := r;
          losts := 0;
          status := status.(shown := r);
          updates := updates + 1;
        }
      } else {
        if held.Some? {
          losts := losts + 1;
          if losts >= 2 {
            held := None;
          }
        }
      }
      frameRequests := frameRequests + 1;
      threadRunning := false;
      MissBoundHolds(MissCounter, old(Lock()), [Frame(r, 0)]);
    }

    /** onClick: the snap button asks for an API search unless one is running. */
    method OnClick(isSnapButton: bool)
      modifies this`searchRequested
      ensures searchRequested == (old(searchRequested) || (isSnapButton && !status.searching))
    {
      if isSnapButton && !status.searching {
        searchRequested := true;
      }
    }

    /** onSearchStart: searching is shown and the lock is released. */
    method OnSearchStart()
      modifies this`status, this`updates, this`held
      ensures status == old(status).(searching := true)
      ensures updates == old(updates) + 1
      ensures held.None?
      ensures Valid()
    {
      status := status.(searching := true);
      updates := updates + 1;
      held := None;
    }

    /**
     * onSearchComplete: searching ends and the outcome (the image id, or
     * "No match found") goes through onResult; without a lock it is shown.
     */
    method OnSearchComplete(imageId: Option<string>)
      requires Valid()
      modifies this`hasThread, this`threadRunning, this`held, this`losts, this`status,
               this`updates, this`frameRequests
      ensures Valid()
      ensures var s := Next(MissCounter, old(Lock()), Some(SearchOutcome(imageId)), 0);
              Lock() == s.lock && updates == old(updates) + s.updates
              && status == old(status).(searching := false, shown := status.shown)
              && frameRequests == old(frameRequests) + 1 && !hasThread && !threadRunning
      ensures old(held).None? ==>
                status.shown == Some(SearchOutcome(imageId)) && updates == old(updates) + 1
    {
      status := status.(searching := false);
      var r := SearchOutcome(imageId);
      if held.None? {
        LockOnIsInstant(MissCounter, Lock(), r, 0);
      }
      OnResult(Some(r));
    }

    /** onSearchFailed: an error dialog, then "Search error" goes through onResult. */
    method OnSearchFailed(e: ErrorCode)
      requires Valid()
      modifies this`hasThread, this`threadRunning, this`held, this`losts, this`status,
               this`updates, this`frameRequests, this`errorDialogs
      ensures Valid()
      ensures errorDialogs == old(errorDialogs) + 1
      ensures var s := Next(MissCounter, old(Lock()), Some(Result(NONE, "Search error")), 0);
              Lock() == s.lock && updates == old(updates) + s.updates
              && status == old(status).(searching := false, shown := status.shown)
              && frameRequests == old(frameRequests) + 1 && !hasThread && !threadRunning
    {
      errorDialogs := errorDialogs + 1;
      status := status.(searching := false);
      OnResult(Some(Result(NONE, "Search error")));
    }
  }

  /** The result onSearchComplete delivers for the id the API search returned. */
  function SearchOutcome(imageId: Option<string>): (r: Result)
    ensures imageId.Some? <==> r.kind == IMAGE
    ensures imageId.Some? ==> r.value == imageId.value
    ensures imageId.None? ==> r == Result(NONE, "No match found")
  {
    match imageId
    case Some(id) => Result(IMAGE, id)
    case None => Result(NONE, "No match found")
  }

  /**
   * A whole snap: the button is pressed while no search runs, the next
   * frame is sent to the API, the search starts and completes. Whatever
   * the offline lock was, the search outcome ends up on display and
   * locked.
   */
  method Snap(screen: ScanActivity, imageId: Option<string>)
    requires screen.Valid() && !screen.status.searching
    modifies screen`searchRequested, screen`apiSearches, screen`hasThread, screen`taskCancelled,
             screen`threadRunning, screen`frameRequests, screen`held, screen`losts,
             screen`status, screen`updates
    ensures screen.Valid()
    ensures screen.status.shown == Some(SearchOutcome(imageId))
    ensures screen.held == Some(SearchOutcome(imageId)) && screen.losts == 0
    ensures !screen.status.searching && !screen.searchRequested
    ensures screen.apiSearches == old(screen.apiSearches) + 1
  {
    screen.OnClick(true);
    var action := screen.OnPreviewFrame();
    assert action == OnlineSearch;
    screen.OnSearchStart();
    screen.OnSearchComplete(imageId);
  }
}
