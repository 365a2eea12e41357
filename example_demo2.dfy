/**
 * demo2, package com.example.android: the scanner screen with the SDK's
 * asynchronous offline scan of every frame and an online API search of one
 * frame on demand (the snap button). Results are shown without hysteresis:
 * a frame with nothing recognised changes nothing.
 */
module ExampleDemo2 {
  import opened Wrappers
  import opened Results
  import opened Scanner
  import opened StatusBundle
  import opened Stabilizer

  /** ScanOptions: image recognition, EAN-13 and QR codes. */
  const SCAN_OPTIONS: bv32 := TYPE_IMAGE | TYPE_EAN13 | TYPE_QRCODE

  /** What onPreviewFrame does with a frame. */
  datatype FrameAction =
    | OnlineSearch  // scanner.apiSearch on this frame
    | OfflineScan   // scanner.scan on this frame
    | NextFrame     // the frame is skipped

  /** The result onApiSearchComplete delivers for the id the API search returned. */
  function SearchOutcome(imageId: Option<string>): (r: Result)
    ensures imageId.Some? <==> r.kind == TYPE_IMAGE as int
    ensures imageId.Some? ==> r.value == imageId.value
    ensures imageId.None? ==> r == Result(TYPE_NONE as int, "No match found")
  {
    match imageId
    case Some(id) => Result(TYPE_IMAGE as int, id)
    case None => Result(TYPE_NONE as int, "No match found")
  }

  /**
   * The scanner screen. `held` is `_result`; `status` is the overlay's
   * bundle; `options` is what was last passed to scanner.setOptions. The
   * counters record calls to collaborators: overlay.onStatusUpdate,
   * requestNewFrame, scanner.scan, scanner.apiSearch, scanner.scanCancel
   * and scanner.apiSearchCancel, and the dialogs shown.
   */
  class ScanActivity {
    var status: Status
    var searchRequested: bool
    var held: Option<Result>
    var options: bv32
    var leftScreen: bool
    var updates: nat
    var frameRequests: nat
    var scansIssued: nat
    var apiSearches: nat
    var scanCancels: nat
    var apiCancels: nat
    var errorDialogs: nat
    var quitDialogs: nat

    /** The stabiliser's view of the screen; this variant has neither counter nor clock. */
    ghost function Lock(): Stabilizer.Lock
      reads this
    {
      Stabilizer.Lock(held, 0, 0, status.shown)
    }

    /** The field initialisers and onCreate's fresh status bundle. */
    constructor ()
      ensures Lock() == Initial && status == Empty && options == 0 && !searchRequested && !leftScreen
      ensures updates == 0 && frameRequests == 0 && scansIssued == 0 && apiSearches == 0
      ensures scanCancels == 0 && apiCancels == 0 && errorDialogs == 0 && quitDialogs == 0
    {
      status := Empty;
      searchRequested := false;
      held := None;
      options := 0;
      leftScreen := false;
      updates := 0;
      frameRequests := 0;
      scansIssued := 0;
      apiSearches := 0;
      scanCancels := 0;
      apiCancels := 0;
      errorDialogs := 0;
      quitDialogs := 0;
    }

    /**
     * onResume: the scan options are set, no search is running, the display
     * is cleared and the first frame is asked for.
     */
    method OnResume()
      modifies this`options, this`status, this`updates, this`frameRequests
      ensures options == SCAN_OPTIONS
      ensures status == old(status).(searching := false, shown := None)
      ensures updates == old(updates) + 1 && frameRequests == old(frameRequests) + 1
    {
      options := SCAN_OPTIONS;
      status := status.(searching := false, shown := None);
      updates := updates + 1;
      frameRequests := frameRequests + 1;
    }

    /** onPause: the pending scan and any API search are cancelled. */
    method OnPause()
      modifies this`scanCancels, this`apiCancels
      ensures scanCancels == old(scanCancels) + 1 && apiCancels == old(apiCancels) + 1
    {
      scanCancels := scanCancels + 1;
      apiCancels := apiCancels + 1;
    }

    /**
     * onBackPressed: while a search runs, back cancels it and shows
     * "Search cancelled"; otherwise it leaves the screen.
     */
    method OnBackPressed()
      modifies this`status, this`apiCancels, this`leftScreen, this`held, this`updates, this`frameRequests
      ensures old(status.searching) ==>
                var s := Next(NoHysteresis, old(Lock()), Some(Result(TYPE_NONE as int, "Search cancelled")), 0);
                status == old(status).(searching := false, shown := status.shown)
                && apiCancels == old(apiCancels) + 1 && leftScreen == old(leftScreen)
                && Lock() == s.lock && updates == old(updates) + s.updates
                && frameRequests == old(frameRequests) + 1
      ensures !old(status.searching) ==>
                leftScreen && status == old(status) && Lock() == old(Lock())
                && apiCancels == old(apiCancels) && updates == old(updates)
                && frameRequests == old(frameRequests)
    {
      if status.searching {
        apiCancels := apiCancels + 1;
        status := status.(searching := false);
        OnResult(Some(Result(TYPE_NONE as int, "Search cancelled")));
      } else {
        leftScreen := true;
      }
    }

    /**
     * onPreviewFrame: a requested snap sends this frame to the API search;
     * otherwise, when no search is running, the frame goes to the offline
     * scan; otherwise the next frame is asked for.
     */
    method OnPreviewFrame() returns (action: FrameAction)
      modifies this`searchRequested, this`apiSearches, this`scansIssued, this`frameRequests
      ensures action == (if old(searchRequested) then OnlineSearch
                         else if !status.searching then OfflineScan else NextFrame)
      ensures searchRequested == (old(searchRequested) && !action.OnlineSearch?)
      ensures apiSearches == old(apiSearches) + (if action.OnlineSearch? then 1 else 0)
      ensures scansIssued == old(scansIssued) + (if action.OfflineScan? then 1 else 0)
      ensures frameRequests == old(frameRequests) + (if action.NextFrame? then 1 else 0)
    {
      if searchRequested {
        searchRequested := false;
        apiSearches := apiSearches + 1;
        action := OnlineSearch;
      } else if !status.searching {
        scansIssued := scansIssued + 1;
        action := OfflineScan;
      } else {
        frameRequests := frameRequests + 1;
        action := NextFrame;
      }
    }

    /**
     * onResult: a found result different from the lock, or with no lock, is
     * adopted and shown; anything else changes nothing (see Stabilizer.Next
     * under NoHysteresis). The next frame is always asked for.
     */
    method OnResult(r: Option<Result>)
      modifies this`held, this`status, this`updates, this`frameRequests
      ensures Lock() == Next(NoHysteresis, old(Lock()), r, 0).lock
      ensures updates == old(updates) + Next(NoHysteresis, old(Lock()), r, 0).updates
      ensures status == old(status).(shown := status.shown)
      ensures frameRequests == old(frameRequests) + 1
    {
      if r.Some? {
        var result := r.value;
        var update := false;
        if held.None? {
          update := true;
        } else if !Equals(held.value, result) {
          update := true;
        }
        if update {
          held := r;
          status := status.(shown := r);
          updates := updates + 1;
        }
      }
      frameRequests := frameRequests + 1;
    }

    /** onClick: the snap button asks for an API search unless one is running. */
    method OnClick(isSnapButton: bool)
      modifies this`searchRequested
      ensures searchRequested == (old(searchRequested) || (isSnapButton && !status.searching))
    {
      if isSnapButton && !status.searching {
        searchRequested := true;
      }
    }

    /** onScanComplete: the result goes to onResult. */
    method OnScanComplete(r: Option<Result>)
      modifies this`held, this`status, this`updates, this`frameRequests
      ensures Lock() == Next(NoHysteresis, old(Lock()), r, 0).lock
      ensures updates == old(updates) + Next(NoHysteresis, old(Lock()), r, 0).updates
      ensures status == old(status).(shown := status.shown)
      ensures frameRequests == old(frameRequests) + 1
    {
      OnResult(r);
    }

    /**
     * onScanFailed: a MISUSE error is a development error and scanning goes
     * on with the next frame; any other error shows a quit dialog and no
     * frame is asked for.
     */
    method OnScanFailed(e: ErrorCode)
      modifies this`frameRequests, this`quitDialogs
      ensures e == Misuse ==> frameRequests == old(frameRequests) + 1 && quitDialogs == old(quitDialogs)
      ensures e != Misuse ==> frameRequests == old(frameRequests) && quitDialogs == old(quitDialogs) + 1
    {
      if e == Misuse {
        frameRequests := frameRequests + 1;
      } else {
        quitDialogs := quitDialogs + 1;
      }
    }

    /** onApiSearchStart: searching is shown and the lock is released. */
    method OnApiSearchStart()
      modifies this`status, this`updates, this`held
      ensures status == old(status).(searching := true)
      ensures updates == old(updates) + 1
      ensures held.None?
    {
      status := status.(searching := true);
      updates := updates + 1;
      held := None;
    }

    /**
     * onApiSearchComplete: searching ends and the outcome (the image id, or
     * "No match found") goes through onResult; without a lock it is shown.
     */
    method OnApiSearchComplete(imageId: Option<string>)
      modifies this`held, this`status, this`updates, this`frameRequests
      ensures var s := Next(NoHysteresis, old(Lock()), Some(SearchOutcome(imageId)), 0);
              Lock() == s.lock && updates == old(updates) + s.updates
              && status == old(status).(searching := false, shown := status.shown)
              && frameRequests == old(frameRequests) + 1
      ensures old(held).None? ==>
                var r := SearchOutcome(imageId);
                status.shown == Some(r) && held == Some(r) && updates == old(updates) + 1
    {
      status := status.(searching := false);
      var r := SearchOutcome(imageId);
      if held.None? {
        LockOnIsInstant(NoHysteresis, Lock(), r, 0);
      }
      OnResult(Some(r));
    }

    /** onApiSearchFailed: an error dialog, then "Search error" goes through onResult. */
    method OnApiSearchFailed(e: ErrorCode)
      modifies this`held, this`status, this`updates, this`frameRequests, this`errorDialogs
      ensures errorDialogs == old(errorDialogs) + 1
      ensures var s := Next(NoHysteresis, old(Lock()), Some(Result(TYPE_NONE as int, "Search error")), 0);
              Lock() == s.lock && updates == old(updates) + s.updates
              && status == old(status).(searching := false, shown := status.shown)
              && frameRequests == old(frameRequests) + 1
    {
      errorDialogs := errorDialogs + 1;
      status := status.(searching := false);
      OnResult(Some(Result(TYPE_NONE as int, "Search error")));
    }
  }

  /**
   * A whole snap: the button is pressed while no search runs, the next
   * frame is sent to the API, the search starts and completes. Whatever
   * was locked before, the search outcome ends up locked and on display.
   */
  method Snap(screen: ScanActivity, imageId: Option<string>)
    requires !screen.status.searching
    modifies screen`searchRequested, screen`apiSearches, screen`scansIssued, screen`frameRequests,
             screen`held, screen`status, screen`updates
    ensures screen.status.shown == Some(SearchOutcome(imageId)) && screen.held == screen.status.shown
    ensures !screen.status.searching && !screen.searchRequested
    ensures screen.apiSearches == old(screen.apiSearches) + 1
    ensures screen.scansIssued == old(screen.scansIssued)
  {
    screen.OnClick(true);
    var action := screen.OnPreviewFrame();
    assert action == OnlineSearch;
    screen.OnApiSearchStart();
    screen.OnApiSearchComplete(imageId);
  }
}
