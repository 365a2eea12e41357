/**
 * demo1, package com.example.android: the home screen that opens the
 * scanner and keeps it synced, and the scanner screen that hands each frame
 * to the SDK's asynchronous scan and stabilises its results with the
 * 1500 ms timeout.
 */
module ExampleDemo1 {
  import opened Wrappers
  import opened Results
  import opened Scanner
  import opened StatusBundle
  import opened Stabilizer

  /** ScanOptions: image recognition, EAN-13 and QR codes. */
  const SCAN_OPTIONS: bv32 := TYPE_IMAGE | TYPE_EAN13 | TYPE_QRCODE

  /**
   * The scanner screen. `held` is `_result` and `lastFound` is
   * `last_found`; `status` is the overlay's bundle; `options` is what was
   * last passed to scanner.setOptions. The counters record calls to
   * collaborators: overlay.onStatusUpdate, requestNewFrame, scanner.scan,
   * scanner.sync and scanner.scanCancel, and the dialogs shown.
   */
  class ScanActivity {
    var compatible: bool
    var status: Status
    var lastFound: int
    var held: Option<Result>
    var options: bv32
    var progressShown: bool
    var updates: nat
    var frameRequests: nat
    var scansIssued: nat
    var syncRequests: nat
    var scanCancels: nat
    var errorDialogs: nat
    var quitDialogs: nat
    var unsupportedDialogs: nat

    /** The stabiliser's view of the screen; this variant has no miss counter. */
    ghost function Lock(): Stabilizer.Lock
      reads this
    {
      Stabilizer.Lock(held, 0, lastFound, status.shown)
    }

    /** The field initialisers, before onCreate. */
    constructor ()
      ensures compatible && Lock() == Initial && status == Empty && options == 0 && !progressShown
      ensures updates == 0 && frameRequests == 0 && scansIssued == 0 && syncRequests == 0
      ensures scanCancels == 0 && errorDialogs == 0 && quitDialogs == 0 && unsupportedDialogs == 0
    {
      compatible := true;
      status := Empty;
      lastFound := 0;
      held := None;
      options := 0;
      progressShown := false;
      updates := 0;
      frameRequests := 0;
      scansIssued := 0;
      syncRequests := 0;
      scanCancels := 0;
      errorDialogs := 0;
      quitDialogs := 0;
      unsupportedDialogs := 0;
    }

    /** onCreate: an unsupported device makes the screen incompatible and shows a dialog. */
    method OnCreate(open: OpenOutcome)
      modifies this`compatible, this`unsupportedDialogs
      ensures compatible == (old(compatible) && !open.UnsupportedDevice?)
      ensures unsupportedDialogs == old(unsupportedDialogs) + (if open.UnsupportedDevice? then 1 else 0)
    {
      if open.UnsupportedDevice? {
        compatible := false;
        unsupportedDialogs := unsupportedDialogs + 1;
      }
    }

    /**
     * onResume, on a compatible device: a fresh status bundle, the scan
     * options; when count() succeeds, ready = (count != 0), the decode
     * flags of the options and the count, with an update and a background
     * sync. The first frame is asked for only when ready.
     */
    method OnResume(count: Answer<int>)
      modifies this`status, this`options, this`updates, this`syncRequests, this`frameRequests
      ensures !compatible ==> status == old(status) && options == old(options) && updates == old(updates)
                              && syncRequests == old(syncRequests) && frameRequests == old(frameRequests)
      ensures compatible ==> options == SCAN_OPTIONS
      ensures compatible && count.Returned? ==>
                status == Empty.(ready := count.value != 0, flags := OptionFlags(SCAN_OPTIONS), images := count.value)
                && updates == old(updates) + 1 && syncRequests == old(syncRequests) + 1
      ensures compatible && count.Threw? ==>
                status == Empty && updates == old(updates) && syncRequests == old(syncRequests)
      ensures compatible ==> frameRequests == old(frameRequests) + (if status.ready then 1 else 0)
    {
      if compatible {
        status := Empty;
        options := SCAN_OPTIONS;
        match count {
          case Returned(nb) =>
            status := status.(ready := nb != 0, flags := OptionFlags(SCAN_OPTIONS), images := nb, shown := None);
            updates := updates + 1;
            syncRequests := syncRequests + 1;
          case Threw(_) =>
        }
        if status.ready {
          frameRequests := frameRequests + 1;
        }
      }
    }

    /** onPause: a compatible screen cancels the pending scan. */
    method OnPause()
      modifies this`scanCancels
      ensures scanCancels == old(scanCancels) + (if compatible then 1 else 0)
    {
      if compatible {
        scanCancels := scanCancels + 1;
      }
    }

    /** onPreviewFrame: the frame is handed to scanner.scan only when ready. */
    method OnPreviewFrame()
      modifies this`scansIssued
      ensures scansIssued == old(scansIssued) + (if status.ready then 1 else 0)
    {
      if status.ready {
        scansIssued := scansIssued + 1;
      }
    }

    /** onScanComplete: the result goes to onResult. */
    method OnScanComplete(r: Option<Result>, now: int)
      modifies this`held, this`lastFound, this`status, this`updates, this`frameRequests
      ensures Lock() == Next(Policy.Timeout, old(Lock()), r, now).lock
      ensures updates == old(updates) + Next(Policy.Timeout, old(Lock()), r, now).updates
      ensures status == old(status).(shown := status.shown)
      ensures frameRequests == old(frameRequests) + 1
    {
      OnResult(r, now);
    }

    /**
     * onScanFailed: a MISUSE error is a development error and scanning goes
     * on with the next frame; any other error shows a quit dialog and no
     * frame is asked for.
     */
    method OnScanFailed(e: ErrorCode)
      modifies this`frameRequests, this`quitDialogs
      ensures e == Misuse ==> frameRequests == old(frameRequests) + 1 && quitDialogs == old(quitDialogs)
      ensures e != Misuse ==> frameRequests == old(frameRequests) && quitDialogs == old(quitDialogs) + 1
    {
      if e == Misuse {
        frameRequests := frameRequests + 1;
      } else {
        quitDialogs := quitDialogs + 1;
      }
    }

    /**
     * onResult: the timeout stabiliser (see Stabilizer.Next): a miss more
     * than 1500 ms after the last find drops the lock and clears the
     * display; then the next frame is asked for.
     */
    method OnResult(r: Option<Result>, now: int)
      modifies this`held, this`lastFound, this`status, this`updates, this`frameRequests
      ensures Lock() == Next(Policy.Timeout, old(Lock()), r, now).lock
      ensures updates == old(updates) + Next(Policy.Timeout, old(Lock()), r, now).updates
      ensures status == old(status).(shown := status.shown)
      ensures frameRequests == old(frameRequests) + 1
    {
      if r.Some? {
        var result := r.value;
        lastFound := now;
        var update := false;
        if held.None? {
          update := true;
        } else if !Equals(held.value, result) {
          update := true;
        }
        if update {
          held := r;
          status := status.(shown := r);
          updates := updates + 1;
        }
      } else {
        if lastFound > 0 && now - lastFound > 1500 {
          held := None;
          lastFound := -1;
          status := status.(shown := None);
          updates := updates + 1;
        }
      }
      frameRequests := frameRequests + 1;
    }

    /** onSyncStart: the progress dialog only for the initial sync; syncing is shown. */
    method OnSyncStart()
      modifies this`progressShown, this`status, this`updates
      ensures progressShown == (old(progressShown) || !old(status.ready))
      ensures status == old(status).(syncing := true)
      ensures updates == old(updates) + 1
    {
      if !status.ready {
        progressShown := true;
      }
      status := status.(syncing := true);
      updates := updates + 1;
    }

    /**
     * onSyncComplete: the end of the initial sync dismisses the progress and
     * asks for the first frame; syncing ends; when count() succeeds the
     * count is stored and scanning becomes ready, otherwise `ready` is left
     * as it was.
     */
    method OnSyncComplete(count: Answer<int>)
      modifies this`progressShown, this`status, this`updates, this`frameRequests
      ensures !old(status.ready) ==> !progressShown
      ensures old(status.ready) ==> progressShown == old(progressShown)
      ensures frameRequests == old(frameRequests) + (if old(status.ready) then 0 else 1)
      ensures count.Returned? ==>
                status == old(status).(syncing := false, images := count.value, ready := true)
                && updates == old(updates) + 1
      ensures count.Threw? ==> status == old(status).(syncing := false) && updates == old(updates)
    {
      if !status.ready {
        progressShown := false;
        frameRequests := frameRequests + 1;
      }
      status := status.(syncing := false);
      match count {
        case Returned(nb) =>
          status := status.(images := nb, ready := true);
          updates := updates + 1;
        case Threw(_) =>
      }
    }

    /** onSyncFailed: as a completion without re-reading the count, plus a network error dialog. */
    method OnSyncFailed(e: ErrorCode)
      modifies this`progressShown, this`status, this`updates, this`frameRequests, this`errorDialogs
      ensures !old(status.ready) ==> !progressShown
      ensures old(status.ready) ==> progressShown == old(progressShown)
      ensures frameRequests == old(frameRequests) + (if old(status.ready) then 0 else 1)
      ensures status == old(status).(syncing := false, ready := true)
      ensures updates == old(updates) + 1 && errorDialogs == old(errorDialogs) + 1
    {
      if !status.ready {
        progressShown := false;
        frameRequests := frameRequests + 1;
      }
      status := status.(syncing := false, ready := true);
      updates := updates + 1;
      errorDialogs := errorDialogs + 1;
    }

    /** onOptionsItemSelected: the sync item starts a sync unless one is running. */
    method OnOptionsItemSelected(isSyncItem: bool)
      modifies this`syncRequests
      ensures syncRequests == old(syncRequests) + (if isSyncItem && !status.syncing then 1 else 0)
    {
      if isSyncItem && !status.syncing {
        syncRequests := syncRequests + 1;
      }
    }
  }

  /**
   * The home screen: `ready` once the database holds records or the
   * initial sync has ended, `syncing` while a sync runs. The progress
   * dialog is shown only for the initial sync, so it is never up once
   * ready. The counters record scanner.sync calls and the dialogs shown;
   * `quit` is a finish() after a key/secret mismatch.
   */
  class HomeScreen {
    var ready: bool
    var syncing: bool
    var progressShown: bool
    var syncRequests: nat
    var errorDialogs: nat
    var unsupportedDialogs: nat
    var quit: bool

    ghost predicate Valid()
      reads this
    {
      progressShown ==> !ready
    }

    /**
     * The field initialisers followed by onCreate: open the scanner, become
     * ready when count() is non-zero, start a sync. An unsupported device
     * gets a dialog; a key/secret mismatch, from open or from count(),
     * quits; another error is only logged. No sync is started when open or
     * count() throws.
     */
    constructor (open: OpenOutcome, count: Answer<int>)
      ensures Valid() && !syncing && !progressShown && errorDialogs == 0
      ensures ready <==> open == Opened && count.Returned? && count.value != 0
      ensures syncRequests == (if open == Opened && count.Returned? then 1 else 0)
      ensures unsupportedDialogs == (if open == UnsupportedDevice then 1 else 0)
      ensures quit <==> open == OpenFailed(CredMismatch) || (open == Opened && count == Threw(CredMismatch))
    {
      ready := false;
      syncing := false;
      progressShown := false;
      syncRequests := 0;
      errorDialogs := 0;
      unsupportedDialogs := 0;
      quit := false;
      new;
      match open {
        case Opened =>
          match count {
            case Returned(nb) =>
              if nb != 0 {
                ready := true;
              }
              syncRequests := syncRequests + 1;
            case Threw(e) =>
              if e == CredMismatch {
                quit := true;
              }
          }
        case UnsupportedDevice =>
          unsupportedDialogs := unsupportedDialogs + 1;
        case OpenFailed(e) =>
          if e == CredMismatch {
            quit := true;
          }
      }
    }

    /** onSyncStart: syncing; progress only when not ready. */
    method OnSyncStart()
      requires Valid()
      modifies this`syncing, this`progressShown
      ensures Valid()
      ensures syncing
      ensures progressShown == (old(progressShown) || !ready)
    {
      syncing := true;
      if !ready {
        progressShown := true;
      }
    }

    /** onSyncComplete: syncing ends; the end of the initial sync dismisses progress and makes ready. */
    method OnSyncComplete()
      requires Valid()
      modifies this`syncing, this`progressShown, this`ready
      ensures Valid()
      ensures !syncing && ready
      ensures old(ready) ==> progressShown == old(progressShown)
      ensures !old(ready) ==> !progressShown
    {
      syncing := false;
      if !ready {
        progressShown := false;
        ready := true;
      }
    }

    /**
     * onSyncFailed: syncing ends; the failed initial sync dismisses
     * progress, makes ready and shows a network error; once ready, nothing
     * else happens.
     */
    method OnSyncFailed(e: ErrorCode)
      requires Valid()
      modifies this`syncing, this`progressShown, this`ready, this`errorDialogs
      ensures Valid()
      ensures !syncing && ready
      ensures old(ready) ==> progressShown == old(progressShown) && errorDialogs == old(errorDialogs)
      ensures !old(ready) ==> !progressShown && errorDialogs == old(errorDialogs) + 1
    {
      syncing := false;
      if !ready {
        progressShown := false;
        ready := true;
        errorDialogs := errorDialogs + 1;
      }
    }

    /** onOptionsItemSelected: the sync item starts a sync unless one is running. */
    method OnOptionsItemSelected(isSyncItem: bool)
      modifies this`syncRequests
      ensures syncRequests == old(syncRequests) + (if isSyncItem && !syncing then 1 else 0)
    {
      if isSyncItem && !syncing {
        syncRequests := syncRequests + 1;
      }
    }
  }
}
