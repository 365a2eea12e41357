/**
 * demo, package com.example.android: the home screen that implements the
 * recommended sync policy (see ColdStart), and a scanner screen that hands
 * every frame to the SDK's asynchronous scan and stabilises its results
 * with the 1500 ms timeout.
 */
module ExampleDemo {
  import opened Wrappers
  import opened Results
  import opened Scanner
  import opened StatusBundle
  import opened Stabilizer
  import opened ColdStart

  /** ScanOptions: image recognition, EAN-13 and QR codes. */
  const SCAN_OPTIONS: bv32 := TYPE_IMAGE | TYPE_EAN13 | TYPE_QRCODE

  /**
   * The scanner screen. `held` is `_result` and `lastFound` is
   * `last_found`; `status` is the overlay's bundle; `options` is what was
   * last passed to scanner.setOptions. The counters record calls to
   * collaborators: overlay.onStatusUpdate, requestNewFrame, scanner.scan
   * and scanner.scanCancel, and the quit dialogs shown.
   */
  class ScanActivity {
    var status: Status
    var lastFound: int
    var held: Option<Result>
    var options: bv32
    var updates: nat
    var frameRequests: nat
    var scansIssued: nat
    var scanCancels: nat
    var quitDialogs: nat

    /** The stabiliser's view of the screen; this variant has no miss counter. */
    ghost function Lock(): Stabilizer.Lock
      reads this
    {
      Stabilizer.Lock(held, 0, lastFound, status.shown)
    }

    /** The field initialisers. */
    constructor ()
      ensures Lock() == Initial && status == Empty && options == 0
      ensures updates == 0 && frameRequests == 0 && scansIssued == 0 && scanCancels == 0 && quitDialogs == 0
    {
      status := Empty;
      lastFound := 0;
      held := None;
      options := 0;
      updates := 0;
      frameRequests := 0;
      scansIssued := 0;
      scanCancels := 0;
      quitDialogs := 0;
    }

    /**
     * onResume: a fresh status bundle and the scan options; when count()
     * succeeds, the decode flags each follow their bit of the options, the
     * count is stored, the display is empty and the overlay is notified.
     * This variant sets no "ready" entry and starts no sync.
     */
    method OnResume(count: Answer<int>)
      modifies this`status, this`options, this`updates
      ensures options == SCAN_OPTIONS
      ensures count.Returned? ==>
                status == Empty.(flags := OptionFlags(SCAN_OPTIONS), images := count.value)
                && updates == old(updates) + 1
      ensures count.Threw? ==> status == Empty && updates == old(updates)
      ensures status.flags == DecodeFlags(false, count.Returned?, count.Returned?)
    {
      status := Empty;
      options := SCAN_OPTIONS;
      match count {
        case Returned(nb) =>
          status := status.(flags := OptionFlags(SCAN_OPTIONS), images := nb, shown := None);
          updates := updates + 1;
        case Threw(_) =>
      }
    }

    /** onPause: the pending scan is cancelled. */
    method OnPause()
      modifies this`scanCancels
      ensures scanCancels == old(scanCancels) + 1
    {
      scanCancels := scanCancels + 1;
    }

    /** onPreviewFrame: every frame is handed to scanner.scan. */
    method OnPreviewFrame()
      modifies this`scansIssued
      ensures scansIssued == old(scansIssued) + 1
    {
      scansIssued := scansIssued + 1;
    }

    /** onScanComplete: the result goes to onResult. */
    method OnScanComplete(r: Option<Result>, now: int)
      modifies this`held, this`lastFound, this`status, this`updates, this`frameRequests
      ensures Lock() == Next(Policy.Timeout, old(Lock()), r, now).lock
      ensures updates == old(updates) + Next(Policy.Timeout, old(Lock()), r, now).updates
      ensures status == old(status).(shown := status.shown)
      ensures frameRequests == old(frameRequests) + 1
    {
      OnResult(r, now);
    }

    /**
     * onScanFailed: a MISUSE error is a development error and scanning goes
     * on with the next frame; any other error shows a quit dialog and no
     * frame is asked for.
     */
    method OnScanFailed(e: ErrorCode)
      modifies this`frameRequests, this`quitDialogs
      ensures e == Misuse ==> frameRequests == old(frameRequests) + 1 && quitDialogs == old(quitDialogs)
      ensures e != Misuse ==> frameRequests == old(frameRequests) && quitDialogs == old(quitDialogs) + 1
    {
      if e == Misuse {
        frameRequests := frameRequests + 1;
      } else {
        quitDialogs := quitDialogs + 1;
      }
    }

    /**
     * onResult: the timeout stabiliser (see Stabilizer.Next); then the next
     * frame is asked for.
     */
    method OnResult(r: Option<Result>, now: int)
      modifies this`held, this`lastFound, this`status, this`updates, this`frameRequests
      ensures Lock() == Next(Policy.Timeout, old(Lock()), r, now).lock
      ensures updates == old(updates) + Next(Policy.Timeout, old(Lock()), r, now).updates
      ensures status == old(status).(shown := status.shown)
      ensures frameRequests == old(frameRequests) + 1
    {
      if r.Some? {
        var result := r.value;
        lastFound := now;
        var update := false;
        if held.None? {
          update := true;
        } else if !Equals(held.value, result) {
          update := true;
        }
        if update {
          held := r;
          status := status.(shown := r);
          updates := updates + 1;
        }
      } else {
        if lastFound > 0 && now - lastFound > 1500 {
          held := None;
          lastFound := -1;
          status := status.(shown := None);
          updates := updates + 1;
        }
      }
      frameRequests := frameRequests + 1;
    }
  }

  /**
   * The home screen. Its sync state is the ColdStart model's `Home`;
   * `compatible` is Scanner.isCompatible(), and the counters record the
   * unsupported-device dialog and a finish() after a key/secret mismatch.
   */
  class HomeScreen {
    const compatible: bool
    var coldStart: bool
    var lastSync: int
    var splash: bool
    var progress: Option<(int, int)>
    var fatal: Option<SyncMessage>
    var syncRequests: nat
    var unsupportedDialogs: nat
    var quit: bool

    ghost function State(): Home
      reads this
    {
      Home(coldStart, lastSync, splash, progress, fatal, syncRequests)
    }

    /** The splash is up only during a cold start. */
    ghost predicate Valid()
      reads this
    {
      splash ==> coldStart
    }

    /**
     * The field initialisers followed by onCreate. On a compatible device
     * the scanner is opened and the cold start ends at once when count() is
     * non-zero; a throwing open or count() leaves it a cold start, and a
     * key/secret mismatch quits. An incompatible device gets a dialog and
     * the scanner is not touched.
     */
    constructor (isCompatible: bool, open: Answer<()>, count: Answer<int>)
      ensures Valid() && compatible == isCompatible
      ensures State() == Fresh.(coldStart := coldStart)
      ensures !coldStart <==> isCompatible && open.Returned? && count.Returned? && count.value != 0
      ensures unsupportedDialogs == (if isCompatible then 0 else 1)
      ensures quit <==> isCompatible && (open == Threw(CredMismatch)
                                         || (open.Returned? && count == Threw(CredMismatch)))
    {
      compatible := isCompatible;
      coldStart := true;
      lastSync := 0;
      splash := false;
      progress := None;
      fatal := None;
      syncRequests := 0;
      unsupportedDialogs := 0;
      quit := false;
      new;
      if isCompatible {
        match open {
          case Returned(_) =>
            match count {
              case Returned(nb) =>
                if nb != 0 {
                  coldStart := false;
                }
              case Threw(e) =>
                if e == CredMismatch {
                  quit := true;
                }
            }
          case Threw(e) =>
            if e == CredMismatch {
              quit := true;
            }
        }
      } else {
        unsupportedDialogs := unsupportedDialogs + 1;
      }
    }

    /** onResume: a sync only when the last completed one is more than a day old. */
    method OnResume(now: int)
      requires compatible
      requires Valid()
      modifies this`syncRequests
      ensures Valid()
      ensures State() == Apply(old(State()), Resume(now))
    {
      if now - lastSync > DAY {
        syncRequests := syncRequests + 1;
      }
    }

    /** onSyncStart: the splash is shown during a cold start. */
    method OnSyncStart()
      requires Valid()
      modifies this`splash
      ensures Valid()
      ensures State() == Apply(old(State()), SyncStarted)
    {
      if coldStart {
        splash := true;
      }
    }

    /** onSyncComplete: the sync time is recorded; a cold start ends and its splash goes. */
    method OnSyncComplete(now: int)
      requires Valid()
      modifies this`lastSync, this`splash, this`coldStart
      ensures Valid()
      ensures State() == Apply(old(State()), SyncCompleted(now))
    {
      lastSync := now;
      if coldStart {
        splash := false;
        coldStart := false;
      }
    }

    /** onSyncFailed: during a cold start, a fatal dialog with the error's message. */
    method OnSyncFailed(e: ErrorCode)
      requires Valid()
      modifies this`fatal
      ensures Valid()
      ensures State() == Apply(old(State()), SyncFailed(e))
    {
      if coldStart {
        var s: SyncMessage;
        match e {
          case NoConn => s := ConnectionDown;
          case SlowConn => s := ConnectionTooSlow;
          case Timeout => s := TimedOut;
          case _ => s := InternalError(e);
        }
        fatal := Some(s);
      }
    }

    /** onSyncProgress: the splash's progress bar is updated during a cold start. */
    method OnSyncProgress(total: int, current: int)
      requires Valid()
      modifies this`progress
      ensures Valid()
      ensures State() == Apply(old(State()), SyncProgress(total, current))
    {
      if coldStart {
        progress := Some((total, current));
      }
    }

    /** onOptionsItemSelected: the sync item starts a sync unless the scanner is syncing. */
    method OnOptionsItemSelected(isSyncItem: bool, scannerSyncing: bool)
      requires compatible
      requires Valid()
      modifies this`syncRequests
      ensures Valid()
      ensures State() == Apply(old(State()), MenuItem(isSyncItem, scannerSyncing))
    {
      if isSyncItem && !scannerSyncing {
        syncRequests := syncRequests + 1;
      }
    }
  }

  /**
   * A home screen driven through a whole sequence of callbacks ends in the
   * state RunEvents gives; the ColdStart trace lemmas then apply to it.
   */
  method Drive(home: HomeScreen, es: seq<SyncEvent>)
    requires home.compatible && home.Valid()
    modifies home`syncRequests, home`splash, home`lastSync, home`coldStart, home`fatal, home`progress
    ensures home.Valid()
    ensures home.State() == RunEvents(old(home.State()), es)
    ensures !old(home.coldStart) ==> !home.coldStart && home.fatal == old(home.fatal)
  {
    ghost var start := home.State();
    var i := 0;
    while i < |es|
      invariant 0 <= i <= |es|
      invariant home.Valid()
      invariant RunEvents(start, es) == RunEvents(home.State(), es[i..])
    {
      ghost var before := home.State();
      match es[i] {
        case Resume(now) => home.OnResume(now);
        case SyncStarted => home.OnSyncStart();
        case SyncCompleted(now) => home.OnSyncComplete(now);
        case SyncFailed(e) => home.OnSyncFailed(e);
        case SyncProgress(total, current) => home.OnSyncProgress(total, current);
        case MenuItem(isSyncItem, scannerSyncing) => home.OnOptionsItemSelected(isSyncItem, scannerSyncing);
      }
      assert es[i..][1..] == es[i + 1..];
      assert home.State() == Apply(before, es[i]);
      i := i + 1;
    }
    assert es[i..] == [];
    if !start.coldStart {
      ColdStartNeverReturns(start, es);
      NoFatalDialogAfterColdStart(start, es);
    }
  }
}
