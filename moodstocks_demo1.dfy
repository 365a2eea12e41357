/**
 * demo1, package com.moodstocks.android: the scanner screen (ScanActivity)
 * and the per-frame background task it starts (ScanThread). Frames are
 * pulled one at a time; a task is started only when scanning is ready and
 * no task is running, and every delivered result asks for the next frame.
 */
module MoodstocksDemo1 {
  import opened Wrappers
  import opened Results
  import opened Scanner
  import opened StatusBundle
  import opened Pipeline
  import opened Stabilizer

  /** BarcodeFormats: EAN-13 and QR codes are decoded. */
  const BARCODE_FORMATS: bv32 := FMT_EAN13 | FMT_QRCODE

  /**
   * One frame's background task. It keeps the previous result to verify
   * the lock against, and the barcode formats to decode; `cancelled` is
   * the ScanThread's cancellation flag.
   */
  class ScanThread {
    const listener: ScanActivity
    const formats: bv32
    const prior: Option<Result>
    var cancelled: bool

    constructor (l: ScanActivity, formats: bv32, prev: Option<Result>)
      ensures listener == l && this.formats == formats && prior == prev && !cancelled
    {
      listener := l;
      this.formats := formats;
      prior := prev;
      cancelled := false;
    }

    /** onPreExecute: tells the screen a task is running. */
    method OnPreExecute()
      modifies listener`threadRunning
      ensures listener.threadRunning
    {
      listener.OnThreadRunning(true);
    }

    /**
     * doInBackground: lock verification, image search, barcode decoding,
     * each in its own try block, then the query image is released. The
     * `calls` returned are the backend calls made, in order.
     */
    method DoInBackground(b: Backend) returns (result: Option<Result>, calls: seq<Call>)
      // first success wins
      ensures result == Recognise(prior, b)
      // the stages run in order, each at most once
      ensures forall i, j :: 0 <= i < j < |calls| ==> StageOf(calls[i]) < StageOf(calls[j])
      // the query image is released once, after every backend call
      ensures |calls| > 0 && calls[|calls| - 1] == Finalize
      ensures forall i :: 0 <= i < |calls| - 1 ==> calls[i] != Finalize
      // lock verification: match for an image, QR-only decode for a QR code, nothing else
      ensures prior.Some? && prior.value.kind == IMAGE ==> Match(prior.value.value) in calls
      ensures (exists c :: c in calls && c.Match?) <==> prior.Some? && prior.value.kind == IMAGE
      ensures DecodeQr in calls <==> prior.Some? && prior.value.kind == QRCODE
      // a confirmed image lock short-circuits search and decoding
      ensures prior.Some? && prior.value.kind == IMAGE && b.matchAnswer == Returned(true) ==>
                result == prior && Search !in calls && Decode(formats) !in calls
      // the search runs only without a lock, the decoding only without a lock and a search hit
      ensures Search in calls <==> LockVerdict(prior, b).None?
      ensures Decode(formats) in calls <==> LockVerdict(prior, b).None? && SearchVerdict(b).None?
      ensures forall c :: c in calls && c.Decode? ==> c.formats == formats
    {
      calls := [];
      result := None;
      // locking
      var lock := false;
      if prior.Some? {
        var p := prior.value;
        if p.kind == IMAGE {
          calls := calls + [Match(p.value)];
          match b.matchAnswer {
            case Returned(matched) => lock := matched;
            case Threw(_) =>
          }
        } else if p.kind == QRCODE {
          calls := calls + [DecodeQr];
          match b.qrDecodeAnswer {
            case Returned(bar) =>
              if bar.Some? {
                lock := bar.value.text == p.value;
              }
            case Threw(_) =>
          }
        }
        if lock {
          result := prior;
        }
      }
      // image search
      if result.None? {
        calls := calls + [Search];
        match b.searchAnswer {
          case Returned(imageId) =>
            if imageId.Some? {
              result := Some(Result(IMAGE, imageId.value));
            }
          case Threw(_) =>
        }
      }
      // barcode decoding
      if result.None? {
        calls := calls + [Decode(formats)];
        match b.decodeAnswer {
          case Returned(bar) =>
            if bar.Some? {
              var kind := NONE;
              if bar.value.format == FMT_EAN8 {
                kind := EAN8;
              } else if bar.value.format == FMT_EAN13 {
                kind := EAN13;
              } else if bar.value.format == FMT_QRCODE {
                kind := QRCODE;
              }
              result := Some(Result(kind, bar.value.text));
            }
          case Threw(_) =>
        }
      }
      calls := calls + [Finalize];
      RecogniseIsFirstSuccess(prior, b);
    }

    /** cancel(true): the ScanThread is marked cancelled. */
    method Cancel()
      modifies this`cancelled
      ensures cancelled
    {
      cancelled := true;
    }

    /** onPostExecute: hands the result to the screen. */
    method OnPostExecute(r: Option<Result>, now: int)
      requires listener.Valid()
      modifies listener`thread, listener`threadRunning, listener`held, listener`losts,
               listener`lastFound, listener`status, listener`updates, listener`frameRequests
      ensures listener.Valid()
      ensures listener.Lock() == Next(MissCounterWithClear, old(listener.Lock()), r, now).lock
      ensures listener.updates == old(listener.updates) + Next(MissCounterWithClear, old(listener.Lock()), r, now).updates
      ensures listener.status == old(listener.status).(shown := listener.status.shown)
      ensures listener.thread == null && !listener.threadRunning
      ensures listener.frameRequests == old(listener.frameRequests) + 1
    {
      listener.OnResult(r, now);
    }

    /** onCancelled: tells the screen no task is running; no result is delivered. */
    method OnCancelled()
      modifies listener`threadRunning
      ensures !listener.threadRunning
    {
      listener.OnThreadRunning(false);
    }

    /**
     * What the ScanThread does once doInBackground has returned `r`: a cancelled
     * task calls onCancelled, any other calls onPostExecute.
     */
    method Complete(r: Option<Result>, now: int)
      requires listener.Valid()
      modifies listener`thread, listener`threadRunning, listener`held, listener`losts,
               listener`lastFound, listener`status, listener`updates, listener`frameRequests
      ensures listener.Valid()
      ensures !listener.threadRunning
      ensures cancelled ==> listener.Lock() == old(listener.Lock()) && listener.updates == old(listener.updates)
                            && listener.frameRequests == old(listener.frameRequests)
                            && listener.thread == old(listener.thread)
                            && listener.status == old(listener.status)
      ensures !cancelled ==>
                var s := Next(MissCounterWithClear, old(listener.Lock()), r, now);
                listener.Lock() == s.lock && listener.updates == old(listener.updates) + s.updates
                && listener.status == old(listener.status).(shown := listener.status.shown)
                && listener.frameRequests == old(listener.frameRequests) + 1
                && listener.thread == null
    {
      if cancelled {
        OnCancelled();
      } else {
        OnPostExecute(r, now);
      }
    }
  }

  /**
   * The scanner screen. `held` is `_result`, `losts` is `_losts`,
   * `lastFound` is `last_found`; `status` is the overlay's bundle. The
   * counters record the calls the screen makes to its collaborators:
   * overlay.onStatusUpdate, CameraManager.requestNewFrame, scanner.sync.
   */
  class ScanActivity {
    var status: Status
    var lastFound: int
    var thread: ScanThread?
    var threadRunning: bool
    var held: Option<Result>
    var losts: int
    var progressShown: bool
    var errorDialogs: nat
    var updates: nat
    var frameRequests: nat
    var syncRequests: nat

    /** The miss counter never reaches the threshold while a lock is held. */
    ghost predicate Valid()
      reads this
    {
      MissBound(Lock())
    }

    /** The stabiliser's view of the screen. */
    ghost function Lock(): Stabilizer.Lock
      reads this
    {
      Stabilizer.Lock(held, losts, lastFound, status.shown)
    }

    /** The field initialisers and onCreate's fresh status bundle. */
    constructor ()
      ensures Valid() && Lock() == Initial && status == Empty
      ensures thread == null && !threadRunning && !progressShown
      ensures errorDialogs == 0 && updates == 0 && frameRequests == 0 && syncRequests == 0
    {
      status := Empty;
      lastFound := 0;
      thread := null;
      threadRunning := false;
      held := None;
      losts := 0;
      progressShown := false;
      errorDialogs := 0;
      updates := 0;
      frameRequests := 0;
      syncRequests := 0;
    }

    /**
     * onResume: reads the record count; when count() succeeds, status gets
     * ready = (count != 0), the decode flags and the count, the display is
     * cleared, the overlay is notified and a background sync is started.
     * The first frame is asked for only when ready.
     */
    method OnResume(count: Answer<int>)
      requires Valid()
      modifies this`status, this`updates, this`syncRequests, this`frameRequests
      ensures Valid()
      ensures count.Returned? ==>
                status == old(status).(ready := count.value != 0, flags := FormatFlags(BARCODE_FORMATS),
                                       images := count.value, shown := None)
                && updates == old(updates) + 1 && syncRequests == old(syncRequests) + 1
      ensures count.Threw? ==>
                status == old(status) && updates == old(updates) && syncRequests == old(syncRequests)
      ensures frameRequests == old(frameRequests) + (if status.ready then 1 else 0)
    {
      match count {
        case Returned(nb) =>
          status := status.(ready := nb != 0, flags := FormatFlags(BARCODE_FORMATS),
                            images := nb, shown := None);
          updates := updates + 1;
          syncRequests := syncRequests + 1;
        case Threw(_) =>
      }
      if status.ready {
        frameRequests := frameRequests + 1;
      }
    }

    /** onPause: a task still referenced by `thread` is cancelled. */
    method OnPause()
      modifies thread
      ensures thread != null ==> thread.cancelled
    {
      if thread != null {
        thread.Cancel();
      }
    }

    /**
     * onPreviewFrame: a new task, locked on the current result, is started
     * only when scanning is ready and no task is running; starting it runs
     * its onPreExecute, so a task is then running.
     */
    method OnPreviewFrame() returns (started: bool)
      modifies this`thread, this`threadRunning
      ensures started <==> old(status.ready) && !old(threadRunning)
      ensures started ==> fresh(thread) && thread.listener == this && thread.prior == held
                          && thread.formats == BARCODE_FORMATS && !thread.cancelled && threadRunning
      ensures !started ==> thread == old(thread) && threadRunning == old(threadRunning)
    {
      started := status.ready && !threadRunning;
      if started {
        var t := new ScanThread(this, BARCODE_FORMATS, held);
        thread := t;
        t.OnPreExecute();
      }
    }

    /** onThreadRunning. */
    method OnThreadRunning(b: bool)
      modifies this`threadRunning
      ensures threadRunning == b
    {
      threadRunning := b;
    }

    /**
     * onResult: the miss-counter stabiliser with the 1500 ms display clear
     * (see Stabilizer.Next); then the next frame is asked for and no task
     * is running any more.
     */
    method OnResult(r: Option<Result>, now: int)
      requires Valid()
      modifies this`thread, this`threadRunning, this`held, this`losts, this`lastFound,
               this`status, this`updates, this`frameRequests
      ensures Valid()
      ensures Lock() == Next(MissCounterWithClear, old(Lock()), r, now).lock
      ensures updates == old(updates) + Next(MissCounterWithClear, old(Lock()), r, now).updates
      ensures status == old(status).(shown := status.shown)
      ensures thread == null && !threadRunning
      ensures frameRequests == old(frameRequests) + 1
    {
      thread := null;
      if r.Some? {
        var result := r.value;
        lastFound := now;
        var update := false;
        if held.None? {
          update := true;
        } else if !Equals(held.value, result) {
          update := true;
        }
        if update {
          held := r;
          losts := 0;
          status := status.(shown := r);
          updates := updates + 1;
        }
      } else {
        if held.Some? {
          losts := losts + 1;
          if losts >= 2 {
            held := None;
          }
        }
        if lastFound > 0 && now - lastFound > 1500 {
          lastFound := -1;
          status := status.(shown := None);
          updates := updates + 1;
        }
      }
      frameRequests := frameRequests + 1;
      threadRunning := false;
      MissBoundHolds(MissCounterWithClear, old(Lock()), [Frame(r, now)]);
    }

    /** onSyncStart: the progress dialog only for the initial sync; syncing is shown. */
    method OnSyncStart()
      modifies this`progressShown, this`status, this`updates
      ensures progressShown == (old(progressShown) || !old(status.ready))
      ensures status == old(status).(syncing := true)
      ensures updates == old(updates) + 1
    {
      if !status.ready {
        progressShown := true;
      }
      status := status.(syncing := true);
      updates := updates + 1;
    }

    /**
     * onSyncComplete: the end of the initial sync dismisses the progress and
     * asks for the first frame; syncing ends. When count() succeeds the
     * count is stored, scanning becomes ready and the overlay is notified;
     * when it throws, `ready` is left as it was.
     */
    method OnSyncComplete(count: Answer<int>)
      modifies this`progressShown, this`status, this`updates, this`frameRequests
      ensures !old(status.ready) ==> !progressShown
      ensures old(status.ready) ==> progressShown == old(progressShown)
      ensures frameRequests == old(frameRequests) + (if old(status.ready) then 0 else 1)
      ensures count.Returned? ==>
                status == old(status).(syncing := false, images := count.value, ready := true)
                && updates == old(updates) + 1
      ensures count.Threw? ==> status == old(status).(syncing := false) && updates == old(updates)
    {
      if !status.ready {
        progressShown := false;
        frameRequests := frameRequests + 1;
      }
      status := status.(syncing := false);
      match count {
        case Returned(nb) =>
          status := status.(images := nb, ready := true);
          updates := updates + 1;
        case Threw(_) =>
      }
    }

    /**
     * onSyncFailed: as a completion, but the count is not re-read, scanning
     * becomes ready and an error dialog is shown.
     */
    method OnSyncFailed(e: ErrorCode)
      modifies this`progressShown, this`status, this`updates, this`frameRequests, this`errorDialogs
      ensures !old(status.ready) ==> !progressShown
      ensures old(status.ready) ==> progressShown == old(progressShown)
      ensures frameRequests == old(frameRequests) + (if old(status.ready) then 0 else 1)
      ensures status == old(status).(syncing := false, ready := true)
      ensures updates == old(updates) + 1 && errorDialogs == old(errorDialogs) + 1
    {
      if !status.ready {
        progressShown := false;
        frameRequests := frameRequests + 1;
      }
      status := status.(syncing := false, ready := true);
      updates := updates + 1;
      errorDialogs := errorDialogs + 1;
    }

    /** onOptionsItemSelected: the sync item starts a sync unless one is running. */
    method OnOptionsItemSelected(isSyncItem: bool)
      modifies this`syncRequests
      ensures syncRequests == old(syncRequests) + (if isSyncItem && !status.syncing then 1 else 0)
    {
      if isSyncItem && !status.syncing {
        syncRequests := syncRequests + 1;
      }
    }
  }

  /**
   * One camera frame through the screen: the frame is offered; if a task
   * starts, the pipeline runs on it and the ScanThread completes. The stabiliser
   * then sees exactly what the pipeline recognised for the lock the ScanThread
   * was started with, and the next frame is asked for.
   */
  method ScanOneFrame(screen: ScanActivity, b: Backend, now: int) returns (started: bool)
    requires screen.Valid()
    modifies screen`thread, screen`threadRunning, screen`held, screen`losts,
             screen`lastFound, screen`status, screen`updates, screen`frameRequests
    ensures screen.Valid()
    ensures started <==> old(screen.status.ready) && !old(screen.threadRunning)
    ensures started ==>
              screen.Lock() == Next(MissCounterWithClear, old(screen.Lock()), Recognise(old(screen.held), b), now).lock
              && screen.frameRequests == old(screen.frameRequests) + 1
              && !screen.threadRunning
    ensures !started ==> screen.Lock() == old(screen.Lock()) && screen.frameRequests == old(screen.frameRequests)
  {
    started := screen.OnPreviewFrame();
    if started {
      var t := screen.thread;
      var r, calls := t.DoInBackground(b);
      t.Complete(r, now);
    }
  }
}
