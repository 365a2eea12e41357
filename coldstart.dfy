/**
 * The synchronisation policy of the demo app's home screen
 * (demo, com.example.android.HomeScreen): a cold start (empty database)
 * shows a splash with progress and treats a failed sync as fatal; after
 * that, syncs run silently, and a return to the foreground syncs only when
 * the last completed sync is more than a day old.
 */
module ColdStart {
  import opened Wrappers
  import opened Scanner

  /** One day, in milliseconds. */
  const DAY: int := 86400000

  /** The reason shown in the fatal dialog of a failed cold-start sync. */
  datatype SyncMessage = ConnectionDown | ConnectionTooSlow | TimedOut | InternalError(code: ErrorCode)

  /** The message chosen for a sync error code. */
  function MessageFor(e: ErrorCode): (m: SyncMessage)
    ensures m == ConnectionDown <==> e == NoConn
    ensures m == ConnectionTooSlow <==> e == SlowConn
    ensures m == TimedOut <==> e == Timeout
    ensures m.InternalError? <==> e != NoConn && e != SlowConn && e != Timeout
    ensures m.InternalError? ==> m.code == e
  {
    match e
    case NoConn => ConnectionDown
    case SlowConn => ConnectionTooSlow
    case Timeout => TimedOut
    case _ => InternalError(e)
  }

  /**
   * The home screen's sync state: `cold_start`, `last_sync`, whether the
   * splash is shown, the last progress it shows (total, current), the fatal
   * dialog if one was raised, and how many syncs were asked of the scanner.
   */
  datatype Home = Home(coldStart: bool, lastSync: int, splash: bool,
                       progress: Option<(int, int)>, fatal: Option<SyncMessage>,
                       syncRequests: nat)

  /** The callbacks the home screen receives after onCreate. */
  datatype SyncEvent =
    | Resume(now: int)                              // onResume
    | SyncStarted                                   // onSyncStart
    | SyncCompleted(now: int)                       // onSyncComplete
    | SyncFailed(error: ErrorCode)                  // onSyncFailed
    | SyncProgress(total: int, current: int)        // onSyncProgress
    | MenuItem(isSyncItem: bool, scannerSyncing: bool) // onOptionsItemSelected

  /** The effect of one callback. */
  function Apply(h: Home, e: SyncEvent): Home
  {
    match e
    case Resume(now) =>
      if now - h.lastSync > DAY then h.(syncRequests := h.syncRequests + 1) else h
    case SyncStarted =>
      if h.coldStart then h.(splash := true) else h
    case SyncCompleted(now) =>
      if h.coldStart then h.(lastSync := now, splash := false, coldStart := false)
      else h.(lastSync := now)
    case SyncFailed(error) =>
      if h.coldStart then h.(fatal := Some(MessageFor(error))) else h
    case SyncProgress(total, current) =>
      if h.coldStart then h.(progress := Some((total, current))) else h
    case MenuItem(isSyncItem, scannerSyncing) =>
      if isSyncItem && !scannerSyncing then h.(syncRequests := h.syncRequests + 1) else h
  }

  /** A sequence of callbacks. */
  function RunEvents(h: Home, es: seq<SyncEvent>): Home
    decreases |es|
  {
    if es == [] then h else RunEvents(Apply(h, es[0]), es[1..])
  }

  /** The initial field values: a cold start that has never synced. */
  const Fresh: Home := Home(true, 0, false, None, None, 0)

  // ---------------------------------------------------------------------
  // One callback
  // ---------------------------------------------------------------------

  /** onResume asks for a sync exactly when the last completed sync is more than a day old. */
  lemma ResumeSyncsOnlyAfterADay(h: Home, now: int)
    ensures Apply(h, Resume(now)).syncRequests
         == h.syncRequests + (if now - h.lastSync > DAY then 1 else 0)
    ensures Apply(h, Resume(now)).(syncRequests := h.syncRequests) == h
  {
  }

  /** Because `last_sync` starts at 0, the first onResume (more than a day after the epoch) syncs. */
  lemma FirstResumeSyncs(now: int)
    requires now > DAY
    ensures Apply(Fresh, Resume(now)).syncRequests == 1
  {
  }

  /** A warm start whose last sync was two hours ago does not sync on resume. */
  lemma RecentSyncSkipsResume(h: Home, now: int)
    requires !h.coldStart && h.lastSync == now - 2 * 3600000
    ensures Apply(h, Resume(now)) == h
  {
  }

  /** A completed sync records its time and always ends the cold start. */
  lemma CompletionEndsColdStart(h: Home, now: int)
    ensures Apply(h, SyncCompleted(now)).lastSync == now
    ensures !Apply(h, SyncCompleted(now)).coldStart
    ensures !Apply(h, SyncCompleted(now)).splash || !h.coldStart
  {
  }

  /**
   * A failed sync is fatal (with the message for its error) only during a
   * cold start, and it never ends the cold start; otherwise nothing happens.
   */
  lemma FailureIsFatalOnlyInColdStart(h: Home, e: ErrorCode)
    ensures Apply(h, SyncFailed(e)).coldStart == h.coldStart
    ensures h.coldStart ==> Apply(h, SyncFailed(e)) == h.(fatal := Some(MessageFor(e)))
    ensures !h.coldStart ==> Apply(h, SyncFailed(e)) == h
  {
  }

  /** The splash and its progress are touched only during a cold start. */
  lemma SplashOnlyInColdStart(h: Home, total: int, current: int)
    ensures Apply(h, SyncStarted).splash == (h.coldStart || h.splash)
    ensures Apply(h, SyncProgress(total, current)).progress
         == if h.coldStart then Some((total, current)) else h.progress
    ensures !h.coldStart ==> Apply(h, SyncStarted) == h && Apply(h, SyncProgress(total, current)) == h
  {
  }

  /** A manual sync is asked for only when the scanner is not already syncing. */
  lemma ManualSyncOnlyWhenIdle(h: Home, isSyncItem: bool, scannerSyncing: bool)
    ensures Apply(h, MenuItem(isSyncItem, scannerSyncing)).syncRequests
         == h.syncRequests + (if isSyncItem && !scannerSyncing then 1 else 0)
  {
  }

  // ---------------------------------------------------------------------
  // Any sequence of callbacks
  // ---------------------------------------------------------------------

  /** `cold_start` only ever moves from true to false. */
  lemma {:induction false} ColdStartNeverReturns(h: Home, es: seq<SyncEvent>)
    requires !h.coldStart
    ensures !RunEvents(h, es).coldStart
    decreases |es|
  {
    if es != [] {
      ColdStartNeverReturns(Apply(h, es[0]), es[1..]);
    }
  }

  /** Only a completed sync ends a cold start. */
  lemma {:induction false} ColdStartEndsOnlyByCompletion(h: Home, es: seq<SyncEvent>)
    requires h.coldStart && !RunEvents(h, es).coldStart
    ensures exists i :: 0 <= i < |es| && es[i].SyncCompleted?
    decreases |es|
  {
    if es[0].SyncCompleted? {
      assert es[0].SyncCompleted?;
    } else {
      assert Apply(h, es[0]).coldStart;
      ColdStartEndsOnlyByCompletion(Apply(h, es[0]), es[1..]);
      var i :| 0 <= i < |es[1..]| && es[1..][i].SyncCompleted?;
      assert es[i + 1].SyncCompleted?;
    }
  }

  /** Any completed sync in a sequence leaves the screen out of cold start. */
  lemma {:induction false} ACompletionEndsColdStart(h: Home, es: seq<SyncEvent>, i: nat)
    requires i < |es| && es[i].SyncCompleted?
    ensures !RunEvents(h, es).coldStart
    decreases |es|
  {
    if i == 0 {
      ColdStartNeverReturns(Apply(h, es[0]), es[1..]);
    } else {
      assert es[1..][i - 1] == es[i];
      ACompletionEndsColdStart(Apply(h, es[0]), es[1..], i - 1);
    }
  }

  /** The splash is shown only during a cold start, whatever the callbacks. */
  lemma {:induction false} SplashImpliesColdStart(h: Home, es: seq<SyncEvent>)
    requires h.splash ==> h.coldStart
    ensures RunEvents(h, es).splash ==> RunEvents(h, es).coldStart
    decreases |es|
  {
    if es != [] {
      SplashImpliesColdStart(Apply(h, es[0]), es[1..]);
    }
  }

  /** After a cold start has ended, no callback raises the fatal dialog. */
  lemma {:induction false} NoFatalDialogAfterColdStart(h: Home, es: seq<SyncEvent>)
    requires !h.coldStart
    ensures RunEvents(h, es).fatal == h.fatal
    decreases |es|
  {
    if es != [] {
      assert Apply(h, es[0]).fatal == h.fatal && !Apply(h, es[0]).coldStart;
      NoFatalDialogAfterColdStart(Apply(h, es[0]), es[1..]);
    }
  }
}
