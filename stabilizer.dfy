/**
 * The result stabiliser shared, with variations, by the onResult methods of
 * the scanner screens. Each screen keeps the locked result (`_result`), and
 * some keep a miss counter (`_losts`) and the time of the last find
 * (`last_found`); the result shown by the overlay is the status bundle's
 * "result" entry. Each call of onResult may emit one status update.
 */
module Stabilizer {
  import opened Wrappers
  import opened Results

  /** Number of consecutive misses after which a counted lock is dropped. */
  const MISS_THRESHOLD: int := 2
  /** Milliseconds without a find after which a timed display is cleared. */
  const DROP_WINDOW: int := 1500

  /**
   * The four variants of onResult:
   *  - MissCounter: demo2, com.moodstocks.android (miss counter only);
   *  - MissCounterWithClear: demo1, com.moodstocks.android (miss counter
   *    for the lock, and a 1500 ms timer that clears only the display);
   *  - Timeout: demo and demo1, com.example.android (the timer clears the
   *    lock and the display);
   *  - NoHysteresis: demo2, com.example.android (a miss changes nothing).
   */
  datatype Policy = MissCounter | MissCounterWithClear | Timeout | NoHysteresis
  {
    predicate CountsMisses() { this == MissCounter || this == MissCounterWithClear }
    predicate UsesClock() { this == MissCounterWithClear || this == Timeout }
  }

  /**
   * The stabiliser state of a screen: the locked result, the miss counter,
   * the time of the last find (0 before the first find, -1 once the display
   * was cleared by the timer) and the result on display. A variant without
   * a counter or a clock keeps `losts` or `lastFound` at its initial 0.
   */
  datatype Lock = Lock(held: Option<Result>, losts: int, lastFound: int, shown: Option<Result>)

  /** The fields' initial values: no lock, no misses, never found, nothing shown. */
  const Initial: Lock := Lock(None, 0, 0, None)

  /** A state and the number of status updates emitted to reach it. */
  datatype Step = Step(lock: Lock, updates: nat)

  /** A found result is adopted when nothing is locked or it differs from the lock. */
  predicate Adopts(held: Option<Result>, r: Result)
  {
    held.None? || !Equals(held.value, r)
  }

  /** The timer condition: found once, and more than 1500 ms ago. */
  predicate Expired(lastFound: int, now: int)
  {
    lastFound > 0 && now - lastFound > DROP_WINDOW
  }

  /** One miss against a held lock: count it, and drop the lock at the threshold. */
  function Miss(l: Lock): Lock
    requires l.held.Some?
  {
    var m := l.losts + 1;
    l.(losts := m, held := if m >= MISS_THRESHOLD then None else l.held)
  }

  /** onResult(r) at time `now` under policy `p`. */
  function Next(p: Policy, l: Lock, r: Option<Result>, now: int): (s: Step)
    ensures s.updates <= 1
    ensures s.lock.held == l.held || s.lock.held == r || s.lock.held.None?
    ensures r.None? ==> s.lock.shown == l.shown || s.lock.shown.None?
  {
    match r
    case Some(x) =>
      var seen := if p.UsesClock() then l.(lastFound := now) else l;
      if Adopts(l.held, x) then Step(seen.(held := Some(x), losts := 0, shown := Some(x)), 1)
      else Step(seen, 0)
    case None =>
      var counted := if p.CountsMisses() && l.held.Some? then Miss(l) else l;
      if p.UsesClock() && Expired(counted.lastFound, now) then
        Step(counted.(held := if p == Timeout then None else counted.held,
                      lastFound := -1, shown := None), 1)
      else Step(counted, 0)
  }

  /** One onResult call: the result delivered and the clock reading. */
  datatype Frame = Frame(result: Option<Result>, now: int)

  /** A sequence of onResult calls, and the total number of updates they emit. */
  function Run(p: Policy, l: Lock, frames: seq<Frame>): Step
    decreases |frames|
  {
    if frames == [] then Step(l, 0)
    else
      var s := Next(p, l, frames[0].result, frames[0].now);
      var t := Run(p, s.lock, frames[1..]);
      Step(t.lock, s.updates + t.updates)
  }

  // ---------------------------------------------------------------------
  // One call
  // ---------------------------------------------------------------------

  /** Instant lock-on: with nothing locked, any found result is adopted and shown with one update. */
  lemma LockOnIsInstant(p: Policy, l: Lock, x: Result, now: int)
    requires l.held.None?
    ensures Next(p, l, Some(x), now).lock.held == Some(x)
    ensures Next(p, l, Some(x), now).lock.shown == Some(x)
    ensures Next(p, l, Some(x), now).lock.losts == 0
    ensures Next(p, l, Some(x), now).updates == 1
  {
  }

  /** A found result different from the lock replaces it at once, with one update. */
  lemma DifferentResultReplacesLock(p: Policy, l: Lock, x: Result, now: int)
    requires l.held.Some? && l.held.value != x
    ensures Next(p, l, Some(x), now).lock.held == Some(x)
    ensures Next(p, l, Some(x), now).lock.shown == Some(x)
    ensures Next(p, l, Some(x), now).lock.losts == 0
    ensures Next(p, l, Some(x), now).updates == 1
  {
    EqualsIsStructural(l.held.value, x);
  }

  /**
   * Re-seeing the locked result emits nothing and changes nothing but the
   * time of the last find; in particular the miss counter is NOT reset.
   */
  lemma SameResultChangesNothing(p: Policy, l: Lock, x: Result, now: int)
    requires l.held == Some(x)
    ensures Next(p, l, Some(x), now).updates == 0
    ensures Next(p, l, Some(x), now).lock == if p.UsesClock() then l.(lastFound := now) else l
  {
    EqualsIsReflexive(x);
  }

  /** Reaffirmation is idempotent: a second identical find changes nothing visible. */
  lemma ReaffirmationIsIdempotent(p: Policy, l: Lock, x: Result, now: int, later: int)
    ensures var first := Next(p, l, Some(x), now).lock;
            var second := Next(p, first, Some(x), later);
            second.updates == 0 && second.lock.held == first.held == Some(x)
            && second.lock.shown == first.shown && second.lock.losts == first.losts
  {
    var first := Next(p, l, Some(x), now).lock;
    if Adopts(l.held, x) {
      assert first.held == Some(x);
    } else {
      EqualsIsStructural(l.held.value, x);
      assert first.held == Some(x);
    }
    SameResultChangesNothing(p, first, x, later);
  }

  /**
   * Every find is timed under a clock, whether or not it is adopted; the
   * variants without a clock never touch `lastFound`.
   */
  lemma FindRecordsTime(p: Policy, l: Lock, x: Result, now: int)
    ensures p.UsesClock() ==> Next(p, l, Some(x), now).lock.lastFound == now
    ensures !p.UsesClock() ==> Next(p, l, Some(x), now).lock.lastFound == l.lastFound
  {
  }

  /**
   * Under a miss counter, a miss against a lock counts; the lock is dropped
   * exactly when the count reaches 2; the counter never clears the display
   * and emits nothing of its own.
   */
  lemma MissAgainstLock(p: Policy, l: Lock, now: int)
    requires p.CountsMisses() && l.held.Some?
    ensures Next(p, l, None, now).lock.losts == l.losts + 1
    ensures Next(p, l, None, now).lock.held.None? <==> l.losts + 1 >= MISS_THRESHOLD
    ensures Next(p, l, None, now).lock.held.Some? ==> Next(p, l, None, now).lock.held == l.held
    ensures p == MissCounter ==> Next(p, l, None, now).lock.shown == l.shown
    ensures p == MissCounter ==> Next(p, l, None, now).updates == 0
  {
  }

  /** Under a miss counter, a miss with nothing locked leaves the counter alone. */
  lemma MissWithoutLock(p: Policy, l: Lock, now: int)
    requires p.CountsMisses() && l.held.None?
    ensures Next(p, l, None, now).lock.losts == l.losts
    ensures Next(p, l, None, now).lock.held.None?
  {
  }

  /**
   * Under a clock, a miss clears the display, with one update, exactly when
   * the last find is more than 1500 ms old; `lastFound` then becomes -1.
   * The Timeout policy drops the lock with it; MissCounterWithClear does not.
   */
  lemma TimerClearsDisplay(p: Policy, l: Lock, now: int)
    requires p.UsesClock()
    ensures Next(p, l, None, now).updates == 1 <==> Expired(l.lastFound, now)
    ensures Expired(l.lastFound, now) ==>
              Next(p, l, None, now).lock.shown.None? && Next(p, l, None, now).lock.lastFound == -1
    ensures Expired(l.lastFound, now) && p == Timeout ==> Next(p, l, None, now).lock.held.None?
    ensures !Expired(l.lastFound, now) && p == Timeout ==> Next(p, l, None, now).lock == l
  {
  }

  /** The clear cannot repeat: after it, misses emit nothing until something is found. */
  lemma ClearCannotRepeat(p: Policy, l: Lock, now: int, later: int)
    requires p.UsesClock() && Expired(l.lastFound, now)
    ensures Next(p, Next(p, l, None, now).lock, None, later).updates == 0
  {
  }

  /** Without hysteresis a miss changes nothing and emits nothing. */
  lemma NoHysteresisIgnoresMisses(l: Lock, now: int)
    ensures Next(NoHysteresis, l, None, now) == Step(l, 0)
  {
  }

  // ---------------------------------------------------------------------
  // Invariants over any sequence of onResult calls
  // ---------------------------------------------------------------------

  /** While a lock is held, fewer than MISS_THRESHOLD misses have been counted. */
  ghost predicate MissBound(l: Lock)
  {
    l.held.Some? ==> 0 <= l.losts < MISS_THRESHOLD
  }

  lemma {:induction false} MissBoundHolds(p: Policy, l: Lock, frames: seq<Frame>)
    requires MissBound(l)
    ensures MissBound(Run(p, l, frames).lock)
    decreases |frames|
  {
    if frames != [] {
      var s := Next(p, l, frames[0].result, frames[0].now);
      assert MissBound(s.lock);
      MissBoundHolds(p, s.lock, frames[1..]);
    }
  }

  /**
   * The display shows the lock, and a positive `lastFound` means something
   * is shown. It holds initially and every Timeout or NoHysteresis onResult
   * keeps it, but the screens' other callbacks can leave it: onResume empties
   * the display and keeps the lock, and onApiSearchStart drops the lock and
   * keeps the display (see `ResumeLeavesSync`).
   */
  ghost predicate InSync(l: Lock)
  {
    l.shown == l.held && (l.lastFound > 0 ==> l.shown.Some?)
  }

  lemma InSyncStep(p: Policy, l: Lock, r: Option<Result>, now: int)
    requires p == Timeout || p == NoHysteresis
    requires InSync(l)
    ensures InSync(Next(p, l, r, now).lock)
  {
  }

  lemma {:induction false} InSyncHolds(p: Policy, l: Lock, frames: seq<Frame>)
    requires p == Timeout || p == NoHysteresis
    requires InSync(l)
    ensures InSync(Run(p, l, frames).lock)
    decreases |frames|
  {
    if frames != [] {
      var s := Next(p, l, frames[0].result, frames[0].now);
      InSyncStep(p, l, frames[0].result, frames[0].now);
      InSyncHolds(p, s.lock, frames[1..]);
    }
  }

  /**
   * For the Timeout and NoHysteresis variants, from an in-sync state one
   * onResult emits an update exactly when the displayed result changes.
   */
  lemma UpdateIffDisplayChanges(p: Policy, l: Lock, r: Option<Result>, now: int)
    requires p == Timeout || p == NoHysteresis
    requires InSync(l)
    ensures Next(p, l, r, now).updates == if Next(p, l, r, now).lock.shown != l.shown then 1 else 0
  {
    if r.Some? && l.held.Some? {
      EqualsIsStructural(l.held.value, r.value);
    }
  }

  /** The results on display after each call of a run. */
  function Displayed(p: Policy, l: Lock, frames: seq<Frame>): (d: seq<Option<Result>>)
    ensures |d| == |frames|
    decreases |frames|
  {
    if frames == [] then []
    else
      var s := Next(p, l, frames[0].result, frames[0].now);
      [s.lock.shown] + Displayed(p, s.lock, frames[1..])
  }

  /** The i-th displayed value is what a run of the first i+1 calls leaves on display. */
  lemma {:induction false} DisplayedFollowsRun(p: Policy, l: Lock, frames: seq<Frame>, i: int)
    requires 0 <= i < |frames|
    ensures Displayed(p, l, frames)[i] == Run(p, l, frames[..i + 1]).lock.shown
    decreases |frames|
  {
    var s := Next(p, l, frames[0].result, frames[0].now);
    assert frames[..i + 1][0] == frames[0];
    assert frames[..i + 1][1..] == frames[1..][..i];
    if i > 0 {
      DisplayedFollowsRun(p, s.lock, frames[1..], i - 1);
    }
  }

  /** How many times a sequence of displayed values differs from the value before it. */
  function Changes(before: Option<Result>, d: seq<Option<Result>>): nat
    decreases |d|
  {
    if d == [] then 0
    else (if d[0] != before then 1 else 0) + Changes(d[0], d[1..])
  }

  /**
   * For the Timeout and NoHysteresis variants, over any run that starts in
   * sync the overlay receives exactly one update per change of the
   * displayed result.
   */
  lemma {:induction false} UpdatesCountDisplayChanges(p: Policy, l: Lock, frames: seq<Frame>)
    requires p == Timeout || p == NoHysteresis
    requires InSync(l)
    ensures Run(p, l, frames).updates == Changes(l.shown, Displayed(p, l, frames))
    decreases |frames|
  {
    if frames != [] {
      var s := Next(p, l, frames[0].result, frames[0].now);
      UpdateIffDisplayChanges(p, l, frames[0].result, frames[0].now);
      InSyncStep(p, l, frames[0].result, frames[0].now);
      UpdatesCountDisplayChanges(p, s.lock, frames[1..]);
      var d := Displayed(p, l, frames);
      assert d[0] == s.lock.shown && d[1..] == Displayed(p, s.lock, frames[1..]);
    }
  }

  /** True when no call of the run finds anything. */
  predicate AllMisses(frames: seq<Frame>)
  {
    forall i :: 0 <= i < |frames| ==> frames[i].result.None?
  }

  /**
   * Before the first find (`lastFound` 0), and after a timer clear
   * (`lastFound` -1), misses never emit an update and never change what is
   * displayed, under every policy.
   */
  lemma {:induction false} MissesBeforeAFindAreSilent(p: Policy, l: Lock, frames: seq<Frame>)
    requires l.lastFound <= 0 && AllMisses(frames)
    ensures Run(p, l, frames).updates == 0
    ensures Run(p, l, frames).lock.shown == l.shown
    ensures Run(p, l, frames).lock.lastFound == l.lastFound
    decreases |frames|
  {
    if frames != [] {
      var s := Next(p, l, frames[0].result, frames[0].now);
      assert frames[0].result.None?;
      assert s.updates == 0 && s.lock.shown == l.shown && s.lock.lastFound == l.lastFound;
      assert AllMisses(frames[1..]) by {
        forall i | 0 <= i < |frames[1..]| ensures frames[1..][i].result.None? {
          assert frames[1..][i] == frames[i + 1];
        }
      }
      MissesBeforeAFindAreSilent(p, s.lock, frames[1..]);
    }
  }

  // ---------------------------------------------------------------------
  // Scenarios
  // ---------------------------------------------------------------------

  /**
   * A lock on an image, then two misses under the miss-counter policy: the
   * lock survives the first miss (one miss counted) and is dropped by the
   * second; neither miss emits an update, so the display keeps the image.
   */
  lemma TwoMissesDropTheLock(a: Result, t: int)
    ensures var l0 := Lock(Some(a), 0, 0, Some(a));
            var s1 := Next(MissCounter, l0, None, t);
            var s2 := Next(MissCounter, s1.lock, None, t);
            s1.lock.held == Some(a) && s1.lock.losts == 1 && s1.updates == 0
            && s2.lock.held.None? && s2.updates == 0 && s2.lock.shown == Some(a)
  {
  }

  /**
   * Re-seeing the locked result does not reset the counter: a find, a miss,
   * the same find again and another miss drop the lock, after a single
   * update for the first find.
   */
  lemma ReseeingDoesNotResetMisses(p: Policy, a: Result, t: int)
    requires p.CountsMisses()
    ensures Run(p, Initial, [Frame(Some(a), t), Frame(None, t), Frame(Some(a), t), Frame(None, t)]).lock.held.None?
    ensures Run(p, Initial, [Frame(Some(a), t), Frame(None, t), Frame(Some(a), t), Frame(None, t)]).updates == 1
  {
    EqualsIsReflexive(a);
    var fs := [Frame(Some(a), t), Frame(None, t), Frame(Some(a), t), Frame(None, t)];
    var s1 := Next(p, Initial, Some(a), t);
    var s2 := Next(p, s1.lock, None, t);
    var s3 := Next(p, s2.lock, Some(a), t);
    var s4 := Next(p, s3.lock, None, t);
    assert s1.lock.held == Some(a) && s1.lock.losts == 0 && s1.updates == 1;
    assert s2.lock.held == Some(a) && s2.lock.losts == 1 && s2.updates == 0;
    assert s3.lock.held == Some(a) && s3.lock.losts == 1 && s3.updates == 0;
    assert s4.lock.held.None? && s4.updates == 0;
    assert Run(p, s4.lock, []) == Step(s4.lock, 0);
    assert fs[1..][1..][1..] == [Frame(None, t)];
    assert Run(p, s3.lock, [Frame(None, t)]) == Step(s4.lock, 0);
    assert fs[1..][1..] == [Frame(Some(a), t), Frame(None, t)];
    assert Run(p, s2.lock, fs[1..][1..]) == Step(s4.lock, 0);
    assert fs[1..] == [Frame(None, t), Frame(Some(a), t), Frame(None, t)];
    assert Run(p, s1.lock, fs[1..]) == Step(s4.lock, 0);
  }

  /**
   * Under a miss counter an update does not always mean a visible change:
   * after the counter drops a lock the display still shows it, and finding
   * the same result again adopts it anew with a second update.
   */
  lemma CounterReAdoptsShownResult(p: Policy, a: Result, t: int)
    requires p == MissCounter
    ensures var l := Lock(None, MISS_THRESHOLD, 0, Some(a));
            Next(p, l, Some(a), t).updates == 1 && Next(p, l, Some(a), t).lock.shown == l.shown
  {
  }

  /**
   * In the MissCounterWithClear variant the timer can clear the display
   * while the lock is still held; the same result found afterwards is not
   * re-adopted, so it stays off the display and no update is emitted.
   */
  lemma ClearedDisplayStaysEmptyWhileLocked(a: Result, found: int, later: int)
    requires found > 0 && later - found > DROP_WINDOW
    ensures var l0 := Lock(Some(a), 0, found, Some(a));
            var s1 := Next(MissCounterWithClear, l0, None, later);
            var s2 := Next(MissCounterWithClear, s1.lock, Some(a), later);
            s1.updates == 1 && s1.lock.held == Some(a) && s1.lock.shown.None?
            && s2.updates == 0 && s2.lock.shown.None? && s2.lock.held == Some(a)
  {
    EqualsIsReflexive(a);
  }

  /**
   * Out of sync the update count and the display part ways. After onResume
   * has emptied the display of a Timeout screen that still holds `a`, the
   * timer clear emits an update that changes nothing shown; after
   * onApiSearchStart has dropped a NoHysteresis lock, finding the shown
   * result again emits an update that changes nothing shown either.
   */
  lemma ResumeLeavesSync(a: Result, found: int, later: int)
    requires found > 0 && later - found > DROP_WINDOW
    ensures !InSync(Lock(Some(a), 0, found, None))
    ensures var s := Next(Timeout, Lock(Some(a), 0, found, None), None, later);
            s.updates == 1 && s.lock.shown.None?
    ensures !InSync(Lock(None, 0, 0, Some(a)))
    ensures var s := Next(NoHysteresis, Lock(None, 0, 0, Some(a)), Some(a), 0);
            s.updates == 1 && s.lock.shown == Some(a)
  {
  }
}
