/** The login throttle of authentication.py: each attempt is charged to one or two buckets, and a bucket
    with five failures lets one more be tried per elapsed minute until its window ends. */
module LoginThrottle {
  import opened Wrappers

  type Hash = nat

  /** Times in microseconds. */
  type Time = int

  const SECOND: int := 1_000_000
  const MAX_PASSWORD_LENGTH: nat := 256
  const AUTH_FAILURE_LIMIT: nat := 5
  const AUTH_FAILURE_WINDOW: int := 900 * SECOND
  const AUTH_LOCKOUT_DURATION: int := 60 * SECOND

  datatype Bucket = Bucket(windowStart: Time, failedAttempts: nat, blockedUntil: Option<Time>)

  /** One form submission: its buckets, and whether the SOEID is well formed, how long the password is
      and whether the backend accepts the two. */
  datatype Attempt = Attempt(now: Time, hashes: set<Hash>, canonical: bool, passwordLength: nat, accepted: bool)

  datatype Outcome = Refused | Failed | LoggedIn

  type Buckets = map<Hash, Bucket>

  // What an attempt does

  /** A locked bucket: created, restarted when its window has passed, or unblocked when its lockout has. */
  function Refreshed(b: Option<Bucket>, now: Time): Bucket {
    if b.None? || now - b.value.windowStart >= AUTH_FAILURE_WINDOW then Bucket(now, 0, None)
    else if b.value.blockedUntil.Some? && b.value.blockedUntil.value <= now then b.value.(blockedUntil := None)
    else b.value
  }

  function Lookup(w: Buckets, h: Hash): Option<Bucket> {
    if h in w then Some(w[h]) else None
  }

  function Locked(w: Buckets, hashes: set<Hash>, now: Time): Buckets {
    map h | h in w.Keys + hashes :: if h in hashes then Refreshed(Lookup(w, h), now) else w[h]
  }

  predicate IsBlocked(b: Bucket, now: Time) {
    b.blockedUntil.Some? && b.blockedUntil.value > now
  }

  predicate AnyBlocked(w: Buckets, hashes: set<Hash>, now: Time) {
    exists h :: h in hashes && h in w && IsBlocked(w[h], now)
  }

  function Charged(b: Bucket, now: Time): Bucket {
    var failed := if b.failedAttempts + 1 < AUTH_FAILURE_LIMIT then b.failedAttempts + 1 else AUTH_FAILURE_LIMIT;
    Bucket(b.windowStart, failed, if failed >= AUTH_FAILURE_LIMIT then Some(now + AUTH_LOCKOUT_DURATION) else b.blockedUntil)
  }

  function AllCharged(w: Buckets, hashes: set<Hash>, now: Time): Buckets {
    map h | h in w :: if h in hashes then Charged(w[h], now) else w[h]
  }

  predicate Accepted(a: Attempt) {
    a.canonical && a.passwordLength <= MAX_PASSWORD_LENGTH && a.accepted
  }

  function OutcomeOf(w: Buckets, a: Attempt): Outcome {
    if AnyBlocked(Locked(w, a.hashes, a.now), a.hashes, a.now) then Refused else if Accepted(a) then LoggedIn else Failed
  }

  function Next(w: Buckets, a: Attempt): Buckets {
    var locked := Locked(w, a.hashes, a.now);
    match OutcomeOf(w, a)
    case Refused => locked
    case LoggedIn => locked - a.hashes
    case Failed => AllCharged(locked, a.hashes, a.now)
  }

  /** The bucket is in a window that has not passed, and in a lockout that has not. */
  predicate StillBlocked(w: Buckets, h: Hash, now: Time) {
    h in w && now < w[h].windowStart + 900 * SECOND && w[h].blockedUntil.Some? && now < w[h].blockedUntil.value
  }

  // The service

  class Throttle {
    var buckets: Buckets

    constructor ()
      ensures buckets == map[]
    {
      buckets := map[];
    }

    /** `_lock_throttle_buckets`. */
    method LockBuckets(hashes: set<Hash>, now: Time)
      modifies this
      ensures buckets == Locked(old(buckets), hashes, now)
    {
      var todo := hashes;
      while todo != {}
        invariant todo <= hashes && buckets == Locked(old(buckets), hashes - todo, now)
        decreases todo
      {
        var h :| h in todo;
        if h !in buckets { buckets := buckets[h := Bucket(now, 0, None)]; }
        var bucket := buckets[h];
        if now - bucket.windowStart >= AUTH_FAILURE_WINDOW {
          buckets := buckets[h := Bucket(now, 0, None)];
        } else if bucket.blockedUntil.Some? && bucket.blockedUntil.value <= now {
          buckets := buckets[h := bucket.(blockedUntil := None)];
        }
        todo := todo - {h};
      }
    }

    /** `_register_failure`. */
    method RegisterFailure(hashes: set<Hash>, now: Time)
      requires hashes <= buckets.Keys
      modifies this
      ensures buckets == AllCharged(old(buckets), hashes, now)
    {
      var todo := hashes;
      while todo != {}
        invariant todo <= hashes && buckets == AllCharged(old(buckets), hashes - todo, now)
        decreases todo
      {
        var h :| h in todo;
        var bucket := buckets[h];
        var failed := if bucket.failedAttempts + 1 < AUTH_FAILURE_LIMIT then bucket.failedAttempts + 1 else AUTH_FAILURE_LIMIT;
        bucket := bucket.(failedAttempts := failed);
        if failed >= AUTH_FAILURE_LIMIT { bucket := bucket.(blockedUntil := Some(now + AUTH_LOCKOUT_DURATION)); }
        buckets := buckets[h := bucket];
        todo := todo - {h};
      }
    }

    method FindBlocked(hashes: set<Hash>, now: Time) returns (found: bool)
      ensures found <==> AnyBlocked(buckets, hashes, now)
    {
      var todo := hashes;
      while todo != {}
        invariant todo <= hashes && forall h :: h in hashes && h !in todo ==> !(h in buckets && IsBlocked(buckets[h], now))
        decreases todo
      {
        var h :| h in todo;
        if h in buckets && IsBlocked(buckets[h], now) { return true; }
        todo := todo - {h};
      }
      return false;
    }

    /** `authenticate_login`.  It succeeds if and only if no bucket of the attempt is still blocked and the backend
        accepts a well-formed attempt of allowed length; a success clears its buckets, and no other bucket is
        ever touched. */
    method AuthenticateLogin(a: Attempt) returns (r: Outcome)
      modifies this
      ensures r == OutcomeOf(old(buckets), a) && buckets == Next(old(buckets), a)
      ensures r == Refused <==> exists h :: h in a.hashes && StillBlocked(old(buckets), h, a.now)
      ensures r == LoggedIn <==>
                && (forall h :: h in a.hashes ==> !StillBlocked(old(buckets), h, a.now))
                && a.canonical && a.passwordLength <= 256 && a.accepted
      ensures r == LoggedIn ==> forall h :: h in a.hashes ==> h !in buckets
      ensures forall h :: h !in a.hashes ==>
                (h in buckets <==> h in old(buckets)) && (h in buckets ==> buckets[h] == old(buckets)[h])
    {
      assert forall h :: h in a.hashes ==>
               (IsBlocked(Locked(buckets, a.hashes, a.now)[h], a.now) <==> StillBlocked(buckets, h, a.now));
      LockBuckets(a.hashes, a.now);
      var blocked := FindBlocked(a.hashes, a.now);
      if blocked { return Refused; }
      var loggedIn := false;
      if a.canonical && a.passwordLength <= MAX_PASSWORD_LENGTH { loggedIn := a.accepted; }
      if !loggedIn {
        RegisterFailure(a.hashes, a.now);
        return Failed;
      }
      buckets := buckets - a.hashes;
      return LoggedIn;
    }
  }

  // Runs

  predicate InOrder(attempts: seq<Attempt>) {
    forall i, j :: 0 <= i < j < |attempts| ==> attempts[i].now <= attempts[j].now
  }

  function Run(w: Buckets, attempts: seq<Attempt>): Buckets {
    if attempts == [] then w else Next(Run(w, attempts[..|attempts| - 1]), attempts[|attempts| - 1])
  }

  /** The failures of the run that were evaluated and charged to bucket `h`. */
  function FailuresOn(w: Buckets, attempts: seq<Attempt>, h: Hash): nat {
    if attempts == [] then 0
    else
      var last := attempts[|attempts| - 1];
      FailuresOn(w, attempts[..|attempts| - 1], h)
      + if h in last.hashes && OutcomeOf(Run(w, attempts[..|attempts| - 1]), last) == Failed then 1 else 0
  }

  ghost predicate NoLoginOn(w: Buckets, attempts: seq<Attempt>, h: Hash) {
    forall i :: 0 <= i < |attempts| && h in attempts[i].hashes ==> OutcomeOf(Run(w, attempts[..i]), attempts[i]) != LoggedIn
  }

  // What a stretch of a run can hold

  /** The most failures within `y` microseconds of the moment a window begins: 19 in every full window, in
      the last one five and one per elapsed lockout. */
  function Fresh(y: nat): nat {
    19 * (y / AUTH_FAILURE_WINDOW) + 5 + (y % AUTH_FAILURE_WINDOW) / AUTH_LOCKOUT_DURATION
  }

  /** The most within `y` microseconds while a window may be running at the start. */
  function Running(y: nat): nat {
    19 * (y / AUTH_FAILURE_WINDOW)
    + if y % AUTH_FAILURE_WINDOW == 0 then 5 else 10 + (y % AUTH_FAILURE_WINDOW - 1) / AUTH_LOCKOUT_DURATION
  }

  /** Splits a duration into windows and a rest. */
  lemma Windows(q: nat, e: nat)
    requires e < AUTH_FAILURE_WINDOW
    ensures (q * AUTH_FAILURE_WINDOW + e) / AUTH_FAILURE_WINDOW == q && (q * AUTH_FAILURE_WINDOW + e) % AUTH_FAILURE_WINDOW == e
  {
  }

  lemma Lockouts(a: nat, b: nat)
    ensures a / AUTH_LOCKOUT_DURATION + b / AUTH_LOCKOUT_DURATION <= (a + b) / AUTH_LOCKOUT_DURATION
    ensures a <= b ==> a / AUTH_LOCKOUT_DURATION <= b / AUTH_LOCKOUT_DURATION
    ensures a < AUTH_FAILURE_WINDOW ==> a / AUTH_LOCKOUT_DURATION <= 14
    ensures (a + AUTH_FAILURE_WINDOW) / AUTH_LOCKOUT_DURATION == a / AUTH_LOCKOUT_DURATION + 15
  {
  }

  lemma FreshGrows(x: nat, y: nat)
    requires x <= y
    ensures Fresh(x) <= Fresh(y)
  {
    var q, e := x / AUTH_FAILURE_WINDOW, x % AUTH_FAILURE_WINDOW;
    var p, d := y / AUTH_FAILURE_WINDOW, y % AUTH_FAILURE_WINDOW;
    Lockouts(e, d);
    Lockouts(d, e);
    assert q <= p;
  }

  lemma FreshShifts(x: nat)
    ensures Fresh(x + AUTH_FAILURE_WINDOW) == Fresh(x) + 19
  {
    Windows(x / AUTH_FAILURE_WINDOW + 1, x % AUTH_FAILURE_WINDOW);
  }

  /** A last window that begins `x` after the first. */
  lemma FreshTotal(x: nat, y: nat)
    requires y < AUTH_FAILURE_WINDOW
    ensures 19 * (x / AUTH_FAILURE_WINDOW) + 5 + y / AUTH_LOCKOUT_DURATION <= Fresh(x + y)
  {
    var q, e := x / AUTH_FAILURE_WINDOW, x % AUTH_FAILURE_WINDOW;
    Lockouts(y, e + y);
    if e + y < AUTH_FAILURE_WINDOW { Windows(q, e + y); } else { Windows(q + 1, e + y - AUTH_FAILURE_WINDOW); }
  }

  lemma RunningWithin(q: nat, e: nat, y: nat)
    requires e + 1 + y < AUTH_FAILURE_WINDOW
    ensures 19 * q + 10 + e / AUTH_LOCKOUT_DURATION + y / AUTH_LOCKOUT_DURATION <= Running(q * AUTH_FAILURE_WINDOW + e + 1 + y)
  {
    Lockouts(e, y);
    Windows(q, e + 1 + y);
  }

  lemma RunningBeyond(q: nat, e: nat, y: nat)
    requires e < AUTH_FAILURE_WINDOW && y < AUTH_FAILURE_WINDOW <= e + 1 + y
    ensures 19 * q + 10 + e / AUTH_LOCKOUT_DURATION + y / AUTH_LOCKOUT_DURATION <= Running(q * AUTH_FAILURE_WINDOW + e + 1 + y)
  {
    var rest := e + 1 + y - AUTH_FAILURE_WINDOW;
    Lockouts(e, y);
    Windows(q + 1, rest);
    if rest == 0 { Lockouts(e + y, 0); } else { Lockouts(rest - 1, 0); }
  }

  /** A last window that begins `x` after the stretch. */
  lemma RunningTotal(x: nat, y: nat)
    requires x >= 1 && y < AUTH_FAILURE_WINDOW
    ensures Fresh(x - 1) + 5 + y / AUTH_LOCKOUT_DURATION <= Running(x + y)
  {
    var q, e := (x - 1) / AUTH_FAILURE_WINDOW, (x - 1) % AUTH_FAILURE_WINDOW;
    assert q * AUTH_FAILURE_WINDOW + e + 1 + y == x + y;
    if e + 1 + y < AUTH_FAILURE_WINDOW { RunningWithin(q, e, y); } else { RunningBeyond(q, e, y); }
  }

  lemma RunningGrows(x: nat, y: nat)
    requires x <= y
    ensures Running(x) <= Running(y)
  {
    var q, e := x / AUTH_FAILURE_WINDOW, x % AUTH_FAILURE_WINDOW;
    var p, d := y / AUTH_FAILURE_WINDOW, y % AUTH_FAILURE_WINDOW;
    assert q <= p;
    if e > 0 { Lockouts(e - 1, 0); }
    if e > 0 && d > 0 { Lockouts(e - 1, d - 1); }
  }

  lemma FreshIsLess(y: nat)
    ensures Fresh(y) <= Running(y) <= Fresh(y) + 5
    ensures Fresh(y) <= 19 * (y / AUTH_FAILURE_WINDOW + 1) && Running(y) <= 19 * (y / AUTH_FAILURE_WINDOW + 2)
  {
    var d := y % AUTH_FAILURE_WINDOW;
    Lockouts(d, 0);
    if d > 0 {
      Lockouts(d - 1, AUTH_LOCKOUT_DURATION);
      Lockouts(d, d - 1 + AUTH_LOCKOUT_DURATION);
      OneMoreLockout(d - 1, d - 1 + AUTH_LOCKOUT_DURATION);
      AboutALockout(d);
      Lockouts(d - 1, d);
    }
  }

  lemma AboutALockout(d: nat)
    requires d > 0
    ensures d / AUTH_LOCKOUT_DURATION <= (d - 1) / AUTH_LOCKOUT_DURATION + 1
  {
  }

  // The tally of one bucket

  /** The failures in the windows before the present one, those in the present one, and the time of the last
      of these; all since a moment `from`. */
  datatype Tally = Tally(prior: nat, failures: nat, last: Time)

  function Max(a: Time, b: Time): Time {
    if a < b then b else a
  }

  /** Failures in the present window: the first five, then one per full lockout, counted from `base`. */
  ghost predicate CountFits(b: Bucket, t: Tally, base: Time, now: Time) {
    && (b.failedAttempts < AUTH_FAILURE_LIMIT ==> t.failures <= b.failedAttempts)
    && (b.failedAttempts >= AUTH_FAILURE_LIMIT && t.failures > 0 ==>
          && base <= t.last <= now && t.last < b.windowStart + AUTH_FAILURE_WINDOW
          && t.failures <= 5 + (t.last - base) / AUTH_LOCKOUT_DURATION
          && (if b.blockedUntil.Some? then b.blockedUntil == Some(t.last + AUTH_LOCKOUT_DURATION)
              else t.last + AUTH_LOCKOUT_DURATION <= now))
  }

  /** Failures in the windows before: when no window was running at `from`, 19 for each that has passed since;
      otherwise what fits into the time before the present one. */
  ghost predicate PriorFits(b: Bucket, t: Tally, from: Time, idle: bool) {
    if idle then from <= b.windowStart && t.prior <= 19 * ((b.windowStart - from) / AUTH_FAILURE_WINDOW)
    else if b.windowStart <= from then t.prior == 0 && from - b.windowStart < AUTH_FAILURE_WINDOW
    else t.prior <= Fresh(b.windowStart - from - 1)
  }

  ghost predicate TallyFits(b: Bucket, t: Tally, from: Time, idle: bool, now: Time) {
    && b.windowStart <= now && from <= now
    && CountFits(b, t, Max(b.windowStart, from), now) && PriorFits(b, t, from, idle)
  }

  lemma AtMostNineteen(b: Bucket, t: Tally, from: Time, idle: bool, now: Time)
    requires TallyFits(b, t, from, idle, now)
    ensures t.failures <= 19
  {
    if b.failedAttempts >= AUTH_FAILURE_LIMIT && t.failures > 0 { Lockouts(t.last - Max(b.windowStart, from), 0); }
  }

  /** The tally of a bucket after it has been locked. */
  function TallyLocked(b: Bucket, t: Tally, now: Time): Tally {
    if now - b.windowStart >= AUTH_FAILURE_WINDOW then Tally(t.prior + t.failures, 0, now) else t
  }

  /** A window that has passed joins the ones before. */
  lemma WindowPasses(b: Bucket, t: Tally, from: Time, idle: bool, before: Time, now: Time)
    requires TallyFits(b, t, from, idle, before) && before <= now && now - b.windowStart >= AUTH_FAILURE_WINDOW
    ensures PriorFits(Bucket(now, 0, None), Tally(t.prior + t.failures, 0, now), from, idle)
  {
    AtMostNineteen(b, t, from, idle, before);
    if idle {
      OneMoreWindow(b.windowStart - from, now - from);
    } else if b.windowStart <= from {
      FirstWindowPasses(b, t, from, before, now);
    } else {
      FreshShifts(b.windowStart - from - 1);
      FreshGrows(b.windowStart - from - 1 + AUTH_FAILURE_WINDOW, now - from - 1);
    }
  }

  lemma FirstWindowPasses(b: Bucket, t: Tally, from: Time, before: Time, now: Time)
    requires TallyFits(b, t, from, false, before) && before <= now && now - b.windowStart >= AUTH_FAILURE_WINDOW && b.windowStart <= from
    ensures now > from && t.failures <= Fresh(now - from - 1)
  {
    if b.failedAttempts >= AUTH_FAILURE_LIMIT && t.failures > 0 {
      FreshTotal(0, t.last - from);
      FreshGrows(t.last - from, now - from - 1);
    } else {
      FreshTotal(0, 0);
      FreshGrows(0, now - from - 1);
    }
  }

  lemma OneMoreWindow(x: nat, y: nat)
    requires x + AUTH_FAILURE_WINDOW <= y
    ensures x / AUTH_FAILURE_WINDOW + 1 <= y / AUTH_FAILURE_WINDOW
  {
  }

  lemma LockKeepsTally(b: Bucket, t: Tally, from: Time, idle: bool, before: Time, now: Time)
    requires TallyFits(b, t, from, idle, before) && before <= now
    ensures TallyFits(Refreshed(Some(b), now), TallyLocked(b, t, now), from, idle, now)
    ensures now - Refreshed(Some(b), now).windowStart < AUTH_FAILURE_WINDOW
    ensures TallyLocked(b, t, now).prior + TallyLocked(b, t, now).failures == t.prior + t.failures
  {
    if now - b.windowStart >= AUTH_FAILURE_WINDOW { WindowPasses(b, t, from, idle, before, now); }
  }

  lemma ChargeKeepsTally(b: Bucket, t: Tally, from: Time, idle: bool, now: Time)
    requires TallyFits(b, t, from, idle, now) && now - b.windowStart < AUTH_FAILURE_WINDOW && !IsBlocked(b, now)
    ensures TallyFits(Charged(b, now), Tally(t.prior, t.failures + 1, now), from, idle, now)
  {
    var base := Max(b.windowStart, from);
    if b.failedAttempts >= AUTH_FAILURE_LIMIT && t.failures > 0 {
      OneMoreLockout(t.last - base, now - base);
    } else {
      Lockouts(now - base, 0);
    }
  }

  lemma OneMoreLockout(a: int, b: int)
    requires a + AUTH_LOCKOUT_DURATION <= b
    ensures a / AUTH_LOCKOUT_DURATION + 1 <= b / AUTH_LOCKOUT_DURATION
  {
  }

  /** No window of the bucket is running: it does not exist or the next attempt restarts it. */
  predicate Idle(w: Buckets, h: Hash, now: Time) {
    h !in w || now - w[h].windowStart >= AUTH_FAILURE_WINDOW
  }

  /** What is known of a bucket: no window has run since `from`, or the tally since then. */
  ghost predicate Follows(w: Buckets, h: Hash, t: Option<Tally>, from: Time, idle: bool, now: Time) {
    match t
    case None => Idle(w, h, now) && from <= now && idle
    case Some(tally) => h in w && TallyFits(w[h], tally, from, idle, now)
  }

  function Weight(t: Option<Tally>): nat {
    if t.None? then 0 else t.value.prior + t.value.failures
  }

  lemma TallyLater(b: Bucket, t: Tally, from: Time, idle: bool, before: Time, now: Time)
    requires TallyFits(b, t, from, idle, before) && before <= now
    ensures TallyFits(b, t, from, idle, now)
  {
  }

  lemma TallyBegins(from: Time, now: Time)
    requires from <= now
    ensures TallyFits(Bucket(now, 0, None), Tally(0, 0, now), from, true, now)
  {
    assert (now - from) / AUTH_FAILURE_WINDOW >= 0;
  }

  lemma TallyStep(u: Buckets, a: Attempt, h: Hash, t0: Option<Tally>, from: Time, idle: bool, before: Time) returns (t: Option<Tally>)
    requires h in a.hashes ==> OutcomeOf(u, a) != LoggedIn
    requires Follows(u, h, t0, from, idle, before) && before <= a.now
    ensures Follows(Next(u, a), h, t, from, idle, a.now)
    ensures Weight(t0) + (if h in a.hashes && OutcomeOf(u, a) == Failed then 1 else 0) <= Weight(t)
  {
    t := t0;
    if h in a.hashes {
      var b := Refreshed(Lookup(u, h), a.now);
      var tally := Tally(0, 0, a.now);
      if t0.Some? {
        LockKeepsTally(u[h], t0.value, from, idle, before, a.now);
        tally := TallyLocked(u[h], t0.value, a.now);
      } else {
        TallyBegins(from, a.now);
      }
      assert Locked(u, a.hashes, a.now)[h] == b;
      if OutcomeOf(u, a) == Failed {
        ChargeKeepsTally(b, tally, from, idle, a.now);
        tally := Tally(tally.prior, tally.failures + 1, a.now);
      }
      t := Some(tally);
    } else if t0.Some? {
      TallyLater(u[h], t0.value, from, idle, before, a.now);
    }
  }

  /** The tally follows the bucket through every run without a login on it: the failures evaluated are
      within what the tally has gained. */
  lemma {:induction false} TallyOf(w: Buckets, attempts: seq<Attempt>, h: Hash, t0: Option<Tally>, from: Time, idle: bool)
    returns (t: Option<Tally>)
    requires InOrder(attempts) && NoLoginOn(w, attempts, h)
    requires attempts != [] ==> Follows(w, h, t0, from, idle, attempts[0].now)
    ensures attempts != [] ==> Follows(Run(w, attempts), h, t, from, idle, attempts[|attempts| - 1].now)
    ensures attempts == [] ==> t == t0
    ensures Weight(t0) + FailuresOn(w, attempts, h) <= Weight(t)
    decreases |attempts|
  {
    t := t0;
    if attempts != [] {
      var init, last := attempts[..|attempts| - 1], attempts[|attempts| - 1];
      forall i | 0 <= i < |init| && h in init[i].hashes ensures OutcomeOf(Run(w, init[..i]), init[i]) != LoggedIn {
        assert attempts[..i] == init[..i] && attempts[i] == init[i];
      }
      t := TallyOf(w, init, h, t0, from, idle);
      t := TallyStep(Run(w, init), last, h, t, from, idle, if init == [] then last.now else init[|init| - 1].now);
    }
  }

  /** What a tally can weigh. */
  lemma IdleWeight(b: Bucket, t: Tally, from: Time, now: Time)
    requires TallyFits(b, t, from, true, now)
    ensures t.prior + t.failures <= Fresh(now - from)
  {
    var x := b.windowStart - from;
    if b.failedAttempts >= AUTH_FAILURE_LIMIT && t.failures > 0 {
      FreshTotal(x, t.last - b.windowStart);
      FreshGrows(x + (t.last - b.windowStart), now - from);
    } else {
      FreshTotal(x, 0);
      FreshGrows(x, now - from);
    }
  }

  lemma RunningWeight(b: Bucket, t: Tally, from: Time, now: Time)
    requires TallyFits(b, t, from, false, now)
    ensures t.prior + t.failures <= Running(now - from)
  {
    var base := Max(b.windowStart, from);
    var y := if b.failedAttempts >= AUTH_FAILURE_LIMIT && t.failures > 0 then t.last - base else 0;
    Lockouts(y, 0);
    assert t.failures <= 5 + y / AUTH_LOCKOUT_DURATION;
    if b.windowStart <= from {
      FreshTotal(0, y);
      FreshGrows(y, now - from);
      FreshIsLess(now - from);
    } else {
      RunningTotal(b.windowStart - from, y);
      RunningGrows(b.windowStart - from + y, now - from);
    }
  }

  /** While no window of the bucket is running, and whatever other buckets the attempts are charged to: at
      most 19 failures for each window that can have begun, in the last one five and one per lockout. */
  lemma FailuresBounded(w: Buckets, attempts: seq<Attempt>, h: Hash, duration: nat)
    requires InOrder(attempts) && NoLoginOn(w, attempts, h)
    requires attempts != [] ==> Idle(w, h, attempts[0].now) && attempts[|attempts| - 1].now - attempts[0].now <= duration
    ensures FailuresOn(w, attempts, h) <= Fresh(duration) <= 19 * (duration / AUTH_FAILURE_WINDOW + 1)
  {
    FreshIsLess(duration);
    if attempts != [] { IdleBounded(w, attempts, h, duration); }
  }

  lemma IdleBounded(w: Buckets, attempts: seq<Attempt>, h: Hash, duration: nat)
    requires attempts != [] && InOrder(attempts) && NoLoginOn(w, attempts, h) && Idle(w, h, attempts[0].now)
    requires attempts[|attempts| - 1].now - attempts[0].now <= duration
    ensures FailuresOn(w, attempts, h) <= Fresh(duration)
  {
    var first, last := attempts[0].now, attempts[|attempts| - 1].now;
    var t := TallyOf(w, attempts, h, None, first, true);
    FollowedWeight(Run(w, attempts), h, t, first, last, duration);
  }

  lemma FollowedWeight(w: Buckets, h: Hash, t: Option<Tally>, from: Time, now: Time, duration: nat)
    requires Follows(w, h, t, from, true, now) && now - from <= duration
    ensures Weight(t) <= Fresh(duration)
  {
    if t.Some? {
      IdleWeight(w[h], t.value, from, now);
      FreshGrows(now - from, duration);
    } else {
      FreshGrows(0, duration);
    }
  }

  lemma {:induction false} WindowBegan(attempts: seq<Attempt>, h: Hash)
    requires InOrder(attempts) && h in Run(map[], attempts)
    ensures attempts != [] && Run(map[], attempts)[h].windowStart <= attempts[|attempts| - 1].now
    decreases |attempts|
  {
    var init, last := attempts[..|attempts| - 1], attempts[|attempts| - 1];
    var u := Run(map[], init);
    if h in u { WindowBegan(init, h); }
    assert h in Locked(u, last.hashes, last.now);
  }

  /** At any point of any run from an empty table, logins included: over a stretch without a login on the
      bucket the exact bound, with or without a window running at its start. */
  lemma FailuresBoundedAnywhere(before: seq<Attempt>, attempts: seq<Attempt>, h: Hash, duration: nat)
    requires InOrder(before + attempts) && NoLoginOn(Run(map[], before), attempts, h)
    requires attempts != [] ==> attempts[|attempts| - 1].now - attempts[0].now <= duration
    ensures FailuresOn(Run(map[], before), attempts, h) <= Running(duration) <= Fresh(duration) + 5
    ensures Running(duration) <= 19 * (duration / AUTH_FAILURE_WINDOW + 2)
  {
    var w := Run(map[], before);
    OrderSplits(before, attempts);
    FreshIsLess(duration);
    if attempts != [] {
      if Idle(w, h, attempts[0].now) {
        FailuresBounded(w, attempts, h, duration);
      } else {
        WindowBegan(before, h);
        RunningWindowBounded(w, attempts, h, duration);
      }
    }
  }

  lemma OrderSplits(before: seq<Attempt>, attempts: seq<Attempt>)
    requires InOrder(before + attempts)
    ensures InOrder(before) && InOrder(attempts)
    ensures before != [] && attempts != [] ==> before[|before| - 1].now <= attempts[0].now
  {
    var all := before + attempts;
    assert forall i :: 0 <= i < |before| ==> before[i] == all[i];
    assert forall i :: 0 <= i < |attempts| ==> attempts[i] == all[|before| + i];
  }

  lemma RunningWindowBounded(w: Buckets, attempts: seq<Attempt>, h: Hash, duration: nat)
    requires attempts != [] && InOrder(attempts) && NoLoginOn(w, attempts, h) && !Idle(w, h, attempts[0].now)
    requires w[h].windowStart <= attempts[0].now && attempts[|attempts| - 1].now - attempts[0].now <= duration
    ensures FailuresOn(w, attempts, h) <= Running(duration)
  {
    var first, last := attempts[0].now, attempts[|attempts| - 1].now;
    var t := TallyOf(w, attempts, h, Some(Tally(0, 0, first)), first, false);
    if t.Some? {
      RunningWeight(Run(w, attempts)[h], t.value, first, last);
      RunningGrows(last - first, duration);
    }
  }

  // The bound is reached.

  function Guess(now: Time): Attempt {
    Attempt(now, {0}, true, 8, false)
  }

  /** Five failures at once, then one at the end of each lockout. */
  function GuessTime(i: nat): Time {
    if i < 5 then 0 else (i - 4) * AUTH_LOCKOUT_DURATION
  }

  lemma GuessTimesRise(i: nat, j: nat)
    requires i < j
    ensures GuessTime(i) <= GuessTime(j)
  {
  }

  function Guesses(n: nat): seq<Attempt> {
    seq(n, i requires 0 <= i < n => Guess(GuessTime(i)))
  }

  function GuessedBucket(n: nat): Bucket {
    Bucket(0, if n < 5 then n else 5, if n < 5 then None else Some((n - 4) * AUTH_LOCKOUT_DURATION))
  }

  lemma OneMoreGuess(n: nat)
    requires n < 19
    ensures var w: Buckets := if n == 0 then map[] else map[0 := GuessedBucket(n)];
            var a := Guesses(n + 1)[n];
            OutcomeOf(w, a) == Failed && Next(w, a) == map[0 := GuessedBucket(n + 1)]
  {
    var w: Buckets := if n == 0 then map[] else map[0 := GuessedBucket(n)];
    var a := Guesses(n + 1)[n];
    assert a == Guess(if n < 5 then 0 else (n - 4) * AUTH_LOCKOUT_DURATION);
    var b := Refreshed(Lookup(w, 0), a.now);
    assert b == Bucket(0, if n < 5 then n else 5, None);
    assert Locked(w, {0}, a.now) == map[0 := b];
    assert AllCharged(map[0 := b], {0}, a.now) == map[0 := Charged(b, a.now)];
  }

  lemma {:induction false} GuessesAllEvaluated(n: nat)
    requires n <= 19
    ensures FailuresOn(map[], Guesses(n), 0) == n
    ensures Run(map[], Guesses(n)) == if n == 0 then map[] else map[0 := GuessedBucket(n)]
    decreases n
  {
    if n > 0 {
      assert Guesses(n)[..n - 1] == Guesses(n - 1);
      GuessesAllEvaluated(n - 1);
      OneMoreGuess(n - 1);
    }
  }

  ghost predicate WithinOneWindow(attempts: seq<Attempt>) {
    InOrder(attempts) && attempts != [] && attempts[|attempts| - 1].now - attempts[0].now < AUTH_FAILURE_WINDOW
  }

  lemma GuessesWithinOneWindow()
    ensures WithinOneWindow(Guesses(19))
  {
    var all := Guesses(19);
    assert forall i :: 0 <= i < 19 ==> all[i] == Guess(GuessTime(i));
    forall i, j | 0 <= i < j < 19 ensures all[i].now <= all[j].now {
      GuessTimesRise(i, j);
    }
  }

  /** A run of 19 evaluated failures within one window. */
  lemma NineteenReached()
    ensures exists attempts: seq<Attempt> :: WithinOneWindow(attempts) && FailuresOn(map[], attempts, 0) == 19
  {
    var n: nat := 19;
    GuessesAllEvaluated(n);
    GuessesWithinOneWindow();
  }

  // A window that is running at the start of the stretch does add to the bound.

  function GuessOn(now: Time, hashes: set<Hash>): Attempt {
    Attempt(now, hashes, true, 8, false)
  }

  /** Five failures lock bucket 1; then an attempt on both buckets is refused, and leaves bucket 0 with a window
      and no failures. */
  function Preparation(n: nat): seq<Attempt> {
    seq(n, i requires 0 <= i < n => GuessOn(0, if i < 5 then {1} else {0, 1}))
  }

  const LOCKED_OUT: Bucket := Bucket(0, 5, Some(AUTH_LOCKOUT_DURATION))

  function PreparedBuckets(n: nat): Buckets {
    if n == 0 then map[] else if n < 5 then map[1 := Bucket(0, n, None)] else if n == 5 then map[1 := LOCKED_OUT]
    else map[1 := LOCKED_OUT, 0 := Bucket(0, 0, None)]
  }

  lemma OneMorePrepared(n: nat)
    requires n < 6
    ensures Next(PreparedBuckets(n), Preparation(n + 1)[n]) == PreparedBuckets(n + 1)
  {
    var w, a := PreparedBuckets(n), GuessOn(0, if n < 5 then {1} else {0, 1});
    assert Preparation(n + 1)[n] == a;
    var locked := Locked(w, a.hashes, a.now);
    if n < 5 {
      var b := Bucket(0, n, None);
      assert locked == map[1 := b];
      assert AllCharged(locked, {1}, 0) == map[1 := Charged(b, 0)];
    } else {
      assert locked == PreparedBuckets(6);
      assert 1 in a.hashes && IsBlocked(locked[1], 0);
    }
  }

  lemma {:induction false} PreparationRuns(n: nat)
    requires n <= 6
    ensures Run(map[], Preparation(n)) == PreparedBuckets(n)
    decreases n
  {
    if n > 0 {
      assert Preparation(n)[..n - 1] == Preparation(n - 1);
      PreparationRuns(n - 1);
      OneMorePrepared(n - 1);
    }
  }

  /** The time of the i-th attempt: five at the very end of that window, five as the next begins, then one at
      the end of each lockout. */
  function SurgeTime(i: nat): Time {
    if i < 5 then AUTH_FAILURE_WINDOW - 1 else if i < 10 then AUTH_FAILURE_WINDOW
    else AUTH_FAILURE_WINDOW + (i - 9) * AUTH_LOCKOUT_DURATION
  }

  function Surge(n: nat): seq<Attempt> {
    seq(n, i requires 0 <= i < n => Guess(SurgeTime(i)))
  }

  function SurgedBucket(n: nat): Bucket {
    if n < 5 then Bucket(0, n, None)
    else if n == 5 then Bucket(0, 5, Some(AUTH_FAILURE_WINDOW - 1 + AUTH_LOCKOUT_DURATION))
    else Bucket(AUTH_FAILURE_WINDOW, if n < 10 then n - 5 else 5,
                if n < 10 then None else Some(AUTH_FAILURE_WINDOW + (n - 9) * AUTH_LOCKOUT_DURATION))
  }

  function SurgedBuckets(n: nat): Buckets {
    map[1 := LOCKED_OUT, 0 := SurgedBucket(n)]
  }

  lemma OneMoreInSurge(n: nat)
    requires n < 24
    ensures OutcomeOf(SurgedBuckets(n), Guess(SurgeTime(n))) == Failed
    ensures Next(SurgedBuckets(n), Guess(SurgeTime(n))) == SurgedBuckets(n + 1)
  {
    var w, a := SurgedBuckets(n), Guess(SurgeTime(n));
    var b := Refreshed(Lookup(w, 0), a.now);
    assert b.blockedUntil.None? && Charged(b, a.now) == SurgedBucket(n + 1);
    assert Locked(w, {0}, a.now) == map[1 := LOCKED_OUT, 0 := b];
    assert AllCharged(map[1 := LOCKED_OUT, 0 := b], {0}, a.now) == map[1 := LOCKED_OUT, 0 := Charged(b, a.now)];
  }

  lemma {:induction false} SurgeAllEvaluated(n: nat)
    requires n <= 24
    ensures FailuresOn(SurgedBuckets(0), Surge(n), 0) == n
    ensures Run(SurgedBuckets(0), Surge(n)) == SurgedBuckets(n)
    decreases n
  {
    if n > 0 {
      assert Surge(n)[..n - 1] == Surge(n - 1);
      SurgeAllEvaluated(n - 1);
      OneMoreInSurge(n - 1);
    }
  }

  lemma SurgeInOrder()
    ensures InOrder(Preparation(6) + Surge(24))
    ensures Surge(24)[23].now - Surge(24)[0].now == 840 * SECOND + 1
  {
    var all := Preparation(6) + Surge(24);
    assert forall i :: 0 <= i < 6 ==> all[i] == Preparation(6)[i] == GuessOn(0, if i < 5 then {1} else {0, 1});
    assert forall i :: 6 <= i < 30 ==> all[i] == Guess(SurgeTime(i - 6));
    forall i, j | 0 <= i < j < |all| ensures all[i].now <= all[j].now {
      if i >= 6 { SurgeTimesRise(i - 6, j - 6); }
    }
  }

  lemma SurgeTimesRise(i: nat, j: nat)
    requires i < j
    ensures SurgeTime(i) <= SurgeTime(j)
  {
  }

  lemma NoneAccepted(w: Buckets, attempts: seq<Attempt>, h: Hash)
    requires forall i :: 0 <= i < |attempts| ==> !Accepted(attempts[i])
    ensures NoLoginOn(w, attempts, h)
  {
  }

  lemma SurgeBound()
    ensures Running(840 * SECOND + 1) == 24 && (840 * SECOND + 1) / AUTH_FAILURE_WINDOW == 0
  {
    Windows(0, 840 * SECOND + 1);
  }

  /** The bound is attained while a window is running: 24 failures within 840 seconds and a microsecond, more than
      the 19 that are possible in that time when none is. */
  lemma RunningWindowAdds()
    ensures var before, attempts, duration: nat := Preparation(6), Surge(24), 840 * SECOND + 1;
            && InOrder(before + attempts) && NoLoginOn(Run(map[], before), attempts, 0)
            && attempts[|attempts| - 1].now - attempts[0].now == duration
            && FailuresOn(Run(map[], before), attempts, 0) == Running(duration) > 19 * (duration / AUTH_FAILURE_WINDOW + 1)
  {
    PreparationRuns(6);
    assert PreparedBuckets(6) == SurgedBuckets(0);
    SurgeAllEvaluated(24);
    SurgeInOrder();
    SurgeBound();
    NoneAccepted(SurgedBuckets(0), Surge(24), 0);
  }

  // A login starts afresh.

  /** What `failures` evaluated failures make of a bucket that was cleared, in its first window: four leave it
      open, five lock it. */
  ghost predicate Counts(b: Bucket, failures: nat) {
    && b.failedAttempts == (if failures < 5 then failures else 5)
    && (failures < 5 ==> b.blockedUntil.None?)
  }

  /** In later windows it counts afresh. */
  ghost predicate CountsAtMost(b: Bucket, failures: nat) {
    b.failedAttempts <= failures && (b.failedAttempts < 5 ==> b.blockedUntil.None?)
  }

  lemma CountStep(u: Buckets, a: Attempt, h: Hash, failures: nat)
    requires h in a.hashes ==> OutcomeOf(u, a) != LoggedIn
    requires h in u ==> CountsAtMost(u[h], failures)
    ensures h in Next(u, a) ==>
              CountsAtMost(Next(u, a)[h], failures + if h in a.hashes && OutcomeOf(u, a) == Failed then 1 else 0)
  {
    if h in a.hashes { assert Locked(u, a.hashes, a.now)[h] == Refreshed(Lookup(u, h), a.now); }
  }

  lemma {:induction false} CountRun(w: Buckets, attempts: seq<Attempt>, h: Hash)
    requires h !in w && NoLoginOn(w, attempts, h)
    ensures h in Run(w, attempts) ==> CountsAtMost(Run(w, attempts)[h], FailuresOn(w, attempts, h))
    decreases |attempts|
  {
    if attempts != [] {
      var init, last := attempts[..|attempts| - 1], attempts[|attempts| - 1];
      NoLoginBefore(w, attempts, h);
      CountRun(w, init, h);
      CountStep(Run(w, init), last, h, FailuresOn(w, init, h));
    }
  }

  lemma NoLoginBefore(w: Buckets, attempts: seq<Attempt>, h: Hash)
    requires attempts != [] && NoLoginOn(w, attempts, h)
    ensures NoLoginOn(w, attempts[..|attempts| - 1], h)
    ensures h in attempts[|attempts| - 1].hashes ==>
              OutcomeOf(Run(w, attempts[..|attempts| - 1]), attempts[|attempts| - 1]) != LoggedIn
  {
    var init := attempts[..|attempts| - 1];
    forall i | 0 <= i < |init| && h in init[i].hashes ensures OutcomeOf(Run(w, init[..i]), init[i]) != LoggedIn {
      assert attempts[..i] == init[..i] && attempts[i] == init[i];
    }
  }

  /** The first window of the bucket: it began in the stretch, and counts every failure of it. */
  ghost predicate FirstWindow(w: Buckets, h: Hash, first: Time, failures: nat) {
    if h in w then first <= w[h].windowStart && Counts(w[h], failures) else failures == 0
  }

  lemma FirstWindowStep(u: Buckets, a: Attempt, h: Hash, first: Time, failures: nat)
    requires h in a.hashes ==> OutcomeOf(u, a) != LoggedIn
    requires FirstWindow(u, h, first, failures) && first <= a.now < first + AUTH_FAILURE_WINDOW
    ensures FirstWindow(Next(u, a), h, first, failures + if h in a.hashes && OutcomeOf(u, a) == Failed then 1 else 0)
  {
    if h in a.hashes { assert Locked(u, a.hashes, a.now)[h] == Refreshed(Lookup(u, h), a.now); }
  }

  lemma {:induction false} FirstWindowRun(w: Buckets, attempts: seq<Attempt>, h: Hash, first: Time)
    requires h !in w && NoLoginOn(w, attempts, h)
    requires forall i :: 0 <= i < |attempts| ==> first <= attempts[i].now < first + AUTH_FAILURE_WINDOW
    ensures FirstWindow(Run(w, attempts), h, first, FailuresOn(w, attempts, h))
    decreases |attempts|
  {
    if attempts != [] {
      var init, last := attempts[..|attempts| - 1], attempts[|attempts| - 1];
      NoLoginBefore(w, attempts, h);
      FirstWindowRun(w, init, h, first);
      FirstWindowStep(Run(w, init), last, h, first, FailuresOn(w, init, h));
    }
  }

  lemma WithinFirst(attempts: seq<Attempt>, last: Attempt)
    requires InOrder(attempts + [last]) && last.now - (attempts + [last])[0].now < AUTH_FAILURE_WINDOW
    ensures var first := (attempts + [last])[0].now;
            && first <= last.now
            && forall i :: 0 <= i < |attempts| ==> first <= attempts[i].now < first + AUTH_FAILURE_WINDOW
  {
    var all := attempts + [last];
    forall i | 0 <= i < |attempts| ensures all[0].now <= attempts[i].now <= last.now {
      assert all[i] == attempts[i] && all[|attempts|] == last;
    }
  }

  /** After a login on a bucket its next four failures, whenever they come, leave it open. */
  lemma FourFailuresAfterLogin(w: Buckets, login: Attempt, attempts: seq<Attempt>, h: Hash)
    requires h in login.hashes && OutcomeOf(w, login) == LoggedIn && NoLoginOn(Next(w, login), attempts, h)
    requires FailuresOn(Next(w, login), attempts, h) <= 4
    ensures forall now :: !StillBlocked(Run(Next(w, login), attempts), h, now)
  {
    CountRun(Next(w, login), attempts, h);
  }

  /** And the fifth, if it comes within the window that began after the login, locks it for a minute. */
  lemma FifthFailureAfterLogin(w: Buckets, login: Attempt, attempts: seq<Attempt>, fifth: Attempt, h: Hash)
    requires h in login.hashes && OutcomeOf(w, login) == LoggedIn && NoLoginOn(Next(w, login), attempts, h)
    requires InOrder(attempts + [fifth]) && fifth.now - (attempts + [fifth])[0].now < AUTH_FAILURE_WINDOW
    requires FailuresOn(Next(w, login), attempts, h) == 4
    requires h in fifth.hashes && OutcomeOf(Run(Next(w, login), attempts), fifth) == Failed
    ensures var v := Next(Run(Next(w, login), attempts), fifth);
            && h in v && v[h].blockedUntil == Some(fifth.now + 60 * SECOND)
            && forall now :: fifth.now <= now < fifth.now + 60 * SECOND && now < v[h].windowStart + AUTH_FAILURE_WINDOW ==> StillBlocked(v, h, now)
  {
    var first := (attempts + [fifth])[0].now;
    WithinFirst(attempts, fifth);
    FirstWindowRun(Next(w, login), attempts, h, first);
    FifthLocks(Run(Next(w, login), attempts), fifth, h, first);
  }

  lemma FifthLocks(u: Buckets, fifth: Attempt, h: Hash, first: Time)
    requires FirstWindow(u, h, first, 4) && h in fifth.hashes && OutcomeOf(u, fifth) == Failed
    requires first <= fifth.now < first + AUTH_FAILURE_WINDOW
    ensures h in Next(u, fifth) && Next(u, fifth)[h].blockedUntil == Some(fifth.now + 60 * SECOND)
  {
    assert Locked(u, fifth.hashes, fifth.now)[h] == Refreshed(Lookup(u, h), fifth.now);
  }
}
