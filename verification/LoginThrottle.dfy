/** The process-wide login throttle (backend/auth.py) and the login route that uses it (backend/main.py). */
module LoginThrottle {

  const FAILURE_LIMIT := 5
  const COOLDOWN := 60

  /** Failures counted so far and the time the block ends; zero means no block was set. */
  datatype State = State(attempts: nat, blockedUntil: real)

  const IDLE := State(0, 0.0)

  function Ceil(x: real): int {
    -((-x).Floor)
  }

  /** Whole seconds left of a block, zero when there is none. */
  function Retry(s: State, now: real): int {
    if s.blockedUntil <= now then 0
    else if Ceil(s.blockedUntil - now) > 1 then Ceil(s.blockedUntil - now) else 1
  }

  /** Looking at the throttle forgets a block that has ended. */
  function AfterCheck(s: State, now: real): State {
    if s.blockedUntil <= now && s.blockedUntil != 0.0 then IDLE else s
  }

  function AfterFailure(s: State, now: real): State {
    if s.blockedUntil > now then s
    else
      var attempts := AfterCheck(s, now).attempts + 1;
      if attempts < FAILURE_LIMIT then State(attempts, 0.0) else State(0, now + COOLDOWN as real)
  }

  /** The throttle's global variables. */
  class Throttle {
    var attempts: nat
    var blockedUntil: real

    function Value(): State
      reads this
    {
      State(attempts, blockedUntil)
    }

    constructor ()
      ensures Value() == IDLE
    {
      attempts, blockedUntil := 0, 0.0;
    }

    method LoginRetryAfter(now: real) returns (seconds: int)
      modifies this
      ensures Value() == AfterCheck(old(Value()), now) && seconds == Retry(old(Value()), now)
    {
      if blockedUntil <= now {
        if blockedUntil != 0.0 {
          attempts, blockedUntil := 0, 0.0;
        }
        return 0;
      }
      var left := Ceil(blockedUntil - now);
      seconds := if left > 1 then left else 1;
    }

    method RecordFailedLogin(now: real) returns (seconds: int)
      modifies this
      ensures Value() == AfterFailure(old(Value()), now)
      ensures seconds == (if old(Value()).blockedUntil > now then Retry(old(Value()), now)
                          else if Value().attempts == 0 then COOLDOWN else 0)
    {
      if blockedUntil > now {
        var left := Ceil(blockedUntil - now);
        seconds := if left > 1 then left else 1;
        return;
      }
      if blockedUntil != 0.0 {
        attempts, blockedUntil := 0, 0.0;
      }
      attempts := attempts + 1;
      if attempts < FAILURE_LIMIT {
        seconds := 0;
      } else {
        attempts, blockedUntil := 0, now + COOLDOWN as real;
        seconds := COOLDOWN;
      }
    }

    method Reset()
      modifies this
      ensures Value() == IDLE
    {
      attempts, blockedUntil := 0, 0.0;
    }

    /** One login request, from the throttle check to the recorded outcome. */
    method Login(a: Attempt) returns (answer: Answer)
      modifies this
      ensures Value() == AfterLogin(old(Value()), a) && answer == AnswerTo(old(Value()), a)
      ensures answer == Welcome <==> a.right && old(blockedUntil) <= a.checkedAt
    {
      var wait := LoginRetryAfter(a.checkedAt);
      if wait != 0 {
        return Throttled(wait);
      }
      if !a.right {
        wait := RecordFailedLogin(a.judgedAt);
        return if wait != 0 then Throttled(wait) else Incorrect;
      }
      Reset();
      answer := Welcome;
    }
  }

  // ----- logins ---------------------------------------------------------------------------

  /** A request reads the clock when it checks the throttle and again when it records a failure. */
  datatype Attempt = Attempt(checkedAt: real, judgedAt: real, right: bool)

  datatype Answer = Throttled(seconds: int) | Incorrect | Welcome

  function AfterLogin(s: State, a: Attempt): State {
    if Retry(s, a.checkedAt) != 0 then AfterCheck(s, a.checkedAt)
    else if a.right then IDLE
    else AfterFailure(AfterCheck(s, a.checkedAt), a.judgedAt)
  }

  function AnswerTo(s: State, a: Attempt): Answer {
    if Retry(s, a.checkedAt) != 0 then Throttled(Retry(s, a.checkedAt))
    else if a.right then Welcome
    else
      var checked := AfterCheck(s, a.checkedAt);
      if checked.blockedUntil > a.judgedAt then Throttled(Retry(checked, a.judgedAt))
      else if AfterFailure(checked, a.judgedAt).attempts == 0 then Throttled(COOLDOWN) else Incorrect
  }

  /** The password is compared only when the throttle lets the request through. */
  predicate Judged(s: State, a: Attempt) {
    Retry(s, a.checkedAt) == 0
  }

  /** A wrong password that was judged, and how many successes had been recorded by then. */
  datatype Failure = Failure(time: real, era: nat)

  datatype Outcome = Outcome(state: State, failures: seq<Failure>, era: nat)

  function Perform(s: State, logins: seq<Attempt>): Outcome {
    if logins == [] then Outcome(s, [], 0)
    else
      var was, a := Perform(s, logins[..|logins| - 1]), logins[|logins| - 1];
      var judged := Judged(was.state, a);
      Outcome(AfterLogin(was.state, a),
              if judged && !a.right then was.failures + [Failure(a.judgedAt, was.era)] else was.failures,
              if judged && a.right then was.era + 1 else was.era)
  }

  /** One request after another on a clock that never runs backwards. */
  predicate Sequential(logins: seq<Attempt>) {
    && (forall i :: 0 <= i < |logins| ==> logins[i].checkedAt <= logins[i].judgedAt)
    && (forall i, j :: 0 <= i < j < |logins| ==> logins[i].judgedAt <= logins[j].checkedAt)
  }

  /** What a client may conclude from the answer: only a right password that was judged gets in, and it clears the
      throttle; a wrong one is told so or told to wait; whoever must wait waits at least a second. */
  lemma AnswerMeans(s: State, a: Attempt)
    ensures AnswerTo(s, a) == Welcome <==> a.right && s.blockedUntil <= a.checkedAt
    ensures AnswerTo(s, a) == Welcome ==> AfterLogin(s, a) == IDLE
    ensures AnswerTo(s, a) == Incorrect ==> !a.right && s.blockedUntil <= a.checkedAt
    ensures AnswerTo(s, a).Throttled? ==> AnswerTo(s, a).seconds >= 1
    ensures s.blockedUntil > a.checkedAt ==>
              && AnswerTo(s, a).Throttled?
              && a.checkedAt + AnswerTo(s, a).seconds as real >= s.blockedUntil && AfterLogin(s, a) == s
  {
  }

  /** Wrong passwords one after the other, none before the clock's zero. */
  predicate AllWrong(logins: seq<Attempt>) {
    && Sequential(logins)
    && forall i :: 0 <= i < |logins| ==> !logins[i].right && logins[i].checkedAt >= 0.0
  }

  /** From the start, four wrong passwords are told so and counted; the fifth starts a block of a minute. */
  lemma {:induction false} FifthFailureBlocks(logins: seq<Attempt>)
    requires AllWrong(logins) && |logins| <= 5
    ensures Perform(IDLE, logins).state ==
            if |logins| < 5 then State(|logins|, 0.0) else State(0, logins[4].judgedAt + 60.0)
    ensures logins != [] ==>
              AnswerTo(Perform(IDLE, logins[..|logins| - 1]).state, logins[|logins| - 1]) ==
              if |logins| < 5 then Incorrect else Throttled(60)
  {
    if logins != [] {
      FifthFailureBlocks(logins[..|logins| - 1]);
    }
  }

  // ----- pacing -----------------------------------------------------------------------------

  /** Failures `n` apart with no success recorded between them are a cooldown apart. */
  ghost predicate Spread(fs: seq<Failure>, n: nat) {
    forall i, j :: 0 <= i && i + n <= j < |fs| && fs[i].era == fs[j].era ==>
      fs[j].time - fs[i].time >= COOLDOWN as real
  }

  /** A block never ends before the clock's zero, so on a negative clock no password is judged at all. */
  predicate Valid(s: State) {
    s.attempts < FAILURE_LIMIT && s.blockedUntil >= 0.0 && (s.blockedUntil != 0.0 ==> s.attempts == 0)
  }

  /** What the throttle remembers of the failures. Those from `start` on were judged since the last block or
      success and are counted or among the `open` requests not yet recorded; earlier ones of this era lie a
      cooldown before `gate`, the end of the last block. */
  datatype Track = Track(failures: seq<Failure>, era: nat, now: real, open: nat, start: nat, gate: real)

  ghost predicate Tracked(s: State, t: Track) {
    && Valid(s) && t.start <= |t.failures| && |t.failures| - t.start <= s.attempts + t.open
    && (forall i :: 0 <= i < |t.failures| ==> t.failures[i].time <= t.now && t.failures[i].era <= t.era)
    && (forall i :: 0 <= i < t.start && t.failures[i].era == t.era ==>
          t.failures[i].time + COOLDOWN as real <= t.gate)
    && (s.blockedUntil == t.gate || t.gate <= t.now)
    && (s.blockedUntil > t.now ==> t.start == |t.failures|)
  }

  /** While a request is turned away only time passes. */
  lemma TrackWaits(s: State, t: Track, at: real)
    requires Tracked(s, t) && t.now <= at
    ensures Tracked(s, t.(now := at)) && (Retry(s, at) != 0 ==> AfterCheck(s, at) == s)
  {
  }

  /** A wrong password gets through: it is one more open failure, and far from all it must be far from. */
  lemma TrackJudged(s: State, t: Track, at: real, time: real, n: nat)
    requires Tracked(s, t) && t.now <= at <= time && Retry(s, at) == 0 && Spread(t.failures, n)
    requires FAILURE_LIMIT + t.open <= n
    ensures var u := t.(failures := t.failures + [Failure(time, t.era)], now := time, open := t.open + 1);
            Tracked(AfterCheck(s, at), u) && Spread(u.failures, n)
  {
  }

  lemma TrackRecorded(s: State, t: Track, time: real) returns (u: Track)
    requires Tracked(s, t) && t.open > 0 && t.now <= time
    ensures Tracked(AfterFailure(s, time), u)
    ensures u.failures == t.failures && u.era == t.era && u.now == time && u.open == t.open - 1
  {
    u := t.(now := time, open := t.open - 1);
    if s.blockedUntil <= time && AfterFailure(s, time).attempts == 0 {
      u := u.(start := |t.failures|, gate := time + COOLDOWN as real);
    }
  }

  lemma TrackSucceeded(s: State, t: Track, time: real) returns (u: Track)
    requires Tracked(s, t) && t.now <= time
    ensures Tracked(IDLE, u)
    ensures u.failures == t.failures && u.era == t.era + 1 && u.now == time && u.open == t.open
  {
    u := t.(era := t.era + 1, now := time, start := |t.failures|, gate := 0.0);
  }

  function LastTime(logins: seq<Attempt>, start: real): real {
    if logins == [] then start else logins[|logins| - 1].judgedAt
  }

  lemma {:induction false} PerformTracked(logins: seq<Attempt>, begin: real) returns (t: Track)
    requires Sequential(logins) && (logins != [] ==> begin <= logins[0].checkedAt)
    ensures var out := Perform(IDLE, logins);
            && t.failures == out.failures && t.era == out.era && t.now == LastTime(logins, begin) && t.open == 0
            && Tracked(out.state, t) && Spread(t.failures, FAILURE_LIMIT)
  {
    if logins == [] {
      return Track([], 0, begin, 0, 0, 0.0);
    }
    var front, a := logins[..|logins| - 1], logins[|logins| - 1];
    t := PerformTracked(front, begin);
    var s := Perform(IDLE, front).state;
    if !Judged(s, a) {
      TrackWaits(s, t, a.checkedAt);
      TrackWaits(s, t, a.judgedAt);
      t := t.(now := a.judgedAt);
    } else if a.right {
      t := TrackSucceeded(s, t, a.judgedAt);
    } else {
      TrackJudged(s, t, a.checkedAt, a.judgedAt, FAILURE_LIMIT);
      t := t.(failures := t.failures + [Failure(a.judgedAt, t.era)], now := a.judgedAt, open := 1);
      t := TrackRecorded(AfterCheck(s, a.checkedAt), t, a.judgedAt);
    }
  }

  /** On every run of sequential logins, any six successive wrong passwords judged without a success between
      them span a minute. */
  lemma SixFailuresTakeAMinute(logins: seq<Attempt>, i: nat)
    requires Sequential(logins) && i + FAILURE_LIMIT < |Perform(IDLE, logins).failures|
    requires var fs := Perform(IDLE, logins).failures; fs[i].era == fs[i + FAILURE_LIMIT].era
    ensures var fs := Perform(IDLE, logins).failures; fs[i + FAILURE_LIMIT].time - fs[i].time >= COOLDOWN as real
  {
    var t := PerformTracked(logins, if logins == [] then 0.0 else logins[0].checkedAt);
  }

  // ----- requests that overlap ----------------------------------------------------------------

  /** A request as two steps: it checks the throttle and, if let through, has its password judged at once;
      later it records the failure, or resets the throttle. */
  datatype Event = Enter(time: real, right: bool) | RecordWrong(time: real) | RecordRight(time: real)

  /** The throttle, the requests between check and record, and the wrong passwords judged so far. */
  datatype System = System(state: State, wrong: nat, right: nat, now: real, failures: seq<Failure>, era: nat)

  /** At most `k` requests are between check and record at once, on a clock that never runs backwards. */
  predicate Possible(s: System, e: Event, k: nat) {
    && s.now <= e.time
    && match e
       case Enter(time, _) => Retry(s.state, time) == 0 ==> s.wrong + s.right < k
       case RecordWrong(_) => s.wrong > 0
       case RecordRight(_) => s.right > 0
  }

  function Next(s: System, e: Event): System
    requires e.RecordWrong? ==> s.wrong > 0
    requires e.RecordRight? ==> s.right > 0
  {
    match e
    case Enter(time, right) =>
      var checked := s.(state := AfterCheck(s.state, time), now := time);
      if Retry(s.state, time) != 0 then checked
      else if right then checked.(right := s.right + 1)
      else checked.(wrong := s.wrong + 1, failures := s.failures + [Failure(time, s.era)])
    case RecordWrong(time) => s.(state := AfterFailure(s.state, time), wrong := s.wrong - 1, now := time)
    case RecordRight(time) => s.(state := IDLE, right := s.right - 1, now := time, era := s.era + 1)
  }

  function Start(now: real): System {
    System(IDLE, 0, 0, now, [], 0)
  }

  ghost predicate Reaches(s: System, es: seq<Event>, u: System, k: nat)
    decreases |es|
  {
    if es == [] then s == u else Possible(s, es[0], k) && Reaches(Next(s, es[0]), es[1..], u, k)
  }

  ghost predicate Follows(s: System, t: Track, k: nat) {
    && t.failures == s.failures && t.era == s.era && t.now == s.now && t.open == s.wrong
    && Tracked(s.state, t) && s.wrong + s.right <= k && Spread(s.failures, FAILURE_LIMIT - 1 + k)
  }

  lemma NextFollows(s: System, e: Event, k: nat, t: Track) returns (u: Track)
    requires Follows(s, t, k) && Possible(s, e, k)
    ensures Follows(Next(s, e), u, k)
  {
    match e
    case RecordWrong(time) => u := TrackRecorded(s.state, t, time);
    case RecordRight(time) => u := TrackSucceeded(s.state, t, time);
    case Enter(time, right) =>
      if Retry(s.state, time) != 0 {
        TrackWaits(s.state, t, time);
        u := t.(now := time);
      } else if right {
        u := t.(now := time);
      } else {
        TrackJudged(s.state, t, time, time, FAILURE_LIMIT - 1 + k);
        u := t.(failures := t.failures + [Failure(time, t.era)], now := time, open := t.open + 1);
      }
  }

  lemma {:induction false} RunFollows(s: System, es: seq<Event>, u: System, k: nat, t: Track) returns (v: Track)
    requires Follows(s, t, k) && Reaches(s, es, u, k)
    ensures Follows(u, v, k)
    decreases |es|
  {
    v := t;
    if es != [] {
      var mid := NextFollows(s, es[0], k, t);
      v := RunFollows(Next(s, es[0]), es[1..], u, k, mid);
    }
  }

  /** With at most `k` requests between check and record at once, any `5 + k` successive wrong passwords judged
      without a success recorded between them span a minute. */
  lemma OverlapIsPaced(begin: real, es: seq<Event>, s: System, k: nat, i: nat)
    requires Reaches(Start(begin), es, s, k) && i + FAILURE_LIMIT - 1 + k < |s.failures|
    requires s.failures[i].era == s.failures[i + FAILURE_LIMIT - 1 + k].era
    ensures s.failures[i + FAILURE_LIMIT - 1 + k].time - s.failures[i].time >= COOLDOWN as real
  {
    var t := RunFollows(Start(begin), es, s, k, Track([], 0, begin, 0, 0, 0.0));
  }

  lemma {:induction false} ReachFurther(s: System, es: seq<Event>, t: System, e: Event, k: nat)
    requires Reaches(s, es, t, k) && Possible(t, e, k)
    ensures Reaches(s, es + [e], Next(t, e), k)
    decreases |es|
  {
    if es == [] {
      assert ([] + [e])[1..] == [];
    } else {
      ReachFurther(Next(s, es[0]), es[1..], t, e, k);
      assert (es + [e])[1..] == es[1..] + [e];
    }
  }

  /** `n` wrong passwords judged and `counted` of them recorded, all at one instant. */
  ghost predicate Burst(s: System, now: real, n: nat, counted: nat) {
    && s.state == State(counted, 0.0) && s.right == 0 && s.now == now && s.era == 0 && s.wrong == n - counted
    && |s.failures| == n && forall i :: 0 <= i < n ==> s.failures[i] == Failure(now, 0)
  }

  lemma {:induction false} RecordedBurst(now: real, k: nat, n: nat) returns (es: seq<Event>, s: System)
    requires now >= 0.0 && k > 0 && n < FAILURE_LIMIT
    ensures Reaches(Start(now), es, s, k) && Burst(s, now, n, n)
  {
    es, s := [], Start(now);
    if n > 0 {
      es, s := RecordedBurst(now, k, n - 1);
      ReachFurther(Start(now), es, s, Enter(now, false), k);
      es, s := es + [Enter(now, false)], Next(s, Enter(now, false));
      ReachFurther(Start(now), es, s, RecordWrong(now), k);
      es, s := es + [RecordWrong(now)], Next(s, RecordWrong(now));
    }
  }

  lemma {:induction false} OpenBurst(now: real, k: nat, m: nat) returns (es: seq<Event>, s: System)
    requires now >= 0.0 && k > 0 && m <= k
    ensures Reaches(Start(now), es, s, k) && Burst(s, now, FAILURE_LIMIT - 1 + m, FAILURE_LIMIT - 1)
  {
    if m == 0 {
      es, s := RecordedBurst(now, k, FAILURE_LIMIT - 1);
    } else {
      es, s := OpenBurst(now, k, m - 1);
      ReachFurther(Start(now), es, s, Enter(now, false), k);
      es, s := es + [Enter(now, false)], Next(s, Enter(now, false));
    }
  }

  /** The bound is exact: for every `k`, `4 + k` wrong passwords may be judged at one instant. Two overlapping
      requests already admit six, which sequential ones do not. */
  lemma OverlapBoundIsTight(now: real, k: nat) returns (es: seq<Event>, s: System)
    requires now >= 0.0 && k > 0
    ensures Reaches(Start(now), es, s, k) && |s.failures| == FAILURE_LIMIT - 1 + k
    ensures forall i :: 0 <= i < |s.failures| ==> s.failures[i] == Failure(now, 0)
  {
    es, s := OpenBurst(now, k, k);
  }

  // ----- waiting ----------------------------------------------------------------------------------

  /** The returned seconds are exactly enough: waiting them ends the block, one second less does not. */
  lemma WaitingEndsTheBlock(s: State, now: real, later: real)
    requires Retry(s, now) > 0
    ensures later >= now + Retry(s, now) as real ==> Retry(s, later) == 0
    ensures later <= now + (Retry(s, now) - 1) as real ==> Retry(s, later) > 0
  {
  }

  /** A fresh block announces exactly the cooldown. */
  lemma BlockLastsTheCooldown(s: State, now: real)
    requires s.blockedUntil <= now && AfterFailure(s, now).attempts == 0
    ensures Retry(AfterFailure(s, now), now) == COOLDOWN
  {
  }
}
