/**
 The invitation resend limiter: a pure decision on one stored row, the attempts it has granted,
 and what that means for any stretch of time. Times are milliseconds.
 */
module ResendLimiter {
  import opened Common

  const MINUTE := 60_000
  const HOUR := 60 * MINUTE
  const DAY := 24 * HOUR
  const FIRST_RESEND_DELAY := 5 * MINUTE
  const RESEND_COOLDOWN := 10 * MINUTE
  const RESEND_WINDOW := DAY
  const MAX_RESENDS_PER_WINDOW := 3

  datatype State = Created | Sent | Claimed | Revoked

  /** One row of participant_invitations. validHours is history: the lifetime asked for at creation. */
  datatype Row = Row(state: State, token: Hash, claimedWallet: Address, createdAt: nat, expiresAt: nat, validHours: nat,
                     sentAt: Option<nat>, lastResendAt: Option<nat>, windowStartedAt: Option<nat>, resendCount: nat)

  datatype Availability = Availability(available: bool, availableAt: Option<nat>, attemptsRemaining: nat,
                                       windowStartedAt: Option<nat>, resendCount: Option<nat>)

  function OrElse(o: Option<nat>, otherwise: nat): nat { if o.Some? then o.value else otherwise }

  function ResendAvailability(row: Option<Row>, now: nat): Availability {
    if row.None? || row.value.state != Sent || row.value.expiresAt <= now then Availability(false, None, 0, None, None)
    else
      var r := row.value;
      var windowExpired := r.windowStartedAt.None? || r.windowStartedAt.value + RESEND_WINDOW <= now;
      var windowStart := if windowExpired then now else r.windowStartedAt.value;
      var resendCount := if windowExpired then 0 else r.resendCount;
      if resendCount >= MAX_RESENDS_PER_WINDOW then
        Availability(false, Some(windowStart + RESEND_WINDOW), 0, None, None)
      else
        var lastSend := LastMail(r);
        var delay := if r.lastResendAt.Some? then RESEND_COOLDOWN else FIRST_RESEND_DELAY;
        Availability(now >= lastSend + delay, Some(lastSend + delay), MAX_RESENDS_PER_WINDOW - resendCount,
                     Some(windowStart), Some(resendCount))
  }

  /** The row after a granted attempt: token rotated, window and count stored. */
  function Resent(r: Row, a: Availability, token: Hash, attemptedAt: nat): Row
    requires a.windowStartedAt.Some? && a.resendCount.Some?
  {
    r.(token := token, sentAt := Some(attemptedAt), lastResendAt := Some(attemptedAt),
       windowStartedAt := a.windowStartedAt, resendCount := a.resendCount.value + 1)
  }

  // What the granted attempts look like

  /** An attempt: its decision time, the window it counted against, its number there, and the mail it waited for. */
  datatype Attempt = Attempt(at: nat, window: nat, number: nat, mailed: nat)

  predicate First(a: Attempt) { a.window == a.at && a.number == 1 }

  predicate Follows(a: Attempt, b: Attempt) {
    && a.at <= b.mailed && b.mailed + RESEND_COOLDOWN <= b.at
    && ((b.window == a.window && b.number == a.number + 1 && b.at < a.window + RESEND_WINDOW)
        || (First(b) && a.window + RESEND_WINDOW <= b.at))
  }

  predicate LogOk(log: seq<Attempt>) {
    && (log != [] ==> First(log[0]) && log[0].mailed + FIRST_RESEND_DELAY <= log[0].at)
    && (forall i :: 0 <= i < |log| ==> 1 <= log[i].number <= MAX_RESENDS_PER_WINDOW && log[i].window <= log[i].at
                                        && (log[i].number == 1 ==> First(log[i])))
    && forall i :: 0 <= i < |log| - 1 ==> Follows(log[i], log[i + 1])
  }

  /** The row remembers the last attempt, and every attempt falls into the invitation's lifetime. */
  predicate RowOk(r: Row, log: seq<Attempt>) {
    && LogOk(log)
    && (r.state == Sent ==> r.sentAt.Some?) && (r.sentAt.Some? ==> r.createdAt <= r.sentAt.value)
    && (log != [] ==> r.createdAt <= log[0].mailed)
    && (log == [] ==> r.lastResendAt.None? && r.windowStartedAt.None? && r.resendCount == 0)
    && (log != [] ==>
          var last := log[|log| - 1];
          && r.lastResendAt.Some? && last.at <= r.lastResendAt.value
          && r.windowStartedAt == Some(last.window) && r.resendCount == last.number)
    && forall i :: 0 <= i < |log| ==> log[i].at < r.expiresAt <= log[i].at + r.validHours * HOUR
  }

  /** When the last mail went out. */
  function LastMail(r: Row): nat { OrElse(r.lastResendAt, OrElse(r.sentAt, r.createdAt)) }

  function AttemptOf(r: Row, a: Availability, decidedAt: nat): Attempt
    requires a.windowStartedAt.Some? && a.resendCount.Some?
  {
    Attempt(decidedAt, a.windowStartedAt.value, a.resendCount.value + 1, LastMail(r))
  }

  /** A granted attempt extends the history by its rules. */
  lemma GrantKeeps(r: Row, log: seq<Attempt>, token: Hash, decidedAt: nat, attemptedAt: nat)
    requires RowOk(r, log) && r.createdAt <= decidedAt <= attemptedAt && r.expiresAt <= decidedAt + r.validHours * HOUR
    requires ResendAvailability(Some(r), decidedAt).available
    ensures var a := ResendAvailability(Some(r), decidedAt);
            RowOk(Resent(r, a, token, attemptedAt), log + [AttemptOf(r, a, decidedAt)])
  {
  }

  // What the reported times mean

  predicate Available(r: Row, now: nat) { ResendAvailability(Some(r), now).available }

  /** In terms of the history: when the next attempt is granted. */
  lemma WhenAvailable(r: Row, log: seq<Attempt>, now: nat)
    requires RowOk(r, log)
    ensures Available(r, now) <==>
            && r.state == Sent && now < r.expiresAt
            && if log == [] then now >= OrElse(r.sentAt, r.createdAt) + 300_000
               else
                 var last := log[|log| - 1];
                 now >= r.lastResendAt.value + 600_000 && (last.number < 3 || last.window + 86_400_000 <= now)
  {
  }

  /** A live invitation reports three attempts less those of the window that is still running. */
  lemma RemainingAttemptsAreReported(r: Row, log: seq<Attempt>, now: nat)
    requires RowOk(r, log) && r.state == Sent && now < r.expiresAt
    ensures ResendAvailability(Some(r), now).attemptsRemaining
            == if log != [] && now < log[|log| - 1].window + 86_400_000 then 3 - log[|log| - 1].number else 3
  {
  }

  /** A granted attempt rotates the token, notes its time, and counts in the running window or opens a new one. */
  lemma GrantIsStored(r: Row, token: Hash, decidedAt: nat, attemptedAt: nat)
    requires ResendAvailability(Some(r), decidedAt).available
    ensures var (a, running) := (ResendAvailability(Some(r), decidedAt),
                                 r.windowStartedAt.Some? && decidedAt < r.windowStartedAt.value + 86_400_000);
            Resent(r, a, token, attemptedAt)
            == r.(token := token, sentAt := Some(attemptedAt), lastResendAt := Some(attemptedAt),
                  windowStartedAt := if running then r.windowStartedAt else Some(decidedAt),
                  resendCount := if running then r.resendCount + 1 else 1)
  {
  }

  predicate Exhausted(r: Row, now: nat) {
    r.windowStartedAt.Some? && now < r.windowStartedAt.value + RESEND_WINDOW && r.resendCount >= MAX_RESENDS_PER_WINDOW
  }

  /**
   availableAt is never too late. It is too early exactly if the window is used up and its last
   attempt was made less than a cooldown before the window's end.
   */
  lemma ReportedTimeIsEarliest(r: Row, log: seq<Attempt>, now: nat)
    requires RowOk(r, log) && r.state == Sent && now < r.expiresAt && !Available(r, now)
    ensures var t := ResendAvailability(Some(r), now).availableAt;
            && t.Some? && now < t.value
            && (forall u: nat :: now <= u < t.value ==> !Available(r, u))
            && (t.value < r.expiresAt ==>
                  (Available(r, t.value) <==>
                     !(Exhausted(r, now) && r.lastResendAt.value + RESEND_COOLDOWN > t.value)))
  {
  }

  // Bounds

  /** Consecutive attempts are at least ten minutes apart. */
  lemma {:induction false} AttemptsApart(log: seq<Attempt>, i: nat, j: nat)
    requires LogOk(log) && i < j < |log|
    ensures log[i].at + (j - i) * 600_000 <= log[j].at
    decreases j
  {
    assert Follows(log[j - 1], log[j]);
    if i < j - 1 { AttemptsApart(log, i, j - 1); }
  }

  /** The first resend comes at least five minutes after the mail before it, and so no resend comes earlier after creation. */
  lemma FirstResendWaits(r: Row, log: seq<Attempt>, i: nat)
    requires RowOk(r, log) && i < |log|
    ensures log[0].mailed + 300_000 <= log[0].at && r.createdAt + 300_000 <= log[i].at
  {
    if i > 0 { AttemptsApart(log, 0, i); }
  }

  /** The fourth attempt from any attempt on is in a later window. */
  lemma WindowHoldsThree(log: seq<Attempt>, i: nat)
    requires LogOk(log) && i + 3 < |log|
    ensures log[i + 3].window >= log[i].window + RESEND_WINDOW
    ensures First(log[i]) ==> log[i + 3].at >= log[i].at + DAY
  {
    assert Follows(log[i], log[i + 1]) && Follows(log[i + 1], log[i + 2]) && Follows(log[i + 2], log[i + 3]);
  }

  /** The first attempt of a later window, no more than three on and two if i is not itself a first. */
  lemma NextWindow(log: seq<Attempt>, i: nat) returns (j: nat)
    requires LogOk(log) && i + 3 < |log|
    ensures i < j <= i + 3 && (log[i].number > 1 ==> j <= i + 2)
    ensures First(log[j]) && log[i].window + RESEND_WINDOW <= log[j].at
  {
    assert Follows(log[i], log[i + 1]) && Follows(log[i + 1], log[i + 2]) && Follows(log[i + 2], log[i + 3]);
    j := if log[i + 1].window != log[i].window then i + 1 else if log[i + 2].window != log[i].window then i + 2 else i + 3;
  }

  /** The sixth attempt from any attempt on comes a day later: a window's first attempt is its start. */
  lemma SixthIsADayLater(log: seq<Attempt>, i: nat)
    requires LogOk(log) && i + 5 < |log|
    ensures log[i + 5].at >= log[i].at + DAY
  {
    var j := NextWindow(log, i);
    if log[i].number > 1 {
      AttemptsApart(log, i, j);
      j := NextWindow(log, j);
    }
    if j < i + 5 { AttemptsApart(log, j, i + 5); }
  }

  /** The attempts decided at from <= t < to. */
  function Within(log: seq<Attempt>, from: nat, to: nat): set<nat> {
    set i | 0 <= i < |log| && from <= log[i].at < to
  }

  lemma {:induction false} IndicesBetween(indices: set<nat>, low: nat, width: nat)
    requires forall i :: i in indices ==> low <= i < low + width
    ensures |indices| <= width
    decreases width
  {
    if width > 0 {
      IndicesBetween(indices - {low + width - 1}, low, width - 1);
    } else {
      assert indices == {};
    }
  }

  lemma {:induction false} Earliest(indices: set<nat>) returns (low: nat)
    requires indices != {}
    ensures low in indices && forall i :: i in indices ==> low <= i
    decreases |indices|
  {
    var some :| some in indices;
    if indices == {some} { return some; }
    low := Earliest(indices - {some});
    assert forall i :: i in indices ==> i == some || i in indices - {some};
    if some < low { low := some; }
  }

  /** Any half-open stretch of 24 hours, wherever it starts, holds at most five attempts. */
  lemma FiveADay(log: seq<Attempt>, from: nat)
    requires LogOk(log)
    ensures |Within(log, from, from + 86_400_000)| <= 5
  {
    var indices := Within(log, from, from + DAY);
    if indices != {} {
      var low := Earliest(indices);
      forall i | i in indices ensures i < low + 5 {
        if i >= low + 5 {
          SixthIsADayLater(log, low);
          if i > low + 5 { AttemptsApart(log, low + 5, i); }
        }
      }
      IndicesBetween(indices, low, 5);
    }
  }

  /** A stretch that starts with a window's first attempt holds at most three. */
  lemma ThreeFromAWindowStart(log: seq<Attempt>, i: nat)
    requires LogOk(log) && i < |log| && First(log[i])
    ensures |Within(log, log[i].at, log[i].at + 86_400_000)| <= 3
  {
    var indices := Within(log, log[i].at, log[i].at + DAY);
    forall j | j in indices ensures i <= j < i + 3 {
      if j < i { AttemptsApart(log, j, i); }
      if j >= i + 3 {
        WindowHoldsThree(log, i);
        if j > i + 3 { AttemptsApart(log, i + 3, j); }
      }
    }
    IndicesBetween(indices, i, 3);
  }

  lemma {:induction false} WindowsAdvance(log: seq<Attempt>, k: nat)
    requires LogOk(log) && 3 * k < |log|
    ensures log[3 * k].window >= log[0].window + k * RESEND_WINDOW
    decreases k
  {
    if k > 0 {
      WindowsAdvance(log, k - 1);
      WindowHoldsThree(log, 3 * (k - 1));
    }
  }

  /** An invitation valid for H hours gets at most 3 * ceil(H / 24) attempts. */
  lemma LifetimeLimit(r: Row, log: seq<Attempt>)
    requires RowOk(r, log)
    ensures |log| <= 3 * ((r.validHours + 23) / 24)
  {
    if log != [] {
      var k := (|log| - 1) / 3;
      WindowsAdvance(log, k);
      assert log[3 * k].at < r.expiresAt <= log[0].at + r.validHours * HOUR;
      assert k * DAY < r.validHours * HOUR;
    }
  }

  // Three in any 24 hours

  /** The attempts of the 24 hours that start with `from`. */
  function DayFrom(log: seq<Attempt>, from: nat): set<nat> { Within(log, from, from + DAY) }

  /** The stronger reading of the limit: no 24 hours anywhere hold more than three attempts. */
  ghost predicate ThreeInAnyDay(log: seq<Attempt>) {
    forall from: nat :: |DayFrom(log, from)| <= 3
  }

  lemma FourWithin(log: seq<Attempt>, i: nat)
    requires LogOk(log) && i + 3 < |log| && log[i + 3].at < log[i].at + DAY
    ensures |DayFrom(log, log[i].at)| >= 4
  {
    AttemptsApart(log, i, i + 1);
    AttemptsApart(log, i + 1, i + 2);
    AttemptsApart(log, i + 2, i + 3);
    var all := Within(log, log[i].at, log[i].at + DAY);
    assert {i, i + 1, i + 2, i + 3} <= all;
    SubsetSize({i, i + 1, i + 2, i + 3}, all);
  }

  lemma {:induction false} SubsetSize<T>(small: set<T>, large: set<T>)
    requires small <= large
    ensures |small| <= |large|
    decreases small
  {
    if small != {} {
      var x :| x in small;
      SubsetSize(small - {x}, large - {x});
    }
  }

  /**
   The limiter does not promise three in any 24 hours (FiveADayIsReached). An attempt keeps that
   stronger limit exactly if the third-last attempt before it is a day old, which no guard asks.
   */
  lemma WhenThreeInAnyDayIsKept(log: seq<Attempt>, next: Attempt)
    requires LogOk(log + [next]) && LogOk(log) && ThreeInAnyDay(log)
    ensures ThreeInAnyDay(log + [next]) <==> |log| < 3 || log[|log| - 3].at + DAY <= next.at
  {
    var log', n := log + [next], |log|;
    if n >= 3 && next.at < log[n - 3].at + DAY {
      assert log'[n - 3] == log[n - 3];
      FourWithin(log', n - 3);
    } else {
      forall from: nat ensures |DayFrom(log', from)| <= 3 {
        ThreeStays(log, next, from);
      }
    }
  }

  lemma FourthIsADayLater(log: seq<Attempt>, i: nat)
    requires LogOk(log) && ThreeInAnyDay(log) && i + 3 < |log|
    ensures log[i].at + DAY <= log[i + 3].at
  {
    if log[i + 3].at < log[i].at + DAY { FourWithin(log, i); }
  }

  lemma ThreeStays(log: seq<Attempt>, next: Attempt, from: nat)
    requires LogOk(log + [next]) && LogOk(log) && ThreeInAnyDay(log)
    requires |log| < 3 || log[|log| - 3].at + DAY <= next.at
    ensures |DayFrom(log + [next], from)| <= 3
  {
    var log' := log + [next];
    var indices := Within(log', from, from + DAY);
    if indices != {} {
      var low := Earliest(indices);
      forall i | i in indices ensures i < low + 3 {
        if i >= low + 3 {
          if i > low + 3 { AttemptsApart(log', low + 3, i); }
          if low + 3 < |log| { FourthIsADayLater(log, low); }
        }
      }
      IndicesBetween(indices, low, 3);
    }
  }

  // The bound of five is attained

  /** One more request at time t: granted if available. */
  function Ask(r: Row, log: seq<Attempt>, t: nat): (Row, seq<Attempt>) {
    var a := ResendAvailability(Some(r), t);
    if a.available then (Resent(r, a, 0, t), log + [AttemptOf(r, a, t)]) else (r, log)
  }

  function AskAll(r: Row, log: seq<Attempt>, times: seq<nat>): (Row, seq<Attempt>)
    decreases |times|
  {
    if times == [] then (r, log)
    else
      var (r', log') := Ask(r, log, times[0]);
      AskAll(r', log', times[1..])
  }

  /** The example invitation: sent at time 0, valid for three days, and its row after an attempt. */
  const MAILED := Row(Sent, 0, 0, 0, 3 * DAY, 72, Some(0), None, None, 0)

  function After(a: Attempt): Row {
    Row(Sent, 0, 0, 0, 3 * DAY, 72, Some(a.at), Some(a.at), Some(a.window), a.number)
  }

  /** An attempt that may follow is granted. */
  lemma MayFollowIsGranted(a: Attempt, b: Attempt, log: seq<Attempt>)
    requires Follows(a, b) && a.number <= 3 && 1 <= b.number <= 3 && b.at < 3 * DAY && b.mailed == a.at
    ensures Ask(After(a), log, b.at) == (After(b), log + [b])
  {
  }

  lemma AskedFirst(r: Row, log: seq<Attempt>, times: seq<nat>, r': Row, log': seq<Attempt>)
    requires times != [] && Ask(r, log, times[0]) == (r', log')
    ensures AskAll(r, log, times) == AskAll(r', log', times[1..])
  {
  }

  const LATE := 23 * HOUR + 55 * MINUTE

  const ASKED := [10 * MINUTE, LATE, LATE + 10 * MINUTE, LATE + 20 * MINUTE, LATE + 30 * MINUTE, LATE + 40 * MINUTE]

  const GRANTED :=
    [Attempt(10 * MINUTE, 10 * MINUTE, 1, 0), Attempt(LATE, 10 * MINUTE, 2, 10 * MINUTE),
     Attempt(LATE + 10 * MINUTE, 10 * MINUTE, 3, LATE),
     Attempt(LATE + 20 * MINUTE, LATE + 20 * MINUTE, 1, LATE + 10 * MINUTE),
     Attempt(LATE + 30 * MINUTE, LATE + 20 * MINUTE, 2, LATE + 20 * MINUTE),
     Attempt(LATE + 40 * MINUTE, LATE + 20 * MINUTE, 3, LATE + 30 * MINUTE)]

  /**
   Three in any 24 hours would be too strong: two attempts late in one window and three in the
   next are all granted within 40 minutes.
   */
  lemma FiveADayIsReached()
    ensures var log := AskAll(MAILED, [], ASKED).1;
            |log| == 6 && DayFrom(log, LATE) == {1, 2, 3, 4, 5}
  {
    hide AskAll;
    AllSixAreGranted();
  }

  lemma AllSixAreGranted()
    ensures AskAll(MAILED, [], ASKED).1 == GRANTED
  {
    var first, second := 10 * MINUTE, LATE + 20 * MINUTE;
    var a, b := Attempt(first, first, 1, 0), Attempt(LATE, first, 2, first);
    var c, d := Attempt(LATE + 10 * MINUTE, first, 3, LATE), Attempt(second, second, 1, LATE + 10 * MINUTE);
    var e := Attempt(second + 10 * MINUTE, second, 2, second);
    var f := Attempt(second + 20 * MINUTE, second, 3, second + 10 * MINUTE);
    var none: seq<Attempt> := [];
    var l1 := none + [a];
    var l2 := l1 + [b];
    var l3 := l2 + [c];
    var l4 := l3 + [d];
    var l5 := l4 + [e];
    var l6 := l5 + [f];
    MayFollowIsGranted(a, b, l1);
    MayFollowIsGranted(b, c, l2);
    MayFollowIsGranted(c, d, l3);
    MayFollowIsGranted(d, e, l4);
    MayFollowIsGranted(e, f, l5);
    assert Ask(MAILED, none, first) == (After(a), l1);
    hide Ask, After, Follows;
    AskedFirst(MAILED, none, ASKED, After(a), l1);
    AskedFirst(After(a), l1, ASKED[1..], After(b), l2);
    AskedFirst(After(b), l2, ASKED[1..][1..], After(c), l3);
    AskedFirst(After(c), l3, ASKED[1..][1..][1..], After(d), l4);
    AskedFirst(After(d), l4, ASKED[1..][1..][1..][1..], After(e), l5);
    AskedFirst(After(e), l5, ASKED[1..][1..][1..][1..][1..], After(f), l6);
    assert AskAll(MAILED, none, ASKED) == (After(f), l6);
  }

  /** Three attempts, the last five minutes before their window ends. */
  const HURRIED := [10 * MINUTE, HOUR, DAY + 5 * MINUTE]

  /** A reached row whose reported time is the window's end, when the cooldown still refuses. */
  lemma ReportedTimeCanBeTooEarly()
    ensures var (r, log) := AskAll(MAILED, [], HURRIED);
            && |log| == 3 && RowOk(r, log)
            && ResendAvailability(Some(r), DAY + 6 * MINUTE).availableAt == Some(DAY + 10 * MINUTE)
            && !Available(r, DAY + 10 * MINUTE)
  {
    var first := 10 * MINUTE;
    var a, b, c := Attempt(first, first, 1, 0), Attempt(HOUR, first, 2, first), Attempt(DAY + 5 * MINUTE, first, 3, HOUR);
    var none: seq<Attempt> := [];
    var l1 := none + [a];
    var l2 := l1 + [b];
    var l3 := l2 + [c];
    MayFollowIsGranted(a, b, l1);
    MayFollowIsGranted(b, c, l2);
    assert Ask(MAILED, none, first) == (After(a), l1);
    AskedFirst(MAILED, none, HURRIED, After(a), l1);
    AskedFirst(After(a), l1, HURRIED[1..], After(b), l2);
    AskedFirst(After(b), l2, HURRIED[1..][1..], After(c), l3);
    assert AskAll(MAILED, none, HURRIED) == (After(c), l3);
    assert l3 == [a, b, c];
  }
}
