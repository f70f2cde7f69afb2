/**
 * The rate-limit countdown of `VehicleListViewModel`: a 429 detected while
 * paging starts a once-a-second countdown to the reset time, published as a
 * `RateLimitUiState`.
 */
module RateLimit {
  import opened Wrappers
  import opened Text

  const RATE_LIMIT_SOON := "Rate limit exceeded. Please try again soon."
  const RETRY_PREFIX := "Rate limit exceeded. Retry in "

  /** `RateLimitUiState`; retrying is enabled exactly when nothing remains to wait. */
  datatype RateLimitUiState = RateLimitUiState(message: string, remainingSeconds: int, countdownLabel: string) {
    predicate RetryEnabled() {
      remainingSeconds == 0
    }
  }

  /** `calculateRemainingSeconds`: the seconds until the reset, never negative. */
  function RemainingSeconds(resetAt: int, now: int): (r: nat)
    ensures r >= resetAt - now
    ensures r == 0 || r == resetAt - now
    ensures r == 0 <==> now >= resetAt
  {
    if resetAt - now < 0 then 0 else resetAt - now
  }

  /** A later clock reading never leaves more seconds to wait. */
  lemma RemainingNonIncreasing(resetAt: int, earlier: int, later: int)
    requires earlier <= later
    ensures RemainingSeconds(resetAt, later) <= RemainingSeconds(resetAt, earlier)
  {
  }

  /** `formatCountdown`: `%02d:%02d` of whole minutes and leftover seconds; minutes are not capped. */
  function FormatCountdown(s: nat): (lbl: string)
  {
    Pad2(s / 60) + ":" + Pad2(s % 60)
  }

  /** The label has at least two minute digits, a colon, then exactly two second digits. */
  lemma CountdownLabelShape(s: nat)
    ensures |FormatCountdown(s)| >= 5 && FormatCountdown(s)[|FormatCountdown(s)| - 3] == ':'
    ensures s < 6000 ==> |FormatCountdown(s)| == 5
  {
  }

  /**
   * Reads a countdown label back: the minutes before the colon three
   * characters from the end, the seconds after it; null when malformed.
   */
  function ParseCountdown(lbl: string): (r: Option<int>)
    ensures r.Some? ==> r.value >= 0
  {
    if |lbl| < 3 || lbl[|lbl| - 3] != ':' then None
    else
      var minutes := lbl[..|lbl| - 3];
      var seconds := lbl[|lbl| - 2..];
      if AllDigits(minutes) && AllDigits(seconds) then Some(60 * ParseNat(minutes) + ParseNat(seconds))
      else None
  }

  /** The label reads back as the number of seconds it was made from. */
  lemma {:induction false} CountdownRoundTrip(s: nat)
    ensures ParseCountdown(FormatCountdown(s)) == Some(s)
  {
    var m := Pad2(s / 60);
    var c := Pad2(s % 60);
    var lbl := m + ":" + c;
    assert |c| == 2;
    Pad2RoundTrip(s / 60);
    Pad2RoundTrip(s % 60);
    assert lbl[..|lbl| - 3] == m;
    assert lbl[|lbl| - 2..] == c;
  }

  /** What one pass of the countdown loop publishes at clock reading `now`. */
  function TickState(resetAt: int, errorMessage: Option<string>, now: int): (st: RateLimitUiState)
    ensures st.remainingSeconds == RemainingSeconds(resetAt, now)
    ensures st.RetryEnabled() <==> now >= resetAt
  {
    var remaining := RemainingSeconds(resetAt, now);
    var lbl := FormatCountdown(remaining);
    var message := if remaining > 0 then RETRY_PREFIX + lbl + "." else errorMessage.GetOr(RATE_LIMIT_SOON);
    RateLimitUiState(message, remaining, lbl)
  }

  /** Before the reset the message shows the countdown; at or after it, the error's own message. */
  lemma TickStateText(resetAt: int, errorMessage: Option<string>, now: int)
    ensures TickState(resetAt, errorMessage, now).countdownLabel == FormatCountdown(RemainingSeconds(resetAt, now))
    ensures now < resetAt ==> TickState(resetAt, errorMessage, now).message
                              == RETRY_PREFIX + FormatCountdown(resetAt - now) + "."
    ensures now >= resetAt ==> TickState(resetAt, errorMessage, now).message == errorMessage.GetOr(RATE_LIMIT_SOON)
  {
  }

  lemma CountdownLabelExamples()
    ensures FormatCountdown(0) == "00:00" && FormatCountdown(2) == "00:02"
  {
    assert NatToString(0) == "0" && NatToString(2) == "2";
    assert Pad2(0) == "00" && Pad2(2) == "02";
  }

  /** Reset 102 seen at 100 shows "00:02" and blocks retry. */
  lemma TickBeforeResetExample()
    ensures TickState(102, Some("wait"), 100)
            == RateLimitUiState("Rate limit exceeded. Retry in 00:02.", 2, "00:02")
  {
    CountdownLabelExamples();
    assert RETRY_PREFIX + "00:02" + "." == "Rate limit exceeded. Retry in 00:02.";
  }

  /** At 102 retry is enabled and the error's own message is shown. */
  lemma TickAtResetExample()
    ensures TickState(102, Some("wait"), 102) == RateLimitUiState("wait", 0, "00:00")
  {
    CountdownLabelExamples();
  }

  /** The state published when the error carries no reset time. */
  function NoResetState(errorMessage: Option<string>): (st: RateLimitUiState)
    ensures st.RetryEnabled() && st.countdownLabel == FormatCountdown(0)
    ensures st.message == errorMessage.GetOr(RATE_LIMIT_SOON)
  {
    CountdownLabelExamples();
    RateLimitUiState(errorMessage.GetOr(RATE_LIMIT_SOON), 0, "00:00")
  }

  predicate NonDecreasing(clock: seq<int>) {
    forall i, j :: 0 <= i < j < |clock| ==> clock[i] <= clock[j]
  }

  /** A running countdown job: the reset time and the error message it was started with. */
  datatype Countdown = Countdown(resetAt: int, errorMessage: Option<string>)

  /** The states a countdown publishes for successive clock readings, one per reading. */
  function Ticks(job: Countdown, readings: seq<int>): (r: seq<RateLimitUiState>)
    ensures |r| == |readings|
  {
    if readings == [] then []
    else Ticks(job, readings[..|readings| - 1]) + [TickState(job.resetAt, job.errorMessage, readings[|readings| - 1])]
  }

  /** The i-th published state is the one for the i-th reading. */
  lemma {:induction false} TicksAt(job: Countdown, readings: seq<int>, i: int)
    requires 0 <= i < |readings|
    ensures Ticks(job, readings)[i] == TickState(job.resetAt, job.errorMessage, readings[i])
  {
    if i < |readings| - 1 {
      var prefix := readings[..|readings| - 1];
      TicksAt(job, prefix, i);
      assert prefix[i] == readings[i];
    }
  }

  /** All readings before `k + 1` precede the reset when those before `k` and the `k`-th do. */
  lemma BeforeResetStep(readings: seq<int>, resetAt: int, k: nat)
    requires k < |readings| && readings[k] < resetAt
    requires forall i :: 0 <= i < k ==> readings[i] < resetAt
    ensures forall i :: 0 <= i < k + 1 ==> readings[i] < resetAt
  {
  }

  /** Publishing the state for reading `k` extends a pointwise match from `k` readings to `k + 1`. */
  lemma PublishedStep(job: Countdown, readings: seq<int>, states: seq<RateLimitUiState>, k: nat)
    requires k < |readings| && |states| == k
    requires forall i :: 0 <= i < k ==> states[i] == TickState(job.resetAt, job.errorMessage, readings[i])
    ensures forall i :: 0 <= i < k + 1 ==>
              (states + [TickState(job.resetAt, job.errorMessage, readings[k])])[i]
              == TickState(job.resetAt, job.errorMessage, readings[i])
  {
  }

  /** States matching the first `n` readings one by one are what the countdown publishes for them. */
  lemma PublishedAre(job: Countdown, readings: seq<int>, states: seq<RateLimitUiState>, n: nat)
    requires n <= |readings| && |states| == n
    requires forall i :: 0 <= i < n ==> states[i] == TickState(job.resetAt, job.errorMessage, readings[i])
    ensures states == Ticks(job, readings[..n])
  {
    forall i | 0 <= i < n
      ensures states[i] == Ticks(job, readings[..n])[i]
    {
      TicksAt(job, readings[..n], i);
    }
  }

  /**
   * With a clock that never goes back, the published remaining seconds never
   * go up, and retry stays enabled once it has been.
   */
  lemma {:induction false} TicksNonIncreasing(job: Countdown, readings: seq<int>, i: int, j: int)
    requires NonDecreasing(readings)
    requires 0 <= i < j < |readings|
    ensures Ticks(job, readings)[j].remainingSeconds <= Ticks(job, readings)[i].remainingSeconds
    ensures Ticks(job, readings)[i].RetryEnabled() ==> Ticks(job, readings)[j].RetryEnabled()
  {
    TicksAt(job, readings, i);
    TicksAt(job, readings, j);
    RemainingNonIncreasing(job.resetAt, readings[i], readings[j]);
  }

  class VehicleListViewModel {
    /** `rateLimitState`: null until a rate limit has been seen. */
    var rateLimitState: Option<RateLimitUiState>
    /** `activeResetAt`: the reset time of the latest countdown started. */
    var activeResetAt: Option<int>
    /** `rateLimitJob`, present only while it is active. */
    var rateLimitJob: Option<Countdown>

    constructor()
      ensures rateLimitState.None? && activeResetAt.None? && rateLimitJob.None?
    {
      rateLimitState := None;
      activeResetAt := None;
      rateLimitJob := None;
    }

    /**
     * `onRateLimitDetected(error)`: without a reset time, cancels any
     * countdown, forgets the reset time and publishes a retry-enabled state at
     * "00:00". A reset time equal to the active countdown's is ignored.
     * Otherwise the old job is cancelled and a new countdown to that time
     * starts; it publishes on its first tick.
     */
    method OnRateLimitDetected(resetAt: Option<int>, errorMessage: Option<string>)
      modifies this
      ensures resetAt.None? ==>
                && rateLimitJob.None? && activeResetAt.None?
                && rateLimitState == Some(NoResetState(errorMessage))
      ensures resetAt.Some? && resetAt == old(activeResetAt) && old(rateLimitJob).Some? ==>
                && rateLimitState == old(rateLimitState)
                && activeResetAt == old(activeResetAt)
                && rateLimitJob == old(rateLimitJob)
      ensures resetAt.Some? && (resetAt != old(activeResetAt) || old(rateLimitJob).None?) ==>
                && activeResetAt == resetAt
                && rateLimitJob == Some(Countdown(resetAt.value, errorMessage))
                && rateLimitState == old(rateLimitState)
    {
      if resetAt.None? {
        rateLimitJob := None;
        activeResetAt := None;
        rateLimitState := Some(NoResetState(errorMessage));
        return;
      }
      if resetAt == activeResetAt && rateLimitJob.Some? {
        return;
      }
      activeResetAt := resetAt;
      rateLimitJob := Some(Countdown(resetAt.value, errorMessage));
    }

    /**
     * The countdown job's loop, run against successive clock readings (one
     * per second): each pass publishes the state for its reading, and the
     * loop ends right after a reading at or past the reset time, which
     * publishes zero remaining seconds. Readings after the end are not
     * consumed; a job still running when the readings run out stays active.
     */
    method RunCountdown(clock: seq<int>) returns (published: seq<RateLimitUiState>)
      modifies this
      ensures activeResetAt == old(activeResetAt)
      ensures old(rateLimitJob).None? ==> published == [] && rateLimitJob.None? && rateLimitState == old(rateLimitState)
      ensures old(rateLimitJob).Some? ==>
                var job := old(rateLimitJob).value;
                && |published| <= |clock|
                && published == Ticks(job, clock[..|published|])
                && (forall i :: 0 <= i < |published| - 1 ==> clock[i] < job.resetAt)
                && (rateLimitJob.None? <==> |published| > 0 && clock[|published| - 1] >= job.resetAt)
                && (rateLimitJob.Some? ==> rateLimitJob == old(rateLimitJob) && |published| == |clock|)
                && rateLimitState == (if published == [] then old(rateLimitState) else Some(published[|published| - 1]))
      ensures old(rateLimitJob).Some? && (exists i :: 0 <= i < |clock| && clock[i] >= old(rateLimitJob).value.resetAt) ==>
                rateLimitJob.None?
    {
      published := [];
      if rateLimitJob.None? {
        return;
      }
      var job := rateLimitJob.value;
      var k := 0;
      while k < |clock|
        invariant 0 <= k <= |clock| && |published| == k
        invariant rateLimitJob == Some(job) && activeResetAt == old(activeResetAt)
        invariant forall i :: 0 <= i < k ==> clock[i] < job.resetAt
        invariant forall i :: 0 <= i < k ==> published[i] == TickState(job.resetAt, job.errorMessage, clock[i])
        invariant rateLimitState == (if k == 0 then old(rateLimitState) else Some(published[k - 1]))
      {
        var st := TickState(job.resetAt, job.errorMessage, clock[k]);
        rateLimitState := Some(st);
        PublishedStep(job, clock, published, k);
        published := published + [st];
        if st.remainingSeconds == 0 {
          rateLimitJob := None;
          PublishedAre(job, clock, published, k + 1);
          return;
        }
        BeforeResetStep(clock, job.resetAt, k);
        k := k + 1;
      }
      PublishedAre(job, clock, published, k);
    }
  }
}
