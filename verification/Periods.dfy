/**
 * The two pieces of clock arithmetic the credit meter leans on: which allowance window an
 * instant falls in, and how long an order can legitimately still be alive.
 *
 * Instants are microseconds since 1970-01-01 UTC, the resolution and the epoch the program
 * uses; they may be negative.
 */
module Periods {
  const SECOND: int := 1_000_000
  const DAY: int := 86_400 * SECOND

  // Python's `timedelta.days` and `//` floor; so does Dafny's `/` when the divisor is positive.
  function PeriodIndex(now: int, periodDays: int): int
    requires periodDays >= 1
  {
    now / DAY / periodDays
  }

  function PeriodStart(index: int, periodDays: int): int {
    index * periodDays * DAY
  }

  lemma StartsAreOrdered(i: int, j: int, periodDays: int)
    requires periodDays >= 1 && i <= j
    ensures PeriodStart(i, periodDays) + (j - i) * DAY <= PeriodStart(j, periodDays)
  {
    var d := j - i;
    assert d * periodDays >= d;
    assert j * periodDays == i * periodDays + d * periodDays;
  }

  /**
   * Every instant lies in exactly one window, and the index function finds it. The windows are
   * `periodDays` days of 86 400 seconds each, counted from the epoch.
   */
  lemma {:induction false} WindowIsUnique(now: int, index: int, periodDays: int)
    requires periodDays >= 1
    ensures PeriodStart(index, periodDays) == index * periodDays * 86_400_000_000
    ensures PeriodStart(index, periodDays) <= now < PeriodStart(index + 1, periodDays)
       <==> index == PeriodIndex(now, periodDays)
  {
    var i := PeriodIndex(now, periodDays);
    var day := now / DAY;
    assert i * periodDays <= day < i * periodDays + periodDays;
    assert PeriodStart(i, periodDays) <= now < PeriodStart(i + 1, periodDays) by {
      assert (i + 1) * periodDays == i * periodDays + periodDays;
    }
    if index < i {
      StartsAreOrdered(index + 1, i, periodDays);
    } else if index > i {
      StartsAreOrdered(i + 1, index, periodDays);
    }
  }

  /** The two functions round-trip: a window's own start lies in that window. */
  lemma StartRoundTrips(index: int, periodDays: int)
    requires periodDays >= 1
    ensures PeriodIndex(PeriodStart(index, periodDays), periodDays) == index
  {
    StartsAreOrdered(index, index + 1, periodDays);
    WindowIsUnique(PeriodStart(index, periodDays), index, periodDays);
  }

  lemma IndexIsMonotone(earlier: int, later: int, periodDays: int)
    requires periodDays >= 1 && earlier <= later
    ensures PeriodIndex(earlier, periodDays) <= PeriodIndex(later, periodDays)
  {
    var i, j := PeriodIndex(earlier, periodDays), PeriodIndex(later, periodDays);
    WindowIsUnique(earlier, i, periodDays);
    WindowIsUnique(later, j, periodDays);
    if j < i {
      StartsAreOrdered(j + 1, i, periodDays);
    }
  }

  // ---- the retry ladder ------------------------------------------------------------

  function Ceil(r: real): (c: int)
    ensures r <= c as real < r + 1.0
  {
    -((-r).Floor)
  }

  function ClosedForm(jobTimeout: real, tries: int, backoffBase: real): real {
    jobTimeout * tries as real + backoffBase * (tries - 1) as real * tries as real / 2.0
  }

  /** The grace, in whole seconds. */
  function SettlementGrace(jobTimeout: real, maxTries: int, backoffBase: real): int {
    Ceil(ClosedForm(jobTimeout, maxTries, backoffBase))
  }

  // Attempt n, when it fails with tries left, is parked for n times the base.
  function Deferral(backoffBase: real, attempt: nat): real {
    backoffBase * attempt as real
  }

  /** When the last of these attempts ends, measured from the start of the first. */
  function LadderEnd(attempts: seq<real>, backoffBase: real): real
  {
    var n := |attempts|;
    if n == 0 then 0.0
    else if n == 1 then attempts[0]
    else LadderEnd(attempts[..n - 1], backoffBase) + Deferral(backoffBase, n - 1) + attempts[n - 1]
  }

  ghost predicate WithinTimeout(attempts: seq<real>, jobTimeout: real) {
    forall i :: 0 <= i < |attempts| ==> 0.0 <= attempts[i] <= jobTimeout
  }

  lemma {:induction false} LadderClosedForm(attempts: seq<real>, jobTimeout: real, backoffBase: real)
    requires jobTimeout >= 0.0 && backoffBase >= 0.0 && WithinTimeout(attempts, jobTimeout)
    ensures LadderEnd(attempts, backoffBase) <= ClosedForm(jobTimeout, |attempts|, backoffBase)
    ensures (forall i :: 0 <= i < |attempts| ==> attempts[i] == jobTimeout) ==>
      LadderEnd(attempts, backoffBase) == ClosedForm(jobTimeout, |attempts|, backoffBase)
  {
    var n := |attempts|;
    if n >= 2 {
      LadderClosedForm(attempts[..n - 1], jobTimeout, backoffBase);
      ClosedFormSteps(jobTimeout, n - 1, backoffBase);
    }
  }

  lemma ClosedFormSteps(jobTimeout: real, n: nat, backoffBase: real)
    ensures ClosedForm(jobTimeout, n + 1, backoffBase)
         == ClosedForm(jobTimeout, n, backoffBase) + Deferral(backoffBase, n) + jobTimeout
  {
    var m := n as real;
    assert jobTimeout * (m + 1.0) == jobTimeout * m + jobTimeout;
    assert backoffBase * m * (m + 1.0) / 2.0 == backoffBase * (m - 1.0) * m / 2.0 + backoffBase * m;
  }

  /**
   * However many attempts run, however long each one takes within its timeout, the last one
   * is over no later than the grace; and a ladder that burns every timeout misses the grace
   * by less than one second, so no smaller whole number of seconds would do.
   */
  lemma LadderFitsTheGrace(attempts: seq<real>, jobTimeout: real, maxTries: nat, backoffBase: real)
    requires jobTimeout >= 0.0 && backoffBase >= 0.0 && WithinTimeout(attempts, jobTimeout)
    requires |attempts| <= maxTries
    ensures LadderEnd(attempts, backoffBase) <= SettlementGrace(jobTimeout, maxTries, backoffBase) as real
    ensures |attempts| == maxTries && (forall i :: 0 <= i < |attempts| ==> attempts[i] == jobTimeout) ==>
      SettlementGrace(jobTimeout, maxTries, backoffBase) as real < LadderEnd(attempts, backoffBase) + 1.0
  {
    LadderClosedForm(attempts, jobTimeout, backoffBase);
    ClosedFormGrows(jobTimeout, backoffBase, |attempts|, maxTries);
  }

  lemma {:induction false} ClosedFormGrows(jobTimeout: real, backoffBase: real, few: nat, many: nat)
    requires jobTimeout >= 0.0 && backoffBase >= 0.0 && few <= many
    ensures ClosedForm(jobTimeout, few, backoffBase) <= ClosedForm(jobTimeout, many, backoffBase)
    decreases many - few
  {
    if few < many {
      ClosedFormGrows(jobTimeout, backoffBase, few + 1, many);
      ClosedFormSteps(jobTimeout, few, backoffBase);
      assert Deferral(backoffBase, few) >= 0.0;
    }
  }
}
