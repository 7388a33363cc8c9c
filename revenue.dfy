/** The figures of the revenue panel, derived from the build-job table:
    recent paid transactions, the outstanding total, the paid count, the
    average deal size, the close rate and the month-over-month change.
    Amounts are exact reals; the display rounding (`toFixed`) is not modelled. */
module Revenue {
  import opened Types

  /** `filter(job => job.paymentStatus === 'paid')`. */
  function PaidJobs(jobs: seq<BuildJob>): (r: seq<BuildJob>)
    ensures |r| <= |jobs|
    ensures forall i :: 0 <= i < |r| ==> r[i].paymentStatus == Paid && r[i] in jobs
    ensures forall i :: 0 <= i < |jobs| && jobs[i].paymentStatus == Paid ==> jobs[i] in r
    decreases |jobs|
  {
    if jobs == [] then []
    else if jobs[0].paymentStatus == Paid then [jobs[0]] + PaidJobs(jobs[1..])
    else PaidJobs(jobs[1..])
  }

  /** Filtering keeps the store's order: it distributes over concatenation. */
  lemma {:induction false} PaidJobsAppend(a: seq<BuildJob>, b: seq<BuildJob>)
    ensures PaidJobs(a + b) == PaidJobs(a) + PaidJobs(b)
    decreases |a|
  {
    if a == [] {
      assert a + b == b;
    } else {
      assert (a + b)[0] == a[0];
      assert (a + b)[1..] == a[1..] + b;
      PaidJobsAppend(a[1..], b);
    }
  }

  /** A transaction row of the panel. */
  datatype Transaction = Transaction(
    id: string, businessName: string, package: string, amount: real, date: int, paymentStatus: PaymentStatus)

  function ToTransaction(job: BuildJob): Transaction {
    Transaction(job.id, job.businessName, job.package, job.amount, job.triggeredAt, job.paymentStatus)
  }

  /** recentTransactions: the first five paid jobs, in store order, as rows. */
  function RecentTransactions(jobs: seq<BuildJob>): (r: seq<Transaction>)
    ensures |r| == if |PaidJobs(jobs)| < 5 then |PaidJobs(jobs)| else 5
    ensures forall i :: 0 <= i < |r| ==> r[i] == ToTransaction(PaidJobs(jobs)[i]) && r[i].paymentStatus == Paid
  {
    var paid := PaidJobs(jobs);
    var n := if |paid| < 5 then |paid| else 5;
    seq(n, i requires 0 <= i < n => ToTransaction(paid[i]))
  }

  /** A job added in front (as the store adds them) that is paid becomes the
      first recent transaction. */
  lemma NewestPaidJobFirst(job: BuildJob, jobs: seq<BuildJob>)
    requires job.paymentStatus == Paid
    ensures RecentTransactions([job] + jobs)[0] == ToTransaction(job)
  {
    PaidJobsAppend([job], jobs);
  }

  /** pendingTotal: the sum of the amounts of the pending jobs. */
  function PendingTotal(jobs: seq<BuildJob>): (total: real)
    ensures (forall i :: 0 <= i < |jobs| ==> jobs[i].paymentStatus != Pending) ==> total == 0.0
    decreases |jobs|
  {
    if jobs == [] then 0.0
    else (if jobs[0].paymentStatus == Pending then jobs[0].amount else 0.0) + PendingTotal(jobs[1..])
  }

  lemma {:induction false} PendingTotalAppend(a: seq<BuildJob>, b: seq<BuildJob>)
    ensures PendingTotal(a + b) == PendingTotal(a) + PendingTotal(b)
    decreases |a|
  {
    if a == [] {
      assert a + b == b;
    } else {
      assert (a + b)[0] == a[0];
      assert (a + b)[1..] == a[1..] + b;
      PendingTotalAppend(a[1..], b);
    }
  }

  /** Paid and failed jobs do not count towards the outstanding total: adding
      one leaves it unchanged, adding a pending job adds its amount. */
  lemma PendingTotalByStatus(job: BuildJob, jobs: seq<BuildJob>)
    ensures PendingTotal([job] + jobs) == PendingTotal(jobs) + (if job.paymentStatus == Pending then job.amount else 0.0)
  {
    PendingTotalAppend([job], jobs);
  }

  /** With no negative amounts the outstanding total is not negative either. */
  lemma {:induction false} PendingTotalNonNegative(jobs: seq<BuildJob>)
    requires forall i :: 0 <= i < |jobs| ==> jobs[i].amount >= 0.0
    ensures PendingTotal(jobs) >= 0.0
    decreases |jobs|
  {
    if jobs != [] {
      PendingTotalNonNegative(jobs[1..]);
    }
  }

  /** paidCount. */
  function PaidCount(jobs: seq<BuildJob>): (n: nat)
    ensures n <= |jobs|
  {
    |PaidJobs(jobs)|
  }

  /** The paid count is 0 exactly when no job is paid. */
  lemma PaidCountZero(jobs: seq<BuildJob>)
    ensures PaidCount(jobs) == 0 <==> forall i :: 0 <= i < |jobs| ==> jobs[i].paymentStatus != Paid
  {
    var paid := PaidJobs(jobs);
    if paid != [] {
      assert paid[0] in jobs && paid[0].paymentStatus == Paid;
    }
  }

  /** The paid count of two tables together is the sum of their paid counts. */
  lemma PaidCountAppend(a: seq<BuildJob>, b: seq<BuildJob>)
    ensures PaidCount(a + b) == PaidCount(a) + PaidCount(b)
  {
    PaidJobsAppend(a, b);
  }

  /** A single job counts once exactly when it is paid. */
  lemma PaidCountOne(job: BuildJob)
    ensures PaidCount([job]) == if job.paymentStatus == Paid then 1 else 0
  {
  }

  /** The sum of all amounts. */
  function TotalAmount(jobs: seq<BuildJob>): real
    decreases |jobs|
  {
    if jobs == [] then 0.0 else jobs[0].amount + TotalAmount(jobs[1..])
  }

  /** Amounts within [lo, hi] add up to between |jobs|*lo and |jobs|*hi. */
  lemma {:induction false} TotalAmountBounds(jobs: seq<BuildJob>, lo: real, hi: real)
    requires forall i :: 0 <= i < |jobs| ==> lo <= jobs[i].amount <= hi
    ensures (|jobs| as real) * lo <= TotalAmount(jobs) <= (|jobs| as real) * hi
    decreases |jobs|
  {
    if jobs != [] {
      TotalAmountBounds(jobs[1..], lo, hi);
    }
  }

  /** avgDealSize: the mean amount, 0 with no jobs. */
  function AvgDealSize(jobs: seq<BuildJob>): (r: real)
    ensures jobs == [] ==> r == 0.0
    ensures jobs != [] ==> r * (|jobs| as real) == TotalAmount(jobs)
  {
    if |jobs| > 0 then TotalAmount(jobs) / (|jobs| as real) else 0.0
  }

  /** The average lies between the smallest and largest bound of the amounts. */
  lemma AvgDealSizeBounds(jobs: seq<BuildJob>, lo: real, hi: real)
    requires jobs != []
    requires forall i :: 0 <= i < |jobs| ==> lo <= jobs[i].amount <= hi
    ensures lo <= AvgDealSize(jobs) <= hi
  {
    TotalAmountBounds(jobs, lo, hi);
    QuotientBounds(TotalAmount(jobs), |jobs| as real, lo, hi);
  }

  lemma QuotientBounds(total: real, n: real, lo: real, hi: real)
    requires n > 0.0 && n * lo <= total <= n * hi
    ensures lo <= total / n <= hi
  {
    var q := total / n;
    assert q * n == total;
    assert (q - lo) * n == total - n * lo;
    assert (hi - q) * n == n * hi - total;
  }

  /** closeRate: the share of paid jobs in percent, 0 with no jobs. */
  function CloseRatePercent(jobs: seq<BuildJob>): (r: real)
    ensures 0.0 <= r <= 100.0
    ensures jobs == [] ==> r == 0.0
    ensures jobs != [] ==> r * (|jobs| as real) == (PaidCount(jobs) as real) * 100.0
  {
    if |jobs| > 0 then
      var share := (PaidCount(jobs) as real) / (|jobs| as real);
      assert share <= 1.0 by {
        ShareAtMostOne(PaidCount(jobs) as real, |jobs| as real);
      }
      share * 100.0
    else 0.0
  }

  lemma ShareAtMostOne(part: real, whole: real)
    requires 0.0 <= part <= whole && whole > 0.0
    ensures 0.0 <= part / whole <= 1.0
  {
    assert part / whole * whole == part;
  }

  /** percentChange from the month totals (which the store does not hold;
      they are inputs here): 0 unless last month was positive; it is not
      negative exactly when this month did at least as well. */
  function PercentChange(thisMonth: real, lastMonth: real): (r: real)
    ensures lastMonth <= 0.0 ==> r == 0.0
    ensures lastMonth > 0.0 ==> (r >= 0.0 <==> thisMonth >= lastMonth)
    ensures lastMonth > 0.0 ==> r * lastMonth == (thisMonth - lastMonth) * 100.0
  {
    if lastMonth > 0.0 then (thisMonth - lastMonth) / lastMonth * 100.0 else 0.0
  }
}
