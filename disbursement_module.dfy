/** The Disbursement screen: the payout list with its search, status and method filters, the
    escrow and summary cards, and the retry of a failed payout, whose outcome arrives three
    seconds later. */
module DisbursementModule {

  import opened Wrappers
  import Seqs
  import Text

  /** A payout record. `utrNumber` and `disbursementDate` are null until a payout succeeds;
      `failureReason` is present only on failed records. */
  datatype Disbursement = Disbursement(
    id: string,
    loanId: string,
    applicantName: string,
    amount: int,
    approvedAmount: int,
    disbursedAmount: int,
    utrNumber: Option<string>,
    disbursementDate: Option<string>,
    status: string,
    processingFee: int,
    gst: int,
    netDisbursement: int,
    disbursementMethod: string,
    retryCount: nat,
    failureReason: Option<string>)

  /** The four seeded payouts: two successes, one failure after two retries, one pending. */
  function SeedDisbursements(): seq<Disbursement>
  {
    [ Disbursement("DISB001", "LN001", "Rajesh Kumar", 25000, 25000, 25000, Some("HD240115001234"),
                   Some("2024-01-15T14:30:00Z"), "success", 750, 135, 24115, "NEFT", 0, None),
      Disbursement("DISB002", "LN002", "Priya Sharma", 35000, 35000, 0, None, None, "failed",
                   1050, 189, 33761, "IMPS", 2, Some("Invalid account number")),
      Disbursement("DISB003", "LN003", "Mohammed Ali", 15000, 12000, 0, None, None, "pending",
                   360, 65, 11575, "NEFT", 0, None),
      Disbursement("DISB004", "LN004", "Sunita Devi", 40000, 40000, 40000, Some("IC240118002345"),
                   Some("2024-01-18T16:45:00Z"), "success", 1200, 216, 38584, "RTGS", 0, None) ]
  }

  /** The escrow balance shown on the wallet card. */
  const EscrowBalance: int := 2500000

  /** The retry limit: the button is disabled from this many retries on. */
  const MaxRetries: nat := 3

  const TimeoutReason: string := "Bank server timeout"

  datatype StatusStyle = PendingStyle | SuccessStyle | FailedStyle | ProcessingStyle

  /** `getStatusBadge`: an unknown status is shown as pending. */
  function StatusBadge(status: string): (style: StatusStyle)
    ensures style == PendingStyle <==> status !in ["success", "failed", "processing"]
    ensures style == FailedStyle <==> status == "failed"
    ensures style == SuccessStyle <==> status == "success"
    ensures style == ProcessingStyle <==> status == "processing"
  {
    match status
    case "success" => SuccessStyle
    case "failed" => FailedStyle
    case "processing" => ProcessingStyle
    case _ => PendingStyle
  }

  /** The 'Fees' line of a row: the processing fee and the GST on it, so never below either
      part when both are non-negative. */
  function Fees(d: Disbursement): (fees: int)
    ensures d.processingFee >= 0 && d.gst >= 0 ==> fees >= d.processingFee && fees >= d.gst
  {
    d.processingFee + d.gst
  }

  /** In every seeded record the net payout is the approved amount less the fees. */
  lemma SeedNetIsApprovedLessFees()
    ensures forall d :: d in SeedDisbursements() ==> d.netDisbursement == d.approvedAmount - Fees(d)
  {
  }

  /** The Retry button is rendered only on failed records ... */
  function RetryOffered(d: Disbursement): (offered: bool)
    ensures offered <==> d.status == "failed"
  {
    d.status == "failed"
  }

  /** ... and is clickable only while fewer than three retries are recorded. */
  function RetryEnabled(d: Disbursement): (enabled: bool)
    ensures enabled <==> d.status == "failed" && d.retryCount < MaxRetries
  {
    RetryOffered(d) && !(d.retryCount >= MaxRetries)
  }

  /** The row shows 'UTR: ...' when the UTR is truthy: present and non-empty. */
  function UtrShown(d: Disbursement): (shown: bool)
    ensures shown <==> d.utrNumber.Some? && d.utrNumber.value != ""
  {
    d.utrNumber.Some? && d.utrNumber.value != ""
  }

  // ---------------------------------------------------------------- filter

  /** Name, loan id and id are searched ignoring case; the UTR is searched only when there
      is one (`utrNumber?.toLowerCase()` is undefined, hence falsy, for a null UTR). */
  predicate MatchesSearch(d: Disbursement, term: string)
  {
    Text.MatchesIgnoringCase(d.applicantName, term)
    || Text.MatchesIgnoringCase(d.loanId, term)
    || Text.MatchesIgnoringCase(d.id, term)
    || (d.utrNumber.Some? && Text.MatchesIgnoringCase(d.utrNumber.value, term))
  }

  predicate DisbursementMatches(d: Disbursement, term: string, statusFilter: string, methodFilter: string)
  {
    MatchesSearch(d, term)
    && (statusFilter == "all" || d.status == statusFilter)
    && (methodFilter == "all" || d.disbursementMethod == methodFilter)
  }

  /** `filteredDisbursements`: the passing records, in list order, none missing. */
  function FilteredDisbursements(ds: seq<Disbursement>, term: string, statusFilter: string,
                                 methodFilter: string): (r: seq<Disbursement>)
    ensures Seqs.IsSubsequence(r, ds)
    ensures forall d :: d in r <==> d in ds && DisbursementMatches(d, term, statusFilter, methodFilter)
    ensures forall d :: multiset(r)[d] ==
              if DisbursementMatches(d, term, statusFilter, methodFilter) then multiset(ds)[d] else 0
  {
    var p := (d: Disbursement) => DisbursementMatches(d, term, statusFilter, methodFilter);
    Seqs.FilterIsSubsequence(ds, p);
    forall d | d in ds && p(d) ensures d in Seqs.Filter(ds, p) {
      Seqs.FilterKeeps(ds, p, d);
    }
    Seqs.FilterMultiset(ds, p);
    Seqs.Filter(ds, p)
  }

  /** A record without a UTR is found only through its name, loan id or id. */
  lemma NullUtrSearch(d: Disbursement, term: string)
    requires d.utrNumber.None?
    ensures MatchesSearch(d, term) <==>
              Text.MatchesIgnoringCase(d.applicantName, term)
              || Text.MatchesIgnoringCase(d.loanId, term)
              || Text.MatchesIgnoringCase(d.id, term)
  {
  }

  /** The initial filters list every record. */
  lemma FilterDefaultsKeepAll(ds: seq<Disbursement>)
    ensures FilteredDisbursements(ds, "", "all", "all") == ds
  {
    var p := (d: Disbursement) => DisbursementMatches(d, "", "all", "all");
    forall d | d in ds ensures p(d) {
      Text.ContainsEmpty(Text.ToLower(d.applicantName));
    }
    Seqs.FilterAllPass(ds, p);
  }

  // ---------------------------------------------------------------- totals

  function IsSuccess(): Disbursement -> bool { (d: Disbursement) => d.status == "success" }
  function IsOutstanding(): Disbursement -> bool
  {
    (d: Disbursement) => d.status == "pending" || d.status == "processing"
  }
  function IsFailed(): Disbursement -> bool { (d: Disbursement) => d.status == "failed" }
  function DisbursedAmount(): Disbursement -> int { (d: Disbursement) => d.disbursedAmount }
  function ApprovedAmount(): Disbursement -> int { (d: Disbursement) => d.approvedAmount }

  /** `totalDisbursed`: the disbursed amounts of the successful payouts. */
  function TotalDisbursed(ds: seq<Disbursement>): (total: int)
    ensures (forall d :: d in ds && d.status == "success" ==> d.disbursedAmount >= 0) ==> total >= 0
    ensures (forall d :: d in ds ==> d.status != "success") ==> total == 0
  {
    Seqs.FilteredSumBounds(ds, IsSuccess(), DisbursedAmount());
    Seqs.Sum(Seqs.Filter(ds, IsSuccess()), DisbursedAmount())
  }

  /** `totalPending`: the approved amounts of the pending and processing payouts. */
  function TotalPending(ds: seq<Disbursement>): (total: int)
    ensures (forall d :: d in ds && (d.status == "pending" || d.status == "processing") ==> d.approvedAmount >= 0)
            ==> total >= 0
    ensures (forall d :: d in ds ==> d.status != "pending" && d.status != "processing") ==> total == 0
  {
    Seqs.FilteredSumBounds(ds, IsOutstanding(), ApprovedAmount());
    Seqs.Sum(Seqs.Filter(ds, IsOutstanding()), ApprovedAmount())
  }

  /** `totalFailed`: how many payouts failed. */
  function TotalFailed(ds: seq<Disbursement>): (n: nat)
    ensures n <= |ds|
  {
    Seqs.Count(ds, IsFailed())
  }

  /** The wallet card's 'remaining': the escrow balance less what is still to be paid out. */
  function EscrowRemaining(ds: seq<Disbursement>): (remaining: int)
    ensures (forall d :: d in ds ==> d.status != "pending" && d.status != "processing")
            ==> remaining == EscrowBalance
  {
    EscrowBalance - TotalPending(ds)
  }

  /** With non-negative approved amounts the remaining escrow never exceeds the balance. */
  lemma EscrowRemainingAtMostBalance(ds: seq<Disbursement>)
    requires forall d :: d in ds ==> d.approvedAmount >= 0
    ensures EscrowRemaining(ds) <= EscrowBalance
  {
    var outstanding := Seqs.Filter(ds, IsOutstanding());
    Seqs.SumNonNegative(outstanding, ApprovedAmount());
  }

  /** The seeded cards: 65000 disbursed, 12000 pending, one failure, 2488000 remaining. */
  lemma SeedTotals()
    ensures TotalDisbursed(SeedDisbursements()) == 65000
    ensures TotalPending(SeedDisbursements()) == 12000
    ensures TotalFailed(SeedDisbursements()) == 1
    ensures EscrowRemaining(SeedDisbursements()) == 2488000
  {
    SeedDisbursed();
    SeedPending();
    SeedFailed();
  }

  lemma SeedDisbursed()
    ensures TotalDisbursed(SeedDisbursements()) == 65000
  {
    var ds := SeedDisbursements();
    assert Seqs.Filter(ds[3..], IsSuccess()) == [ds[3]];
    assert Seqs.Filter(ds, IsSuccess()) == [ds[0], ds[3]];
  }

  lemma SeedPending()
    ensures TotalPending(SeedDisbursements()) == 12000
  {
    var ds := SeedDisbursements();
    assert Seqs.Filter(ds[3..], IsOutstanding()) == [];
    assert Seqs.Filter(ds[2..], IsOutstanding()) == [ds[2]];
    assert Seqs.Filter(ds, IsOutstanding()) == [ds[2]];
  }

  lemma SeedFailed()
    ensures TotalFailed(SeedDisbursements()) == 1
  {
    var ds := SeedDisbursements();
    assert Seqs.Filter(ds[2..], IsFailed()) == [];
    assert Seqs.Filter(ds, IsFailed()) == [ds[1]];
  }

  // ---------------------------------------------------------------- retry

  /** The record as the retry click leaves it: processing, one more retry recorded. */
  function Processing(d: Disbursement): (p: Disbursement)
    ensures p.status == "processing" && p.retryCount == d.retryCount + 1
    ensures p == d.(status := p.status, retryCount := p.retryCount)
  {
    d.(status := "processing", retryCount := d.retryCount + 1)
  }

  /** The list the retry click stores: the records with that id become processing. */
  function MarkProcessing(ds: seq<Disbursement>, disbId: string): (r: seq<Disbursement>)
    ensures |r| == |ds|
    ensures forall i :: 0 <= i < |ds| ==> r[i] == if ds[i].id == disbId then Processing(ds[i]) else ds[i]
  {
    seq(|ds|, i requires 0 <= i < |ds| => if ds[i].id == disbId then Processing(ds[i]) else ds[i])
  }

  /** A record once the bank answers, with `Math.random() > 0.3` passed in as `isSuccess`,
      `Date.now()` as `now` and the ISO timestamp as `date`. A success pays out the approved
      amount and records a UTR and a date; a failure pays nothing, clears both, and records
      the timeout reason. The retry count is whatever `d` carries. */
  function Settled(d: Disbursement, isSuccess: bool, now: nat, date: string): (s: Disbursement)
    ensures isSuccess ==> s.status == "success" && s.disbursedAmount == d.approvedAmount
                          && s.utrNumber == Some("UTR" + Text.NatToString(now))
                          && s.disbursementDate == Some(date) && s.failureReason == None
    ensures !isSuccess ==> s.status == "failed" && s.disbursedAmount == 0
                           && s.utrNumber == None && s.disbursementDate == None
                           && s.failureReason == Some(TimeoutReason)
    ensures s == d.(status := s.status, disbursedAmount := s.disbursedAmount, utrNumber := s.utrNumber,
                    disbursementDate := s.disbursementDate, failureReason := s.failureReason)
  {
    if isSuccess then
      d.(status := "success", disbursedAmount := d.approvedAmount,
         utrNumber := Some("UTR" + Text.NatToString(now)), disbursementDate := Some(date),
         failureReason := None)
    else
      d.(status := "failed", disbursedAmount := 0, utrNumber := None, disbursementDate := None,
         failureReason := Some(TimeoutReason))
  }

  /** The list the delayed completion stores: `base` with the records of that id settled. */
  function Complete(base: seq<Disbursement>, disbId: string, isSuccess: bool, now: nat, date: string): (r: seq<Disbursement>)
    ensures |r| == |base|
    ensures forall i :: 0 <= i < |base| ==>
              r[i] == if base[i].id == disbId then Settled(base[i], isSuccess, now, date) else base[i]
  {
    seq(|base|, i requires 0 <= i < |base| =>
      if base[i].id == disbId then Settled(base[i], isSuccess, now, date) else base[i])
  }

  /** After a completion the UTR is shown exactly for a success. */
  lemma UtrShownIffSuccess(d: Disbursement, isSuccess: bool, now: nat, date: string)
    ensures UtrShown(Settled(d, isSuccess, now, date)) <==> isSuccess
  {
  }

  predicate UniqueIds(ds: seq<Disbursement>)
  {
    forall i, j :: 0 <= i < j < |ds| ==> ds[i].id != ds[j].id
  }

  /** Retrying a failed payout moves its approved amount into 'pending' (so out of the
      remaining escrow) and takes one off the failure count. */
  lemma RetryMovesToPending(ds: seq<Disbursement>, k: nat)
    requires UniqueIds(ds) && k < |ds| && ds[k].status == "failed"
    ensures TotalPending(MarkProcessing(ds, ds[k].id)) == TotalPending(ds) + ds[k].approvedAmount
    ensures EscrowRemaining(MarkProcessing(ds, ds[k].id)) == EscrowRemaining(ds) - ds[k].approvedAmount
    ensures TotalFailed(MarkProcessing(ds, ds[k].id)) == TotalFailed(ds) - 1
    ensures TotalDisbursed(MarkProcessing(ds, ds[k].id)) == TotalDisbursed(ds)
  {
    var p := Processing(ds[k]);
    assert MarkProcessing(ds, ds[k].id) == ds[k := p];
    Seqs.FilteredSumReplace(ds, k, p, IsOutstanding(), ApprovedAmount());
    Seqs.FilteredSumReplace(ds, k, p, IsSuccess(), DisbursedAmount());
    Seqs.CountReplace(ds, k, p, IsFailed());
  }

  /** A successful completion of a failed payout adds its approved amount to 'disbursed'
      and takes one off the failure count. */
  lemma SuccessAddsToDisbursed(ds: seq<Disbursement>, k: nat, now: nat, date: string)
    requires UniqueIds(ds) && k < |ds| && ds[k].status == "failed"
    ensures TotalDisbursed(Complete(ds, ds[k].id, true, now, date)) == TotalDisbursed(ds) + ds[k].approvedAmount
    ensures TotalFailed(Complete(ds, ds[k].id, true, now, date)) == TotalFailed(ds) - 1
    ensures TotalPending(Complete(ds, ds[k].id, true, now, date)) == TotalPending(ds)
  {
    var s := Settled(ds[k], true, now, date);
    assert Complete(ds, ds[k].id, true, now, date) == ds[k := s];
    Seqs.FilteredSumReplace(ds, k, s, IsSuccess(), DisbursedAmount());
    Seqs.FilteredSumReplace(ds, k, s, IsOutstanding(), ApprovedAmount());
    Seqs.CountReplace(ds, k, s, IsFailed());
  }

  /** One retry as the screen performs it: the completion maps the list captured when the
      button was clicked, not the list holding the 'processing' update. */
  function RetryCycleAsWritten(ds: seq<Disbursement>, disbId: string, isSuccess: bool, now: nat, date: string): (r: seq<Disbursement>)
    ensures |r| == |ds| && forall i :: 0 <= i < |ds| ==> r[i].retryCount == ds[i].retryCount
    ensures forall i :: 0 <= i < |ds| && ds[i].id == disbId ==> r[i] == Settled(ds[i], isSuccess, now, date)
  {
    Complete(ds, disbId, isSuccess, now, date)
  }

  /** As written, a failed retry leaves the retry count where it was, so a retryable
      payout stays retryable after any failed retry: the limit of three is never reached. */
  lemma AsWrittenRetryNeverExhausts(ds: seq<Disbursement>, k: nat, now: nat, date: string)
    requires k < |ds| && RetryEnabled(ds[k])
    ensures RetryEnabled(RetryCycleAsWritten(ds, ds[k].id, false, now, date)[k])
  {
  }

  /** The seeded DISB002 (two retries recorded) is still retryable after a failed retry. */
  lemma SeedFailedPayoutStaysRetryable(now: nat, date: string)
    ensures RetryCycleAsWritten(SeedDisbursements(), "DISB002", false, now, date)[1].retryCount == 2
    ensures RetryEnabled(RetryCycleAsWritten(SeedDisbursements(), "DISB002", false, now, date)[1])
  {
    AsWrittenRetryNeverExhausts(SeedDisbursements(), 1, now, date);
  }

  /** One retry as intended: the completion settles the list that records the retry. */
  function RetryCycle(ds: seq<Disbursement>, disbId: string, isSuccess: bool, now: nat, date: string): (r: seq<Disbursement>)
    ensures |r| == |ds|
    ensures forall i :: 0 <= i < |ds| ==>
              r[i].retryCount == ds[i].retryCount + (if ds[i].id == disbId then 1 else 0)
    ensures forall i :: 0 <= i < |ds| && ds[i].id == disbId ==>
              r[i] == Settled(ds[i], isSuccess, now, date).(retryCount := ds[i].retryCount + 1)
    ensures forall i :: 0 <= i < |ds| && ds[i].id != disbId ==> r[i] == ds[i]
  {
    Complete(MarkProcessing(ds, disbId), disbId, isSuccess, now, date)
  }

  /** `n` consecutive failed retries of one payout, as intended. */
  function FailedRetries(ds: seq<Disbursement>, disbId: string, n: nat, now: nat, date: string): (r: seq<Disbursement>)
    ensures |r| == |ds|
    decreases n
  {
    if n == 0 then ds else FailedRetries(RetryCycle(ds, disbId, false, now, date), disbId, n - 1, now, date)
  }

  /** After `n > 0` failed retries the payout is failed with `n` more retries recorded, and
      every other payout is untouched. */
  lemma {:induction false} FailedRetriesCount(ds: seq<Disbursement>, disbId: string, n: nat, now: nat, date: string)
    ensures |FailedRetries(ds, disbId, n, now, date)| == |ds|
    ensures forall i :: 0 <= i < |ds| ==>
              FailedRetries(ds, disbId, n, now, date)[i].retryCount
                == ds[i].retryCount + (if ds[i].id == disbId then n else 0)
    ensures forall i :: 0 <= i < |ds| && ds[i].id == disbId && n > 0 ==>
              FailedRetries(ds, disbId, n, now, date)[i].status == "failed"
    ensures forall i :: 0 <= i < |ds| && ds[i].id != disbId ==>
              FailedRetries(ds, disbId, n, now, date)[i] == ds[i]
    decreases n
  {
    if n > 0 {
      var once := RetryCycle(ds, disbId, false, now, date);
      FailedRetriesCount(once, disbId, n - 1, now, date);
      assert forall i :: 0 <= i < |ds| ==> once[i].id == ds[i].id;
    }
  }

  /** As intended, a failed payout with `c` retries recorded can be retried and fail
      `3 - c` times; then its Retry button is disabled. */
  lemma RetriesExhaust(ds: seq<Disbursement>, k: nat, now: nat, date: string)
    requires k < |ds| && RetryEnabled(ds[k])
    ensures !RetryEnabled(FailedRetries(ds, ds[k].id, MaxRetries - ds[k].retryCount, now, date)[k])
  {
    FailedRetriesCount(ds, ds[k].id, MaxRetries - ds[k].retryCount, now, date);
  }

  // ---------------------------------------------------------------- component state

  /** The component's payout list. */
  class DisbursementDesk {
    var disbursements: seq<Disbursement>

    constructor ()
      ensures disbursements == SeedDisbursements()
    {
      disbursements := SeedDisbursements();
    }

    /** The synchronous half of `handleRetryDisbursement(disbId)`: marks the payout as
        processing with one more retry, and hands back the list as it was before the click,
        which is what the pending completion will map. */
    method RetryDisbursement(disbId: string) returns (captured: seq<Disbursement>)
      modifies this
      ensures captured == old(disbursements)
      ensures disbursements == MarkProcessing(old(disbursements), disbId)
    {
      captured := disbursements;
      disbursements := MarkProcessing(disbursements, disbId);
    }

    /** The completion three seconds later: the captured list, settled, replaces whatever
        the list is by then. */
    method CompleteRetry(captured: seq<Disbursement>, disbId: string, isSuccess: bool, now: nat, date: string)
      modifies this
      ensures disbursements == Complete(captured, disbId, isSuccess, now, date)
    {
      disbursements := Complete(captured, disbId, isSuccess, now, date);
    }
  }

  /** Click then completion, with nothing in between, stores the as-written cycle: the
      retry recorded by the click is lost. */
  method RetryScenario(desk: DisbursementDesk, disbId: string, isSuccess: bool, now: nat, date: string)
    modifies desk
    ensures desk.disbursements == RetryCycleAsWritten(old(desk.disbursements), disbId, isSuccess, now, date)
  {
    var captured := desk.RetryDisbursement(disbId);
    desk.CompleteRetry(captured, disbId, isSuccess, now, date);
  }
}
