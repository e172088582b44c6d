/** The pure fragments of the data-access layer: the storage path built for an uploaded
    document, and the dashboard statistics' total approved amount and zero defaults. */
module Database {

  import opened Wrappers
  import Seqs
  import Text

  /** `fileName.split('.').pop()`: the text after the last '.', or the whole name when it has
      no '.'. It is always a suffix of the name, preceded by the '.' when there is one. */
  function FileExtension(fileName: string): (ext: string)
    ensures '.' !in ext
    ensures '.' !in fileName ==> ext == fileName
    ensures |ext| <= |fileName| && fileName[|fileName| - |ext|..] == ext
    ensures '.' in fileName ==> |ext| < |fileName| && fileName[|fileName| - |ext| - 1] == '.'
  {
    LastPieceIsSuffix(fileName, '.');
    var parts := Text.Split(fileName, '.');
    parts[|parts| - 1]
  }

  /** The last piece of a split is a suffix of the string, preceded by the separator when
      there is one. */
  lemma LastPieceIsSuffix(s: string, sep: char)
    ensures var parts := Text.Split(s, sep);
            var last := parts[|parts| - 1];
            sep !in last
            && (sep !in s ==> last == s)
            && |last| <= |s| && s[|s| - |last|..] == last
            && (sep in s ==> |last| < |s| && s[|s| - |last| - 1] == sep)
  {
    var parts := Text.Split(s, sep);
    var last := parts[|parts| - 1];
    assert last in parts;
    Text.JoinSplit(s, sep);
    if |parts| == 1 {
      assert s == parts[0];
    } else {
      Text.JoinLast(parts, sep);
      var front := Text.Join(parts[..|parts| - 1], sep);
      assert s == front + [sep] + last;
      assert s[|s| - |last|..] == last;
    }
  }

  /** The object key of an uploaded document, with `Date.now()` passed in as `now`:
      `applicationId/documentType/now.ext`. */
  function StoragePath(applicationId: string, documentType: string, now: nat, ext: string): (path: string)
    ensures |path| > |applicationId| + 1 && path[..|applicationId| + 1] == applicationId + "/"
    ensures |path| > |ext| + 1 && path[|path| - |ext| - 1..] == "." + ext
  {
    var path := applicationId + "/" + documentType + "/" + Text.NatToString(now) + "." + ext;
    assert path[..|applicationId| + 1] == applicationId + "/";
    assert path[|path| - |ext| - 1..] == "." + ext;
    path
  }

  /** The path of a file whose name, application id and document type carry no '/' splits
      back into those three parts, and its extension reads back as the file's. */
  lemma StoragePathRoundTrip(applicationId: string, documentType: string, now: nat, fileName: string)
    requires '/' !in applicationId && '/' !in documentType && '/' !in fileName
    ensures var path := StoragePath(applicationId, documentType, now, FileExtension(fileName));
            Text.Split(path, '/') == [applicationId, documentType, Text.NatToString(now) + "." + FileExtension(fileName)]
            && FileExtension(path) == FileExtension(fileName)
  {
    var ext := FileExtension(fileName);
    NoSlashInExtension(fileName);
    StoragePathSplits(applicationId, documentType, now, ext);
    StoragePathExtension(applicationId, documentType, now, ext);
  }

  lemma StoragePathSplits(applicationId: string, documentType: string, now: nat, ext: string)
    requires '/' !in applicationId && '/' !in documentType && '/' !in ext
    ensures Text.Split(StoragePath(applicationId, documentType, now, ext), '/')
            == [applicationId, documentType, Text.NatToString(now) + "." + ext]
  {
    var stamp := Text.NatToString(now);
    assert forall i :: 0 <= i < |stamp| ==> Text.IsDigit(stamp[i]);
    var last := stamp + "." + ext;
    assert '/' !in last;
    assert StoragePath(applicationId, documentType, now, ext)
           == applicationId + ['/'] + documentType + ['/'] + last;
    SplitThree(applicationId, documentType, last, '/');
  }

  lemma StoragePathExtension(applicationId: string, documentType: string, now: nat, ext: string)
    requires '.' !in ext
    ensures FileExtension(StoragePath(applicationId, documentType, now, ext)) == ext
  {
    var front := applicationId + "/" + documentType + "/" + Text.NatToString(now);
    assert StoragePath(applicationId, documentType, now, ext) == front + ['.'] + ext;
    LastPiece(front, ext, '.');
  }

  /** The extension of a name without '/' has no '/' either, being a suffix of it. */
  lemma NoSlashInExtension(fileName: string)
    requires '/' !in fileName
    ensures '/' !in FileExtension(fileName)
  {
    var ext := FileExtension(fileName);
    forall i | 0 <= i < |ext| ensures ext[i] != '/' {
      assert ext[i] == fileName[|fileName| - |ext| + i];
    }
  }

  /** Two separators between separator-free parts split into exactly those three parts. */
  lemma SplitThree(a: string, b: string, c: string, sep: char)
    requires sep !in a && sep !in b && sep !in c
    ensures Text.Split(a + [sep] + b + [sep] + c, sep) == [a, b, c]
  {
    assert a + [sep] + b + [sep] + c == a + [sep] + (b + [sep] + c);
    Text.SplitAfter(a, b + [sep] + c, sep);
    Text.SplitAfter(b, c, sep);
    Text.SplitNoSeparator(c, sep);
  }

  /** The last piece of a split is whatever follows the last separator. */
  lemma {:induction false} LastPiece(a: string, b: string, sep: char)
    requires sep !in b
    ensures var parts := Text.Split(a + [sep] + b, sep);
            |parts| >= 2 && parts[|parts| - 1] == b
  {
    if a == [] {
      assert a + [sep] + b == [sep] + b;
      assert ([sep] + b)[1..] == b;
      Text.SplitNoSeparator(b, sep);
    } else {
      assert (a + [sep] + b)[1..] == a[1..] + [sep] + b;
      LastPiece(a[1..], b, sep);
    }
  }

  /** A row of the approved-applications query; either column may be null. */
  datatype ApprovedRow = ApprovedRow(approvedAmount: Option<int>, amount: Option<int>)

  /** `loan.approved_amount || loan.amount || 0`: the first non-null, non-zero of the two. */
  function RowValue(row: ApprovedRow): (v: int)
    ensures row.approvedAmount.Some? && row.approvedAmount.value != 0 ==> v == row.approvedAmount.value
    ensures ((row.approvedAmount.None? || row.approvedAmount.value == 0)
             && row.amount.Some? && row.amount.value != 0) ==> v == row.amount.value
    ensures v == 0 <==> (row.approvedAmount.None? || row.approvedAmount.value == 0)
                        && (row.amount.None? || row.amount.value == 0)
  {
    if row.approvedAmount.Some? && row.approvedAmount.value != 0 then row.approvedAmount.value
    else if row.amount.Some? && row.amount.value != 0 then row.amount.value
    else 0
  }

  function RowValueOf(): ApprovedRow -> int { (row: ApprovedRow) => RowValue(row) }

  /** `totalApprovedAmount`: the row values summed, and 0 when the query returned no rows. */
  function TotalApprovedAmount(rows: Option<seq<ApprovedRow>>): (total: int)
    ensures rows.None? || rows == Some([]) ==> total == 0
    ensures rows.Some? ==> total == Seqs.Sum(rows.value, RowValueOf())
  {
    if rows.None? then 0 else Seqs.Sum(rows.value, RowValueOf())
  }

  /** With no negative amounts the total is never negative, and adding rows adds their values. */
  lemma TotalApprovedAmountAdds(rows: seq<ApprovedRow>, more: seq<ApprovedRow>)
    ensures TotalApprovedAmount(Some(rows + more))
            == TotalApprovedAmount(Some(rows)) + TotalApprovedAmount(Some(more))
    ensures (forall r :: r in rows ==> RowValue(r) >= 0) ==> TotalApprovedAmount(Some(rows)) >= 0
  {
    Seqs.SumAppend(rows, more, RowValueOf());
    if forall r :: r in rows ==> RowValue(r) >= 0 {
      Seqs.SumNonNegative(rows, RowValueOf());
    }
  }

  /** `count || 0`: a null count from the backend becomes 0. */
  function CountOrZero(count: Option<nat>): (n: nat)
    ensures count.None? ==> n == 0
    ensures count.Some? ==> n == count.value
  {
    if count.None? then 0 else count.value
  }

  datatype DashboardStats = DashboardStats(
    totalApplications: nat,
    pendingApplications: nat,
    approvedApplications: nat,
    rejectedApplications: nat,
    totalCustomers: nat,
    totalApprovedAmount: int)

  /** `getDashboardStats` given what the five count queries and the approved-rows query
      returned: every count is a number, null counts reading as 0. */
  function DashboardStatsFrom(total: Option<nat>, pending: Option<nat>, approved: Option<nat>,
                              rejected: Option<nat>, customers: Option<nat>,
                              approvedRows: Option<seq<ApprovedRow>>): (stats: DashboardStats)
    ensures stats.totalApplications == CountOrZero(total)
    ensures stats.pendingApplications == CountOrZero(pending)
    ensures stats.approvedApplications == CountOrZero(approved)
    ensures stats.rejectedApplications == CountOrZero(rejected)
    ensures stats.totalCustomers == CountOrZero(customers)
    ensures stats.totalApprovedAmount == TotalApprovedAmount(approvedRows)
  {
    DashboardStats(CountOrZero(total), CountOrZero(pending), CountOrZero(approved),
                   CountOrZero(rejected), CountOrZero(customers), TotalApprovedAmount(approvedRows))
  }

  /** When the backend answers nothing at all, every statistic is 0. */
  lemma EmptyBackendStats()
    ensures DashboardStatsFrom(None, None, None, None, None, None) == DashboardStats(0, 0, 0, 0, 0, 0)
  {
  }
}
