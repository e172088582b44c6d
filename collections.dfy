/** The Collections screen: overdue loans with their total due, the ageing-category badge,
    the search and category filter, and the Call / Email actions of the collection roles. */
module Collections {

  import Seqs
  import Text

  datatype OverdueLoan = OverdueLoan(
    id: string,
    borrower: string,
    business: string,
    principalDue: int,
    interestDue: int,
    penaltyDue: int,
    daysPastDue: int,
    agent: string,
    category: string)

  /** The three seeded overdue loans. */
  function SeedOverdueLoans(): seq<OverdueLoan>
  {
    [ OverdueLoan("LN001", "Rajesh Kumar", "Kumar Electronics", 45000, 3200, 500, 15, "Amit Sharma", "0-30"),
      OverdueLoan("LN005", "Suresh Patel", "Patel Manufacturing", 120000, 8500, 2000, 45, "Priya Singh", "31-60"),
      OverdueLoan("LN008", "Meera Nair", "Nair Traders", 85000, 6200, 3500, 75, "Rahul Verma", "61-90") ]
  }

  /** `getTotalDue`: principal, interest and penalty together. */
  function TotalDue(loan: OverdueLoan): (due: int)
    ensures loan.interestDue >= 0 && loan.penaltyDue >= 0 ==> due >= loan.principalDue
  {
    loan.principalDue + loan.interestDue + loan.penaltyDue
  }

  function Principal(): OverdueLoan -> int { (l: OverdueLoan) => l.principalDue }
  function Interest(): OverdueLoan -> int { (l: OverdueLoan) => l.interestDue }
  function Penalty(): OverdueLoan -> int { (l: OverdueLoan) => l.penaltyDue }
  function Due(): OverdueLoan -> int { (l: OverdueLoan) => TotalDue(l) }

  /** Over any list, the total due is the principal, interest and penalty totals together. */
  lemma {:induction false} TotalDueSplits(loans: seq<OverdueLoan>)
    ensures Seqs.Sum(loans, Due())
            == Seqs.Sum(loans, Principal()) + Seqs.Sum(loans, Interest()) + Seqs.Sum(loans, Penalty())
  {
    if loans != [] {
      TotalDueSplits(loans[1..]);
    }
  }

  /** The seeded loans owe 48700, 130500 and 94700. */
  lemma SeedTotalsDue()
    ensures TotalDue(SeedOverdueLoans()[0]) == 48700
    ensures TotalDue(SeedOverdueLoans()[1]) == 130500
    ensures TotalDue(SeedOverdueLoans()[2]) == 94700
  {
  }

  /** `canTakeAction`: the Call and Email buttons are rendered only for these roles. */
  function CanTakeAction(userRole: string): (can: bool)
    ensures can <==> userRole == "admin" || userRole == "collections_officer"
  {
    userRole == "admin" || userRole == "collections_officer"
  }

  datatype CategoryStyle = Days0To30 | Days31To60 | Days61To90 | Days90Plus

  /** `getCategoryBadge`: an unknown category is shown as 0-30 days. */
  function CategoryBadge(category: string): (style: CategoryStyle)
    ensures style == Days0To30 <==> category !in ["31-60", "61-90", "90+"]
    ensures style == Days90Plus <==> category == "90+"
    ensures style == Days31To60 <==> category == "31-60"
    ensures style == Days61To90 <==> category == "61-90"
  {
    match category
    case "31-60" => Days31To60
    case "61-90" => Days61To90
    case "90+" => Days90Plus
    case _ => Days0To30
  }

  predicate MatchesSearch(loan: OverdueLoan, term: string)
  {
    Text.MatchesIgnoringCase(loan.borrower, term)
    || Text.MatchesIgnoringCase(loan.business, term)
    || Text.MatchesIgnoringCase(loan.id, term)
  }

  /** The category filter: 'all' passes everything, any other value needs an exact match. */
  predicate MatchesCategory(loan: OverdueLoan, categoryFilter: string)
  {
    categoryFilter == "all" || loan.category == categoryFilter
  }

  /** `filteredLoans`: the passing loans, in list order, none missing. */
  function FilteredLoans(loans: seq<OverdueLoan>, term: string, categoryFilter: string): (r: seq<OverdueLoan>)
    ensures Seqs.IsSubsequence(r, loans)
    ensures forall l :: l in r <==> l in loans && MatchesSearch(l, term) && MatchesCategory(l, categoryFilter)
    ensures forall l :: multiset(r)[l] ==
              if MatchesSearch(l, term) && MatchesCategory(l, categoryFilter) then multiset(loans)[l] else 0
  {
    var p := (l: OverdueLoan) => MatchesSearch(l, term) && MatchesCategory(l, categoryFilter);
    Seqs.FilterIsSubsequence(loans, p);
    forall l | l in loans && p(l) ensures l in Seqs.Filter(loans, p) {
      Seqs.FilterKeeps(loans, p, l);
    }
    Seqs.FilterMultiset(loans, p);
    Seqs.Filter(loans, p)
  }

  /** An empty search with category 'all' lists every loan. */
  lemma FilterDefaultsKeepAll(loans: seq<OverdueLoan>)
    ensures FilteredLoans(loans, "", "all") == loans
  {
    var p := (l: OverdueLoan) => MatchesSearch(l, "") && MatchesCategory(l, "all");
    forall l | l in loans ensures p(l) {
      Text.ContainsEmpty(Text.ToLower(l.borrower));
    }
    Seqs.FilterAllPass(loans, p);
  }

  /** Each seeded category filter keeps exactly its own loan. */
  lemma SeedCategoryFilter()
    ensures FilteredLoans(SeedOverdueLoans(), "", "31-60") == [SeedOverdueLoans()[1]]
    ensures FilteredLoans(SeedOverdueLoans(), "", "90+") == []
  {
    SeedMiddleCategory();
  }

  lemma SeedMiddleCategory()
    ensures FilteredLoans(SeedOverdueLoans(), "", "31-60") == [SeedOverdueLoans()[1]]
  {
    var loans := SeedOverdueLoans();
    Text.ContainsEmpty(Text.ToLower(loans[1].borrower));
    assert MatchesSearch(loans[1], "");
    assert loans[1..][1..][1..] == [];
    assert FilteredLoans(loans[1..][1..], "", "31-60") == [];
    assert FilteredLoans(loans[1..], "", "31-60") == [loans[1]];
  }
}
