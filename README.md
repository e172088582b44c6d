# PaisaDekho loan-lens: a Dafny model of the dashboard's rules

PaisaDekho loan-lens is a role-gated admin dashboard for a small-business lender. Staff sign in with a
role. The role decides:

- which menu entries they get;
- which pages they may open;
- which actions each screen offers them.

The screens themselves are lists of loans, applications, payouts, overdue accounts and KYC cases. Each
list has search and status filters, summary cards and one-record-at-a-time actions.

This project models the rules behind those screens. Badge colours and CSS become plain enumeration tags.

- **Authorization.** `AuthContext` models the permission check, the five seeded staff accounts and the
  login state machine:
  - five-strike lockout;
  - fixed-code second factor;
  - append-only session list.

  `ProtectedRoute` models the route guard over the application's route table. `Roles`, `AppSidebar` and
  `UserManagement` hold the role tables. Four screens gate their actions on a role flag:
  `LoanManagement`, `Collections`, `KycCompliance` and `RiskUnderwriting` through `CanTakeAction`,
  and `UserManagement` through `CanManageUsers`. `LoanOrigination`, `DisbursementModule` and
  `CreditScoring` receive the role but never read it, so their Approve/Reject, Retry and Calculate
  buttons are offered to every role.
- **Credit scoring.** `CreditScoring` models the calculator: five threshold ladders summed onto 300,
  clamped at 850, then banded.
- **Record lists.** A module per screen:
  - `LoanManagement` and `LoanOrigination` model the approve/reject actions;
  - `UserManagement` models adding a user and toggling a user's status;
  - `DisbursementModule` models the payout retry and its delayed completion;
  - `Collections`, `KycCompliance` and `RiskUnderwriting` model their filters, totals and badges.
- **Dashboard tables and header.** `DetailedTables` models the EMI colours and the days-past-due badge.
  `Header` models the avatar initials.
- **Data access.** `Database` models the storage path of an uploaded document and the dashboard
  statistics' defaults.

`Seqs` and `Text` are shared helpers. `Seqs` holds filter, count, sum and subsequence, with lemmas. `Text`
holds ASCII case mapping, substring search, split and join, and decimal rendering and parsing.

Component state that the source updates in place is modelled as a class whose `seq` fields the methods
reassign:

- the provider's accounts and sessions;
- the user list;
- the loan, application and payout lists with their dialog state.

Pure lookups, ladders, filters and totals are modelled as functions, with lemmas relating them.

Values the browser or the backend supplies are parameters:

- the clock (`now`, `date`);
- the random session id;
- the user agent;
- the random outcome of a payout retry;
- what the backend queries returned.

The debt-to-income test divides by the monthly income, so an income of 0 is decided by the sign of the
debt. A non-negative debt gives NaN or `+Infinity`, which fail every `<` test and earn nothing. A
negative debt gives `-Infinity`, which passes the first test and earns the top 150 points.
`CreditScoring.RatioBelow` compares by cross-multiplication and states both cases in its `debt < 0`
branch; `CreditScoring.DebtToIncomePoints` states both results.

## Model

| member | source | states |
|---|---|---|
| CreditScoring.IncomePoints | src/components/CreditScoring.tsx:85-88 | between 0 and 150; no points exactly below an income of 20000 |
| CreditScoring.DebtToIncomePoints | src/components/CreditScoring.tsx:90-93 | between 0 and 150; an income of 0 with a non-negative debt earns nothing, because NaN and +Infinity fail every `<` test, and with a negative debt earns 150, because -Infinity passes the first |
| CreditScoring.CashFlowPoints | src/components/CreditScoring.tsx:95-98 | between 0 and 100; no points exactly below a cash flow of 5000 |
| CreditScoring.BusinessAgePoints | src/components/CreditScoring.tsx:100-103 | between 0 and 100; no points exactly below one year |
| CreditScoring.CreditHistoryPoints | src/components/CreditScoring.tsx:105-108 | between 0 and 100; no points exactly below 580 |
| CreditScoring.RawScore | src/components/CreditScoring.tsx:83-108 | the unclamped score is 300 plus the five contributions, so it lies in [300, 900] |
| CreditScoring.Score | src/components/CreditScoring.tsx:110 | the published score lies in [300, 850]; it equals the raw score unless it was clamped to 850 |
| CreditScoring.CalculateCreditScore | src/components/CreditScoring.tsx:72-111 | the imperative accumulation through the five ladders returns exactly `Score(d)`, within [300, 850] |
| CreditScoring.ScoreForm.constructor | src/components/CreditScoring.tsx:70 | no score has been calculated yet |
| CreditScoring.ScoreForm.Calculate | src/components/CreditScoring.tsx:110 | stores `Score(d)`, and the result panel is then shown |
| CreditScoring.ResultAlwaysShown | src/components/CreditScoring.tsx:233 | every computed score is truthy, so the result panel always appears after a calculation |
| CreditScoring.ScoreBand | src/components/CreditScoring.tsx:120-125 | Excellent iff score ≥ 750, Good iff 650 ≤ score < 750, Fair iff 500 ≤ score < 650, Poor iff score < 500 |
| CreditScoring.BandLabel | src/components/CreditScoring.tsx:120-125 | each band has its own label word, and each label word names exactly one band |
| CreditScoring.ScoreBadgeLabel | src/components/CreditScoring.tsx:120-125 | the badge reads 'Excellent' iff score ≥ 750, 'Good' iff 650 ≤ score < 750, 'Fair' iff 500 ≤ score < 650, 'Poor' iff score < 500 |
| CreditScoring.ScoreColorOf | src/components/CreditScoring.tsx:113-118 | the colour ladder always agrees with the band of the same score |
| CreditScoring.Recommendation | src/components/CreditScoring.tsx:254-262 | the recommendation text always agrees with the band of the same score |
| CreditScoring.EmptyFormScore | src/components/CreditScoring.tsx:74-80 | an all-empty form (every field 0) scores 300, band Poor |
| CreditScoring.ZeroIncomeNoDebtPoints | src/components/CreditScoring.tsx:80 | with income 0 and a debt ≥ 0 the debt-to-income factor adds nothing |
| CreditScoring.PlaceholderScore | src/components/CreditScoring.tsx:171-215 | the placeholder values give 300+150+0+100+70+70 = 690, band Good |
| CreditScoring.TopProfileScore | src/components/CreditScoring.tsx:83-110 | every factor at its top step gives a raw 900, clamped to 850, Excellent |
| CreditScoring.ScoreMonotoneInBusinessAge | src/components/CreditScoring.tsx:100-103 | with the other fields fixed, a longer business age never lowers the score |
| CreditScoring.ScoreMonotoneInCreditHistory | src/components/CreditScoring.tsx:105-108 | a higher credit history never lowers the score |
| CreditScoring.ScoreAntitoneInExpenses | src/components/CreditScoring.tsx:81 | higher expenses never raise the score |
| CreditScoring.ScoreMonotoneInIncome | src/components/CreditScoring.tsx:80-93 | with debt ≥ 0 and income ≥ 0, a higher income never lowers the score, through both the income and the debt-to-income factor |
| CreditScoring.RatioBelowMonotone | src/components/CreditScoring.tsx:80 | for debt ≥ 0, if the ratio is below a threshold at some non-negative income then it is below it at any higher income |
| CreditScoring.RatioBelow | src/components/CreditScoring.tsx:80 | for a non-zero income, agrees with the rational comparison `debt / income < num / den`; for income 0 (NaN or ±Infinity in JavaScript) holds iff the debt is negative |
| CreditScoring.CrossMultiplied | src/components/CreditScoring.tsx:80 | over the rationals, `debt / income < num / den` is the cross-multiplied comparison, reversed for a negative income |
| AuthContext.SeedAccounts | src/contexts/AuthContext.tsx:42-108 | five seeded accounts, all active and unlocked, with no failed attempts |
| AuthContext.Includes | src/contexts/AuthContext.tsx:216 | `includes` is exact membership |
| AuthContext.HasPermission | src/contexts/AuthContext.tsx:214-217 | false with no user; otherwise true iff the user's list holds 'all' or exactly the requested string |
| AuthContext.WildcardGrantsEverything | src/contexts/AuthContext.tsx:214-217 | a holder of 'all' is granted every permission |
| AuthContext.NoPrefixMatching | src/contexts/AuthContext.tsx:214-217 | a list ['loans'] grants neither 'loan' nor 'Loans': the match is exact and case-sensitive |
| AuthContext.FindActive | src/contexts/AuthContext.tsx:131 | the index found is the first active account with that exact email; no index means no account is both |
| AuthContext.RecordFailure | src/contexts/AuthContext.tsx:141-149 | one more failed attempt, locked once five are reached, nothing else changes |
| AuthContext.RecordFailureKeepsConsistent | src/contexts/AuthContext.tsx:141-149 | the lockout invariant (at most five attempts, locked iff five) survives a failure on an unlocked account |
| AuthContext.FiveFailuresLock | src/contexts/AuthContext.tsx:141-149 | four failures leave a fresh account unlocked; the fifth locks it |
| AuthContext.LockedRefusedWhateverPassword | src/contexts/AuthContext.tsx:137-139 | a locked account is refused whatever password or code is given |
| AuthContext.GrantedIff | src/contexts/AuthContext.tsx:137-161 | access is granted iff the account is unlocked, the password matches and, when 2FA is on, the code is '123456' |
| AuthContext.SignedInUser | src/contexts/AuthContext.tsx:164-178 | the signed-in user carries the account's id, name, email, role, permissions, active and two-factor flags, with zero attempts, unlocked, and the login time |
| AuthContext.NewSession | src/contexts/AuthContext.tsx:181-188 | the new session is active and belongs to the signed-in account |
| AuthContext.EndSessionsOf | src/contexts/AuthContext.tsx:207-209 | same length; exactly the sessions of the signed-out user are flagged inactive, the rest are unchanged |
| AuthContext.EndSessionWithId | src/contexts/AuthContext.tsx:236-238 | same length; exactly the sessions with that id are flagged inactive, the rest are unchanged |
| AuthContext.EndSessionWithIdNoMoreActive | src/contexts/AuthContext.tsx:235-241 | terminating a session never increases the number of active sessions |
| AuthContext.EndSessionsOfIdempotent | src/contexts/AuthContext.tsx:201-212 | logging the same user's sessions out twice is the same as once |
| AuthContext.AuthProvider.constructor | src/contexts/AuthContext.tsx:110-113 | seeded accounts, nobody signed in, no sessions, invariant established |
| AuthContext.AuthProvider.Login | src/contexts/AuthContext.tsx:130-199 | keeps the invariant that the flag is set iff there is a user and that every account is lock-consistent; unknown or inactive email: 'Invalid credentials' with no change; locked: refused, account untouched, and a locked account is never changed by any call; wrong password: only that account's counter and lock change; missing or wrong code: nothing changes; success: the counter is reset, exactly one active session for that user is appended, and the user is signed in |
| AuthContext.AuthProvider.Logout | src/contexts/AuthContext.tsx:201-212 | signs out; the session list becomes `EndSessionsOf` the old list and old user; accounts unchanged |
| AuthContext.AuthProvider.TerminateSession | src/contexts/AuthContext.tsx:235-241 | the session list becomes `EndSessionWithId` of the old list; nothing else changes |
| ProtectedRoute.Gate | src/components/ProtectedRoute.tsx:11-23 | signed out: /login; signed in with no or an empty required permission: render; signed in otherwise: render iff `HasPermission`, /dashboard iff not |
| ProtectedRoute.LoginRedirectIffSignedOut | src/components/ProtectedRoute.tsx:14-16 | the guard sends to /login exactly the signed-out visitors |
| ProtectedRoute.Visit | src/App.tsx:27-55 | unguarded routes always render; guarded ones decide by `Gate` with the route's permission |
| ProtectedRoute.Routes | src/App.tsx:27-55 | eight routes with distinct paths ending in the unguarded catch-all `*`; every route that asks for a permission is guarded |
| ProtectedRoute.LoanRoutesRequireLoans | src/App.tsx:39-53 | the loan, loan-application and borrower routes ask for 'loans', and no route asks for anything else |
| ProtectedRoute.LoanPagesBySeededRole | src/App.tsx:39-53 | on those pages the seeded administrator, credit officer and risk manager get in; the collections and compliance officers are redirected to /dashboard |
| ProtectedRoute.SignedOutGoesToLogin | src/components/ProtectedRoute.tsx:14-16 | signed out, every guarded route leads to /login |
| Roles.RoleBadge | src/components/Header.tsx:13-22 | admin iff red; an unknown role gets the credit officer's blue, as in `getRoleBadge` of src/components/UserManagement.tsx:106-115 |
| Roles.KnownRoleBadgesDistinct | src/components/Header.tsx:13-22 | the five known roles have five different badges |
| Roles.RoleLabel | src/components/Header.tsx:64 | same length as the role; the first '_' becomes a space and every other character is upper-cased in place (a-z to A-Z), so no lower-case letter remains |
| Roles.KnownRoleLabelsHaveNoUnderscore | src/components/Header.tsx:64 | no '_' is left in the label of any of the five known roles |
| UserManagement.RolePermissions | src/components/UserManagement.tsx:84-90 | admin iff ['all']; only admin gets the wildcard; unknown roles get []; known roles get at least one permission |
| UserManagement.UserId | src/components/UserManagement.tsx:137 | starts with 'USR'; six characters up to number 999 |
| UserManagement.UserIdInjective | src/components/UserManagement.tsx:137 | equal ids come from equal numbers (the zero-padded number reads back) |
| UserManagement.UserIdsDiffer | src/components/UserManagement.tsx:137 | different numbers give different ids |
| UserManagement.NewUserRecord | src/components/UserManagement.tsx:136-144 | id from the list length + 1, the form's fields, 'active', 'Never', loginCount 0, the role's permissions |
| UserManagement.Toggled | src/components/UserManagement.tsx:154 | result 'active' iff the status was not 'active'; result 'inactive' iff it was |
| UserManagement.ToggledTwice | src/components/UserManagement.tsx:154 | flipping an 'active' or 'inactive' status twice restores it |
| UserManagement.ToggleStatus | src/components/UserManagement.tsx:151-157 | same length; only users with that id change, and only their status |
| UserManagement.ToggleStatusTwice | src/components/UserManagement.tsx:151-157 | toggling the same id twice restores the list when the statuses are active/inactive |
| UserManagement.FilteredUsers | src/components/UserManagement.tsx:125-132 | a subsequence of the users; a user is in it iff it passes the search, role and status tests; every copy of a passing entry is kept and no copy of a failing one |
| UserManagement.FilterDefaultsKeepAll | src/components/UserManagement.tsx:125-132 | an empty search with both filters at 'all' keeps the whole list |
| UserManagement.ActiveUsers | src/components/UserManagement.tsx:166-170 | the active count never exceeds the number of users |
| UserManagement.DistinctRolesBound | src/components/UserManagement.tsx:172-176 | the 'Roles' card (distinct role strings) never exceeds the number of users |
| UserManagement.AddedUserIsCounted | src/components/UserManagement.tsx:134-149 | adding a user raises the active count by exactly one |
| UserManagement.CanManageUsers | src/components/UserManagement.tsx:123 | true iff the role is 'admin' |
| UserManagement.StatusBadge | src/components/UserManagement.tsx:117-121 | the active style iff the status is 'active' |
| UserManagement.SeedIdsFollowPositions | src/components/UserManagement.tsx:33-82 | the seeded ids USR001..USR004 are numbered by position |
| UserManagement.IdsDistinct | src/components/UserManagement.tsx:137 | while ids follow positions (each appended user numbered one past those before it) no two users share an id |
| UserManagement.IdAt | src/components/UserManagement.tsx:137 | under the numbering the i-th user carries the id numbered first + i |
| UserManagement.AppendKeepsPositions | src/components/UserManagement.tsx:136-144 | appending the user numbered one past the list's length keeps the list numbered by position |
| UserManagement.SameIdsKeepPositions | src/components/UserManagement.tsx:151-157 | a change that leaves every id alone, such as a status flip, keeps the numbering |
| UserManagement.UserDirectory.constructor | src/components/UserManagement.tsx:93-104 | the given list, an empty form, the dialog closed |
| UserManagement.UserDirectory.EditForm | src/components/UserManagement.tsx:99-104 | only the form changes |
| UserManagement.UserDirectory.AddUser | src/components/UserManagement.tsx:134-149 | with name, email or role empty nothing changes; otherwise exactly one record is appended at the end, the form is cleared and the dialog is closed; ids stay numbered by position |
| UserManagement.UserDirectory.ToggleUserStatus | src/components/UserManagement.tsx:151-157 | the list becomes `ToggleStatus` of the old list; the form and dialog are unchanged |
| AppSidebar.Ids | src/components/AppSidebar.tsx:37-70 | the menu's ids, in order |
| AppSidebar.MenuFor | src/components/AppSidebar.tsx:37-70 | the admin menu lists all seven module ids; an unknown role gets an empty menu |
| AppSidebar.KnownMenus | src/components/AppSidebar.tsx:37-70 | every known role's menu starts with 'dashboard', has no duplicate id, uses only the admin's ids, and contains 'users' iff the role is admin |
| AppSidebar.MenuIdFacts | src/components/AppSidebar.tsx:37-70 | each of the five id lists of the menu table opens with 'dashboard', has no duplicate, lists only module ids, and only the administrator's lists 'users' |
| AppSidebar.UnknownRoleEmptyMenu | src/components/AppSidebar.tsx:78 | an unknown role gets no menu entry |
| AppSidebar.RenderActiveModule | src/components/Dashboard.tsx:21-40 | any id other than the seven falls back to the dashboard home, and the dashboard home is shown only for 'dashboard' or such an id |
| AppSidebar.ModuleScreensDistinct | src/components/Dashboard.tsx:21-40 | the seven module ids open seven different screens |
| LoanManagement.StatusBadge | src/components/LoanManagement.tsx:91-100 | an unknown status gets the pending style; approved and rejected have their own |
| LoanManagement.RiskBadge | src/components/LoanManagement.tsx:102-106 | green iff ≥ 8, yellow iff 6.5 ≤ score < 8, red iff < 6.5 |
| LoanManagement.RiskBadgeMonotone | src/components/LoanManagement.tsx:102-106 | a higher score never gets a worse tone |
| LoanManagement.CanTakeAction | src/components/LoanManagement.tsx:126 | true iff admin, credit_officer or risk_manager |
| LoanManagement.DecisionButtonsShown | src/components/LoanManagement.tsx:400 | true iff the role can act and the loan is pending |
| LoanManagement.DecidedStatus | src/components/LoanManagement.tsx:111 | 'approved' iff approve, 'rejected' iff reject |
| LoanManagement.ApplyDecision | src/components/LoanManagement.tsx:109-113 | same length and order; loans with that id take the decided status, all others are unchanged |
| LoanManagement.DecidedLoanHasNoButtons | src/components/LoanManagement.tsx:108-116 | after a decision the decided loan shows no decision buttons to anyone |
| LoanManagement.ApplyDecisionLastWins | src/components/LoanManagement.tsx:108-116 | of two decisions on the same loan the later one wins |
| LoanManagement.FilteredLoans | src/components/LoanManagement.tsx:118-124 | a subsequence of the loans; a loan is in it iff it passes the search and status tests; every copy of a passing entry is kept and no copy of a failing one |
| LoanManagement.FilterDefaultsKeepAll | src/components/LoanManagement.tsx:118-124 | an empty search with status 'all' keeps every loan |
| LoanManagement.StatusLabel | src/components/LoanManagement.tsx:233 | same length; the first '_' becomes a space and every other character is upper-cased in place; exactly one '_' fewer when there is one; no lower-case letter |
| LoanManagement.LoanDesk.constructor | src/components/LoanManagement.tsx:85-89 | the seeded loans, no selection, an empty comment |
| LoanManagement.LoanDesk.Select | src/components/LoanManagement.tsx:88 | only the selection changes |
| LoanManagement.LoanDesk.EditComment | src/components/LoanManagement.tsx:89 | only the comment changes |
| LoanManagement.LoanDesk.HandleLoanAction | src/components/LoanManagement.tsx:108-116 | the list becomes `ApplyDecision` of the old list; the comment is '' and the selection is cleared |
| LoanOrigination.StatusBadge | src/components/LoanOrigination.tsx:156-164 | an unknown status gets the submitted style |
| LoanOrigination.PriorityBadge | src/components/LoanOrigination.tsx:166-173 | an unknown priority gets the normal style |
| LoanOrigination.ReviewButtonsShown | src/components/LoanOrigination.tsx:458 | Approve/Reject are offered iff the application is in review |
| LoanOrigination.FilteredApplications | src/components/LoanOrigination.tsx:181-191 | a subsequence; an application is in it iff it passes the search, status, priority and assignee tests; every copy of a passing entry is kept and no copy of a failing one |
| LoanOrigination.FilterDefaultsKeepAll | src/components/LoanOrigination.tsx:181-191 | the initial filters keep every application |
| LoanOrigination.SearchFindsOwnIdAndPhone | src/components/LoanOrigination.tsx:182-186 | the id finds its application in any letter case; the phone typed as stored finds it |
| LoanOrigination.StatusCount | src/components/LoanOrigination.tsx:271-295 | a card's count never exceeds the number of applications |
| LoanOrigination.ApprovedValue | src/components/LoanOrigination.tsx:304 | the approval amount when present and non-zero, otherwise the requested amount |
| LoanOrigination.TotalApproved | src/components/LoanOrigination.tsx:304 | 0 when nothing is approved; never negative when the approved applications have non-negative values; its change on approval is proved in ApproveAddsToTotal |
| LoanOrigination.SeedSummary | src/components/LoanOrigination.tsx:271-304 | the seeded queue shows one application per card and 12000 approved |
| LoanOrigination.Updated | src/components/LoanOrigination.tsx:201-217 | the time is stamped; approve sets 'approved'; reject sets 'rejected' and the remarks as reason; request-docs keeps the status; nothing else changes |
| LoanOrigination.ApplyAction | src/components/LoanOrigination.tsx:201-221 | same length; applications with the selected id are updated, all others are returned unchanged |
| LoanOrigination.ApplyActionAt | src/components/LoanOrigination.tsx:201-221 | with distinct ids an action rewrites exactly one position |
| LoanOrigination.DecisionMovesOneCard | src/components/LoanOrigination.tsx:271-295 | approving or rejecting an in-review application moves it from 'Under Review' to its card; other cards keep their counts |
| LoanOrigination.RequestDocsKeepsCounts | src/components/LoanOrigination.tsx:213-215 | requesting documents moves nothing between cards |
| LoanOrigination.RequestDocsKeepsStatuses | src/components/LoanOrigination.tsx:213-215 | lists with the same statuses position by position have the same card counts |
| LoanOrigination.ApproveAddsToTotal | src/components/LoanOrigination.tsx:304 | approving an in-review application raises 'Total Approved' by its `approvalAmount \|\| amount` |
| LoanOrigination.OriginationDesk.constructor | src/components/LoanOrigination.tsx:147-154 | the seeded queue, no selection, no action type, empty remarks |
| LoanOrigination.OriginationDesk.DialogOpen | src/components/LoanOrigination.tsx:488 | the dialog is open iff there is a non-empty selection and an action type |
| LoanOrigination.OriginationDesk.HandleAction | src/components/LoanOrigination.tsx:193-196 | selects the application and the action, which opens the dialog; nothing else changes |
| LoanOrigination.OriginationDesk.EditRemarks | src/components/LoanOrigination.tsx:154 | only the remarks change |
| LoanOrigination.OriginationDesk.SubmitAction | src/components/LoanOrigination.tsx:198-227 | with no selection or no action type nothing changes; otherwise the list becomes `ApplyAction` of the old one and the selection, action type and remarks are cleared |
| DisbursementModule.StatusBadge | src/components/DisbursementModule.tsx:113-121 | an unknown status gets the pending style |
| DisbursementModule.SeedNetIsApprovedLessFees | src/components/DisbursementModule.tsx:26-104 | in every seeded record the net payout is the approved amount less the displayed fees (line 368) |
| DisbursementModule.Fees | src/components/DisbursementModule.tsx:368 | processing fee plus GST, so never below either part when both are non-negative |
| DisbursementModule.RetryOffered | src/components/DisbursementModule.tsx:425 | the Retry button is rendered iff the payout failed |
| DisbursementModule.RetryEnabled | src/components/DisbursementModule.tsx:425-430 | clickable iff failed with fewer than three retries |
| DisbursementModule.UtrShown | src/components/DisbursementModule.tsx:394-398 | the UTR line is shown iff the UTR is present and non-empty |
| DisbursementModule.FilteredDisbursements | src/components/DisbursementModule.tsx:138-146 | a subsequence; a record is in it iff it passes the search, status and method tests; every copy of a passing entry is kept and no copy of a failing one |
| DisbursementModule.NullUtrSearch | src/components/DisbursementModule.tsx:139-142 | a record with a null UTR matches only through its name, loan id or id |
| DisbursementModule.FilterDefaultsKeepAll | src/components/DisbursementModule.tsx:138-146 | the initial filters keep every record |
| DisbursementModule.TotalFailed | src/components/DisbursementModule.tsx:189 | never more failures than records |
| DisbursementModule.TotalDisbursed | src/components/DisbursementModule.tsx:181-183 | 0 when no payout succeeded; never negative when successful payouts have non-negative amounts; its change on a successful completion is proved in SuccessAddsToDisbursed |
| DisbursementModule.TotalPending | src/components/DisbursementModule.tsx:185-187 | 0 when nothing is pending or processing; never negative when those records have non-negative approved amounts; its change on a retry click is proved in RetryMovesToPending |
| DisbursementModule.EscrowRemaining | src/components/DisbursementModule.tsx:229 | the full escrow balance when nothing is pending or processing |
| DisbursementModule.EscrowRemainingAtMostBalance | src/components/DisbursementModule.tsx:229 | with non-negative approved amounts the remaining escrow never exceeds the balance |
| DisbursementModule.SeedTotals | src/components/DisbursementModule.tsx:181-189 | the seeded cards: 65000 disbursed, 12000 pending, one failure, 2488000 remaining |
| DisbursementModule.Processing | src/components/DisbursementModule.tsx:151-155 | 'processing' with one more retry, nothing else changed |
| DisbursementModule.MarkProcessing | src/components/DisbursementModule.tsx:149-159 | same length; records with that id become processing, all others are unchanged |
| DisbursementModule.Settled | src/components/DisbursementModule.tsx:165-173 | success: 'success', the approved amount paid, a UTR 'UTR' + clock and a date, no failure reason; failure: 'failed', nothing paid, no UTR or date, 'Bank server timeout'; nothing else changed |
| DisbursementModule.Complete | src/components/DisbursementModule.tsx:163-176 | same length; records with that id are settled, all others are unchanged |
| DisbursementModule.UtrShownIffSuccess | src/components/DisbursementModule.tsx:170 | after a completion the UTR is shown iff the payout succeeded |
| DisbursementModule.RetryMovesToPending | src/components/DisbursementModule.tsx:181-189 | retrying a failed payout adds its approved amount to 'pending', takes it off the remaining escrow, removes one failure, and leaves 'disbursed' unchanged |
| DisbursementModule.SuccessAddsToDisbursed | src/components/DisbursementModule.tsx:181-189 | a successful completion of a failed payout adds its approved amount to 'disbursed', removes one failure, and leaves 'pending' unchanged |
| DisbursementModule.RetryCycleAsWritten | src/components/DisbursementModule.tsx:148-179 | click plus completion as written: every retry count is as before the click; the retried record is settled from its pre-click state |
| DisbursementModule.AsWrittenRetryNeverExhausts | src/components/DisbursementModule.tsx:163-177 | as written, a retryable payout is still retryable after a failed retry |
| DisbursementModule.SeedFailedPayoutStaysRetryable | src/components/DisbursementModule.tsx:63 | the seeded DISB002 keeps 2 retries and an enabled button after a failed retry |
| DisbursementModule.RetryCycle | src/components/DisbursementModule.tsx:148-179 | as intended: the retried record gains one retry and is settled; every other record is unchanged |
| DisbursementModule.FailedRetries | src/components/DisbursementModule.tsx:148-179 | n failed retries as intended keep the list length |
| DisbursementModule.FailedRetriesCount | src/components/DisbursementModule.tsx:148-179 | after n > 0 failed retries the payout is failed with n more retries; others untouched |
| DisbursementModule.RetriesExhaust | src/components/DisbursementModule.tsx:425-430 | as intended, a payout with c retries can fail 3 − c more times before its button is disabled |
| DisbursementModule.DisbursementDesk.constructor | src/components/DisbursementModule.tsx:107 | the seeded payouts |
| DisbursementModule.DisbursementDesk.RetryDisbursement | src/components/DisbursementModule.tsx:148-159 | the list becomes `MarkProcessing` of the old one; the pre-click list is handed back as the completion's capture |
| DisbursementModule.DisbursementDesk.CompleteRetry | src/components/DisbursementModule.tsx:162-178 | the list becomes the captured list, settled |
| DisbursementModule.RetryScenario | src/components/DisbursementModule.tsx:148-179 | click then completion stores `RetryCycleAsWritten` of the list before the click |
| Collections.TotalDue | src/components/Collections.tsx:114-116 | with non-negative interest and penalty the total is at least the principal |
| Collections.TotalDueSplits | src/components/Collections.tsx:114-116 | over any list, the total due is the principal, interest and penalty totals together |
| Collections.SeedTotalsDue | src/components/Collections.tsx:39-82 | the seeded loans owe 48700, 130500 and 94700 |
| Collections.CanTakeAction | src/components/Collections.tsx:118 | true iff admin or collections_officer |
| Collections.CategoryBadge | src/components/Collections.tsx:104-112 | an unknown category gets the 0-30 style |
| Collections.FilteredLoans | src/components/Collections.tsx:120-126 | a subsequence; a loan is in it iff it passes the search and category tests; every copy of a passing entry is kept and no copy of a failing one |
| Collections.FilterDefaultsKeepAll | src/components/Collections.tsx:120-126 | an empty search with category 'all' keeps every loan |
| Collections.SeedCategoryFilter | src/components/Collections.tsx:124 | '31-60' keeps exactly the seeded LN005; '90+' keeps nothing |
| KycCompliance.CanTakeAction | src/components/KYCCompliance.tsx:136 | true iff admin or compliance_officer |
| KycCompliance.DecisionButtonsShown | src/components/KYCCompliance.tsx:455 | true iff the role can act and the application is pending |
| KycCompliance.SeedDecisions | src/components/KYCCompliance.tsx:43-83 | of the seeded queue only KYC001 can be decided, and only by a deciding role |
| KycCompliance.StatusBadge | src/components/KYCCompliance.tsx:104-112 | an unknown status gets the pending style |
| KycCompliance.SeverityBadge | src/components/KYCCompliance.tsx:127-134 | an unknown severity gets the medium style |
| KycCompliance.FilteredApplications | src/components/KYCCompliance.tsx:138-144 | a subsequence; an application is in it iff it passes the search and status tests; every copy of a passing entry is kept and no copy of a failing one |
| KycCompliance.FilterDefaultsKeepAll | src/components/KYCCompliance.tsx:138-144 | the initial filters keep every application |
| KycCompliance.StatusFilterIsExact | src/components/KYCCompliance.tsx:142 | a status filter other than 'all' lists only applications in that status |
| RiskUnderwriting.RiskBand | src/components/RiskUnderwriting.tsx:98-102 | low iff ≥ 8, medium iff 6.5 ≤ score < 8, high iff < 6.5: the bands partition the scores |
| RiskUnderwriting.RiskLabel | src/components/RiskUnderwriting.tsx:98-102 | 'Low Risk', 'Medium Risk', 'High Risk' at the same cut points |
| RiskUnderwriting.BandsAgreeWithLoanBadge | src/components/RiskUnderwriting.tsx:98-102 | the bands agree with the Loan Management risk badge: low green, medium yellow, high red |
| RiskUnderwriting.CanTakeAction | src/components/RiskUnderwriting.tsx:117 | true iff admin or risk_manager |
| RiskUnderwriting.VisibleQueue | src/components/RiskUnderwriting.tsx:273 | the queue keeps every loan |
| RiskUnderwriting.RiskFilterIgnored | src/components/RiskUnderwriting.tsx:96 | any two risk-level selections show the same queue, the whole list |
| RiskUnderwriting.SeedLowFilterShowsHighRisk | src/components/RiskUnderwriting.tsx:258 | with 'low' selected the high-risk LN004 is still listed |
| DetailedTables.StatusBadge | src/components/dashboard/DetailedTables.tsx:89-97 | an unknown status gets the pending style |
| DetailedTables.PriorityBadge | src/components/dashboard/DetailedTables.tsx:99-106 | an unknown priority gets the medium style |
| DetailedTables.EmiStatusColor | src/components/dashboard/DetailedTables.tsx:108-112 | green iff 0 days past due, yellow iff non-zero and ≤ 7, red iff > 7 |
| DetailedTables.EmiColorMonotone | src/components/dashboard/DetailedTables.tsx:108-112 | for non-negative days the colour never gets less alarming as days grow |
| DetailedTables.NegativeDaysShownYellow | src/components/dashboard/DetailedTables.tsx:110 | a negative count is shown yellow, above the green of 0 |
| DetailedTables.DpdBadgeText | src/components/dashboard/DetailedTables.tsx:213 | 'On Time' for 0, otherwise the number followed by ' days' |
| DetailedTables.DpdBadgeRoundTrip | src/components/dashboard/DetailedTables.tsx:212-213 | 'On Time' iff 0 days; for a positive count the digits before ' days' parse back to it |
| DetailedTables.DpdBadgeGreen | src/components/dashboard/DetailedTables.tsx:212 | the badge is green iff it reads 'On Time' |
| Header.FirstChar | src/components/Header.tsx:25 | one character for a non-empty piece, nothing for an empty one |
| Header.Firsts | src/components/Header.tsx:25 | never more characters than pieces |
| Header.GetInitials | src/components/Header.tsx:24-26 | never more initials than pieces, and no lower-case letter |
| Header.FirstsOfWords | src/components/Header.tsx:25 | over non-empty pieces, one character per piece: its first |
| Header.InitialsOfWords | src/components/Header.tsx:24-26 | for non-empty words joined by single spaces, one initial per word, its upper-cased first letter |
| Header.EmptyPiecesGiveNothing | src/components/Header.tsx:25 | the empty name and a name of spaces have no initials |
| Header.ExampleInitials | src/components/Header.tsx:24-26 | 'Rajesh Kumar' gives 'RK' |
| Header.HeaderRendered | src/components/Header.tsx:28 | rendered iff a user is signed in |
| Database.FileExtension | src/services/database.ts:249 | has no '.'; the whole name when it has none; otherwise the suffix after the last '.' |
| Database.LastPieceIsSuffix | src/services/database.ts:249 | the last piece of a split is a suffix of the string, preceded by the separator when there is one |
| Database.StoragePath | src/services/database.ts:250 | starts with the application id and '/', ends with '.' and the extension |
| Database.StoragePathRoundTrip | src/services/database.ts:249-250 | for '/'-free parts, splitting the path on '/' gives back the id, the type and the stamped file name, and the extension reads back unchanged |
| Database.StoragePathSplits | src/services/database.ts:249-250 | with '/'-free id, type and extension the path splits on '/' into exactly the id, the type and the stamped file name |
| Database.StoragePathExtension | src/services/database.ts:249-250 | the extension of the stored path is the extension it was built with |
| Database.LastPiece | src/services/database.ts:249 | the last piece of a split is what follows the last separator |
| Database.RowValue | src/services/database.ts:218 | the approved amount when present and non-zero, otherwise the amount when present and non-zero, otherwise 0; 0 iff both columns are null or 0 |
| Database.TotalApprovedAmount | src/services/database.ts:217-218 | 0 with no rows or a null result; otherwise the sum of the row values |
| Database.TotalApprovedAmountAdds | src/services/database.ts:217-218 | the total over concatenated rows is the sum of the totals; non-negative rows give a non-negative total |
| Database.CountOrZero | src/services/database.ts:220-227 | a null count becomes 0, a present one is kept |
| Database.DashboardStatsFrom | src/services/database.ts:196-228 | every count is the query's count or 0, and the total approved amount as above |
| Database.EmptyBackendStats | src/services/database.ts:220-227 | with every query empty all statistics are 0 |

## Left out

- All rendering: JSX, charts, dialogs, toasts and CSS classes. Badge and colour results are enumeration tags.
- Backend and browser I/O:
  - Supabase queries and storage uploads;
  - the react-query hooks;
  - `localStorage` persistence and restoring the user and sessions on mount;
  - `navigator.userAgent`.

  Where the model needs these values, they are parameters.
- The clock and randomness are parameters (`now`, `date`, the session id, the retry outcome):
  - `new Date().toISOString()`;
  - `Date.now()`;
  - the random session id;
  - the 70 % random outcome of a payout retry.
- Time and concurrency:
  - the three-second delay of the payout completion is not modelled;
  - the click and the completion are two separate method calls;
  - nothing else happening between them is not modelled, apart from the list being overwritten.
- The lockout time is written by `login` but never read, so lock expiry is not modelled.
- `enable2FA`, `verify2FA` and `resetPassword` in src/contexts/AuthContext.tsx are fixed stubs and are not modelled.
- The context type in src/contexts/AuthContext.tsx declares no `full_name`, `signOut` or `availableUsers`.
  The sign-in page, the landing page and parts of the header use them. Their sign-in flow is not part of
  this model. `Header.GetInitials` is stated for any name string.
- `parseInt` text parsing is not modelled. The calculator takes already-parsed integers, with an empty or
  non-numeric field given as 0.
- Floating point:
  - risk scores and interest rates are exact `real`s;
  - EMI rounding, progress percentages, averages, `toFixed` and `toLocaleString` are not modelled.
- Upper- and lower-casing are ASCII only. JavaScript's Unicode case mapping is not modelled.
- Property lookups that could hit an object's prototype (`rolePermissions['toString']`, `menuItems['constructor']`)
  are modelled as plain table misses.
- UserManagement.UserDirectory.AddUser: the created date is a parameter. The model does not check that it
  is the date part of the current ISO timestamp.
- `EMICollection.tsx` repeats the EMI colour rule of src/components/dashboard/DetailedTables.tsx:108-112.
  That rule is modelled once, as `DetailedTables.EmiStatusColor`.
- Pages and widgets that only display fixed mock data are not modelled:
  - loan details, borrower profile, loan application;
  - reports, analytics and fraud;
  - KPI cards, charts, alerts, layout.
- DisbursementModule.RetryOffered, DisbursementModule.RetryEnabled: the row also shows the failure reason
  and the retry count. Those two display conditions are not modelled.

## Findings

| source | as written | input that shows it | evidently intended | confidence | as-written member | corrected member |
|---|---|---|---|---|---|---|
| src/components/DisbursementModule.tsx:163-177 | the delayed completion maps the `disbursements` list captured when Retry was clicked, so the record it stores lacks the `retryCount + 1` of the click; a failed retry leaves the count where it was and the limit of three retries (line 430) is never reached | seeded DISB002 (failed, retryCount 2): click Retry, the bank fails; the record is failed with retryCount 2 and Retry stays enabled, forever | the completion settles the list holding the click's update, so each failed retry counts and the button is disabled after 3 − c more failures | high (not executed) | DisbursementModule.AsWrittenRetryNeverExhausts | DisbursementModule.RetriesExhaust |
