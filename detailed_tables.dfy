/** The dashboard's detailed tables: the video-KYC queue's status and priority badges and the
    EMI table's amount colour and days-past-due badge. */
module DetailedTables {

  import Text

  datatype StatusStyle = ScheduledStyle | PendingStyle | CompletedStyle | FailedStyle

  /** `getStatusBadge`: an unknown status is shown as pending. */
  function StatusBadge(status: string): (style: StatusStyle)
    ensures style == PendingStyle <==> status !in ["scheduled", "completed", "failed"]
    ensures style == ScheduledStyle <==> status == "scheduled"
    ensures style == CompletedStyle <==> status == "completed"
    ensures style == FailedStyle <==> status == "failed"
  {
    match status
    case "scheduled" => ScheduledStyle
    case "completed" => CompletedStyle
    case "failed" => FailedStyle
    case _ => PendingStyle
  }

  datatype PriorityStyle = HighPriority | MediumPriority | LowPriority

  /** `getPriorityBadge`: an unknown priority is shown as medium. */
  function PriorityBadge(priority: string): (style: PriorityStyle)
    ensures style == MediumPriority <==> priority != "high" && priority != "low"
    ensures style == HighPriority <==> priority == "high"
    ensures style == LowPriority <==> priority == "low"
  {
    match priority
    case "high" => HighPriority
    case "low" => LowPriority
    case _ => MediumPriority
  }

  datatype EmiColor = GreenText | YellowText | RedText

  /** `getEMIStatusColor`: green when nothing is overdue, yellow up to a week, red beyond. */
  function EmiStatusColor(daysPastDue: int): (color: EmiColor)
    ensures color == GreenText <==> daysPastDue == 0
    ensures color == YellowText <==> daysPastDue != 0 && daysPastDue <= 7
    ensures color == RedText <==> daysPastDue > 7
  {
    if daysPastDue == 0 then GreenText
    else if daysPastDue <= 7 then YellowText
    else RedText
  }

  /** How alarming a colour is. */
  function Severity(color: EmiColor): nat
  {
    match color
    case GreenText => 0
    case YellowText => 1
    case RedText => 2
  }

  /** For non-negative days past due the colour never becomes less alarming as the days grow. */
  lemma EmiColorMonotone(a: int, b: int)
    requires 0 <= a <= b
    ensures Severity(EmiStatusColor(a)) <= Severity(EmiStatusColor(b))
  {
  }

  /** The bound matters: a negative count is shown yellow, above the green of 0. */
  lemma NegativeDaysShownYellow()
    ensures EmiStatusColor(-1) == YellowText
    ensures Severity(EmiStatusColor(-1)) > Severity(EmiStatusColor(0))
  {
  }

  const DaysSuffix: string := " days"

  /** The badge text: 'On Time' for 0, otherwise the number followed by ' days'. */
  function DpdBadgeText(daysPastDue: int): (text: string)
    ensures daysPastDue == 0 ==> text == "On Time"
    ensures daysPastDue != 0 ==>
              |text| > |DaysSuffix| && text[|text| - |DaysSuffix|..] == DaysSuffix
              && text[..|text| - |DaysSuffix|] == Text.IntToString(daysPastDue)
  {
    if daysPastDue == 0 then "On Time"
    else
      var text := Text.IntToString(daysPastDue) + DaysSuffix;
      assert text[..|text| - |DaysSuffix|] == Text.IntToString(daysPastDue);
      text
  }

  /** The badge reads 'On Time' exactly when nothing is overdue, and for a positive count the
      number in front of ' days' reads back as that count. */
  lemma DpdBadgeRoundTrip(daysPastDue: int)
    ensures DpdBadgeText(daysPastDue) == "On Time" <==> daysPastDue == 0
    ensures daysPastDue > 0 ==>
              var text := DpdBadgeText(daysPastDue);
              var digits := text[..|text| - |DaysSuffix|];
              (forall i :: 0 <= i < |digits| ==> Text.IsDigit(digits[i]))
              && Text.ParseNat(digits) == daysPastDue
  {
    var text := DpdBadgeText(daysPastDue);
    if daysPastDue != 0 {
      assert text[|text| - 1] == 's';
      assert "On Time"[6] == 'e';
    }
    if daysPastDue > 0 {
      Text.ParseNatToString(daysPastDue);
    }
  }

  /** The badge is green exactly when the text says 'On Time', red otherwise. */
  function DpdBadgeGreen(daysPastDue: int): (green: bool)
    ensures green <==> DpdBadgeText(daysPastDue) == "On Time"
  {
    DpdBadgeRoundTrip(daysPastDue);
    daysPastDue == 0
  }
}
