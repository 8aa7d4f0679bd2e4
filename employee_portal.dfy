/**
 * The employee portal's task cards: the deadline urgency colour, the
 * days-left label and the priority badge.
 */
module EmployeePortal {
  import opened Text
  import ComplaintHistory

  const RedText := "text-red-600"
  const YellowText := "text-yellow-600"
  const GreenText := "text-green-600"

  /** `getUrgencyColor`: one day or less is red, up to three days yellow, more is green. */
  function UrgencyColor(daysLeft: int): string {
    if daysLeft <= 1 then RedText
    else if daysLeft <= 3 then YellowText
    else GreenText
  }

  /** How urgent a colour reads: red 2, yellow 1, green 0. */
  function UrgencyLevel(color: string): nat {
    if color == RedText then 2 else if color == YellowText then 1 else 0
  }

  /**
   * The three bands are disjoint and cover every integer: red exactly up to
   * one day, yellow exactly for two and three days, green exactly beyond.
   */
  lemma UrgencyBands(daysLeft: int)
    ensures UrgencyColor(daysLeft) == RedText <==> daysLeft <= 1
    ensures UrgencyColor(daysLeft) == YellowText <==> 2 <= daysLeft <= 3
    ensures UrgencyColor(daysLeft) == GreenText <==> daysLeft > 3
  {
    assert RedText[5] == 'r' && YellowText[5] == 'y' && GreenText[5] == 'g';
  }

  /** More days left never reads as more urgent. */
  lemma UrgencyMonotone(d1: int, d2: int)
    requires d1 <= d2
    ensures UrgencyLevel(UrgencyColor(d2)) <= UrgencyLevel(UrgencyColor(d1))
  {
    UrgencyBands(d1);
    UrgencyBands(d2);
  }

  /** The card's deadline text: `daysLeft > 0 ? `${daysLeft} days left` : 'Overdue'`. */
  function DaysLeftLabel(daysLeft: int): string {
    if daysLeft > 0 then DecimalString(daysLeft as nat) + " days left" else "Overdue"
  }

  /**
   * The label reads "Overdue" exactly when no day is left; otherwise it is the
   * decimal count followed by " days left".
   */
  lemma DaysLeftLabelSpec(daysLeft: int)
    ensures DaysLeftLabel(daysLeft) == "Overdue" <==> daysLeft <= 0
    ensures daysLeft > 0 ==>
      && DaysLeftLabel(daysLeft)[..|DaysLeftLabel(daysLeft)| - 10] == DecimalString(daysLeft as nat)
      && DecimalValue(DaysLeftLabel(daysLeft)[..|DaysLeftLabel(daysLeft)| - 10]) == daysLeft
  {
    if daysLeft > 0 {
      var digits := DecimalString(daysLeft as nat);
      var text := digits + " days left";
      assert |text| == |digits| + 10 > |"Overdue"|;
      assert text[..|text| - 10] == digits;
      DecimalRoundTrip(daysLeft as nat);
    }
  }

  /** The last day is still counted, not overdue, yet it is already shown in red. */
  lemma LastDayIsRedButNotOverdue()
    ensures UrgencyColor(1) == RedText && DaysLeftLabel(1) != "Overdue"
  {
    DaysLeftLabelSpec(1);
  }

  /** `getPriorityColor` of the employee portal. */
  function TaskPriorityColor(priority: string): string {
    if priority == "high" then "bg-red-100 text-red-800"
    else if priority == "medium" then "bg-yellow-100 text-yellow-800"
    else if priority == "low" then "bg-green-100 text-green-800"
    else "bg-gray-100 text-gray-800"
  }

  /** The employee portal's priority badge is the history view's, for every input. */
  lemma TaskPriorityColorIsHistoryColor(priority: string)
    ensures TaskPriorityColor(priority) == ComplaintHistory.PriorityColor(priority)
  {
  }
}
