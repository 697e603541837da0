/**
 * The texts shown and spoken to the user: the form feedback with its
 * per-severity fallback, the milestone announcement for a rep count, and the
 * banded verdict on a form score.
 */
module FeedbackMessages {
  import opened Numeric
  import opened FormValidator

  const GoodFallback: string := "Good form!"
  const WarningFallback: string := "Adjust your form"
  const ErrorFallback: string := "Correct your form"

  /** The validator's own message, or the severity's fallback when that message is empty. */
  function GetFeedbackMessage(feedback: FormFeedback, exerciseName: string): (r: string)
    ensures r != []
    ensures feedback.message != [] ==> r == feedback.message
    ensures feedback.message == [] ==>
              r == (match feedback.severity
                    case Good => GoodFallback
                    case Warning => WarningFallback
                    case Error => ErrorFallback)
  {
    match feedback.severity
    case Good => if feedback.message != [] then feedback.message else GoodFallback
    case Warning => if feedback.message != [] then feedback.message else WarningFallback
    case Error => if feedback.message != [] then feedback.message else ErrorFallback
  }

  /** The decimal digit of a value below ten. */
  function DigitChar(d: nat): (c: char)
    requires d < 10
    ensures '0' <= c <= '9' && (c as int) - ('0' as int) == d
  {
    (('0' as int) + d) as char
  }

  /** A natural number written in decimal, without leading zeros. */
  function Digits(n: nat): (s: string)
    ensures s != []
    ensures forall i :: 0 <= i < |s| ==> '0' <= s[i] <= '9'
    ensures |s| > 1 ==> s[0] != '0'
    decreases n
  {
    if n < 10 then [DigitChar(n)] else Digits(n / 10) + [DigitChar(n % 10)]
  }

  /** A whole number as a template string shows it: a minus sign for negatives, then its digits. */
  function IntToString(n: int): (s: string)
    ensures s != []
    ensures n < 0 <==> s[0] == '-'
  {
    if n < 0 then "-" + Digits(-n) else Digits(n)
  }

  /** The value a string of decimal digits denotes. */
  function DecimalValue(s: string): nat
    requires forall i :: 0 <= i < |s| ==> '0' <= s[i] <= '9'
    decreases |s|
  {
    if s == [] then 0
    else DecimalValue(s[..|s| - 1]) * 10 + ((s[|s| - 1] as int) - ('0' as int))
  }

  /** Reading back the digits of a number gives that number. */
  lemma {:induction false} DigitsRoundTrip(n: nat)
    ensures DecimalValue(Digits(n)) == n
    decreases n
  {
    if n >= 10 {
      DigitsRoundTrip(n / 10);
      var s := Digits(n);
      assert s[..|s| - 1] == Digits(n / 10);
    }
  }

  /** Different numbers have different digits. */
  lemma DigitsInjective(a: nat, b: nat)
    requires Digits(a) == Digits(b)
    ensures a == b
  {
    DigitsRoundTrip(a);
    DigitsRoundTrip(b);
  }

  /** Different numbers are shown differently. */
  lemma IntToStringInjective(a: int, b: int)
    requires IntToString(a) == IntToString(b)
    ensures a == b
  {
    var s := IntToString(a);
    if a < 0 {
      assert b < 0;
      assert s[1..] == Digits(-a) by { assert s == "-" + Digits(-a); }
      assert s[1..] == Digits(-b) by { assert s == "-" + Digits(-b); }
      DigitsInjective(-a, -b);
    } else {
      assert 0 <= b;
      DigitsInjective(a, b);
    }
  }

  const StartMessage: string := "Let's go! Start your first rep"
  const OneMoreMessage: string := "One more rep! You've got this!"

  /** Which announcement a rep count earns. */
  datatype Announcement = Start | Completed | Halfway | OneMore | Milestone | Silent

  /**
   * The announcement for reaching `repCount` of `target` reps, the first
   * case that applies winning: the start, the target, the floored half, one
   * to go, every fifth rep; otherwise nothing.
   */
  function RepAnnouncement(repCount: int, target: int): (a: Announcement)
    ensures a == Start <==> repCount == 0
    ensures a == Completed <==> repCount != 0 && repCount == target
    ensures a == Halfway <==> repCount != 0 && repCount != target && repCount == FloorDiv(target, 2)
    ensures a == OneMore <==>
              repCount != 0 && repCount != target && repCount != FloorDiv(target, 2) && repCount == target - 1
    ensures a == Silent <==>
              repCount != 0 && repCount != target && repCount != FloorDiv(target, 2)
              && repCount != target - 1 && repCount % 5 != 0
  {
    if repCount == 0 then Start
    else if repCount == target then Completed
    else if repCount == FloorDiv(target, 2) then Halfway
    else if repCount == target - 1 then OneMore
    else if repCount % 5 == 0 then Milestone
    else Silent
  }

  /** The text of an announcement; only silence is empty. */
  function AnnouncementText(a: Announcement, repCount: int, target: int): (r: string)
    ensures r == [] <==> a == Silent
  {
    match a
    case Start => StartMessage
    case Completed => "Amazing! You completed " + IntToString(target) + " reps!"
    case Halfway => "Halfway there! " + IntToString(repCount) + " reps done"
    case OneMore => OneMoreMessage
    case Milestone => IntToString(repCount) + " reps completed! Keep going!"
    case Silent => ""
  }

  /** `getRepCountMessage`: the text of the announcement the count earns, empty when there is none. */
  function GetRepCountMessage(repCount: int, target: int): (r: string)
    ensures r == [] <==> RepAnnouncement(repCount, target) == Silent
  {
    AnnouncementText(RepAnnouncement(repCount, target), repCount, target)
  }

  /**
   * For a target of 20: the start, the half, every fifth rep, one to go and
   * the target are announced, other reps are not; for a target of 2 the
   * halfway announcement hides "one more", and reaching the target wins over
   * a multiple of five.
   */
  lemma RepCountExamples()
    ensures RepAnnouncement(0, 20) == Start
    ensures RepAnnouncement(10, 20) == Halfway
    ensures RepAnnouncement(15, 20) == Milestone
    ensures RepAnnouncement(19, 20) == OneMore
    ensures RepAnnouncement(20, 20) == Completed
    ensures RepAnnouncement(7, 20) == Silent
    ensures RepAnnouncement(1, 2) == Halfway
  {
  }

  /** The count is spelled out in decimal: 15 of 20 reads "15 reps completed! Keep going!". */
  lemma MilestoneText()
    ensures IntToString(15) == "15"
    ensures GetRepCountMessage(15, 20) == IntToString(15) + " reps completed! Keep going!"
  {
    assert RepAnnouncement(15, 20) == Milestone;
    assert Digits(1) == [DigitChar(1)];
    assert DigitChar(1) == '1' && DigitChar(5) == '5';
  }

  const ExcellentMessage: string := "Excellent form!"
  const GoodScoreMessage: string := "Good form, keep it up!"
  const FocusMessage: string := "Focus on your form"
  const PostureMessage: string := "Adjust your posture"

  /** The verdict on a form score: 90 and above, 70 and above, 50 and above, below 50. */
  function GetFormScoreMessage(score: real): (r: string)
    ensures r == ExcellentMessage <==> 90.0 <= score
    ensures r == GoodScoreMessage <==> 70.0 <= score < 90.0
    ensures r == FocusMessage <==> 50.0 <= score < 70.0
    ensures r == PostureMessage <==> score < 50.0
  {
    if score >= 90.0 then ExcellentMessage
    else if score >= 70.0 then GoodScoreMessage
    else if score >= 50.0 then FocusMessage
    else PostureMessage
  }

  /** How favourable a verdict is, from 0 (adjust posture) to 3 (excellent). */
  function Rank(message: string): nat
  {
    if message == ExcellentMessage then 3
    else if message == GoodScoreMessage then 2
    else if message == FocusMessage then 1
    else 0
  }

  /** A higher score never earns a less favourable verdict. */
  lemma FormScoreMessageMonotone(lower: real, higher: real)
    requires lower <= higher
    ensures Rank(GetFormScoreMessage(lower)) <= Rank(GetFormScoreMessage(higher))
  {
  }
}
