/**
 * The day-by-day narrative of a predicted hospital stay.
 *
 * `GetDayDetails` follows the app's nested conditionals branch for branch:
 * first on the severity label, then on the 1-based day index, with the
 * earlier branch winning. `Category` and `Sentence` are an independent
 * reference definition of the same lookup, written as a classification of
 * the day followed by a table indexed by (severity, category); the lemmas
 * below connect the two and state the behaviour at the edges of a stay.
 */
module DayDetails {
  import opened Wrappers

  /** The three severity labels offered by the form. */
  datatype Severity = Mild | Moderate | Severe

  /** The position of a day within the stay, as the branch order decides it. */
  datatype DayCategory = First | Second | Interior | Final

  const MildFirst := "Basic assessments, diagnostic tests, and initiation of treatment."
  const MildSecond := "Continued monitoring with mild interventions if required."
  const MildInterior := "Stable condition with basic physiotherapy and continued care."
  const MildFinal := "Final evaluations and discharge preparations."

  const ModerateFirst := "Thorough assessments, blood work, and more complex treatments."
  const ModerateSecond := "Ongoing treatment adjustments based on the condition."
  const ModerateInterior := "Additional interventions like imaging or minor surgeries."
  const ModerateFinal := "Discharge planning and final reviews by the healthcare team."

  const SevereFirst := "Critical interventions and monitoring in the ICU."
  const SevereSecond := "Aggressive treatments or surgeries; patient remains under close observation."
  const SevereInterior := "Extended ICU care and possible second surgeries or interventions."
  const SevereFinal := "Transition to a recovery ward and preparation for discharge."

  /** The label the form uses for a severity. */
  function SeverityName(severity: Severity): string
  {
    match severity
    case Mild => "Mild"
    case Moderate => "Moderate"
    case Severe => "Severe"
  }

  /** Reads a severity label; any text other than the three labels is not a severity. */
  function ParseSeverity(s: string): (r: Option<Severity>)
    ensures r.Some? ==> SeverityName(r.value) == s
    ensures forall v: Severity :: SeverityName(v) == s ==> r == Some(v)
  {
    if s == "Mild" then Some(Mild)
    else if s == "Moderate" then Some(Moderate)
    else if s == "Severe" then Some(Severe)
    else None
  }

  /** Classifies a day: day 1 and day 2 first, then every day before the last, then the rest. */
  function Category(day: int, predictedLengthOfStay: int): DayCategory
  {
    if day == 1 then First
    else if day == 2 then Second
    else if day <= predictedLengthOfStay - 1 then Interior
    else Final
  }

  /** The fixed sentence for each severity and day category. */
  function Sentence(severity: Severity, category: DayCategory): string
  {
    match (severity, category)
    case (Mild, First) => MildFirst
    case (Mild, Second) => MildSecond
    case (Mild, Interior) => MildInterior
    case (Mild, Final) => MildFinal
    case (Moderate, First) => ModerateFirst
    case (Moderate, Second) => ModerateSecond
    case (Moderate, Interior) => ModerateInterior
    case (Moderate, Final) => ModerateFinal
    case (Severe, First) => SevereFirst
    case (Severe, Second) => SevereSecond
    case (Severe, Interior) => SevereInterior
    case (Severe, Final) => SevereFinal
  }

  /**
   * The app's lookup, as written: an unrecognised severity falls through
   * every branch and gives no text. Its result is the table entry for the
   * parsed severity and the day's category.
   */
  function GetDayDetails(day: int, predictedLengthOfStay: int, severity: string): (r: Option<string>)
    ensures r.None? <==> ParseSeverity(severity).None?
    ensures r.Some? ==> r.value == Sentence(ParseSeverity(severity).value, Category(day, predictedLengthOfStay))
  {
    if severity == "Mild" then
      if day == 1 then Some(MildFirst)
      else if day == 2 then Some(MildSecond)
      else if day <= predictedLengthOfStay - 1 then Some(MildInterior)
      else Some(MildFinal)
    else if severity == "Moderate" then
      if day == 1 then Some(ModerateFirst)
      else if day == 2 then Some(ModerateSecond)
      else if day <= predictedLengthOfStay - 1 then Some(ModerateInterior)
      else Some(ModerateFinal)
    else if severity == "Severe" then
      if day == 1 then Some(SevereFirst)
      else if day == 2 then Some(SevereSecond)
      else if day <= predictedLengthOfStay - 1 then Some(SevereInterior)
      else Some(SevereFinal)
    else
      None
  }

  /** For a day inside the stay, each category holds on exactly the days its name says. */
  lemma CategoryWithinStay(day: int, predictedLengthOfStay: int)
    requires 1 <= day <= predictedLengthOfStay
    ensures Category(day, predictedLengthOfStay) == First <==> day == 1
    ensures Category(day, predictedLengthOfStay) == Second <==> day == 2
    ensures Category(day, predictedLengthOfStay) == Interior <==> 3 <= day < predictedLengthOfStay
    ensures Category(day, predictedLengthOfStay) == Final <==> 3 <= day == predictedLengthOfStay
  {
  }

  /** Day 1 gets the first-day sentence whatever the length of the stay, even when it is also the last day. */
  lemma DayOneIsFirstDay(predictedLengthOfStay: int, severity: Severity)
    ensures GetDayDetails(1, predictedLengthOfStay, SeverityName(severity)) == Some(Sentence(severity, First))
  {
  }

  /** Day 2 gets the second-day sentence whatever the length of the stay, even when it is also the last day. */
  lemma DayTwoIsSecondDay(predictedLengthOfStay: int, severity: Severity)
    ensures GetDayDetails(2, predictedLengthOfStay, SeverityName(severity)) == Some(Sentence(severity, Second))
  {
  }

  /** A stay of one or two days never reaches the interior or final sentences. */
  lemma ShortStayHasNoInteriorOrFinal(day: int, predictedLengthOfStay: int)
    requires 1 <= day <= predictedLengthOfStay <= 2
    ensures Category(day, predictedLengthOfStay) != Interior
    ensures Category(day, predictedLengthOfStay) != Final
  {
  }

  /** Days strictly between day 2 and the last day get the interior sentence. */
  lemma MiddleDaysAreInterior(day: int, predictedLengthOfStay: int, severity: Severity)
    requires 3 <= day <= predictedLengthOfStay - 1
    ensures GetDayDetails(day, predictedLengthOfStay, SeverityName(severity)) == Some(Sentence(severity, Interior))
  {
  }

  /** The last day of a stay of three days or more gets the final sentence. */
  lemma LastDayIsFinal(predictedLengthOfStay: int, severity: Severity)
    requires predictedLengthOfStay >= 3
    ensures GetDayDetails(predictedLengthOfStay, predictedLengthOfStay, SeverityName(severity))
         == Some(Sentence(severity, Final))
  {
  }

  /** A label other than the three severities yields no text rather than a default sentence. */
  lemma UnknownSeverityHasNoText(day: int, predictedLengthOfStay: int, severity: string)
    requires severity != "Mild" && severity != "Moderate" && severity != "Severe"
    ensures GetDayDetails(day, predictedLengthOfStay, severity) == None
  {
  }

  /** The twelve sentences are pairwise distinct: the sentence determines both the severity and the category. */
  lemma SentenceInjective(s1: Severity, c1: DayCategory, s2: Severity, c2: DayCategory)
    requires Sentence(s1, c1) == Sentence(s2, c2)
    ensures s1 == s2 && c1 == c2
  {
  }

  /**
   * The text depends on the day only through its category: two days give the
   * same text for a recognised severity exactly when they fall in the same
   * category, and different severities never share a sentence.
   */
  lemma SameTextIffSameCategory(d1: int, n1: int, d2: int, n2: int, severity: Severity)
    ensures GetDayDetails(d1, n1, SeverityName(severity)) == GetDayDetails(d2, n2, SeverityName(severity))
        <==> Category(d1, n1) == Category(d2, n2)
  {
    if GetDayDetails(d1, n1, SeverityName(severity)) == GetDayDetails(d2, n2, SeverityName(severity)) {
      SentenceInjective(severity, Category(d1, n1), severity, Category(d2, n2));
    }
  }

  /** Two different severities never give the same text for any pair of days. */
  lemma SeveritiesHaveDisjointText(d1: int, n1: int, s1: Severity, d2: int, n2: int, s2: Severity)
    requires s1 != s2
    ensures GetDayDetails(d1, n1, SeverityName(s1)) != GetDayDetails(d2, n2, SeverityName(s2))
  {
    if GetDayDetails(d1, n1, SeverityName(s1)) == GetDayDetails(d2, n2, SeverityName(s2)) {
      SentenceInjective(s1, Category(d1, n1), s2, Category(d2, n2));
    }
  }
}
