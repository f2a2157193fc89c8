/**
 * The glue of the prediction form around the day lookup: the comorbidities
 * default and the procedure-code count computed from the form's text
 * fields, the clamp of the rounded prediction to [1, 12], and the loop that
 * emits one (day, text) entry for each day of the predicted stay.
 */
module StayPrediction {
  import opened Wrappers
  import opened DayDetails

  const MinStay := 1
  const MaxStay := 12

  /** Restricts a rounded prediction to the range [MinStay, MaxStay], as `np.clip` does on integers. */
  function Clamp(x: int): (r: int)
    ensures MinStay <= r <= MaxStay
    // r is the point of the range nearest to x
    ensures forall y :: MinStay <= y <= MaxStay ==> Distance(r, x) <= Distance(y, x)
  {
    if x < MinStay then MinStay else if x > MaxStay then MaxStay else x
  }

  /** The distance between two integers. */
  function Distance(a: int, b: int): nat
  {
    if a <= b then b - a else a - b
  }

  /** A value already in range is kept; values below go to the minimum and values above to the maximum. */
  lemma ClampCases(x: int)
    ensures MinStay <= x <= MaxStay ==> Clamp(x) == x
    ensures x < MinStay ==> Clamp(x) == MinStay
    ensures x > MaxStay ==> Clamp(x) == MaxStay
  {
  }

  /** Clamping twice is clamping once, and a larger prediction never gives a shorter stay. */
  lemma ClampIdempotentAndMonotone(x: int, y: int)
    ensures Clamp(Clamp(x)) == Clamp(x)
    ensures x <= y ==> Clamp(x) <= Clamp(y)
  {
  }

  /** Python's `s.split(sep)` for a one-character separator: the pieces between separators, empty ones included. */
  function Split(s: string, sep: char): (pieces: seq<string>)
    ensures |pieces| == multiset(s)[sep] + 1
    ensures forall i :: 0 <= i < |pieces| ==> sep !in pieces[i]
  {
    if s == [] then [[]]
    else
      var rest := Split(s[1..], sep);
      assert s == [s[0]] + s[1..];
      if s[0] == sep then [[]] + rest
      else [[s[0]] + rest[0]] + rest[1..]
  }

  /** The pieces with the separator between them: the inverse of `Split`. */
  function Join(pieces: seq<string>, sep: char): string
  {
    if pieces == [] then []
    else if |pieces| == 1 then pieces[0]
    else pieces[0] + [sep] + Join(pieces[1..], sep)
  }

  /** Putting one more character at the front of the first piece puts it at the front of the joined text. */
  lemma JoinExtendFirst(c: char, pieces: seq<string>, sep: char)
    requires |pieces| >= 1
    ensures Join([[c] + pieces[0]] + pieces[1..], sep) == [c] + Join(pieces, sep)
  {
    var extended := [[c] + pieces[0]] + pieces[1..];
    assert extended[0] == [c] + pieces[0] && extended[1..] == pieces[1..];
  }

  /** An empty first piece in front of the pieces puts a separator in front of the joined text. */
  lemma JoinEmptyFirst(pieces: seq<string>, sep: char)
    requires |pieces| >= 1
    ensures Join([[]] + pieces, sep) == [sep] + Join(pieces, sep)
  {
    assert ([[]] + pieces)[1..] == pieces;
  }

  /** Joining the pieces of a split with the same separator gives back the text. */
  lemma {:induction false} JoinSplit(s: string, sep: char)
    ensures Join(Split(s, sep), sep) == s
  {
    if s != [] {
      var rest := Split(s[1..], sep);
      JoinSplit(s[1..], sep);
      if s[0] == sep {
        assert Split(s, sep) == [[]] + rest;
        JoinEmptyFirst(rest, sep);
      } else {
        assert Split(s, sep) == [[s[0]] + rest[0]] + rest[1..];
        JoinExtendFirst(s[0], rest, sep);
      }
      assert [s[0]] + s[1..] == s;
    }
  }

  /** The number of procedure codes entered: no codes for empty text, otherwise one more than the commas. */
  function ProcedureCodesCount(procedureCodes: string): (count: nat)
    ensures procedureCodes == [] ==> count == 0
    ensures procedureCodes != [] ==> count == multiset(procedureCodes)[','] + 1
  {
    if procedureCodes != [] then |Split(procedureCodes, ',')| else 0
  }

  /** The comorbidities text after its default has been applied, and the procedure-code count, as the form computes them. */
  method NormaliseInputs(comorbidities: string, procedureCodes: string)
    returns (normalisedComorbidities: string, procedureCodesCount: nat)
    ensures comorbidities == [] ==> normalisedComorbidities == "None"
    ensures comorbidities != [] ==> normalisedComorbidities == comorbidities
    ensures procedureCodesCount == ProcedureCodesCount(procedureCodes)
  {
    normalisedComorbidities := comorbidities;
    if normalisedComorbidities == [] {
      normalisedComorbidities := "None";
    }
    procedureCodesCount := ProcedureCodesCount(procedureCodes);
  }

  /** One line of the breakdown: the day number and the text shown for it. */
  datatype DayEntry = DayEntry(day: int, details: Option<string>)

  /** The entries for days 1..k of a stay of `predictedLengthOfStay` days. */
  function DaysUpTo(k: int, predictedLengthOfStay: int, severity: string): seq<DayEntry>
    decreases k
  {
    if k <= 0 then []
    else DaysUpTo(k - 1, predictedLengthOfStay, severity)
         + [DayEntry(k, GetDayDetails(k, predictedLengthOfStay, severity))]
  }

  /** The whole breakdown: one entry per day of the stay, days 1 to n. */
  function Breakdown(predictedLengthOfStay: int, severity: string): seq<DayEntry>
  {
    DaysUpTo(predictedLengthOfStay, predictedLengthOfStay, severity)
  }

  /** The first k entries are numbered 1..k in order, and each carries the lookup for its day. */
  lemma {:induction false} DaysUpToShape(k: int, predictedLengthOfStay: int, severity: string)
    ensures |DaysUpTo(k, predictedLengthOfStay, severity)| == if k <= 0 then 0 else k
    ensures forall i :: 0 <= i < |DaysUpTo(k, predictedLengthOfStay, severity)| ==>
      DaysUpTo(k, predictedLengthOfStay, severity)[i]
        == DayEntry(i + 1, GetDayDetails(i + 1, predictedLengthOfStay, severity))
  {
    if k > 0 {
      DaysUpToShape(k - 1, predictedLengthOfStay, severity);
    }
  }

  /** A stay of n >= 1 days has exactly n entries, numbered 1, 2, ..., n. */
  lemma BreakdownNumbered(n: int, severity: string)
    requires n >= 1
    ensures |Breakdown(n, severity)| == n
    ensures forall i :: 0 <= i < n ==> Breakdown(n, severity)[i].day == i + 1
    ensures forall i :: 0 <= i < n ==> Breakdown(n, severity)[i].details == GetDayDetails(i + 1, n, severity)
  {
    DaysUpToShape(n, n, severity);
  }

  /** A one-day stay shows the first-day sentence, even though day 1 is also the last day. */
  lemma OneDayStay(severity: Severity)
    ensures Breakdown(1, SeverityName(severity)) == [DayEntry(1, Some(Sentence(severity, First)))]
  {
  }

  /** A two-day stay shows the first-day and second-day sentences and nothing else. */
  lemma TwoDayStay(severity: Severity)
    ensures Breakdown(2, SeverityName(severity))
         == [DayEntry(1, Some(Sentence(severity, First))), DayEntry(2, Some(Sentence(severity, Second)))]
  {
  }

  /** A five-day severe stay: ICU care, aggressive treatment, two days of extended ICU care, then recovery. */
  lemma FiveDaySevereStay()
    ensures Breakdown(5, "Severe")
         == [DayEntry(1, Some(SevereFirst)), DayEntry(2, Some(SevereSecond)), DayEntry(3, Some(SevereInterior)),
             DayEntry(4, Some(SevereInterior)), DayEntry(5, Some(SevereFinal))]
  {
  }

  /** A stay of three or more days ends on the final sentence and shows it on no other day. */
  lemma FinalSentenceOnlyOnLastDay(n: int, severity: Severity, i: int)
    requires n >= 3 && 0 <= i < n
    ensures |Breakdown(n, SeverityName(severity))| == n
    ensures Breakdown(n, SeverityName(severity))[i].details == Some(Sentence(severity, Final)) <==> i == n - 1
  {
    BreakdownNumbered(n, SeverityName(severity));
    CategoryWithinStay(i + 1, n);
    SameTextIffSameCategory(i + 1, n, n, n, severity);
  }

  /** An unrecognised severity gives every day of the stay no text. */
  lemma UnknownSeverityBreakdown(n: int, severity: string, i: int)
    requires ParseSeverity(severity).None?
    requires 0 <= i < |Breakdown(n, severity)|
    ensures Breakdown(n, severity)[i].details == None
  {
    DaysUpToShape(n, n, severity);
  }

  /** The per-day loop of the form: one entry per day, in day order. */
  method DayBreakdown(predictedLengthOfStay: int, severity: string) returns (entries: seq<DayEntry>)
    ensures entries == Breakdown(predictedLengthOfStay, severity)
  {
    entries := [];
    var day := 1;
    while day <= predictedLengthOfStay
      invariant 1 <= day && (day <= predictedLengthOfStay + 1 || day == 1)
      invariant entries == DaysUpTo(day - 1, predictedLengthOfStay, severity)
    {
      entries := entries + [DayEntry(day, GetDayDetails(day, predictedLengthOfStay, severity))];
      day := day + 1;
    }
  }

  /**
   * What the predict button shows once the model's estimate has been
   * rounded: the clamped number of days and its breakdown.
   */
  method ReportStay(roundedPrediction: int, severity: string) returns (days: int, entries: seq<DayEntry>)
    ensures days == Clamp(roundedPrediction)
    ensures MinStay <= days <= MaxStay && |entries| == days
    ensures entries == Breakdown(days, severity)
  {
    days := Clamp(roundedPrediction);
    entries := DayBreakdown(days, severity);
    BreakdownNumbered(days, severity);
  }
}
