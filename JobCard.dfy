/**
 * The display rules of a job card: how long ago a job was posted, which
 * skill chips are shown, and the badge text for the job type. The job
 * details page uses the same relative-date rule.
 */
module JobCard {
  import opened Wrappers
  import opened Text
  import opened Types

  /**
   * `formatDate` from a whole number of days since posting. A date in the
   * future gives a negative count, which falls into the "days ago" case.
   */
  function FormatDate(days: int): string {
    if days == 0 then "Today"
    else if days == 1 then "1 day ago"
    else if days < 7 then IntToDecimal(days) + " days ago"
    else if days < 30 then NatToDecimal(days / 7) + " weeks ago"
    else NatToDecimal(days / 30) + " months ago"
  }

  /** One day reads in the singular. */
  lemma OneDayAgo()
    ensures FormatDate(1) == "1 day ago"
  {
  }

  /** From two to six days the exact count is written. */
  lemma DaysAgo(days: int)
    requires 2 <= days < 7
    ensures FormatDate(days) == NatToDecimal(days) + " days ago"
    ensures DecimalValue(NatToDecimal(days)) == days
  {
    DecimalRoundTrip(days);
  }

  /** A future date is reported as a negative number of days ago. */
  lemma FutureDaysAgo(days: int) returns (ahead: nat)
    requires days < 0
    ensures ahead == -days
    ensures FormatDate(days) == "-" + NatToDecimal(ahead) + " days ago"
    ensures DecimalValue(NatToDecimal(ahead)) == ahead
  {
    ahead := -days;
    DecimalRoundTrip(ahead);
  }

  /** From seven to 29 days the text counts whole weeks, between one and four. */
  lemma WeeksAgo(days: int) returns (weeks: nat)
    requires 7 <= days < 30
    ensures 1 <= weeks <= 4 && 7 * weeks <= days < 7 * weeks + 7
    ensures FormatDate(days) == NatToDecimal(weeks) + " weeks ago"
    ensures DecimalValue(NatToDecimal(weeks)) == weeks
  {
    weeks := days / 7;
    DecimalRoundTrip(weeks);
  }

  /** The whole second week reads "1 weeks ago". */
  lemma SecondWeek(days: int)
    requires 7 <= days <= 13
    ensures FormatDate(days) == "1 weeks ago"
  {
    var weeks := WeeksAgo(days);
    assert weeks == 1;
  }

  /** From 30 days on the text counts whole 30-day months, at least one. */
  lemma MonthsAgo(days: int) returns (months: nat)
    requires days >= 30
    ensures months >= 1 && 30 * months <= days < 30 * months + 30
    ensures FormatDate(days) == NatToDecimal(months) + " months ago"
    ensures DecimalValue(NatToDecimal(months)) == months
  {
    months := days / 30;
    DecimalRoundTrip(months);
  }

  /** "Today" is shown for a zero count and for no other. */
  lemma TodayOnlyForZero(days: int)
    ensures FormatDate(days) == "Today" <==> days == 0
  {
    if days != 0 {
      var r := FormatDate(days);
      assert r[|r| - 1] == 'o';
    }
  }

  /** The skill chips: the first four skills, or all of them when there are fewer. */
  function SkillChips(skills: seq<string>): (r: seq<string>)
    ensures |r| <= 4 && |r| <= |skills| && r == skills[..|r|]
    ensures |r| == |skills| || |r| == 4
  {
    if |skills| <= 4 then skills else skills[..4]
  }

  /** The "+k more" chip: present exactly when more than four skills exist. */
  function MoreCount(skills: seq<string>): (r: Option<nat>)
    ensures r.Some? <==> |skills| > 4
  {
    if |skills| > 4 then Some(|skills| - 4) else None
  }

  /** The shown chips and the "+k more" count together account for every skill. */
  lemma ChipsAccountForAll(skills: seq<string>)
    ensures |SkillChips(skills)| + MoreCount(skills).GetOr(0) == |skills|
    ensures SkillChips(skills) + skills[|SkillChips(skills)|..] == skills
  {
  }

  /** The type badge: the stored type text with its first letter upper-cased. */
  function TypeBadge(t: JobType): (r: string)
    ensures |r| == |TypeLabel(t)| && r[1..] == TypeLabel(t)[1..]
    ensures r[0] == UpperChar(TypeLabel(t)[0]) && 'A' <= r[0] <= 'Z'
  {
    Capitalize(TypeLabel(t))
  }

  /** The four badges. */
  lemma TypeBadges()
    ensures TypeBadge(FullTime) == "Full-time" && TypeBadge(PartTime) == "Part-time"
    ensures TypeBadge(Internship) == "Internship" && TypeBadge(Contract) == "Contract"
  {
    assert "full-time"[1..] == "ull-time";
    assert "part-time"[1..] == "art-time";
    assert "internship"[1..] == "nternship";
    assert "contract"[1..] == "ontract";
  }
}
