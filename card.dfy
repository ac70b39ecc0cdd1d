/** The card tile of a list: its relative creation time and its creator's name
    (src/components/Card.jsx). The tile's label colours and avatar colour are the tables of
    module Palette. */
module CardView {
  import opened Common
  import FilterBar

  const MinuteMs: int := 60000
  const HourMs: int := 3600000
  const DayMs: int := 86400000

  /** What `formatDate` shows: nothing for a missing date, a relative age, or (a week and
      more ago) the locale's date, which this model does not render. */
  datatype Age = NoDate | JustNow | MinutesAgo(n: nat) | HoursAgo(n: nat) | DaysAgo(n: nat) | LocaleDate
  {
    /** The text of the tile; None for the locale date. */
    function Text(): Option<string> {
      match this
      case NoDate => Some("")
      case JustNow => Some("just now")
      case MinutesAgo(n) => Some(NatToString(n) + "m ago")
      case HoursAgo(n) => Some(NatToString(n) + "h ago")
      case DaysAgo(n) => Some(NatToString(n) + "d ago")
      case LocaleDate => None
    }
  }

  /** `formatDate` on the milliseconds elapsed since the card was created (`now - date`;
      None when the card has no date). `Math.floor` is Dafny's division by a positive. */
  function FormatDate(elapsedMs: Option<int>): (r: Age)
    ensures elapsedMs == None <==> r == NoDate
    ensures elapsedMs != None ==> var v := elapsedMs.value;
      && (r == JustNow <==> v < MinuteMs)
      && (r.MinutesAgo? <==> MinuteMs <= v < HourMs)
      && (r.HoursAgo? <==> HourMs <= v < DayMs)
      && (r.DaysAgo? <==> DayMs <= v < 7 * DayMs)
      && (r == LocaleDate <==> 7 * DayMs <= v)
    ensures r.MinutesAgo? ==> 1 <= r.n <= 59 && r.n * MinuteMs <= elapsedMs.value < (r.n + 1) * MinuteMs
    ensures r.HoursAgo? ==> 1 <= r.n <= 23 && r.n * HourMs <= elapsedMs.value < (r.n + 1) * HourMs
    ensures r.DaysAgo? ==> 1 <= r.n <= 6 && r.n * DayMs <= elapsedMs.value < (r.n + 1) * DayMs
  {
    match elapsedMs
    case None => NoDate
    case Some(diffMs) =>
      var diffMins := diffMs / 60000;
      var diffHours := diffMs / 3600000;
      var diffDays := diffMs / 86400000;
      if diffMins < 1 then JustNow
      else if diffMins < 60 then MinutesAgo(diffMins)
      else if diffHours < 24 then HoursAgo(diffHours)
      else if diffDays < 7 then DaysAgo(diffDays)
      else LocaleDate
  }

  /** A date in the future (a negative elapsed time) reads as 'just now'. */
  lemma FutureIsJustNow(elapsedMs: int)
    requires elapsedMs < 0
    ensures FormatDate(Some(elapsedMs)).Text() == Some("just now")
  {
  }

  /** `card.createdBy`: "" stands for a missing field. */
  datatype Creator = Creator(name: string, email: string)

  /** `getCreatorName`: the name, else the part of the e-mail before the first '@', else
      'Unknown'. */
  function CreatorName(createdBy: Option<Creator>): (r: string)
    ensures createdBy.Some? && createdBy.value.name != "" ==> r == createdBy.value.name
    ensures createdBy.Some? && createdBy.value.name == "" && createdBy.value.email != "" ==>
      r == BeforeFirst(createdBy.value.email, '@') && IsPrefix(r, createdBy.value.email)
    ensures (createdBy.None? || (createdBy.value.name == "" && createdBy.value.email == "")) ==>
      r == "Unknown"
  {
    if createdBy.Some? && createdBy.value.name != "" then createdBy.value.name
    else if createdBy.Some? && createdBy.value.email != "" then Split(createdBy.value.email, '@')[0]
    else "Unknown"
  }

  /** The card tile and the filter bar name a person the same way, except for an e-mail that
      starts with '@' and no name: the tile shows "", the filter bar 'Unknown'. */
  lemma CreatorNameAgreesWithMemberName(c: Creator)
    ensures CreatorName(Some(c)) == FilterBar.MemberName(c.name, c.email) <==>
      !(c.name == "" && c.email != "" && c.email[0] == '@')
  {
    if c.name == "" && c.email != "" && c.email[0] == '@' {
      assert BeforeFirst(c.email, '@') == "";
    }
  }
}
