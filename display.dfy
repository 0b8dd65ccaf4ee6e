/** Display helpers repeated across the pages: the relative-time buckets of
    the `formatTimeAgo` / `formatTime` copies, the deadline buckets of the
    featured-projects list, the capped skill-badge row, the status colours and
    the category label lookup. Times are whole milliseconds. */
module Display {
  import opened Common
  import opened Text

  // ---------------------------------------------------------------------------
  // Relative time
  // ---------------------------------------------------------------------------

  /** The bucket `formatTimeAgo` picks for a date `elapsed` milliseconds in the
      past (negative for a date in the future). */
  datatype TimeAgoLabel = JustNow | HoursAgo(hours: nat) | DaysAgo(days: nat) | OnDate

  /** `Math.floor(elapsed / 3600000)` then the hour and day thresholds. Dafny's
      division by a positive divisor rounds down, as `Math.floor` does. */
  function TimeAgo(elapsed: int): (l: TimeAgoLabel)
    ensures l.JustNow? <==> elapsed < HourMs
    ensures l.HoursAgo? <==> HourMs <= elapsed < 24 * HourMs
    ensures l.DaysAgo? <==> 24 * HourMs <= elapsed < 7 * DayMs
    ensures l.OnDate? <==> 7 * DayMs <= elapsed
    ensures l.HoursAgo? ==> 1 <= l.hours < 24 && l.hours * HourMs <= elapsed < (l.hours + 1) * HourMs
    ensures l.DaysAgo? ==> 1 <= l.days < 7 && l.days * DayMs <= elapsed < (l.days + 1) * DayMs
  {
    assert HourMs == 3600000 && DayMs == 86400000;
    var hours := elapsed / 3600000;
    if hours < 1 then JustNow
    else if hours < 24 then HoursAgo(hours)
    else
      var days := hours / 24;
      assert days * 86400000 <= hours * 3600000 <= elapsed;
      assert elapsed < (hours + 1) * 3600000 <= (days + 1) * 86400000;
      if days < 7 then DaysAgo(days) else OnDate
  }

  /** How far back a bucket reaches, for comparing buckets. */
  function Age(l: TimeAgoLabel): nat {
    match l
    case JustNow => 0
    case HoursAgo(h) => h
    case DaysAgo(d) => 24 * d
    case OnDate => 24 * 7
  }

  /** An older date never gets a more recent bucket. */
  lemma TimeAgoMonotone(a: int, b: int)
    requires a <= b
    ensures Age(TimeAgo(a)) <= Age(TimeAgo(b))
  {
    var la, lb := TimeAgo(a), TimeAgo(b);
    if la.HoursAgo? && lb.HoursAgo? {
      assert la.hours * HourMs <= a <= b < (lb.hours + 1) * HourMs;
    } else if la.DaysAgo? && lb.DaysAgo? {
      assert la.days * DayMs <= a <= b < (lb.days + 1) * DayMs;
    }
  }

  /** A date in the future reads as just now. */
  lemma FutureIsJustNow(elapsed: int)
    requires elapsed < 0
    ensures TimeAgo(elapsed) == JustNow
  {
  }

  /** The rendered text: `recent` is "Just now" or "Just posted" depending on
      the page, `dateText` the locale date. */
  function TimeAgoText(l: TimeAgoLabel, recent: string, dateText: string): string {
    match l
    case JustNow => recent
    case HoursAgo(h) => NatToString(h) + "h ago"
    case DaysAgo(d) => NatToString(d) + "d ago"
    case OnDate => dateText
  }

  // ---------------------------------------------------------------------------
  // Deadlines
  // ---------------------------------------------------------------------------

  datatype DeadlineLabel = Overdue | DueToday | DueTomorrow | DueInDays(days: nat) | DueOn

  /** `Math.ceil(remaining / 86400000)` (a rounded-up day count), `remaining`
      being the deadline minus now. */
  function CeilDays(remaining: int): (d: int)
    ensures (d - 1) * DayMs < remaining <= d * DayMs
  {
    -((-remaining) / DayMs)
  }

  /** `formatDeadline`'s buckets. */
  function Deadline(remaining: int): (l: DeadlineLabel)
    ensures l.Overdue? <==> remaining <= -DayMs
    ensures l.DueToday? <==> -DayMs < remaining <= 0
    ensures l.DueTomorrow? <==> 0 < remaining <= DayMs
    ensures l.DueInDays? <==> DayMs < remaining <= 6 * DayMs
    ensures l.DueOn? <==> 6 * DayMs < remaining
    ensures l.DueInDays? ==> 2 <= l.days < 7 && (l.days - 1) * DayMs < remaining <= l.days * DayMs
  {
    var d := CeilDays(remaining);
    if d < 0 then Overdue
    else if d == 0 then DueToday
    else if d == 1 then DueTomorrow
    else if d < 7 then DueInDays(d)
    else DueOn
  }

  /** Rounding up makes any deadline less than a day ahead read "Due tomorrow". */
  lemma WithinADayIsTomorrow(remaining: int)
    requires 0 < remaining < DayMs
    ensures Deadline(remaining) == DueTomorrow
  {
  }

  /** And a deadline that passed less than a day ago still reads "Due today". */
  lemma JustPassedIsToday(remaining: int)
    requires -DayMs < remaining <= 0
    ensures Deadline(remaining) == DueToday
  {
  }

  function DeadlineText(l: DeadlineLabel, dateText: string): string {
    match l
    case Overdue => "Overdue"
    case DueToday => "Due today"
    case DueTomorrow => "Due tomorrow"
    case DueInDays(d) => "Due in " + NatToString(d) + " days"
    case DueOn => "Due " + dateText
  }

  // ---------------------------------------------------------------------------
  // Skill badges
  // ---------------------------------------------------------------------------

  /** The badge row: the first `limit` skills, then a `+{n - limit} more`
      badge when some are left over (`more` is that count). */
  datatype Badges = Badges(shown: seq<string>, more: Option<nat>)

  function SkillBadges(skills: seq<string>, limit: nat): (b: Badges)
    ensures |b.shown| == Min(|skills|, limit) && b.shown == skills[..|b.shown|]
    ensures b.more.Some? <==> |skills| > limit
    ensures b.more.Some? ==> b.more.value == |skills| - limit
  {
    if |skills| > limit then Badges(skills[..limit], Some(|skills| - limit))
    else Badges(skills, None)
  }

  /** Every skill is accounted for: shown, or counted in the overflow badge. */
  lemma BadgesCoverSkills(skills: seq<string>, limit: nat)
    ensures var b := SkillBadges(skills, limit);
      |b.shown| + (if b.more.Some? then b.more.value else 0) == |skills|
  {
  }

  // ---------------------------------------------------------------------------
  // Colours and labels
  // ---------------------------------------------------------------------------

  const Blue: string := "bg-blue-100 text-blue-800"
  const Yellow: string := "bg-yellow-100 text-yellow-800"
  const Green: string := "bg-green-100 text-green-800"
  const Red: string := "bg-red-100 text-red-800"
  const Grey: string := "bg-gray-100 text-gray-800"

  /** The client dashboard's project colours. */
  function ProjectStatusColor(status: string): (c: string)
    ensures c == Grey <==> status !in {"open", "in_progress", "completed", "cancelled"}
  {
    if status == "open" then Blue
    else if status == "in_progress" then Yellow
    else if status == "completed" then Green
    else if status == "cancelled" then Red
    else Grey
  }

  /** The proposal colours (both dashboards). */
  function ProposalStatusColor(status: string): (c: string)
    ensures c == Grey <==> status !in {"pending", "accepted", "rejected"}
    ensures c == Yellow <==> status == "pending"
    ensures c == Green <==> status == "accepted"
    ensures c == Red <==> status == "rejected"
  {
    if status == "pending" then Yellow
    else if status == "accepted" then Green
    else if status == "rejected" then Red
    else Grey
  }

  /** A category choice of the project filters. */
  datatype CategoryOption = CategoryOption(value: string, caption: string)

  const Categories: seq<CategoryOption> := [
    CategoryOption("all", "All Categories"),
    CategoryOption("web-development", "Web Development"),
    CategoryOption("mobile-development", "Mobile Development"),
    CategoryOption("graphic-design", "Graphic Design"),
    CategoryOption("writing-translation", "Writing & Translation"),
    CategoryOption("marketing-sales", "Marketing & Sales"),
    CategoryOption("video-animation", "Video & Animation"),
    CategoryOption("data-science-analytics", "Data Science & Analytics"),
    CategoryOption("other", "Other")]

  /** `categories.find(cat => cat.value === category)?.label || category` (`label` is the option's caption). */
  function CategoryLabel(options: seq<CategoryOption>, category: string): (name: string)
    ensures (forall i :: 0 <= i < |options| ==> options[i].value != category) ==> name == category
    ensures forall i :: (0 <= i < |options| && options[i].value == category && options[i].caption != ""
      && forall j :: 0 <= j < i ==> options[j].value != category) ==> name == options[i].caption
  {
    if options == [] then category
    else if options[0].value == category then
      (if options[0].caption != "" then options[0].caption else category)
    else CategoryLabel(options[1..], category)
  }
}
