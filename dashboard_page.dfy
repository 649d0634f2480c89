/** The home dashboard: a greeting, three figures (applicants created this
    week, open positions, all applicants), four stage cards that count the
    applicants by status and select a stage, and one table per status. The
    database reads, the session and the clock are inputs. */
module DashboardPage {
  import opened Wrappers
  import opened Text
  import opened ListView

  // ---------------------------------------------------------------------
  // The start of the week

  /** Milliseconds in a day. Times are local milliseconds since the epoch;
      every day is taken to have this length. */
  const DayMs := 86400000

  /** `Date.getDay` of a day number: day 0, 1 January 1970, was a
      Thursday; 0 is Sunday and 1 is Monday. */
  function WeekDay(day: int): (d: int)
    ensures 0 <= d < 7
  {
    (day + 4) % 7
  }

  /** The shift from a day of the week back to its Monday: six days back
      from a Sunday, otherwise back to day 1. */
  function WeekStartShift(weekday: int): (diff: int)
    requires 0 <= weekday < 7
    ensures -6 <= diff <= 0
    ensures (weekday + diff) % 7 == 1
  {
    if weekday == 0 then -6 else 1 - weekday
  }

  /** Shifting a day by what its day of the week needs lands on a Monday. */
  lemma ShiftLandsOnMonday(day: int)
    ensures WeekDay(day + WeekStartShift(WeekDay(day))) == 1
  {
    var w := WeekDay(day);
    var q := (day + 4) / 7;
    assert day + 4 == 7 * q + w;
    var diff := WeekStartShift(w);
    assert day + diff + 4 == 7 * q + (w + diff);
    if w == 0 {
      assert day + diff + 4 == 7 * (q - 1) + 1;
    } else {
      assert day + diff + 4 == 7 * q + 1;
    }
  }

  /** The days after a Monday and before the next one are not Mondays. */
  lemma NoMondayWithinWeek(monday: int, k: int)
    requires WeekDay(monday) == 1 && 1 <= k <= 6
    ensures WeekDay(monday + k) != 1
  {
    var q := (monday + 4) / 7;
    assert monday + 4 == 7 * q + 1;
    assert monday + k + 4 == 7 * q + (1 + k);
  }

  /** `getStartOfWeek`: midnight of the Monday of the week holding `t`, so
      at most six days and a fraction before `t`, and no Monday lies
      between it and `t`. */
  function StartOfWeek(t: int): (start: int)
    ensures start % DayMs == 0
    ensures start <= t < start + 7 * DayMs
    ensures WeekDay(start / DayMs) == 1
    ensures forall d :: start / DayMs < d <= t / DayMs ==> WeekDay(d) != 1
  {
    var day := t / DayMs;
    var diff := WeekStartShift(WeekDay(day));
    var start := (day + diff) * DayMs;
    assert start / DayMs == day + diff;
    ShiftLandsOnMonday(day);
    forall d | start / DayMs < d <= t / DayMs ensures WeekDay(d) != 1 {
      NoMondayWithinWeek(day + diff, d - (day + diff));
    }
    start
  }

  // ---------------------------------------------------------------------
  // Applicants

  /** `Number(value)`: a finite number, or NaN. */
  datatype Num = Finite(value: real) | NaN

  /** A row of the applicants table as the dashboard reads it. A null
      position is the empty string; `createdAt` is the parsed creation
      time, `None` when it is missing or cannot be read as a date;
      `experience` is `Number(experience)`. */
  datatype Row = Row(
    firstName: string,
    lastName: string,
    gender: string,
    experience: Num,
    position: string,
    status: Option<string>,
    stage: Option<string>,
    createdAt: Option<int>)

  datatype Applicant = Applicant(
    firstName: string,
    lastName: string,
    gender: string,
    experience: Num,
    position: string,
    status: string,
    stage: string,
    createdAt: Option<int>)

  /** A string with no upper-case letter and no white space at either end. */
  predicate Normal(s: string)
  {
    IsTrimmed(s) && Lower(s) == s
  }

  /** Lower-casing keeps white space where it was. */
  lemma LowerKeepsTrimmed(s: string)
    requires IsTrimmed(s)
    ensures IsTrimmed(Lower(s))
  {
  }

  /** `value ? value.trim().toLowerCase() : "applied"`: a missing or empty
      status or stage reads as "applied"; any other is trimmed and
      lower-cased. */
  function Normalize(value: Option<string>): (r: string)
    ensures value.None? || value.value == "" ==> r == "applied"
    ensures value.Some? && value.value != "" ==> r == Lower(Trim(value.value))
    ensures Normal(r)
  {
    if value.Some? && value.value != "" then
      var t := Trim(value.value);
      LowerKeepsTrimmed(t);
      LowerIdempotent(t);
      Lower(t)
    else "applied"
  }

  /** A status read once reads the same when read again, unless it was
      nothing but white space: that reads as "" and then as "applied". */
  lemma NormalizeIdempotent(value: Option<string>)
    ensures Normalize(value) != "" ==> Normalize(Some(Normalize(value))) == Normalize(value)
  {
    var r := Normalize(value);
    if r != "" {
      NormalFixed(r);
    }
  }

  /** A normal, non-empty string reads as itself. */
  lemma NormalFixed(r: string)
    requires Normal(r) && r != ""
    ensures Normalize(Some(r)) == r
  {
    TrimTrimmed(r);
  }

  /** The record built from a row. */
  function FromRow(row: Row): (a: Applicant)
    ensures a.status == Normalize(row.status) && a.stage == Normalize(row.stage)
    ensures a.gender == row.gender && a.position == row.position && a.createdAt == row.createdAt
  {
    Applicant(row.firstName, row.lastName, row.gender, row.experience, row.position,
              Normalize(row.status), Normalize(row.stage), row.createdAt)
  }

  function FromRows(rows: seq<Row>): (apps: seq<Applicant>)
    ensures |apps| == |rows|
    ensures forall i :: 0 <= i < |rows| ==> apps[i] == FromRow(rows[i])
  {
    seq(|rows|, i requires 0 <= i < |rows| => FromRow(rows[i]))
  }

  /** An applicant created between the start of the week and now, both
      included; one without a creation time is not. */
  predicate CreatedThisWeek(a: Applicant, now: int)
  {
    a.createdAt.Some? && StartOfWeek(now) <= a.createdAt.value <= now
  }

  /** The test `newApplicantsThisWeek` filters with. */
  function IsNew(now: int): Applicant -> bool
  {
    (a: Applicant) => CreatedThisWeek(a, now)
  }

  /** `newApplicantsThisWeek`: the applicants created between the start of
      the week and now, both included. */
  function NewThisWeek(apps: seq<Applicant>, now: int): (n: nat)
    ensures n <= |apps|
    ensures n == 0 <==> forall a :: a in apps ==> !CreatedThisWeek(a, now)
  {
    var counted := Filter(apps, IsNew(now));
    assert counted != [] ==> counted[0] in counted;
    Count(apps, IsNew(now))
  }

  /** One applicant counts once if created this week, and not otherwise. */
  lemma NewThisWeekSingle(a: Applicant, now: int)
    ensures NewThisWeek([a], now) == (if CreatedThisWeek(a, now) then 1 else 0)
  {
    CountStep([a], IsNew(now));
    assert [a][1..] == [];
  }

  /** The count of two lists is the sum of their counts, so together with
      NewThisWeekSingle it counts exactly the applicants created this week. */
  lemma NewThisWeekAppend(xs: seq<Applicant>, ys: seq<Applicant>, now: int)
    ensures NewThisWeek(xs + ys, now) == NewThisWeek(xs, now) + NewThisWeek(ys, now)
  {
    FilterConcat(xs, ys, IsNew(now));
  }

  /** Applicants created just now are all new this week. */
  lemma CreatedNowAreNew(apps: seq<Applicant>, now: int)
    requires forall a :: a in apps ==> a.createdAt == Some(now)
    ensures NewThisWeek(apps, now) == |apps|
  {
    FilterAll(apps, IsNew(now));
  }

  // ---------------------------------------------------------------------
  // Stages, filters and counts

  /** `handleStageClick`: clicking the selected stage goes back to "all",
      clicking another selects it. */
  function StageClick(selected: string, stage: string): (r: string)
    ensures selected == stage ==> r == "all"
    ensures selected != stage ==> r == stage
  {
    if selected == stage then "all" else stage
  }

  /** Clicking a stage twice from "all" comes back to "all". */
  lemma ClickStageTwice(stage: string)
    requires stage != "all"
    ensures StageClick(StageClick("all", stage), stage) == "all"
  {
  }

  datatype Filters = Filters(gender: string, experience: string, position: string)

  const NoFilters := Filters("All", "All", "All")

  /** The three selects, by the name `handleFilterChange` receives. */
  datatype FilterName = Gender | Experience | Position

  /** `{ ...prev, [filterName]: value }`. */
  function SetFilter(f: Filters, name: FilterName, value: string): (r: Filters)
    ensures name == Gender ==> r == f.(gender := value)
    ensures name == Experience ==> r == f.(experience := value)
    ensures name == Position ==> r == f.(position := value)
  {
    match name
    case Gender => f.(gender := value)
    case Experience => f.(experience := value)
    case Position => f.(position := value)
  }

  /** `hasActiveFilters`. */
  predicate HasActiveFilters(f: Filters)
  {
    f.gender != "All" || f.experience != "All" || f.position != "All"
  }

  /** The experience select: "All" takes everyone, "10+" ten years or more,
      and any other choice the 1-9 bucket. NaN matches no bucket. */
  predicate ExperienceMatches(choice: string, n: Num)
  {
    if choice == "All" then true
    else if choice == "10+" then n.Finite? && n.value >= 10.0
    else n.Finite? && n.value <= 9.0 && n.value >= 1.0
  }

  /** The two buckets are disjoint; 0 years and any number strictly
      between 9 and 10 fall in neither. */
  lemma ExperienceBuckets(n: Num)
    ensures ExperienceMatches("10+", n) <==> n.Finite? && n.value >= 10.0
    ensures ExperienceMatches("1-9", n) <==> n.Finite? && 1.0 <= n.value <= 9.0
    ensures !(ExperienceMatches("10+", n) && ExperienceMatches("1-9", n))
    ensures n.Finite? && (n.value == 0.0 || 9.0 < n.value < 10.0) ==>
      !ExperienceMatches("10+", n) && !ExperienceMatches("1-9", n)
  {
  }

  /** One applicant against the selected stage and the three selects. */
  predicate Matches(a: Applicant, stage: string, f: Filters)
  {
    && (stage == "all" || Lower(a.stage) == stage)
    && (f.gender == "All" || a.gender == f.gender)
    && ExperienceMatches(f.experience, a.experience)
    && (f.position == "All" || a.position == f.position)
  }

  /** `filteredApplicants`: the applicants that match, in order. */
  function Filtered(apps: seq<Applicant>, stage: string, f: Filters): (r: seq<Applicant>)
    ensures forall a :: a in r <==> a in apps && Matches(a, stage, f)
    ensures f.gender != "All" ==> forall a :: a in r ==> a.gender == f.gender
    ensures f.position != "All" ==> forall a :: a in r ==> a.position == f.position
  {
    Filter(apps, (a: Applicant) => Matches(a, stage, f))
  }

  /** With the filters cleared every applicant is listed, in order. */
  lemma ClearedShowsAll(apps: seq<Applicant>)
    ensures Filtered(apps, "all", NoFilters) == apps
  {
    FilterAll(apps, (a: Applicant) => Matches(a, "all", NoFilters));
  }

  /** Whether an applicant's status, lower-cased, is `s`. */
  function HasStatus(s: string): Applicant -> bool
  {
    (a: Applicant) => Lower(a.status) == s
  }

  /** `statusApplicants`: one table's applicants. */
  function StatusList(apps: seq<Applicant>, s: string): (r: seq<Applicant>)
    ensures forall a :: a in r <==> a in apps && Lower(a.status) == s
  {
    Filter(apps, HasStatus(s))
  }

  /** `statusCounts`: each card's figure is the size of its table. */
  function StatusCount(apps: seq<Applicant>, s: string): (n: nat)
    ensures n == |StatusList(apps, s)|
    ensures n <= |apps|
  {
    Count(apps, HasStatus(s))
  }

  /** How many of the four cards count one applicant. */
  function Cards(a: Applicant): nat
  {
    (if HasStatus("applied")(a) then 1 else 0) + (if HasStatus("shortlisted")(a) then 1 else 0)
      + (if HasStatus("interviewed")(a) then 1 else 0) + (if HasStatus("offered")(a) then 1 else 0)
  }

  function CardTotal(apps: seq<Applicant>): nat
  {
    StatusCount(apps, "applied") + StatusCount(apps, "shortlisted")
      + StatusCount(apps, "interviewed") + StatusCount(apps, "offered")
  }

  /** The four cards together count no applicant twice. */
  lemma {:induction false} CardTotalBound(apps: seq<Applicant>)
    ensures CardTotal(apps) <= |apps|
  {
    if apps != [] {
      CardTotalBound(apps[1..]);
      CountStep(apps, HasStatus("applied"));
      CountStep(apps, HasStatus("shortlisted"));
      CountStep(apps, HasStatus("interviewed"));
      CountStep(apps, HasStatus("offered"));
      assert CardTotal(apps) == Cards(apps[0]) + CardTotal(apps[1..]);
      assert Cards(apps[0]) <= 1;
    }
  }

  // ---------------------------------------------------------------------
  // Status colours

  const Gray700 := "text-gray-700"
  const Blue600 := "text-blue-600"
  const Purple600 := "text-purple-600"
  const Green600 := "text-green-600"
  const Gray500 := "text-gray-500"

  /** `getStatusColor` as written: its cases are "interview" and "offer",
      which no normalised status ever is. */
  function StatusColorAsWritten(status: string): string
  {
    var s := Lower(status);
    if s == "applied" then Gray700
    else if s == "shortlisted" then Blue600
    else if s == "interview" then Purple600
    else if s == "offer" then Green600
    else Gray500
  }

  /** An applicant in the interviewed table, whose status reads
      "interviewed", is coloured grey instead of the table's purple; the
      offered table likewise loses its green. */
  lemma InterviewedShownGray()
    ensures StatusColorAsWritten("interviewed") == Gray500 != Purple600
    ensures StatusColorAsWritten("offered") == Gray500 != Green600
  {
    assert Lower("interviewed") == "interviewed";
    assert Lower("offered") == "offered";
  }

  /** The four status tables as the page renders them: the normalised
      status each one lists and the colour it is drawn in. */
  const StatusTables: seq<(string, string)> :=
    [("applied", Gray700), ("shortlisted", Blue600), ("interviewed", Purple600), ("offered", Green600)]

  /** The colour of the first table in `tables` that lists `s`, or grey. */
  function ColorIn(tables: seq<(string, string)>, s: string): (c: string)
    ensures forall k :: 0 <= k < |tables| && tables[k].0 == s && (forall j :: 0 <= j < k ==> tables[j].0 != s) ==>
      c == tables[k].1
    ensures (forall k :: 0 <= k < |tables| ==> tables[k].0 != s) ==> c == Gray500
  {
    if tables == [] then Gray500
    else if tables[0].0 == s then tables[0].1
    else
      assert forall k :: 1 <= k < |tables| ==> tables[k] == tables[1..][k - 1];
      ColorIn(tables[1..], s)
  }

  /** `getStatusColor` with the cases the statuses actually take: an
      applicant is drawn in the colour of the table that lists its
      lower-cased status, and in grey when no table lists it. */
  function StatusColor(status: string): (c: string)
    ensures forall k :: 0 <= k < |StatusTables| && StatusTables[k].0 == Lower(status) ==> c == StatusTables[k].1
    ensures (forall k :: 0 <= k < |StatusTables| ==> StatusTables[k].0 != Lower(status)) ==> c == Gray500
  {
    ColorIn(StatusTables, Lower(status))
  }

  /** Every applicant in a status table is coloured like the table. */
  lemma TableColorsAgree(apps: seq<Applicant>, k: int)
    requires 0 <= k < |StatusTables|
    ensures forall a :: a in StatusList(apps, StatusTables[k].0) ==> StatusColor(a.status) == StatusTables[k].1
  {
  }

  // ---------------------------------------------------------------------
  // Position options

  /** The truthy strings: `.filter(Boolean)`. */
  function NonEmpty(values: seq<string>): (r: seq<string>)
    ensures forall x :: x in r <==> x in values && x != ""
  {
    Filter(values, (x: string) => x != "")
  }

  /** The options after the two reads, as written: the merge reads the
      options of the first render, `["All"]`, instead of the ones just set
      from the applicants, so once the job titles are read the applicants'
      positions are lost. */
  function PositionOptionsAsWritten(positions: seq<string>, titles: Option<seq<string>>): seq<string>
  {
    if titles.None? then ["All"] + Distinct(NonEmpty(positions))
    else
      var stale := Filter(["All"], (p: string) => p != "All");
      ["All"] + Distinct(stale + Distinct(NonEmpty(titles.value)))
  }

  /** An applicant's position is missing from the options once a job
      title has been read. */
  lemma PositionLostAsWritten()
    ensures "Engineer" !in PositionOptionsAsWritten(["Engineer"], Some([]))
  {
    var stale := Filter(["All"], (p: string) => p != "All");
    assert stale == [];
    assert NonEmpty([]) == [];
    assert Distinct(NonEmpty([])) == [];
    assert Distinct(stale + Distinct(NonEmpty([]))) == [];
  }

  /** The options as intended: "All" and then each non-empty applicant
      position and each non-empty job title once. */
  function PositionOptions(positions: seq<string>, titles: Option<seq<string>>): (r: seq<string>)
    ensures |r| >= 1 && r[0] == "All"
    ensures forall p :: p in positions && p != "" && p != "All" ==> p in r[1..]
    ensures titles.Some? ==> forall t :: t in titles.value && t != "" ==> t in r[1..]
    ensures forall x :: x in r[1..] ==> (x in positions || (titles.Some? && x in titles.value)) && x != ""
    ensures NoDuplicates(r[1..])
  {
    var mine := Distinct(NonEmpty(positions));
    var merged := if titles.None? then mine
      else Distinct(Filter(mine, (p: string) => p != "All") + Distinct(NonEmpty(titles.value)));
    var r := ["All"] + merged;
    assert r[1..] == merged;
    r
  }

  // ---------------------------------------------------------------------
  // The greeting

  /** Splitting starts with a prefix of the string. */
  lemma {:induction false} SplitFirstPrefix(s: string, sep: char)
    ensures StartsWith(s, Split(s, sep)[0])
    ensures Split(s, sep)[0] == s || (|Split(s, sep)[0]| < |s| && s[|Split(s, sep)[0]|] == sep)
  {
    if s != [] {
      SplitFirstPrefix(s[1..], sep);
    }
  }

  /** `(name || "Guest").split(" ")[0]`: the first word of the session's
      name, or "Guest" without one. */
  function GreetingName(name: Option<string>): (r: string)
    ensures ' ' !in r
    ensures name.Some? && name.value != "" ==> StartsWith(name.value, r)
    ensures name.Some? && name.value != "" ==> r == name.value || (|r| < |name.value| && name.value[|r|] == ' ')
    ensures name.None? || name.value == "" ==> r == "Guest"
  {
    var full := if name.Some? && name.value != "" then name.value else "Guest";
    SplitFirstPrefix(full, ' ');
    SplitNoSeparator("Guest", ' ');
    Split(full, ' ')[0]
  }

  // ---------------------------------------------------------------------
  // The page's state

  class Dashboard {
    var allApplicants: seq<Applicant>
    var openPositions: nat
    var positionsOptions: seq<string>
    var selectedStage: string
    var filters: Filters
    var loading: bool

    constructor ()
      ensures allApplicants == [] && openPositions == 0 && positionsOptions == ["All"]
      ensures selectedStage == "all" && filters == NoFilters && loading
    {
      allApplicants := [];
      openPositions := 0;
      positionsOptions := ["All"];
      selectedStage := "all";
      filters := NoFilters;
      loading := true;
    }

    /** `fetchData`: the applicants' rows (none when that read fails) and
        the job titles (`None` when that read fails) give the list, the
        open-position figure and the position options. */
    method Load(rows: seq<Row>, applicantsFailed: bool, titles: Option<seq<string>>)
      modifies this
      ensures allApplicants == if applicantsFailed then [] else FromRows(rows)
      ensures openPositions == if titles.Some? then |titles.value| else 0
      ensures positionsOptions == PositionOptions(Positions(allApplicants), titles)
      ensures !loading && selectedStage == old(selectedStage) && filters == old(filters)
    {
      loading := true;
      if applicantsFailed {
        allApplicants := [];
      } else {
        allApplicants := FromRows(rows);
      }
      openPositions := if titles.Some? then |titles.value| else 0;
      positionsOptions := PositionOptions(Positions(allApplicants), titles);
      loading := false;
    }

    /** The figures on the three cards. */
    function Figures(now: int): (r: (nat, nat, nat))
      reads this
      ensures r.0 <= r.2 && r.2 == |allApplicants|
      ensures r.0 == NewThisWeek(allApplicants, now) && r.1 == openPositions
    {
      var total: nat := |allApplicants|;
      (NewThisWeek(allApplicants, now), openPositions, total)
    }

    function FilteredApplicants(): seq<Applicant>
      reads this
    {
      Filtered(allApplicants, selectedStage, filters)
    }

    method HandleStageClick(stage: string)
      modifies this
      ensures selectedStage == StageClick(old(selectedStage), stage)
      ensures filters == old(filters) && allApplicants == old(allApplicants)
    {
      selectedStage := StageClick(selectedStage, stage);
    }

    /** `handleFilterChange`: only the named select changes. */
    method HandleFilterChange(name: FilterName, value: string)
      modifies this
      ensures filters == SetFilter(old(filters), name, value)
      ensures selectedStage == old(selectedStage) && allApplicants == old(allApplicants)
    {
      filters := SetFilter(filters, name, value);
    }

    /** `clearAllFilters`: every select on "All" and no stage, so every
        applicant is listed and no filter shows as active. */
    method ClearAllFilters()
      modifies this
      ensures filters == NoFilters && selectedStage == "all"
      ensures !HasActiveFilters(filters)
      ensures FilteredApplicants() == allApplicants
      ensures allApplicants == old(allApplicants)
    {
      filters := NoFilters;
      selectedStage := "all";
      ClearedShowsAll(allApplicants);
    }
  }

  /** The applicants' positions, in order. */
  function Positions(apps: seq<Applicant>): seq<string>
  {
    seq(|apps|, i requires 0 <= i < |apps| => apps[i].position)
  }
}
