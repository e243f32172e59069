/**
 * The values the mission provider keeps and the derivations it computes from
 * them: the active day, the active mission, the phase tables and metrics, the
 * next mastery position after a completed day, and the position a jump to an
 * overall day lands on.
 */
module Mission {
  import opened Common
  import opened Days
  import opened Text

  /** One day of curriculum content (`allDays` item, missing fields read as ""). */
  datatype MissionContent = MissionContent(
    day: int, title: string, scripture: string, message: string, challenge: string, url: string)

  /**
   * The curriculum: a starter week per office, the shared first month, and one
   * track per priesthood order for months 2 to 4 (an absent track is empty).
   */
  datatype Catalog = Catalog(
    starterPack: map<Office, seq<MissionContent>>,
    month1: seq<MissionContent>,
    month2: map<Order, seq<MissionContent>>,
    month3: map<Order, seq<MissionContent>>,
    month4: map<Order, seq<MissionContent>>)

  /** `progressByOffice[office]`; an office with no entry reads as `{0, null}`. */
  datatype Progress = Progress(completedDay: int, completedDate: Option<int>)

  datatype StarterState = StarterState(
    isStarterFinished: bool,
    currentMonth: int,
    currentDay: int,
    month2ReflectionComplete: bool,
    masteryComplete: bool)

  /** `phase1_complete` .. `phase5_complete`. */
  datatype PhaseKey = Phase1 | Phase2 | Phase3 | Phase4 | Phase5

  /** A `phaseStatus` value; a key with no medal is `null`. */
  datatype Medal = Silver | Gold

  datatype PhaseRange = PhaseRange(key: PhaseKey, start: int, end: int)
  datatype PhaseInfo = PhaseInfo(key: PhaseKey, title: string, message: string, next: string, badge: string)
  datatype Metrics = Metrics(manualCount: int, excusedDays: seq<int>, total: int)
  datatype PhaseReview = PhaseReview(phase: PhaseInfo, range: PhaseRange, metrics: Metrics)

  /** What a phase modal resumes once it is resolved. */
  datatype PendingAdvance = StarterAdvance | MasteryAdvance(todayKey: int, completedDayValue: int)

  datatype BadgeUnlock = BadgeUnlock(title: string, month: int, date: int, message: Option<string>)

  /** A phase boundary either opens the excused-days review or the celebration. */
  datatype Gate = RaiseReview | RaiseCelebration

  /** Where `setOverallDay` puts the starter state and the stored `completedDay`. */
  datatype Jump = Jump(starter: StarterState, completedDay: int)

  const InitialStarter := StarterState(false, 0, 1, false, false)
  const NoProgress := Progress(0, None)

  /** The position invariant every reachable starter state keeps. */
  predicate WellPlaced(s: StarterState)
  {
    0 <= s.currentMonth <= 4 && 1 <= s.currentDay <= MasteryDays(s.currentMonth)
    && (s.isStarterFinished ==> s.currentMonth >= 1)
  }

  // ---------------------------------------------------------------- curriculum

  /** `items.find(item => item.day === id)`. */
  function FindDay(items: seq<MissionContent>, id: int): (r: Option<MissionContent>)
    ensures r.None? <==> forall k :: 0 <= k < |items| ==> items[k].day != id
    ensures r.Some? ==> r.value in items && r.value.day == id
    ensures r.Some? ==> exists k :: (0 <= k < |items| && items[k] == r.value
      && forall j :: 0 <= j < k ==> items[j].day != id)
  {
    if items == [] then None
    else if items[0].day == id then Some(items[0])
    else
      var r := FindDay(items[1..], id);
      if r.Some? then
        var k :| 0 <= k < |items[1..]| && items[1..][k] == r.value
          && forall j :: 0 <= j < k ==> items[1..][j].day != id;
        assert items[k + 1] == r.value;
        r
      else r
  }

  function TrackOf(m: map<Order, seq<MissionContent>>, o: Order): seq<MissionContent>
  {
    if o in m then m[o] else []
  }

  /** The list a mastery month draws its days from. */
  function Track(c: Catalog, month: int, o: Order): seq<MissionContent>
  {
    if month == 1 then c.month1
    else if month == 2 then TrackOf(c.month2, o)
    else if month == 3 then TrackOf(c.month3, o)
    else if month == 4 then TrackOf(c.month4, o)
    else []
  }

  /** The starter-week list of an office, empty when the catalog has none. */
  function StarterOf(c: Catalog, office: Office): seq<MissionContent>
  {
    if office in c.starterPack then c.starterPack[office] else []
  }

  /**
   * `allDays`: none without an office; otherwise the office's starter week
   * comes first, followed by months 1 to 4 of its order's track, each month's
   * days in the catalog's order.
   */
  function AllDays(c: Catalog, office: Option<Office>): (r: seq<MissionContent>)
    ensures office.None? ==> r == []
    ensures office.Some? ==> forall x :: x in r <==>
      (office.value in c.starterPack && x in c.starterPack[office.value])
      || exists m :: 1 <= m <= 4 && x in Track(c, m, OrderOf(office))
    ensures office.Some? ==>
      r == StarterOf(c, office.value) + Track(c, 1, OrderOf(office))
        + Track(c, 2, OrderOf(office)) + Track(c, 3, OrderOf(office)) + Track(c, 4, OrderOf(office))
  {
    if office.None? then []
    else
      var o := OrderOf(office);
      var starter := StarterOf(c, office.value);
      var r := starter + Track(c, 1, o) + Track(c, 2, o) + Track(c, 3, o) + Track(c, 4, o);
      assert forall x :: x in r <==> (x in starter || x in Track(c, 1, o) || x in Track(c, 2, o)
        || x in Track(c, 3, o) || x in Track(c, 4, o));
      r
  }

  /** A day of the starter week is found before any day of the months. */
  lemma StarterDaysComeFirst(c: Catalog, office: Office, id: int)
    requires exists x :: x in StarterOf(c, office) && x.day == id
    ensures FindDay(AllDays(c, Some(office)), id) == FindDay(StarterOf(c, office), id)
  {
    var s := StarterOf(c, office);
    var rest := Track(c, 1, OrderOf(Some(office))) + Track(c, 2, OrderOf(Some(office)))
      + Track(c, 3, OrderOf(Some(office))) + Track(c, 4, OrderOf(Some(office)));
    assert AllDays(c, Some(office)) == s + rest;
    FindDayPrefix(s, rest, id);
  }

  /** Looking up a day in `a + b` finds it in `a` when `a` has it. */
  lemma {:induction false} FindDayPrefix(a: seq<MissionContent>, b: seq<MissionContent>, id: int)
    requires exists x :: x in a && x.day == id
    ensures FindDay(a + b, id) == FindDay(a, id)
  {
    var x :| x in a && x.day == id;
    if a[0].day != id {
      assert x in a[1..];
      assert (a + b)[1..] == a[1..] + b;
      FindDayPrefix(a[1..], b, id);
    }
  }

  // ------------------------------------------------------------- active day

  function ProgressOf(p: map<Office, Progress>, office: Office): Progress
  {
    if office in p then p[office] else NoProgress
  }

  /** `isCompletedToday`: the selected office's stored completion date is today. */
  function IsCompletedToday(office: Option<Office>, p: map<Office, Progress>, today: int): (b: bool)
    ensures b <==> office.Some? && office.value in p && p[office.value].completedDate == Some(today)
  {
    office.Some? && ProgressOf(p, office.value).completedDate == Some(today)
  }

  /**
   * The starter-week `activeDay`: the day after the completed one, unless that
   * one was completed today, capped by the length of the office's mission list;
   * null without an office or without a starter pack for it.
   */
  function StarterActiveDay(c: Catalog, office: Option<Office>, p: map<Office, Progress>, today: int): (r: Option<int>)
    ensures r.None? <==> office.None? || office.value !in c.starterPack
    ensures r.Some? ==> r.value <= |c.starterPack[office.value]|
  {
    if office.None? || office.value !in c.starterPack then None
    else
      var missions := c.starterPack[office.value];
      var progress := ProgressOf(p, office.value);
      var nextDay :=
        if progress.completedDay == 0 then 1
        else progress.completedDay + (if progress.completedDate == Some(today) then 0 else 1);
      Some(Min(nextDay, |missions|))
  }

  /** The mastery `activeDay`: `(currentDay || 1) + 7 + days of the months before currentMonth`. */
  function MasteryActiveDay(s: StarterState): (d: int)
    ensures WellPlaced(s) && s.currentMonth >= 1 ==>
      8 <= d <= LastDay && FindMonthBreak(d) == Some(MonthBreaks[s.currentMonth - 1])
  {
    var day := if s.currentDay == 0 then 1 else s.currentDay;
    OverallDay(s.currentMonth, day)
  }

  /** The provider's `activeDay`. */
  function ActiveDay(c: Catalog, office: Option<Office>, p: map<Office, Progress>, s: StarterState, today: int): Option<int>
  {
    if s.isStarterFinished then Some(MasteryActiveDay(s)) else StarterActiveDay(c, office, p, today)
  }

  /**
   * Completing starter day `k` today keeps `k` active for the rest of today; on
   * any other day the next one becomes active, capped by the length of the week.
   */
  lemma StarterDayAfterCompletion(c: Catalog, office: Office, p: map<Office, Progress>, k: int, today: int, later: int)
    requires office in c.starterPack && 1 <= k <= |c.starterPack[office]|
    requires later != today
    ensures var p' := p[office := Progress(k, Some(today))];
      StarterActiveDay(c, Some(office), p', today) == Some(k)
      && StarterActiveDay(c, Some(office), p', later) == Some(Min(k + 1, |c.starterPack[office]|))
  {
  }

  // ------------------------------------------------------- mastery mission

  const FallbackScripture := "D&C 84:33"
  const FallbackUrl := "https://www.churchofjesuschrist.org/study/scriptures/dc-testament/dc/84?lang=eng&id=33#p33"
  const FallbackMessage := "Continue your mastery path with daily, faithful discipline."
  const FallbackChallenge := "Record one act of leadership or service completed today."

  /** The mission synthesised for a mastery day the curriculum has no entry for. */
  function FallbackMission(month: int, day: int): (m: MissionContent)
    ensures m.day == day + MonthOffset(month)
    ensures m.scripture == FallbackScripture && m.url == FallbackUrl
  {
    MissionContent(
      day + MonthOffset(month),
      "Month " + IntToString(month) + " - Day " + IntToString(day),
      FallbackScripture, FallbackMessage, FallbackChallenge, FallbackUrl)
  }

  /**
   * `masteryMission`: none before the starter week is finished or without an
   * office; otherwise the track's entry for the labelled day, or the fallback.
   */
  function MasteryMission(c: Catalog, office: Option<Office>, s: StarterState): (r: Option<MissionContent>)
    ensures r.Some? <==> s.isStarterFinished && office.Some?
  {
    if !s.isStarterFinished || office.None? then None
    else
      var month := if s.currentMonth == 0 then 1 else s.currentMonth;
      var day := if s.currentDay == 0 then 1 else s.currentDay;
      var labelDay := day + MonthOffset(month);
      match FindDay(Track(c, month, OrderOf(office)), labelDay)
      case Some(entry) => Some(entry)
      case None => Some(FallbackMission(month, day))
  }

  /**
   * The mastery mission always carries the overall day the provider reports as
   * active: it is the track's entry for that day when there is one, and the
   * synthesised fallback otherwise.
   */
  lemma MasteryMissionIsActiveDay(c: Catalog, office: Office, s: StarterState)
    requires WellPlaced(s) && s.isStarterFinished
    ensures var r := MasteryMission(c, Some(office), s);
      var t := Track(c, s.currentMonth, OrderOf(Some(office)));
      r.Some? && r.value.day == MasteryActiveDay(s)
      && ((exists k :: 0 <= k < |t| && t[k].day == MasteryActiveDay(s)) ==> r.value in t)
      && ((forall k :: 0 <= k < |t| ==> t[k].day != MasteryActiveDay(s)) ==>
            r.value == FallbackMission(s.currentMonth, s.currentDay))
  {
  }

  /** `activeMission`: the mastery mission, or the starter day whose number is the active day. */
  function ActiveMission(c: Catalog, office: Option<Office>, p: map<Office, Progress>, s: StarterState, today: int): (r: Option<MissionContent>)
    ensures r.Some? && !s.isStarterFinished ==> ActiveDay(c, office, p, s, today) == Some(r.value.day)
  {
    if s.isStarterFinished then MasteryMission(c, office, s)
    else match StarterActiveDay(c, office, p, today)
      case None => None
      case Some(d) => FindDay(c.starterPack[office.value], d)
  }

  // --------------------------------------------------------------- phases

  const Ranges: seq<PhaseRange> :=
    [PhaseRange(Phase1, 1, 7), PhaseRange(Phase2, 8, 35), PhaseRange(Phase3, 36, 63), PhaseRange(Phase4, 64, 91)]

  /** `phaseRangeForEndDay`: the phase a boundary day closes. */
  function PhaseRangeForEndDay(endDay: int): (r: Option<PhaseRange>)
    ensures r.Some? <==> endDay == 7 || endDay == 35 || endDay == 63 || endDay == 91
    ensures r.Some? ==> r.value in Ranges && r.value.end == endDay
  {
    if endDay == 7 then Some(Ranges[0])
    else if endDay == 35 then Some(Ranges[1])
    else if endDay == 63 then Some(Ranges[2])
    else if endDay == 91 then Some(Ranges[3])
    else None
  }

  /** `ranges.find(item => day >= item.start && day <= item.end)`. */
  function FindPhaseRange(day: int): (r: Option<PhaseRange>)
    ensures r.None? <==> day < 1 || day > 91
    ensures r.Some? ==> r.value in Ranges && r.value.start <= day <= r.value.end
  {
    if 1 <= day <= 7 then Some(Ranges[0])
    else if 8 <= day <= 35 then Some(Ranges[1])
    else if 36 <= day <= 63 then Some(Ranges[2])
    else if 64 <= day <= 91 then Some(Ranges[3])
    else None
  }

  /** The four phase ranges tile days 1..91 without overlap, in order. */
  lemma RangesTile(i: int, j: int)
    requires 0 <= i < j < |Ranges|
    ensures Ranges[i].end < Ranges[j].start
    ensures Ranges[i].key != Ranges[j].key
    ensures Ranges[j - 1].end + 1 == Ranges[j].start
  {
  }

  /** `resolvePhaseCompletion`: the celebration content for a boundary day, none for any other. */
  function ResolvePhaseCompletion(o: Order, overallDay: int): (r: Option<PhaseInfo>)
    ensures r.Some? <==> PhaseRangeForEndDay(overallDay).Some?
    ensures r.Some? ==> r.value.key == PhaseRangeForEndDay(overallDay).value.key
  {
    if PhaseRangeForEndDay(overallDay).Some? then Some(PhaseContent(o, overallDay)) else None
  }

  const FoundationLaid := PhaseInfo(Phase1, "Foundation Laid",
    "You have mastered the Starter Week. Your foundation is firm and ready to build upon.",
    "Next: The Scriptural Priesthood", "/assets/ShieldOfFaith.png")
  const DoctrinesTitle := "Doctrines Mastered"
  const DoctrinesMessage := "Your understanding is deepening. You are ready for specialized training."
  const DoctrinesBadge := "/assets/TheOpenWord.png"
  const SkillsAcquired := PhaseInfo(Phase3, "Skills Acquired",
    "You have strengthened your gifts. It is time to look outward and lead.",
    "Next: Active Stewardship", "/assets/KeyOfAuthority.png")
  const MissionFulfilled := PhaseInfo(Phase4, "Mission Fulfilled",
    "Your service has matured. You are ready to receive the crown.",
    "Next: Eternal Legacies", "/assets/SheppardsStaff.png")

  /** The track the order follows from month 2, as the phase-2 text names it. */
  function TrackLabel(o: Order): string
  {
    if o == Melchizedek then "The Healer" else "The Gatekeeper"
  }

  /** The `content` table entry of a boundary day; the phase-2 text names the order's track. */
  function PhaseContent(o: Order, endDay: int): (info: PhaseInfo)
    requires PhaseRangeForEndDay(endDay).Some?
    ensures info.key == PhaseRangeForEndDay(endDay).value.key
    ensures endDay == 35 ==> info.next == "Next: " + TrackLabel(o) + " Track"
  {
    if endDay == 7 then FoundationLaid
    else if endDay == 35 then
      PhaseInfo(Phase2, DoctrinesTitle, DoctrinesMessage, "Next: " + TrackLabel(o) + " Track", DoctrinesBadge)
    else if endDay == 63 then SkillsAcquired
    else MissionFulfilled
  }

  /** The in-range keys of the grace map, ascending (keys are distinct day numbers). */
  function ExcusedInRange(grace: map<int, int>, lo: int, hi: int): (r: seq<int>)
    ensures forall x :: x in r <==> x in grace && lo <= x <= hi
    ensures forall i, j :: 0 <= i < j < |r| ==> r[i] < r[j]
    ensures forall i :: 0 <= i < |r| ==> lo <= r[i]
    decreases hi - lo
  {
    if lo > hi then []
    else (if lo in grace then [lo] else []) + ExcusedInRange(grace, lo + 1, hi)
  }

  /** `getPhaseMetrics`: the phase length, the manual days in it, the excused days in it sorted. */
  function GetPhaseMetrics(range: Option<PhaseRange>, manual: seq<int>, grace: map<int, int>): (m: Metrics)
    ensures range.None? ==> m == Metrics(0, [], 0)
    ensures range.Some? ==> m.total == range.value.end - range.value.start + 1
    ensures range.Some? ==> m.manualCount == CountInRange(manual, range.value.start, range.value.end)
    ensures range.Some? ==>
      forall x :: x in m.excusedDays <==> x in grace && range.value.start <= x <= range.value.end
    ensures forall i, j :: 0 <= i < j < |m.excusedDays| ==> m.excusedDays[i] < m.excusedDays[j]
  {
    match range
    case None => Metrics(0, [], 0)
    case Some(r) =>
      Metrics(CountInRange(manual, r.start, r.end), ExcusedInRange(grace, r.start, r.end), r.end - r.start + 1)
  }

  /** Review when some day of the phase is excused and not every day is manual. */
  function GateOf(m: Metrics): Gate
  {
    if |m.excusedDays| > 0 && m.manualCount < m.total then RaiseReview else RaiseCelebration
  }

  /**
   * At a boundary day the celebration content and the range name the same phase,
   * and the excused days the metrics report lie in that range, ascending.
   */
  lemma BoundaryMetrics(o: Order, d: int, manual: seq<int>, grace: map<int, int>)
    requires PhaseRangeForEndDay(d).Some?
    ensures var r := PhaseRangeForEndDay(d).value;
      var m := GetPhaseMetrics(PhaseRangeForEndDay(d), manual, grace);
      r in Ranges && ResolvePhaseCompletion(o, d).Some? && ResolvePhaseCompletion(o, d).value.key == r.key
      && (forall x :: x in m.excusedDays ==> r.start <= x <= r.end)
      && (forall i, j :: 0 <= i < j < |m.excusedDays| ==> m.excusedDays[i] < m.excusedDays[j])
  {
  }

  /**
   * With a duplicate-free manual list, a phase boundary opens the review exactly
   * when one of the phase's days is excused and one of them is not manual;
   * otherwise it celebrates.
   */
  lemma GateIff(r: PhaseRange, manual: seq<int>, grace: map<int, int>)
    requires NoDup(manual) && r in Ranges
    ensures GateOf(GetPhaseMetrics(Some(r), manual, grace)) == RaiseReview <==>
      (exists x :: x in grace && r.start <= x <= r.end)
      && (exists x :: r.start <= x <= r.end && x !in manual)
  {
    var m := GetPhaseMetrics(Some(r), manual, grace);
    assert r.start <= r.end;
    assert forall i :: 0 <= i < |m.excusedDays| ==> m.excusedDays[i] in m.excusedDays;
    GateCore(m, manual, grace, r.start, r.end);
  }

  /** `GateIff` for a span `lo..hi` and metrics that describe it. */
  lemma GateCore(m: Metrics, manual: seq<int>, grace: map<int, int>, lo: int, hi: int)
    requires NoDup(manual) && lo <= hi
    requires m.total == hi - lo + 1 && m.manualCount == CountInRange(manual, lo, hi)
    requires forall i :: 0 <= i < |m.excusedDays| ==> m.excusedDays[i] in grace && lo <= m.excusedDays[i] <= hi
    requires forall x :: x in grace && lo <= x <= hi ==> x in m.excusedDays
    ensures GateOf(m) == RaiseReview <==>
      (exists x :: x in grace && lo <= x <= hi) && (exists x :: lo <= x <= hi && x !in manual)
  {
    ExcusedNonEmptyIff(m.excusedDays, grace, lo, hi);
    CountCoversRange(manual, lo, hi);
  }

  /** A listing of exactly the excused days of a span is empty only when none of them is excused. */
  lemma ExcusedNonEmptyIff(e: seq<int>, grace: map<int, int>, lo: int, hi: int)
    requires forall i :: 0 <= i < |e| ==> e[i] in grace && lo <= e[i] <= hi
    requires forall x :: x in grace && lo <= x <= hi ==> x in e
    ensures |e| > 0 <==> exists x :: x in grace && lo <= x <= hi
  {
    if |e| > 0 {
      assert e[0] in grace && lo <= e[0] <= hi;
    }
  }

  /** A day completes its phase (gold) exactly when every day of that phase is manual. */
  lemma PhaseFilledIff(day: int, manual: seq<int>)
    requires NoDup(manual) && FindPhaseRange(day).Some?
    ensures var r := FindPhaseRange(day).value;
      CountInRange(manual, r.start, r.end) >= r.end - r.start + 1 <==>
      forall x :: r.start <= x <= r.end ==> x in manual
  {
    var r := FindPhaseRange(day).value;
    CountCoversRange(manual, r.start, r.end);
  }

  // ------------------------------------------------------ mastery advance

  /** Months 2 closing: the month-3 unlock and its badge. */
  predicate UnlocksMonth3(s: StarterState)
  {
    s.currentMonth == 2 && s.currentDay == MasteryDays(s.currentMonth)
  }

  /** Month 4 closing: mastery complete and phase 5. */
  predicate CompletesMastery(s: StarterState)
  {
    s.currentMonth == 4 && s.currentDay == MasteryDays(s.currentMonth)
  }

  function Month2Badge(o: Order): string
  {
    if o == Aaronic then "The Shield of Faith" else "The Oil of Joy"
  }

  /** The starter state after `advanceMasteryState`. */
  function AdvancedStarter(s: StarterState): (t: StarterState)
    ensures t.isStarterFinished == s.isStarterFinished
    ensures t.month2ReflectionComplete == (s.month2ReflectionComplete || UnlocksMonth3(s))
    ensures t.masteryComplete == (s.masteryComplete || CompletesMastery(s))
  {
    var nextDay := s.currentDay + 1;
    var dim := MasteryDays(s.currentMonth);
    var m2 := s.month2ReflectionComplete || UnlocksMonth3(s);
    var done := s.masteryComplete || CompletesMastery(s);
    if nextDay > dim then
      s.(currentMonth := if s.currentMonth == 4 then 4 else Min(4, s.currentMonth + 1),
         currentDay := if s.currentMonth == 4 then dim else 1,
         month2ReflectionComplete := m2, masteryComplete := done)
    else
      s.(currentDay := nextDay, month2ReflectionComplete := m2, masteryComplete := done)
  }

  /** Advancing keeps the position invariant. */
  lemma AdvanceWellPlaced(s: StarterState)
    ensures WellPlaced(s) ==>
      WellPlaced(AdvancedStarter(s)) && AdvancedStarter(s).currentMonth >= s.currentMonth
  {
  }

  /**
   * In months 1 to 4 an advance moves the overall day forward by one, holding at
   * day 120; at a month end before month 4 it opens day 1 of the next month, and
   * the end of month 4 stays put.
   */
  lemma AdvanceMovesOneDay(s: StarterState)
    requires WellPlaced(s) && s.currentMonth >= 1
    ensures MasteryActiveDay(AdvancedStarter(s)) == Min(MasteryActiveDay(s) + 1, LastDay)
    ensures s.currentDay == MasteryDays(s.currentMonth) && s.currentMonth < 4 ==>
      AdvancedStarter(s).currentMonth == s.currentMonth + 1 && AdvancedStarter(s).currentDay == 1
    ensures CompletesMastery(s) ==>
      AdvancedStarter(s).currentMonth == 4 && AdvancedStarter(s).currentDay == 29 && AdvancedStarter(s).masteryComplete
  {
  }

  /** Mastery is complete after an advance only if it was already, or the advance closed month 4. */
  lemma AdvanceCompletesOnlyAtEnd(s: StarterState)
    requires WellPlaced(s) && !s.masteryComplete
    ensures AdvancedStarter(s).masteryComplete <==> MasteryActiveDay(s) == LastDay && s.currentMonth == 4
  {
  }

  // --------------------------------------------------------------- jumps

  /** `setOverallDay(d)` on the starter state: the new state and stored `completedDay`, or no change. */
  function JumpTo(s: StarterState, d: int): (r: Option<Jump>)
    ensures d <= 7 ==> r == Some(Jump(
      StarterState(false, 0, 1, false, s.masteryComplete), Max(0, d - 1)))
    ensures r.None? <==> d > LastDay
  {
    if d <= 7 then
      Some(Jump(s.(isStarterFinished := false, currentMonth := 0, currentDay := 1,
                   month2ReflectionComplete := false), Max(0, d - 1)))
    else match FindMonthBreak(d)
      case None => None
      case Some(b) =>
        var dayInMonth := d - b.start + 1;
        Some(Jump(s.(isStarterFinished := true, currentMonth := b.month, currentDay := dayInMonth,
                     month2ReflectionComplete := d > 63 || s.month2ReflectionComplete),
                  Max(0, dayInMonth - 1)))
  }

  /**
   * A jump to any overall day from 8 to 120 lands in mastery mode on exactly that
   * day, keeps the position invariant, and stores the day of the month before it
   * (never an overall day); past day 63 it also opens month 3.
   */
  lemma JumpLandsOnDay(s: StarterState, d: int)
    requires 8 <= d <= LastDay
    ensures var r := JumpTo(s, d);
      r.Some? && r.value.starter.isStarterFinished && WellPlaced(r.value.starter)
      && MasteryActiveDay(r.value.starter) == d
      && r.value.completedDay == r.value.starter.currentDay - 1
      && r.value.completedDay < MasteryDays(r.value.starter.currentMonth)
      && r.value.starter.masteryComplete == s.masteryComplete
      && (d > 63 ==> r.value.starter.month2ReflectionComplete)
  {
    FindMonthBreakRoundTrip(d);
  }

  /** A jump into the starter week leaves starter mode at day 1 of month 0, with the chosen day's predecessor completed. */
  lemma JumpIntoStarterWeek(c: Catalog, office: Office, p: map<Office, Progress>, s: StarterState, d: int, today: int)
    requires 1 <= d <= 7 && office in c.starterPack && |c.starterPack[office]| >= 7
    ensures var j := JumpTo(s, d).value;
      WellPlaced(j.starter) && !j.starter.isStarterFinished
      && ActiveDay(c, Some(office), p[office := Progress(j.completedDay, None)], j.starter, today) == Some(d)
  {
  }

  // -------------------------------------------------------------- badges

  /** `list.includes(b) ? list : [...list, b]`. */
  function AddBadge(badges: seq<string>, b: string): (r: seq<string>)
    ensures NoDup(badges) ==> NoDup(r)
    ensures forall x :: x in r <==> x in badges || x == b
    ensures b in badges ==> r == badges
    ensures |badges| <= |r| <= |badges| + 1 && r[..|badges|] == badges
  {
    if b in badges then badges else badges + [b]
  }

  const FinisherMessage :=
    "You have finished the journey! To earn the Gold Mastery, go back and complete your remaining Excused days."

  /** The badge for the day-120 reflection, by the count of manual days including it. */
  function FinalBadge(updatedCount: int, today: int): (u: BadgeUnlock)
    ensures u.month == 4 && u.date == today
    ensures u.title == "Priesthood Master" <==> updatedCount >= 108
    ensures u.title == "Path Finisher" <==> updatedCount < 108
    ensures u.message.Some? <==> updatedCount < 108
  {
    if updatedCount >= 108 then BadgeUnlock("Priesthood Master", 4, today, None)
    else BadgeUnlock("Path Finisher", 4, today,
      Some(FinisherMessage))
  }
}
