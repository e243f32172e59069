/**
 * The part of the mission provider's state that completing a day, opening a
 * phase modal and resolving it change, as one value, and each of those steps
 * as a function from the state before to the state after.  The provider's
 * methods are proved to perform exactly these steps.
 */
module PhaseFlow {
  import opened Common
  import opened Days
  import opened Mission

  datatype Flow = Flow(
    starter: StarterState,
    progress: map<Office, Progress>,
    badges: seq<string>,
    unlock: Option<BadgeUnlock>,
    completions: set<PhaseKey>,
    status: map<PhaseKey, Medal>,
    celebration: Option<PhaseInfo>,
    review: Option<PhaseReview>,
    pending: Option<PendingAdvance>)

  /** A review names a phase, its range and at least one excused day of it, ascending. */
  ghost predicate ReviewWellFormed(r: PhaseReview)
  {
    r.range in Ranges && r.phase.key == r.range.key
    && |r.metrics.excusedDays| > 0
    && (forall i :: 0 <= i < |r.metrics.excusedDays| ==>
          r.range.start <= r.metrics.excusedDays[i] <= r.range.end)
    && (forall i, j :: 0 <= i < j < |r.metrics.excusedDays| ==>
          r.metrics.excusedDays[i] < r.metrics.excusedDays[j])
  }

  /** Badges are listed once each, the position is on the calendar, an open review is well formed. */
  ghost predicate FlowOk(f: Flow)
  {
    NoDup(f.badges) && WellPlaced(f.starter)
    && (f.review.Some? ==> ReviewWellFormed(f.review.value))
  }

  /** A mastery day holds the advance: it closes a phase that is not complete yet. */
  predicate HeldAt(d: int, o: Order, completions: set<PhaseKey>)
  {
    ResolvePhaseCompletion(o, d).Some? && ResolvePhaseCompletion(o, d).value.key !in completions
  }

  /**
   * `advanceMasteryState(todayKey, completedDayValue)` for `office`: the position
   * moves one mastery day on, closing month 2 adds the order's badge (once) and
   * announces it, closing month 4 completes phase 5, and the office's progress
   * is stamped; the medals and the phase modals are untouched.
   */
  function Advance(f: Flow, office: Office, todayKey: int, completedDayValue: int): (g: Flow)
    ensures FlowOk(f) ==> FlowOk(g)
    ensures g.starter == AdvancedStarter(f.starter)
    ensures g.progress == f.progress[office := Progress(completedDayValue, Some(todayKey))]
    ensures g.completions == f.completions + (if CompletesMastery(f.starter) then {Phase5} else {})
    ensures forall b :: b in g.badges <==> b in f.badges || (UnlocksMonth3(f.starter) && b == Month2Badge(OrderOf(Some(office))))
    ensures UnlocksMonth3(f.starter) ==> g.unlock == Some(BadgeUnlock(Month2Badge(OrderOf(Some(office))), 2, todayKey, None))
    ensures !UnlocksMonth3(f.starter) ==> g.badges == f.badges && g.unlock == f.unlock
    ensures g.status == f.status && g.celebration == f.celebration && g.review == f.review && g.pending == f.pending
  {
    var badge := Month2Badge(OrderOf(Some(office)));
    var unlocks := UnlocksMonth3(f.starter);
    AdvanceWellPlaced(f.starter);
    f.(starter := AdvancedStarter(f.starter),
       progress := f.progress[office := Progress(completedDayValue, Some(todayKey))],
       badges := if unlocks then AddBadge(f.badges, badge) else f.badges,
       unlock := if unlocks then Some(BadgeUnlock(badge, 2, todayKey, None)) else f.unlock,
       completions := if CompletesMastery(f.starter) then f.completions + {Phase5} else f.completions)
  }

  /** The starter advance: mastery begins at month 1, day 1, and the office's progress is cleared. */
  function FinishStarter(f: Flow, office: Office): (g: Flow)
    ensures FlowOk(f) ==> FlowOk(g)
    ensures g.starter.isStarterFinished && MasteryActiveDay(g.starter) == 8
    ensures !g.starter.month2ReflectionComplete && !g.starter.masteryComplete
    ensures g.progress == f.progress[office := NoProgress]
    ensures g == f.(starter := g.starter, progress := g.progress)
  {
    f.(starter := StarterState(true, 1, 1, false, false), progress := f.progress[office := NoProgress])
  }

  /**
   * A phase boundary that is held: the excused-days review opens when the gate
   * says so, the celebration otherwise, and `pending` waits for either to close.
   */
  function Hold(f: Flow, info: PhaseInfo, range: PhaseRange, m: Metrics, pending: PendingAdvance): (g: Flow)
    requires range in Ranges && info.key == range.key
    requires forall x :: x in m.excusedDays ==> range.start <= x <= range.end
    requires forall i, j :: 0 <= i < j < |m.excusedDays| ==> m.excusedDays[i] < m.excusedDays[j]
    ensures FlowOk(f) ==> FlowOk(g)
    ensures g.pending == Some(pending)
    ensures GateOf(m) == RaiseReview ==> g.review == Some(PhaseReview(info, range, m)) && g.celebration == f.celebration
    ensures GateOf(m) == RaiseCelebration ==> g.celebration == Some(info) && g.review == f.review
    ensures g.starter == f.starter && g.progress == f.progress && g.badges == f.badges && g.unlock == f.unlock
    ensures g.completions == f.completions && g.status == f.status
  {
    if GateOf(m) == RaiseReview then
      assert forall i :: 0 <= i < |m.excusedDays| ==> m.excusedDays[i] in m.excusedDays;
      f.(review := Some(PhaseReview(info, range, m)), pending := Some(pending))
    else
      f.(celebration := Some(info), pending := Some(pending))
  }

  /**
   * `completeMission` in mastery, apart from the storage writes: at the end of a
   * phase that is not complete yet the advance is held behind the review or the
   * celebration, judged on `manual` and `grace`; on any other day the state
   * advances, stamped with the day of the month just completed.
   */
  function CompleteMastery(f: Flow, office: Office, manual: seq<int>, grace: map<int, int>, today: int): (g: Flow)
    ensures FlowOk(f) ==> FlowOk(g)
    ensures var d := MasteryActiveDay(f.starter); var o := OrderOf(Some(office));
      HeldAt(d, o, f.completions) ==>
        g == Hold(f, ResolvePhaseCompletion(o, d).value, PhaseRangeForEndDay(d).value,
                  GetPhaseMetrics(PhaseRangeForEndDay(d), manual, grace), MasteryAdvance(today, f.starter.currentDay))
    ensures !HeldAt(MasteryActiveDay(f.starter), OrderOf(Some(office)), f.completions) ==>
      g == Advance(f, office, today, f.starter.currentDay)
  {
    var d := MasteryActiveDay(f.starter);
    var o := OrderOf(Some(office));
    if HeldAt(d, o, f.completions) then
      BoundaryMetrics(o, d, manual, grace);
      Hold(f, ResolvePhaseCompletion(o, d).value, PhaseRangeForEndDay(d).value,
           GetPhaseMetrics(PhaseRangeForEndDay(d), manual, grace), MasteryAdvance(today, f.starter.currentDay))
    else
      Advance(f, office, today, f.starter.currentDay)
  }

  /**
   * `completeWeeklyReflection` after day 7 is recorded: when phase 1 was not
   * complete (`completions`), the starter advance is held behind the review or
   * the celebration, judged on `manual` and `grace`; otherwise mastery begins.
   */
  function CompleteWeek(f: Flow, office: Office, completions: set<PhaseKey>, manual: seq<int>, grace: map<int, int>): (g: Flow)
    ensures FlowOk(f) ==> FlowOk(g)
    ensures Phase1 !in completions ==>
      g == Hold(f, ResolvePhaseCompletion(OrderOf(Some(office)), 7).value, Ranges[0],
                GetPhaseMetrics(Some(Ranges[0]), manual, grace), StarterAdvance)
    ensures Phase1 in completions ==> g == FinishStarter(f, office)
  {
    var o := OrderOf(Some(office));
    if HeldAt(7, o, completions) then
      BoundaryMetrics(o, 7, manual, grace);
      Hold(f, ResolvePhaseCompletion(o, 7).value, Ranges[0], GetPhaseMetrics(Some(Ranges[0]), manual, grace), StarterAdvance)
    else
      FinishStarter(f, office)
  }

  /** The held advance, applied once a phase modal closes (none needs no office). */
  function ApplyPending(f: Flow, office: Option<Office>): (g: Flow)
    requires f.pending.Some? ==> office.Some?
    ensures FlowOk(f) ==> FlowOk(g)
    ensures f.pending.None? ==> g == f
    ensures f.pending == Some(StarterAdvance) ==> g == FinishStarter(f, office.value)
    ensures f.pending.Some? && f.pending.value.MasteryAdvance? ==>
      g == Advance(f, office.value, f.pending.value.todayKey, f.pending.value.completedDayValue)
  {
    match f.pending
    case None => f
    case Some(StarterAdvance) => FinishStarter(f, office.value)
    case Some(MasteryAdvance(t, v)) => Advance(f, office.value, t, v)
  }

  /**
   * `continuePhaseCompletion`: without a celebration, nothing; otherwise the
   * celebrated phase is complete (its medal untouched), the held advance is
   * applied, and the celebration and the held advance are cleared.
   */
  function ContinueCelebration(f: Flow, office: Option<Office>): (g: Flow)
    requires f.pending.Some? ==> office.Some?
    ensures FlowOk(f) ==> FlowOk(g)
    ensures f.celebration.None? ==> g == f
    ensures f.celebration.Some? ==>
      g.celebration == None && g.pending == None && f.celebration.value.key in g.completions
      && g.status == f.status && g.review == f.review
      && f.completions <= g.completions
      && g == ApplyPending(f.(completions := f.completions + {f.celebration.value.key}), office)
                .(celebration := None, pending := None)
  {
    if f.celebration.None? then f
    else
      var marked := f.(completions := f.completions + {f.celebration.value.key});
      ApplyPending(marked, office).(celebration := None, pending := None)
  }

  /**
   * `proceedPhaseWithSilver`: without a review, nothing; otherwise the reviewed
   * phase is complete with a silver medal, the held advance is applied, and the
   * review and the held advance are cleared.
   */
  function ProceedWithSilver(f: Flow, office: Option<Office>): (g: Flow)
    requires f.pending.Some? ==> office.Some?
    ensures FlowOk(f) ==> FlowOk(g)
    ensures f.review.None? ==> g == f
    ensures f.review.Some? ==>
      var key := f.review.value.range.key;
      g.review == None && g.pending == None && key in g.completions
      && g.status == f.status[key := Silver] && g.celebration == f.celebration
      && f.completions <= g.completions
      && g == ApplyPending(f.(status := f.status[key := Silver], completions := f.completions + {key}), office)
                .(review := None, pending := None)
  {
    if f.review.None? then f
    else
      var key := f.review.value.range.key;
      var marked := f.(status := f.status[key := Silver], completions := f.completions + {key});
      ApplyPending(marked, office).(review := None, pending := None)
  }

  /**
   * Completing a mastery day either advances by exactly one overall day (staying
   * on day 120 at the very end), or leaves the position where it is because the
   * day closes a phase that is not complete yet.
   */
  lemma CompleteMasteryMoves(f: Flow, office: Office, manual: seq<int>, grace: map<int, int>, today: int)
    requires WellPlaced(f.starter) && f.starter.isStarterFinished
    ensures var g := CompleteMastery(f, office, manual, grace, today);
      var d := MasteryActiveDay(f.starter);
      (HeldAt(d, OrderOf(Some(office)), f.completions) ==> g.starter == f.starter && g.progress == f.progress)
      && (!HeldAt(d, OrderOf(Some(office)), f.completions) ==> MasteryActiveDay(g.starter) == Min(d + 1, LastDay))
  {
    AdvanceMovesOneDay(f.starter);
  }

  /**
   * With a duplicate-free manual list, completing a mastery day opens the review
   * exactly when it closes a phase that is not complete yet, some day of that
   * phase is excused and some day of it is not manual.
   */
  lemma CompleteMasteryReviewIff(f: Flow, office: Office, manual: seq<int>, grace: map<int, int>, today: int)
    requires NoDup(manual) && f.review.None?
    ensures var g := CompleteMastery(f, office, manual, grace, today);
      var d := MasteryActiveDay(f.starter);
      g.review.Some? <==>
        HeldAt(d, OrderOf(Some(office)), f.completions)
        && (exists x :: x in grace && PhaseRangeForEndDay(d).value.start <= x <= d)
        && (exists x :: PhaseRangeForEndDay(d).value.start <= x <= d && x !in manual)
  {
    var d := MasteryActiveDay(f.starter);
    if HeldAt(d, OrderOf(Some(office)), f.completions) {
      var r := PhaseRangeForEndDay(d).value;
      GateIff(r, manual, grace);
    }
  }

  /**
   * The weekly reflection opens the review exactly when phase 1 was not complete,
   * one of days 1 to 7 is excused and one of them is not manual.
   */
  lemma CompleteWeekReviewIff(f: Flow, office: Office, completions: set<PhaseKey>, manual: seq<int>, grace: map<int, int>)
    requires NoDup(manual) && f.review.None?
    ensures CompleteWeek(f, office, completions, manual, grace).review.Some? <==>
      Phase1 !in completions
      && (exists x :: x in grace && 1 <= x <= 7)
      && (exists x :: 1 <= x <= 7 && x !in manual)
  {
    if Phase1 !in completions {
      GateIff(Ranges[0], manual, grace);
    }
  }

  /** Resolving a phase modal never takes a phase back out of the completed ones. */
  lemma ResolvingKeepsCompletions(f: Flow, office: Option<Office>)
    requires f.pending.Some? ==> office.Some?
    ensures f.completions <= ContinueCelebration(f, office).completions
    ensures f.completions <= ProceedWithSilver(f, office).completions
  {
  }
}
