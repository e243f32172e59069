/**
 * The dashboard: which panel fills the page, whether the habit and phase
 * trackers show, the phase tracker's figures, and the catch-up card through
 * which missed days are completed one by one.
 */
module DashboardPage {
  import opened Common
  import opened Days
  import opened Text
  import opened Mission
  import opened Provider
  import opened CatchUp

  // ------------------------------------------------------------ panel choice

  datatype Panel = Onboarding | HallOfMastery | FinalReflection | SundayGate | MissionPanel

  /** The first panel whose condition holds, in order of priority. */
  function SelectPanel(hasName: bool, office: Option<Office>, masteryComplete: bool, manual: seq<int>,
                       activeDay: Option<int>, finished: bool): Panel
  {
    if !hasName || office.None? then Onboarding
    else if masteryComplete && LastDay in manual then HallOfMastery
    else if masteryComplete then FinalReflection
    else if activeDay == Some(StarterDays) && !finished then SundayGate
    else MissionPanel
  }

  /**
   * Each panel appears exactly when its own condition holds and no condition
   * of higher priority does: onboarding, the Hall of Mastery, the final
   * reflection, the Sunday gate, then the mission card.
   */
  lemma PanelPriority(hasName: bool, office: Option<Office>, masteryComplete: bool, manual: seq<int>,
                      activeDay: Option<int>, finished: bool)
    ensures var p := SelectPanel(hasName, office, masteryComplete, manual, activeDay, finished);
      var ready := hasName && office.Some?;
      (p == Onboarding <==> !ready)
      && (p == HallOfMastery <==> ready && masteryComplete && LastDay in manual)
      && (p == FinalReflection <==> ready && masteryComplete && LastDay !in manual)
      && (p == SundayGate <==> ready && !masteryComplete && activeDay == Some(StarterDays) && !finished)
      && (p == MissionPanel <==> ready && !masteryComplete && !(activeDay == Some(StarterDays) && !finished))
  {
  }

  /** The habit and phase trackers: shown unless mastery is complete or the Sunday gate is up. */
  predicate TrackersShown(masteryComplete: bool, activeDay: Option<int>, finished: bool)
  {
    !masteryComplete && !(activeDay == Some(StarterDays) && !finished)
  }

  /** The trackers sit under the onboarding panel or the mission card, and always under the mission card. */
  lemma TrackersBesidePanel(hasName: bool, office: Option<Office>, masteryComplete: bool, manual: seq<int>,
                            activeDay: Option<int>, finished: bool)
    ensures var p := SelectPanel(hasName, office, masteryComplete, manual, activeDay, finished);
      (TrackersShown(masteryComplete, activeDay, finished) ==> p == Onboarding || p == MissionPanel)
      && (p == MissionPanel ==> TrackersShown(masteryComplete, activeDay, finished))
  {
  }

  // ----------------------------------------------------------- phase tracker

  const StarterLabel := "Starter Week"
  const FoundationLabel := "Scriptural Foundation"

  datatype TrackerPhase = TrackerPhase(start: int, end: int, target: int, title: string)

  /** The tracker's five phases; the labels of months 2 to 4 follow the priesthood order. */
  function TrackerPhases(o: Order): (ps: seq<TrackerPhase>)
    ensures |ps| == 5
    ensures forall k :: 0 <= k < 5 ==> ps[k].target == ps[k].end - ps[k].start + 1
  {
    [TrackerPhase(1, 7, 7, StarterLabel),
     TrackerPhase(8, 35, 28, FoundationLabel),
     TrackerPhase(36, 63, 28, PhaseContentTitle(o, 2)),
     TrackerPhase(64, 91, 28, PhaseContentTitle(o, 3)),
     TrackerPhase(92, 120, 29, PhaseContentTitle(o, 4))]
  }

  const HealerLabel := "The Healer"
  const GatekeeperLabel := "The Gatekeeper"
  const ShepherdLabel := "The Shepherd"
  const WatchmanLabel := "The Watchman"
  const PatriarchLabel := "The Patriarch"
  const PreparerLabel := "The Preparer"

  /** The labels of months 2 to 4, which follow the priesthood order. */
  function PhaseContentTitle(o: Order, month: int): string
  {
    if month == 2 then (if o == Melchizedek then HealerLabel else GatekeeperLabel)
    else if month == 3 then (if o == Melchizedek then ShepherdLabel else WatchmanLabel)
    else if o == Melchizedek then PatriarchLabel else PreparerLabel
  }

  /**
   * The tracker's phases are the provider's phase ranges for the starter week
   * and months 1 to 3, and month 4's span of overall days.
   */
  lemma TrackerPhasesAgree(o: Order, k: int)
    requires 0 <= k < 5
    ensures k < 4 ==> TrackerPhases(o)[k].start == Ranges[k].start && TrackerPhases(o)[k].end == Ranges[k].end
    ensures k == 4 ==> TrackerPhases(o)[k].start == MonthBreaks[3].start && TrackerPhases(o)[k].end == MonthBreaks[3].end
    ensures 1 <= k ==> TrackerPhases(o)[k].target == MasteryDays(k)
  {
  }

  /** The phase whose span holds `currentDay`, else the starter week. */
  function TrackerPhaseFor(o: Order, currentDay: int): (p: TrackerPhase)
    ensures p in TrackerPhases(o)
    ensures 1 <= currentDay <= LastDay ==> p.start <= currentDay <= p.end
    ensures !(1 <= currentDay <= LastDay) ==> p == TrackerPhases(o)[0]
  {
    var ps := TrackerPhases(o);
    if 1 <= currentDay <= 7 then ps[0]
    else if 8 <= currentDay <= 35 then ps[1]
    else if 36 <= currentDay <= 63 then ps[2]
    else if 64 <= currentDay <= 91 then ps[3]
    else if 92 <= currentDay <= 120 then ps[4]
    else ps[0]
  }

  /** The figures the tracker shows. */
  datatype TrackerView = TrackerView(
    phase: TrackerPhase, dayInPhase: int, percent: int, phaseComplete: bool,
    manualInPhase: int, phaseProgress: int, masteryScore: int, gold: bool)

  /**
   * The tracker for `currentDay` (`activeDay || 1`): the day within the phase
   * clamped to the phase's length, its rounded percentage, whether today
   * closes the phase, the manual days inside the phase, their rounded share,
   * the manual days against the days so far (never dividing by less than
   * one), and the Gold medal exactly at a full share.
   */
  function Tracker(o: Order, currentDay: int, missionCompleted: bool, manual: seq<int>): (v: TrackerView)
    ensures v.phase == TrackerPhaseFor(o, currentDay)
    ensures v.dayInPhase == Min(v.phase.target, Max(1, currentDay - v.phase.start + 1))
    ensures v.phase.start <= currentDay <= v.phase.end ==> v.dayInPhase == currentDay - v.phase.start + 1
    ensures 1 <= v.dayInPhase <= v.phase.target
    ensures v.percent == Percent(v.dayInPhase, v.phase.target)
    ensures 1 <= v.percent <= 100
    ensures v.phaseComplete <==> currentDay == v.phase.end && missionCompleted
    ensures v.manualInPhase == CountInRange(manual, v.phase.start, v.phase.end)
    ensures v.phaseProgress == Percent(v.manualInPhase, v.phase.target)
    ensures v.masteryScore == Percent(|manual|, Max(currentDay, 1))
    ensures v.gold <==> v.phaseProgress == 100
  {
    var p := TrackerPhaseFor(o, currentDay);
    var dayInPhase := Min(p.target, Max(1, currentDay - p.start + 1));
    PercentBounds(dayInPhase, p.target);
    var manualInPhase := CountInRange(manual, p.start, p.end);
    var phaseProgress := Percent(manualInPhase, p.target);
    TrackerView(p, dayInPhase, Percent(dayInPhase, p.target), currentDay == p.end && missionCompleted,
      manualInPhase, phaseProgress, Percent(|manual|, Max(currentDay, 1)), phaseProgress == 100)
  }

  /**
   * With manual days kept free of duplicates, the phase share lies between 0
   * and 100, and the medal reads Gold exactly when every day of the phase is
   * manually completed (Silver otherwise, whatever the phase status says).
   */
  lemma GoldIffPhaseFilled(o: Order, currentDay: int, missionCompleted: bool, manual: seq<int>)
    requires NoDup(manual)
    ensures var v := Tracker(o, currentDay, missionCompleted, manual);
      0 <= v.phaseProgress <= 100
      && (v.gold <==> forall x :: v.phase.start <= x <= v.phase.end ==> x in manual)
  {
    var v := Tracker(o, currentDay, missionCompleted, manual);
    var p := v.phase;
    assert p.target == p.end - p.start + 1 by {
      assert p in TrackerPhases(o);
    }
    CountCoversRange(manual, p.start, p.end);
    PercentBounds(v.manualInPhase, p.target);
  }

  /** Manual days within the days so far give a mastery score between 0 and 100. */
  lemma MasteryScoreBounds(o: Order, currentDay: int, missionCompleted: bool, manual: seq<int>)
    requires |manual| <= Max(currentDay, 1) && currentDay < 200
    ensures 0 <= Tracker(o, currentDay, missionCompleted, manual).masteryScore <= 100
  {
    PercentBounds(|manual|, Max(currentDay, 1));
  }

  // ---------------------------------------------------------- catch-up card

  /** `getReflection(day)`: the office's stored text for the day, or "" . */
  function StoredReflection(refl: map<Office, map<int, string>>, office: Option<Office>, day: int): (r: string)
    ensures office.None? || day == 0 ==> r == []
    ensures office.Some? && office.value in refl && day in refl[office.value] && day != 0 ==>
      r == refl[office.value][day]
  {
    if office.None? || day == 0 || office.value !in refl || day !in refl[office.value] then []
    else refl[office.value][day]
  }

  class DashboardView {
    const provider: MissionProvider
    const store: CatchUpStore
    var catchUpDay: Option<int>
    var catchUpReflection: string
    var catchUpDoneMessage: bool
    var finalReflection: string

    constructor (p: MissionProvider, s: CatchUpStore)
      ensures provider == p && store == s
      ensures catchUpDay.None? && catchUpReflection == [] && !catchUpDoneMessage && finalReflection == []
    {
      provider := p;
      store := s;
      catchUpDay := None;
      catchUpReflection := [];
      catchUpDoneMessage := false;
      finalReflection := [];
    }

    /** Opening a catch-up day preloads its saved reflection, if any. */
    method OpenCatchUpDay(day: int)
      modifies this`catchUpDay, this`catchUpReflection
      ensures catchUpDay == Some(day)
      ensures catchUpReflection == StoredReflection(provider.reflectionsByOffice, provider.selectedOffice, day)
    {
      catchUpDay := Some(day);
      catchUpReflection := StoredReflection(provider.reflectionsByOffice, provider.selectedOffice, day);
    }

    /** A catch-up start handed over by the app opens that day. */
    method TakeCatchUpStart(start: Option<int>)
      modifies this`catchUpDay, this`catchUpReflection
      ensures start.Some? && start.value != 0 ==>
        catchUpDay == start && catchUpReflection == StoredReflection(provider.reflectionsByOffice, provider.selectedOffice, start.value)
      ensures start.None? || start.value == 0 ==>
        catchUpDay == old(catchUpDay) && catchUpReflection == old(catchUpReflection)
    {
      if start.Some? && start.value != 0 {
        OpenCatchUpDay(start.value);
      }
    }

    /** In catch-up mode with no day open, the head of the queue opens. */
    method ResumeQueue()
      modifies this`catchUpDay, this`catchUpReflection
      ensures store.mode && (old(catchUpDay).None? || old(catchUpDay) == Some(0)) && store.queue != [] ==>
        catchUpDay == Some(store.queue[0])
      ensures !(store.mode && (old(catchUpDay).None? || old(catchUpDay) == Some(0)) && store.queue != []) ==>
        catchUpDay == old(catchUpDay) && catchUpReflection == old(catchUpReflection)
    {
      if store.mode && (catchUpDay.None? || catchUpDay == Some(0)) && store.queue != [] {
        OpenCatchUpDay(store.queue[0]);
      }
    }

    /**
     * "Verify completion": blank text changes nothing.  Otherwise the trimmed
     * text is saved as the open day's reflection, the day leaves the queue
     * (in or out of catch-up mode), and either the queue is now empty, the
     * mode ends, the card closes and the done message shows, or the next
     * queued day opens.
     */
    method Verify(today: int)
      requires provider.Valid() && catchUpDay.Some?
      modifies provider`reflectionsByOffice, provider`manualCompletedDays, provider`manualCompletionCount,
        provider`phaseStatus, provider`phaseCompletions, provider`graceDays, provider`lastActiveDate,
        provider`lastCompletedDay, provider`badges, provider`badgeUnlock,
        store, this`catchUpDay, this`catchUpReflection, this`catchUpDoneMessage
      ensures provider.Valid()
      ensures IsBlank(old(catchUpReflection)) ==>
        unchanged(provider) && unchanged(store) && unchanged(this)
      ensures !IsBlank(old(catchUpReflection)) && provider.selectedOffice.Some? && old(catchUpDay).value != 0 ==>
        old(catchUpDay).value in provider.manualCompletedDays
      ensures !IsBlank(old(catchUpReflection)) ==>
        store.queue == RemoveAll(old(store.queue), old(catchUpDay).value)
        && store.mode == (old(store.mode) && store.queue != [])
      ensures !IsBlank(old(catchUpReflection)) && store.queue == [] ==>
        catchUpDay.None? && catchUpDoneMessage && catchUpReflection == []
      ensures !IsBlank(old(catchUpReflection)) && store.queue != [] ==>
        catchUpDay == Some(store.queue[0]) && catchUpDoneMessage == old(catchUpDoneMessage)
    {
      var text := Trim(catchUpReflection);
      if text == [] {
        return;
      }
      var id := catchUpDay.value;
      provider.SaveReflection(id, text, today);
      MoveOn(id);
    }

    /** After a catch-up save: the form clears, the day leaves the queue, and the card moves on or closes. */
    method MoveOn(id: int)
      modifies store, this`catchUpDay, this`catchUpReflection, this`catchUpDoneMessage
      ensures store.queue == RemoveAll(old(store.queue), id) && store.mode == (old(store.mode) && store.queue != [])
      ensures store.queue == [] ==> catchUpDay.None? && catchUpDoneMessage && catchUpReflection == []
      ensures store.queue != [] ==> catchUpDay == Some(store.queue[0]) && catchUpDoneMessage == old(catchUpDoneMessage)
    {
      catchUpReflection := [];
      var next := store.Consume(id);
      if next.None? {
        catchUpDay := None;
        catchUpDoneMessage := true;
      } else {
        OpenCatchUpDay(next.value);
      }
    }

    /** Saving the final reflection: blank text changes nothing, otherwise day 120 is saved and the form clears. */
    method SaveFinal(today: int)
      requires provider.Valid()
      modifies provider`reflectionsByOffice, provider`manualCompletedDays, provider`manualCompletionCount,
        provider`phaseStatus, provider`phaseCompletions, provider`graceDays, provider`lastActiveDate,
        provider`lastCompletedDay, provider`badges, provider`badgeUnlock, this`finalReflection
      ensures provider.Valid()
      ensures IsBlank(old(finalReflection)) ==> unchanged(provider) && finalReflection == old(finalReflection)
      ensures !IsBlank(old(finalReflection)) ==> finalReflection == []
      ensures !IsBlank(old(finalReflection)) && provider.selectedOffice.Some? ==>
        LastDay in provider.manualCompletedDays
        && provider.badgeUnlock == Some(FinalBadge(|provider.manualCompletedDays|, today))
    {
      var text := Trim(finalReflection);
      if text == [] {
        return;
      }
      provider.SaveReflection(LastDay, text, today);
      finalReflection := [];
    }
  }
}
