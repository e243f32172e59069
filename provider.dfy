/**
 * The mission provider: the state of one user's progress through the 120 days
 * and the operations that move it.  Each operation reads the state as it was
 * when it was called (a React event handler sees one snapshot) and its updates
 * land together; the storage keys `lastActiveDate`, `lastCompletedDay` and the
 * per-day completion flags are written at once.
 */
module Provider {
  import opened Common
  import opened Days
  import opened Mission
  import opened PhaseFlow

  /** `{ ...grace }` with every day of `days` set to `stamp`. */
  function Stamped(grace: map<int, int>, days: seq<int>, stamp: int): (g: map<int, int>)
    ensures g.Keys == grace.Keys + set d | d in days
    ensures forall d :: d in days ==> g[d] == stamp
    ensures forall d :: d in grace && d !in days ==> g[d] == grace[d]
  {
    grace + map d | d in days :: stamp
  }

  /** Stamping one more day is a single map update. */
  lemma StampedSnoc(grace: map<int, int>, days: seq<int>, d: int, stamp: int)
    ensures Stamped(grace, days + [d], stamp) == Stamped(grace, days, stamp)[d := stamp]
  {
    var a, b := Stamped(grace, days + [d], stamp), Stamped(grace, days, stamp)[d := stamp];
    assert a.Keys == b.Keys;
    forall k | k in a.Keys
      ensures a[k] == b[k]
    {
      if k != d {
        assert k !in days + [d] ==> k !in days;
      }
    }
  }

  /** The manual list once `day` is recorded: it joins the list once, and day 0 is never recorded. */
  function WithManual(manual: seq<int>, day: int): seq<int>
  {
    if day == 0 || day in manual then manual else manual + [day]
  }

  /** The grace map once `day` is recorded by hand: a newly recorded day is no longer excused. */
  function WithoutGrace(grace: map<int, int>, manual: seq<int>, day: int): map<int, int>
  {
    if day == 0 || day in manual then grace else grace - {day}
  }

  ghost predicate Filled(day: int, manual: seq<int>)
  {
    FindPhaseRange(day).Some?
    && forall x :: FindPhaseRange(day).value.start <= x <= FindPhaseRange(day).value.end ==> x in manual
  }

  class MissionProvider {
    const catalog: Catalog
    var userName: string
    var selectedOffice: Option<Office>
    var progressByOffice: map<Office, Progress>
    var reflectionsByOffice: map<Office, map<int, string>>
    var starter: StarterState
    var badgeUnlock: Option<BadgeUnlock>
    var badges: seq<string>
    var higherUnlocked: bool
    var phaseCompletions: set<PhaseKey>
    var phaseStatus: map<PhaseKey, Medal>
    var phaseCompletion: Option<PhaseInfo>
    var pendingPhaseAdvance: Option<PendingAdvance>
    var phaseReview: Option<PhaseReview>
    var graceDays: map<int, int>
    var manualCompletedDays: seq<int>
    var manualCompletionCount: int
    var lastActiveDate: Option<int>
    var lastCompletedDay: int
    var completedDates: set<int>

    ghost predicate Valid()
      reads this`manualCompletedDays, this`manualCompletionCount, this`selectedOffice,
        this`starter, this`progressByOffice, this`badges, this`badgeUnlock, this`phaseCompletions,
        this`phaseStatus, this`phaseCompletion, this`phaseReview, this`pendingPhaseAdvance
    {
      NoDup(manualCompletedDays) && manualCompletionCount == |manualCompletedDays|
      && FlowOk(Snapshot())
      && (pendingPhaseAdvance.Some? ==> selectedOffice.Some?)
    }

    /** The fields the phase flow works on, as one value. */
    function Snapshot(): Flow
      reads this`starter, this`progressByOffice, this`badges, this`badgeUnlock, this`phaseCompletions,
        this`phaseStatus, this`phaseCompletion, this`phaseReview, this`pendingPhaseAdvance
    {
      Flow(starter, progressByOffice, badges, badgeUnlock, phaseCompletions,
        phaseStatus, phaseCompletion, phaseReview, pendingPhaseAdvance)
    }

    /** Lands a step of the phase flow on the fields. */
    method Commit(g: Flow)
      requires NoDup(manualCompletedDays) && manualCompletionCount == |manualCompletedDays|
      requires FlowOk(g) && (g.pending.Some? ==> selectedOffice.Some?)
      modifies this`starter, this`progressByOffice, this`badges, this`badgeUnlock, this`phaseCompletions,
        this`phaseStatus, this`phaseCompletion, this`phaseReview, this`pendingPhaseAdvance
      ensures Valid()
      ensures Snapshot() == g
    {
      starter, progressByOffice, badges, badgeUnlock := g.starter, g.progress, g.badges, g.unlock;
      phaseCompletions, phaseStatus := g.completions, g.status;
      phaseCompletion, phaseReview, pendingPhaseAdvance := g.celebration, g.review, g.pending;
      assert Snapshot() == g;
    }

    /** The state of a first visit. */
    constructor (c: Catalog)
      ensures Valid() && catalog == c
      ensures userName == [] && selectedOffice == None && progressByOffice == map[]
      ensures reflectionsByOffice == map[] && starter == InitialStarter
      ensures badgeUnlock == None && badges == [] && !higherUnlocked
      ensures phaseCompletions == {} && phaseStatus == map[]
      ensures phaseCompletion == None && pendingPhaseAdvance == None && phaseReview == None
      ensures graceDays == map[] && manualCompletedDays == [] && manualCompletionCount == 0
      ensures lastActiveDate == None && lastCompletedDay == 0 && completedDates == {}
    {
      catalog := c;
      userName := [];
      selectedOffice := None;
      progressByOffice := map[];
      reflectionsByOffice := map[];
      starter := InitialStarter;
      badgeUnlock := None;
      badges := [];
      higherUnlocked := false;
      phaseCompletions := {};
      phaseStatus := map[];
      phaseCompletion := None;
      pendingPhaseAdvance := None;
      phaseReview := None;
      graceDays := map[];
      manualCompletedDays := [];
      manualCompletionCount := 0;
      lastActiveDate := None;
      lastCompletedDay := 0;
      completedDates := {};
    }

    function PriesthoodOrder(): Order
      reads this`selectedOffice
    {
      OrderOf(selectedOffice)
    }

    /** The `activeDay` the provider publishes, on day `today`. */
    function ActiveDayOn(today: int): Option<int>
      reads this`selectedOffice, this`progressByOffice, this`starter
    {
      ActiveDay(catalog, selectedOffice, progressByOffice, starter, today)
    }

    function CompletedToday(today: int): bool
      reads this`selectedOffice, this`progressByOffice
    {
      IsCompletedToday(selectedOffice, progressByOffice, today)
    }

    method SetUserName(name: string)
      modifies this`userName
      ensures userName == name
    {
      userName := name;
    }

    method SelectOffice(office: Office)
      requires Valid()
      modifies this`selectedOffice
      ensures Valid() && selectedOffice == Some(office)
    {
      selectedOffice := Some(office);
    }

    method TriggerHigherUnlocked()
      modifies this`higherUnlocked
      ensures higherUnlocked
    {
      higherUnlocked := true;
    }

    /** `recordCompletion`: the last active date and the last completed overall day, in storage. */
    method RecordCompletion(overallDay: int, today: int)
      modifies this`lastActiveDate, this`lastCompletedDay
      ensures lastActiveDate == Some(today) && lastCompletedDay == overallDay
    {
      lastActiveDate := Some(today);
      lastCompletedDay := overallDay;
    }

    /** The per-date completion flag in storage. */
    method MarkCompletedDate(today: int)
      modifies this`completedDates
      ensures completedDates == old(completedDates) + {today}
    {
      completedDates := completedDates + {today};
    }

    /**
     * `markGraceDays`: every listed day becomes excused, dated `dateKey` or else
     * today; every other excused day keeps its date; no days, no change.
     */
    method MarkGraceDays(days: seq<int>, dateKey: Option<int>, today: int)
      modifies this`graceDays
      ensures days == [] ==> graceDays == old(graceDays)
      ensures days != [] ==> graceDays == Stamped(old(graceDays), days, GetOr(dateKey, today))
    {
      if days == [] {
        return;
      }
      var stamp := GetOr(dateKey, today);
      var updated := graceDays;
      ghost var start := graceDays;
      var i := 0;
      while i < |days|
        invariant 0 <= i <= |days|
        invariant updated == Stamped(start, days[..i], stamp)
      {
        assert days[..i + 1] == days[..i] + [days[i]];
        StampedSnoc(start, days[..i], days[i], stamp);
        updated := updated[days[i] := stamp];
        i := i + 1;
      }
      assert days[..i] == days;
      graceDays := updated;
    }

    /** `clearGraceDay`: only that day stops being excused. */
    method ClearGraceDay(day: int)
      modifies this`graceDays
      ensures graceDays == old(graceDays) - {day}
    {
      graceDays := graceDays - {day};
    }

    /**
     * `updatePhaseStatusIfComplete`: when every day of the phase containing `day`
     * is in `nextManual`, that phase turns gold and complete; nothing else changes.
     */
    method UpdatePhaseStatusIfComplete(day: int, nextManual: seq<int>)
      requires NoDup(nextManual)
      modifies this`phaseStatus, this`phaseCompletions
      ensures Filled(day, nextManual) ==>
        phaseStatus == old(phaseStatus)[FindPhaseRange(day).value.key := Gold]
        && phaseCompletions == old(phaseCompletions) + {FindPhaseRange(day).value.key}
      ensures !Filled(day, nextManual) ==>
        phaseStatus == old(phaseStatus) && phaseCompletions == old(phaseCompletions)
    {
      var range := FindPhaseRange(day);
      if range.None? {
        return;
      }
      var r := range.value;
      PhaseFilledIff(day, nextManual);
      var total := r.end - r.start + 1;
      var count := CountInRange(nextManual, r.start, r.end);
      if count >= total {
        phaseStatus := phaseStatus[r.key := Gold];
        phaseCompletions := phaseCompletions + {r.key};
      }
    }

    /**
     * `recordManualCompletion`: idempotent.  The first time a (non-zero) day is
     * recorded it is appended, the count goes up by one, its excused mark goes,
     * and its phase turns gold if that completes it.
     */
    method RecordManualCompletion(day: int)
      requires Valid()
      modifies this`manualCompletedDays, this`manualCompletionCount, this`phaseStatus,
        this`phaseCompletions, this`graceDays
      ensures Valid()
      ensures day == 0 || day in old(manualCompletedDays) ==> unchanged(this)
      ensures day != 0 && day !in old(manualCompletedDays) ==>
        manualCompletedDays == old(manualCompletedDays) + [day]
        && manualCompletionCount == old(manualCompletionCount) + 1
        && graceDays == old(graceDays) - {day}
      ensures day != 0 && day !in old(manualCompletedDays) && Filled(day, manualCompletedDays) ==>
        phaseStatus == old(phaseStatus)[FindPhaseRange(day).value.key := Gold]
        && phaseCompletions == old(phaseCompletions) + {FindPhaseRange(day).value.key}
      ensures day != 0 && day !in old(manualCompletedDays) && !Filled(day, manualCompletedDays) ==>
        phaseStatus == old(phaseStatus) && phaseCompletions == old(phaseCompletions)
    {
      if day == 0 || day in manualCompletedDays {
        return;
      }
      var nextManual := manualCompletedDays + [day];
      manualCompletedDays := nextManual;
      manualCompletionCount := manualCompletionCount + 1;
      UpdatePhaseStatusIfComplete(day, nextManual);
      ClearGraceDay(day);
    }

    /** `advanceMasteryState`, for the selected office. */
    method AdvanceMasteryState(todayKey: int, completedDayValue: int)
      requires Valid() && selectedOffice.Some?
      modifies this`starter, this`progressByOffice, this`badges, this`badgeUnlock, this`phaseCompletions,
        this`phaseStatus, this`phaseCompletion, this`phaseReview, this`pendingPhaseAdvance
      ensures Valid()
      ensures Snapshot() == Advance(old(Snapshot()), selectedOffice.value, todayKey, completedDayValue)
    {
      Commit(Advance(Snapshot(), selectedOffice.value, todayKey, completedDayValue));
    }

    /**
     * `setOverallDay`: without an office, or past day 120, nothing changes;
     * otherwise the starter state and the office's stored completed day move to
     * the jump's target, with no completion date.
     */
    method SetOverallDay(d: int)
      requires Valid()
      modifies this`starter, this`progressByOffice
      ensures Valid()
      ensures selectedOffice == old(selectedOffice)
      ensures old(selectedOffice).None? || JumpTo(old(starter), d).None? ==> unchanged(this)
      ensures selectedOffice.Some? && JumpTo(old(starter), d).Some? ==>
        starter == JumpTo(old(starter), d).value.starter
        && progressByOffice == old(progressByOffice)[selectedOffice.value :=
             Progress(JumpTo(old(starter), d).value.completedDay, None)]
      ensures selectedOffice.Some? && 8 <= d <= LastDay ==>
        starter.isStarterFinished && MasteryActiveDay(starter) == d
    {
      if selectedOffice.None? {
        return;
      }
      var target := JumpTo(starter, d);
      if target.None? {
        return;
      }
      if 8 <= d <= LastDay {
        JumpLandsOnDay(starter, d);
      }
      starter := target.value.starter;
      progressByOffice := progressByOffice[selectedOffice.value := Progress(target.value.completedDay, None)];
    }

    /** `completeMission` acts: an office is selected and today is not completed yet. */
    function Ready(today: int): bool
      reads this`selectedOffice, this`progressByOffice
    {
      selectedOffice.Some? && !CompletedToday(today)
    }

    /**
     * `completeMission`: nothing without an office or once today is already
     * completed.  Otherwise today is flagged completed and stamped as the last
     * active date, and the active day becomes the last completed day; in the
     * starter week that day is stored as the office's progress, completed today,
     * and in mastery the step `CompleteMastery` is taken, judged on the manual
     * and excused days as they are.
     */
    method CompleteMission(today: int)
      requires Valid()
      modifies this`completedDates, this`lastActiveDate, this`lastCompletedDay,
        this`starter, this`progressByOffice, this`badges, this`badgeUnlock, this`phaseCompletions,
        this`phaseStatus, this`phaseCompletion, this`phaseReview, this`pendingPhaseAdvance
      ensures Valid()
      ensures !old(Ready(today)) ==> unchanged(this)
      ensures old(Ready(today)) ==>
        lastActiveDate == Some(today) && completedDates == old(completedDates) + {today}
        && lastCompletedDay == GetOr(old(ActiveDayOn(today)), 0)
      ensures old(Ready(today)) && !old(starter).isStarterFinished ==>
        Snapshot() == old(Snapshot()).(progress := old(progressByOffice)[selectedOffice.value :=
          Progress(GetOr(old(ActiveDayOn(today)), 0), Some(today))])
      ensures old(Ready(today)) && old(starter).isStarterFinished ==>
        Snapshot() == CompleteMastery(old(Snapshot()), selectedOffice.value,
          old(manualCompletedDays), old(graceDays), today)
    {
      if !Ready(today) {
        return;
      }
      CompleteMissionFor(today);
    }

    /** `completeMission` once it acts. */
    method CompleteMissionFor(today: int)
      requires Valid() && Ready(today)
      modifies this`completedDates, this`lastActiveDate, this`lastCompletedDay,
        this`starter, this`progressByOffice, this`badges, this`badgeUnlock, this`phaseCompletions,
        this`phaseStatus, this`phaseCompletion, this`phaseReview, this`pendingPhaseAdvance
      ensures Valid()
      ensures lastActiveDate == Some(today) && completedDates == old(completedDates) + {today}
        && lastCompletedDay == GetOr(old(ActiveDayOn(today)), 0)
      ensures !old(starter).isStarterFinished ==>
        Snapshot() == old(Snapshot()).(progress := old(progressByOffice)[selectedOffice.value :=
          Progress(GetOr(old(ActiveDayOn(today)), 0), Some(today))])
      ensures old(starter).isStarterFinished ==>
        Snapshot() == CompleteMastery(old(Snapshot()), selectedOffice.value,
          old(manualCompletedDays), old(graceDays), today)
    {
      var day := GetOr(ActiveDayOn(today), 0);
      if starter.isStarterFinished {
        Commit(CompleteMastery(Snapshot(), selectedOffice.value, manualCompletedDays, graceDays, today));
      } else {
        SetProgress(selectedOffice.value, Progress(day, Some(today)));
      }
      RecordMissionDay(day, today);
    }

    /** Today flagged completed and stamped as the last active date; `day` is the last completed day. */
    method RecordMissionDay(day: int, today: int)
      requires Valid()
      modifies this`completedDates, this`lastActiveDate, this`lastCompletedDay
      ensures Valid() && Snapshot() == old(Snapshot())
      ensures lastActiveDate == Some(today) && completedDates == old(completedDates) + {today}
        && lastCompletedDay == day
    {
      MarkCompletedDate(today);
      RecordCompletion(day, today);
    }

    /** Stores `p` as the progress of `office`. */
    method SetProgress(office: Office, p: Progress)
      requires Valid()
      modifies this`progressByOffice
      ensures Valid()
      ensures Snapshot() == old(Snapshot()).(progress := old(progressByOffice)[office := p])
    {
      progressByOffice := progressByOffice[office := p];
    }

    /**
     * `saveReflection`: nothing without an office or for day 0.  Stores the text
     * under the office and day, records the day as manual, stamps today as the
     * last active date and raises the last completed day to it; the day-120
     * reflection awards "Priesthood Master" when at least 108 days are manual
     * counting it, and "Path Finisher" otherwise.  A newly recorded day that
     * fills its phase turns it gold and complete; no other medal or completion
     * changes, and the rest of the phase flow is untouched.
     */
    method SaveReflection(day: int, text: string, today: int)
      requires Valid()
      modifies this`reflectionsByOffice, this`manualCompletedDays, this`manualCompletionCount,
        this`phaseStatus, this`phaseCompletions, this`graceDays, this`lastActiveDate,
        this`lastCompletedDay, this`badges, this`badgeUnlock
      ensures Valid()
      ensures old(selectedOffice).None? || day == 0 ==> unchanged(this)
      ensures selectedOffice.Some? && day != 0 ==>
        reflectionsByOffice == old(reflectionsByOffice)[selectedOffice.value :=
          ReflectionsOf(old(reflectionsByOffice), selectedOffice.value)[day := text]]
        && day in manualCompletedDays
        && manualCompletedDays == WithManual(old(manualCompletedDays), day)
        && graceDays == WithoutGrace(old(graceDays), old(manualCompletedDays), day)
        && lastActiveDate == Some(today) && lastCompletedDay == Max(old(lastCompletedDay), day)
      ensures selectedOffice.Some? && day == LastDay ==>
        badges == AddBadge(old(badges), FinalBadge(|manualCompletedDays|, today).title)
        && badgeUnlock == Some(FinalBadge(|manualCompletedDays|, today))
      ensures day != LastDay ==> badges == old(badges) && badgeUnlock == old(badgeUnlock)
      ensures selectedOffice.Some? && day != 0 && day !in old(manualCompletedDays) && Filled(day, manualCompletedDays) ==>
        phaseStatus == old(phaseStatus)[FindPhaseRange(day).value.key := Gold]
        && phaseCompletions == old(phaseCompletions) + {FindPhaseRange(day).value.key}
      ensures selectedOffice.Some? && day != 0 && (day in old(manualCompletedDays) || !Filled(day, manualCompletedDays)) ==>
        phaseStatus == old(phaseStatus) && phaseCompletions == old(phaseCompletions)
      ensures Snapshot() == old(Snapshot()).(badges := badges, unlock := badgeUnlock,
        status := phaseStatus, completions := phaseCompletions)
    {
      if selectedOffice.None? || day == 0 {
        return;
      }
      SaveReflectionFor(day, text, today);
    }

    /** `saveReflection` once an office is selected and the day is not 0. */
    method SaveReflectionFor(day: int, text: string, today: int)
      requires Valid() && selectedOffice.Some? && day != 0
      modifies this`reflectionsByOffice, this`manualCompletedDays, this`manualCompletionCount,
        this`phaseStatus, this`phaseCompletions, this`graceDays, this`lastActiveDate,
        this`lastCompletedDay, this`badges, this`badgeUnlock
      ensures Valid()
      ensures reflectionsByOffice == old(reflectionsByOffice)[selectedOffice.value :=
          ReflectionsOf(old(reflectionsByOffice), selectedOffice.value)[day := text]]
        && day in manualCompletedDays
        && manualCompletedDays == WithManual(old(manualCompletedDays), day)
        && graceDays == WithoutGrace(old(graceDays), old(manualCompletedDays), day)
        && lastActiveDate == Some(today) && lastCompletedDay == Max(old(lastCompletedDay), day)
      ensures day == LastDay ==>
        badges == AddBadge(old(badges), FinalBadge(|manualCompletedDays|, today).title)
        && badgeUnlock == Some(FinalBadge(|manualCompletedDays|, today))
      ensures day != LastDay ==> badges == old(badges) && badgeUnlock == old(badgeUnlock)
      ensures day !in old(manualCompletedDays) && Filled(day, manualCompletedDays) ==>
        phaseStatus == old(phaseStatus)[FindPhaseRange(day).value.key := Gold]
        && phaseCompletions == old(phaseCompletions) + {FindPhaseRange(day).value.key}
      ensures (day in old(manualCompletedDays) || !Filled(day, manualCompletedDays)) ==>
        phaseStatus == old(phaseStatus) && phaseCompletions == old(phaseCompletions)
      ensures Snapshot() == old(Snapshot()).(badges := badges, unlock := badgeUnlock,
        status := phaseStatus, completions := phaseCompletions)
    {
      var updatedCount := if day in manualCompletedDays then manualCompletionCount else manualCompletionCount + 1;
      RecordReflectionDay(day, today);
      FileReflection(day, text, updatedCount, today);
    }

    /** Files the reflection of the selected office and, on day 120, awards the final badge for `count` manual days. */
    method FileReflection(day: int, text: string, count: int, today: int)
      requires Valid() && selectedOffice.Some?
      modifies this`reflectionsByOffice, this`badges, this`badgeUnlock
      ensures Valid()
      ensures reflectionsByOffice == old(reflectionsByOffice)[selectedOffice.value :=
          ReflectionsOf(old(reflectionsByOffice), selectedOffice.value)[day := text]]
      ensures day == LastDay ==>
        badges == AddBadge(old(badges), FinalBadge(count, today).title)
        && badgeUnlock == Some(FinalBadge(count, today))
      ensures day != LastDay ==> badges == old(badges) && badgeUnlock == old(badgeUnlock)
      ensures Snapshot() == old(Snapshot()).(badges := badges, unlock := badgeUnlock)
    {
      StoreReflection(selectedOffice.value, day, text);
      if day == LastDay {
        AwardBadge(FinalBadge(count, today));
      }
    }

    /** Files `text` as the reflection of `office` for `day`, keeping the office's other days. */
    method StoreReflection(office: Office, day: int, text: string)
      modifies this`reflectionsByOffice
      ensures reflectionsByOffice == old(reflectionsByOffice)[office := ReflectionsOf(old(reflectionsByOffice), office)[day := text]]
    {
      reflectionsByOffice := reflectionsByOffice[office := ReflectionsOf(reflectionsByOffice, office)[day := text]];
    }

    /** `recordManualCompletion(day)` followed by the last-active and last-completed writes. */
    method RecordReflectionDay(day: int, today: int)
      requires Valid() && day != 0
      modifies this`manualCompletedDays, this`manualCompletionCount, this`phaseStatus,
        this`phaseCompletions, this`graceDays, this`lastActiveDate, this`lastCompletedDay
      ensures Valid()
      ensures day in manualCompletedDays
        && manualCompletedDays == WithManual(old(manualCompletedDays), day)
        && manualCompletionCount == |WithManual(old(manualCompletedDays), day)|
        && graceDays == WithoutGrace(old(graceDays), old(manualCompletedDays), day)
        && lastActiveDate == Some(today) && lastCompletedDay == Max(old(lastCompletedDay), day)
      ensures day !in old(manualCompletedDays) && Filled(day, manualCompletedDays) ==>
        phaseStatus == old(phaseStatus)[FindPhaseRange(day).value.key := Gold]
        && phaseCompletions == old(phaseCompletions) + {FindPhaseRange(day).value.key}
      ensures (day in old(manualCompletedDays) || !Filled(day, manualCompletedDays)) ==>
        phaseStatus == old(phaseStatus) && phaseCompletions == old(phaseCompletions)
      ensures Snapshot() == old(Snapshot()).(status := phaseStatus, completions := phaseCompletions)
    {
      RecordManualCompletion(day);
      lastActiveDate := Some(today);
      lastCompletedDay := Max(lastCompletedDay, day);
    }

    /** Adds the badge of `unlock` (once) and raises its unlock modal. */
    method AwardBadge(unlock: BadgeUnlock)
      requires Valid()
      modifies this`badges, this`badgeUnlock
      ensures Valid()
      ensures badges == AddBadge(old(badges), unlock.title) && badgeUnlock == Some(unlock)
    {
      badges := AddBadge(badges, unlock.title);
      badgeUnlock := Some(unlock);
    }

    /**
     * `completeWeeklyReflection`: nothing without an office.  Otherwise day 7 is
     * recorded as manual (its phase turning gold if that fills it) and as the
     * last completed day, and the step `CompleteWeek` is taken, judged on the
     * phase completions, manual days and excused days as they were before day 7
     * was recorded (the step itself leaves medals and completions alone).
     */
    method CompleteWeeklyReflection(today: int)
      requires Valid()
      modifies this`manualCompletedDays, this`manualCompletionCount, this`graceDays,
        this`lastActiveDate, this`lastCompletedDay,
        this`starter, this`progressByOffice, this`badges, this`badgeUnlock, this`phaseCompletions,
        this`phaseStatus, this`phaseCompletion, this`phaseReview, this`pendingPhaseAdvance
      ensures Valid()
      ensures old(selectedOffice).None? ==> unchanged(this)
      ensures old(selectedOffice).Some? ==>
        lastActiveDate == Some(today) && lastCompletedDay == 7 && 7 in manualCompletedDays
        && manualCompletedDays == (if 7 in old(manualCompletedDays) then old(manualCompletedDays)
                                   else old(manualCompletedDays) + [7])
        && graceDays == (if 7 in old(manualCompletedDays) then old(graceDays) else old(graceDays) - {7})
      ensures old(selectedOffice).Some? && 7 !in old(manualCompletedDays) && Filled(7, manualCompletedDays) ==>
        phaseStatus == old(phaseStatus)[Phase1 := Gold] && phaseCompletions == old(phaseCompletions) + {Phase1}
      ensures old(selectedOffice).Some? && (7 in old(manualCompletedDays) || !Filled(7, manualCompletedDays)) ==>
        phaseStatus == old(phaseStatus) && phaseCompletions == old(phaseCompletions)
      ensures old(selectedOffice).Some? ==>
        Snapshot() == CompleteWeek(old(Snapshot()), selectedOffice.value, old(phaseCompletions),
          old(manualCompletedDays), old(graceDays)).(status := phaseStatus, completions := phaseCompletions)
    {
      if selectedOffice.None? {
        return;
      }
      CompleteWeekFor(today);
    }

    /** `completeWeeklyReflection` once an office is selected. */
    method CompleteWeekFor(today: int)
      requires Valid() && selectedOffice.Some?
      modifies this`manualCompletedDays, this`manualCompletionCount, this`graceDays,
        this`lastActiveDate, this`lastCompletedDay,
        this`starter, this`progressByOffice, this`badges, this`badgeUnlock, this`phaseCompletions,
        this`phaseStatus, this`phaseCompletion, this`phaseReview, this`pendingPhaseAdvance
      ensures Valid()
      ensures lastActiveDate == Some(today) && lastCompletedDay == 7 && 7 in manualCompletedDays
        && manualCompletedDays == WithManual(old(manualCompletedDays), 7)
        && graceDays == WithoutGrace(old(graceDays), old(manualCompletedDays), 7)
      ensures 7 !in old(manualCompletedDays) && Filled(7, manualCompletedDays) ==>
        phaseStatus == old(phaseStatus)[Phase1 := Gold] && phaseCompletions == old(phaseCompletions) + {Phase1}
      ensures 7 in old(manualCompletedDays) || !Filled(7, manualCompletedDays) ==>
        phaseStatus == old(phaseStatus) && phaseCompletions == old(phaseCompletions)
      ensures Snapshot() == CompleteWeek(old(Snapshot()), selectedOffice.value, old(phaseCompletions),
          old(manualCompletedDays), old(graceDays)).(status := phaseStatus, completions := phaseCompletions)
    {
      Commit(CompleteWeek(Snapshot(), selectedOffice.value, phaseCompletions, manualCompletedDays, graceDays));
      RecordWeekDay(today);
    }

    /** `recordManualCompletion(7)` followed by `recordCompletion(7)`. */
    method RecordWeekDay(today: int)
      requires Valid()
      modifies this`manualCompletedDays, this`manualCompletionCount, this`graceDays,
        this`lastActiveDate, this`lastCompletedDay, this`phaseCompletions, this`phaseStatus
      ensures Valid()
      ensures Snapshot() == old(Snapshot()).(status := phaseStatus, completions := phaseCompletions)
      ensures lastActiveDate == Some(today) && lastCompletedDay == 7 && 7 in manualCompletedDays
        && manualCompletedDays == WithManual(old(manualCompletedDays), 7)
        && graceDays == WithoutGrace(old(graceDays), old(manualCompletedDays), 7)
      ensures 7 !in old(manualCompletedDays) && Filled(7, manualCompletedDays) ==>
        phaseStatus == old(phaseStatus)[Phase1 := Gold] && phaseCompletions == old(phaseCompletions) + {Phase1}
      ensures 7 in old(manualCompletedDays) || !Filled(7, manualCompletedDays) ==>
        phaseStatus == old(phaseStatus) && phaseCompletions == old(phaseCompletions)
    {
      if 7 !in manualCompletedDays {
        RecordManualCompletion(7);
      }
      RecordCompletion(7, today);
    }

    /**
     * `continuePhaseCompletion`: the step `ContinueCelebration` - the celebrated
     * phase is complete, the held advance applied, the modal closed.
     */
    method ContinuePhaseCompletion()
      requires Valid()
      modifies this`starter, this`progressByOffice, this`badges, this`badgeUnlock, this`phaseCompletions,
        this`phaseStatus, this`phaseCompletion, this`phaseReview, this`pendingPhaseAdvance
      ensures Valid()
      ensures Snapshot() == ContinueCelebration(old(Snapshot()), selectedOffice)
    {
      Commit(ContinueCelebration(Snapshot(), selectedOffice));
    }

    /**
     * `proceedPhaseWithSilver`: the step `ProceedWithSilver` - the reviewed phase
     * is complete with silver, the held advance applied, the review closed.
     */
    method ProceedPhaseWithSilver()
      requires Valid()
      modifies this`starter, this`progressByOffice, this`badges, this`badgeUnlock, this`phaseCompletions,
        this`phaseStatus, this`phaseCompletion, this`phaseReview, this`pendingPhaseAdvance
      ensures Valid()
      ensures Snapshot() == ProceedWithSilver(old(Snapshot()), selectedOffice)
    {
      Commit(ProceedWithSilver(Snapshot(), selectedOffice));
    }

    /**
     * `reviewPhaseExcused`: without a review (or one with no excused day), nothing;
     * otherwise a jump to the earliest excused day of the phase, the review closed
     * and the held advance dropped, completing nothing.
     */
    method ReviewPhaseExcused()
      requires Valid()
      modifies this`starter, this`progressByOffice, this`phaseReview, this`pendingPhaseAdvance
      ensures Valid()
      ensures old(phaseReview).None? ==> unchanged(this)
      ensures old(phaseReview).Some? ==>
        var excused := old(phaseReview).value.metrics.excusedDays;
        var first := excused[0];
        (forall x :: x in excused ==> first <= x)
        && phaseReview == None && pendingPhaseAdvance == None
        && (selectedOffice.Some? ==>
              starter == JumpTo(old(starter), first).value.starter
              && progressByOffice == old(progressByOffice)[selectedOffice.value :=
                   Progress(JumpTo(old(starter), first).value.completedDay, None)])
        && (selectedOffice.None? ==> starter == old(starter) && progressByOffice == old(progressByOffice))
    {
      if phaseReview.None? || |phaseReview.value.metrics.excusedDays| == 0 {
        return;
      }
      var excused := phaseReview.value.metrics.excusedDays;
      var first := excused[0];
      SetOverallDay(first);
      phaseReview := None;
      pendingPhaseAdvance := None;
    }

    /** `debugResetAll`: every piece of progress back to a first visit; saved reflections stay. */
    method DebugResetAll()
      modifies this`userName, this`selectedOffice, this`progressByOffice, this`starter,
        this`badgeUnlock, this`badges, this`higherUnlocked, this`phaseCompletions, this`phaseStatus,
        this`phaseCompletion, this`pendingPhaseAdvance, this`phaseReview, this`graceDays,
        this`manualCompletedDays, this`manualCompletionCount, this`lastActiveDate, this`lastCompletedDay
      ensures Valid()
      ensures userName == [] && selectedOffice == None && !higherUnlocked
      ensures graceDays == map[] && manualCompletedDays == [] && manualCompletionCount == 0
      ensures lastActiveDate == None && lastCompletedDay == 0
      ensures Snapshot() == Flow(InitialStarter, map[], [], None, {}, map[], None, None, None)
    {
      ResetFlow();
      userName, higherUnlocked, graceDays := [], false, map[];
      lastActiveDate, lastCompletedDay := None, 0;
    }

    /** The office, the manual list and the whole flow back to a first visit. */
    method ResetFlow()
      modifies this`selectedOffice, this`progressByOffice, this`starter,
        this`badgeUnlock, this`badges, this`phaseCompletions, this`phaseStatus,
        this`phaseCompletion, this`pendingPhaseAdvance, this`phaseReview,
        this`manualCompletedDays, this`manualCompletionCount
      ensures Valid()
      ensures selectedOffice == None && manualCompletedDays == [] && manualCompletionCount == 0
      ensures Snapshot() == Flow(InitialStarter, map[], [], None, {}, map[], None, None, None)
    {
      selectedOffice, manualCompletedDays, manualCompletionCount := None, [], 0;
      Commit(Flow(InitialStarter, map[], [], None, {}, map[], None, None, None));
    }
  }

  function ReflectionsOf(r: map<Office, map<int, string>>, office: Office): map<int, string>
  {
    if office in r then r[office] else map[]
  }

}
