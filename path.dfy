/**
 * The path page: the status of each starter-week day, the timeline of the four
 * mastery months, the calendar of the opened month, and the reflection form
 * through which a past day is completed, which also works through the
 * catch-up queue.
 */
module PathPage {
  import opened Common
  import opened Days
  import opened Text
  import opened Mission
  import opened Provider
  import opened CatchUp

  /** `value || 1` for a day number that may be missing or 0. */
  function OrOne(v: Option<int>): int
  {
    if v.None? || v.value == 0 then 1 else v.value
  }

  // ------------------------------------------------------- starter-week days

  /** The flags a day renders with. */
  datatype DayStatus = DayStatus(excused: bool, completed: bool, current: bool, locked: bool, missed: bool)

  /**
   * The flags of a starter-week day against the current day: excused when it
   * has a grace date, completed when it is manual; locked, current and missed
   * name three exclusive positions, and a missed day is never completed nor
   * excused.
   */
  function StarterStatus(day: int, currentDay: int, grace: map<int, int>, manual: seq<int>): (st: DayStatus)
    ensures st.excused <==> day in grace
    ensures st.completed <==> day in manual
    ensures st.locked <==> currentDay < day
    ensures st.current <==> day == currentDay
    ensures st.missed <==> day < currentDay && !st.completed && !st.excused
    ensures !(st.locked && st.current) && !(st.locked && st.missed) && !(st.current && st.missed)
  {
    DayStatus(day in grace, day in manual, day == currentDay, day > currentDay,
      day < currentDay && day !in manual && day !in grace)
  }

  /** Only a day that is not locked can be opened. */
  predicate Selectable(st: DayStatus)
  {
    !st.locked
  }

  datatype Label = ExcusedLabel | CompletedLabel | MissedLabel | CurrentLabel | LockedLabel

  /** The status line: Excused, then Completed, then Missed, then Current, else Locked. */
  function LabelOf(st: DayStatus): Label
  {
    if st.excused then ExcusedLabel
    else if st.completed then CompletedLabel
    else if st.missed then MissedLabel
    else if st.current then CurrentLabel
    else LockedLabel
  }

  /**
   * Under that precedence every past day reads Excused, Completed or Missed,
   * the current day reads Current unless it is excused or completed, and
   * Locked is shown exactly for a later day that is neither.
   */
  lemma StarterLabel(day: int, currentDay: int, grace: map<int, int>, manual: seq<int>)
    ensures var l := LabelOf(StarterStatus(day, currentDay, grace, manual));
      (l == ExcusedLabel <==> day in grace)
      && (l == CompletedLabel <==> day !in grace && day in manual)
      && (l == MissedLabel <==> day < currentDay && day !in grace && day !in manual)
      && (l == CurrentLabel <==> day == currentDay && day !in grace && day !in manual)
      && (l == LockedLabel <==> currentDay < day && day !in grace && day !in manual)
  {
  }

  // ------------------------------------------------------------ month timeline

  datatype MonthState = MonthState(active: bool, complete: bool, locked: bool)

  /**
   * A month of the timeline, given whether the starter week is finished, the
   * active month and whether month 2's reflection is done: month 3 stays
   * locked until it is; a month is complete iff the week is finished and the
   * month lies before the active one; an active month is neither locked nor
   * complete, and every month is in at least one state.
   */
  function MonthStateOf(month: int, finished: bool, activeMonth: int, month2Done: bool): (m: MonthState)
    ensures month == 3 && !month2Done ==> m.locked && !m.active
    ensures m.complete <==> finished && month < activeMonth
    ensures m.active <==> finished && month == activeMonth && !(month == 3 && !month2Done)
    ensures m.active ==> !m.locked && !m.complete
    ensures m.active || m.complete || m.locked
  {
    var month3Locked := month == 3 && !month2Done;
    MonthState(finished && month == activeMonth && !month3Locked,
      finished && month < activeMonth,
      !finished || month > activeMonth || month3Locked)
  }

  /** At most one month of the timeline is active. */
  lemma OneActiveMonth(a: int, b: int, finished: bool, activeMonth: int, month2Done: bool)
    requires MonthStateOf(a, finished, activeMonth, month2Done).active
    requires MonthStateOf(b, finished, activeMonth, month2Done).active
    ensures a == b
  {
  }

  /** Before the starter week is finished every month is locked and none is open or done. */
  lemma TimelineLockedInStarter(month: int, activeMonth: int, month2Done: bool)
    ensures var m := MonthStateOf(month, false, activeMonth, month2Done);
      m.locked && !m.active && !m.complete
  {
  }

  // -------------------------------------------------------------- calendar

  /** One cell of the opened month's calendar. */
  datatype Cell = Cell(overallDay: int, status: DayStatus)

  /**
   * Day `dayNumber` of `month`: the cell names overall day `overallDayForMonth`,
   * is locked iff it lies after the active day of the month (`masteryDay || 1`)
   * and current iff it is that day, and counts as missed when its overall day
   * is before the current overall day with neither a manual completion nor a
   * grace date.
   */
  function CalendarCell(month: int, dayNumber: int, masteryDay: int, currentDay: int,
                        grace: map<int, int>, manual: seq<int>): (c: Cell)
    ensures c.overallDay == OverallDay(month, dayNumber)
    ensures c.status.locked <==> OrOne(Some(masteryDay)) < dayNumber
    ensures c.status.current <==> dayNumber == OrOne(Some(masteryDay))
    ensures c.status.excused <==> c.overallDay in grace
    ensures c.status.completed <==> c.overallDay in manual
    ensures c.status.missed <==> c.overallDay < currentDay && c.overallDay !in manual && c.overallDay !in grace
  {
    var overall := OverallDay(month, dayNumber);
    var active := OrOne(Some(masteryDay));
    Cell(overall, DayStatus(overall in grace, overall in manual, dayNumber == active, dayNumber > active,
      overall < currentDay && overall !in manual && overall !in grace))
  }

  /**
   * In mastery mode the current cell of the active month is the provider's
   * active day itself, and a missed cell of that month lies before it: it is
   * neither locked nor current.
   */
  lemma CalendarAgreesWithActiveDay(c: Catalog, office: Option<Office>, p: map<Office, Progress>,
                                   s: StarterState, today: int, dayNumber: int,
                                   grace: map<int, int>, manual: seq<int>)
    requires s.isStarterFinished && WellPlaced(s) && 1 <= dayNumber
    ensures var cell := CalendarCell(s.currentMonth, dayNumber, s.currentDay,
        OrOne(ActiveDay(c, office, p, s, today)), grace, manual);
      (cell.status.current ==> Some(cell.overallDay) == ActiveDay(c, office, p, s, today))
      && (cell.status.missed ==> !cell.status.locked && !cell.status.current)
  {
    var active := MasteryActiveDay(s);
    var cell := CalendarCell(s.currentMonth, dayNumber, s.currentDay, OrOne(ActiveDay(c, office, p, s, today)), grace, manual);
    assert ActiveDay(c, office, p, s, today) == Some(active);
    assert active == OverallDay(s.currentMonth, OrOne(Some(s.currentDay)));
    if s.currentMonth >= 1 {
      assert active != 0;
    }
  }

  // --------------------------------------------------------- reflection form

  /** The form to complete a day appears for a past day that has no manual completion. */
  predicate FormShown(id: int, currentDay: int, manual: seq<int>)
  {
    id < currentDay && id !in manual
  }

  /**
   * The form appears for a starter-week day exactly when the day is behind
   * the current one and not yet completed, that is when it is missed or
   * excused and not completed; it never appears for a locked or the current
   * day.
   */
  lemma FormShownForStarterDay(day: int, currentDay: int, grace: map<int, int>, manual: seq<int>)
    ensures var st := StarterStatus(day, currentDay, grace, manual);
      FormShown(day, currentDay, manual) <==> !st.locked && !st.current && !st.completed
    ensures var st := StarterStatus(day, currentDay, grace, manual);
      FormShown(day, currentDay, manual) <==> day < currentDay && (st.missed || st.excused) && !st.completed
  {
  }

  /** A missed calendar cell offers the form; a completed one never does. */
  lemma FormShownForCell(month: int, dayNumber: int, masteryDay: int, currentDay: int,
                         grace: map<int, int>, manual: seq<int>)
    ensures var cell := CalendarCell(month, dayNumber, masteryDay, currentDay, grace, manual);
      (cell.status.missed ==> FormShown(cell.overallDay, currentDay, manual))
      && (cell.status.completed ==> !FormShown(cell.overallDay, currentDay, manual))
  {
  }

  /** The opened mission: none without an office or a selected day, else the first day with that id. */
  function SelectedMission(office: Option<Office>, selectedDay: Option<int>, days: seq<MissionContent>): (r: Option<MissionContent>)
    ensures office.None? || selectedDay.None? || selectedDay == Some(0) ==> r.None?
    ensures r.Some? ==> r.value in days && Some(r.value.day) == selectedDay
    ensures office.Some? && selectedDay.Some? && selectedDay.value != 0 ==> r == FindDay(days, selectedDay.value)
  {
    if office.None? || selectedDay.None? || selectedDay.value == 0 then None
    else FindDay(days, selectedDay.value)
  }

  class PathView {
    const provider: MissionProvider
    const store: CatchUpStore
    var selectedDay: Option<int>
    var reflectionText: string
    var expandedMonth: Option<int>

    constructor (p: MissionProvider, s: CatchUpStore)
      ensures provider == p && store == s
      ensures selectedDay.None? && reflectionText == [] && expandedMonth.None?
    {
      provider := p;
      store := s;
      selectedDay := None;
      reflectionText := [];
      expandedMonth := None;
    }

    /** `activeDay || 1` on day `today`. */
    function CurrentDay(today: int): int
      reads provider`selectedOffice, provider`progressByOffice, provider`starter
    {
      OrOne(provider.ActiveDayOn(today))
    }

    /** Tapping a starter-week day opens it unless it is locked. */
    method TapStarterDay(day: int, today: int)
      modifies this`selectedDay
      ensures day <= CurrentDay(today) ==> selectedDay == Some(day)
      ensures CurrentDay(today) < day ==> selectedDay == old(selectedDay)
    {
      var st := StarterStatus(day, CurrentDay(today), provider.graceDays, provider.manualCompletedDays);
      if Selectable(st) {
        selectedDay := Some(day);
      }
    }

    /** Tapping a month of the timeline opens its calendar only when it is the active month. */
    method TapMonth(month: int)
      modifies this`expandedMonth
      ensures var m := MonthStateOf(month, provider.starter.isStarterFinished,
          OrOne(Some(provider.starter.currentMonth)), provider.starter.month2ReflectionComplete);
        expandedMonth == if m.active then Some(month) else old(expandedMonth)
    {
      var m := MonthStateOf(month, provider.starter.isStarterFinished,
        OrOne(Some(provider.starter.currentMonth)), provider.starter.month2ReflectionComplete);
      if m.active {
        expandedMonth := Some(month);
      }
    }

    /** Tapping a calendar cell opens its overall day unless the cell is locked. */
    method TapCell(dayNumber: int)
      requires expandedMonth.Some?
      modifies this`selectedDay
      ensures dayNumber <= OrOne(Some(provider.starter.currentDay)) ==>
        selectedDay == Some(OverallDay(expandedMonth.value, dayNumber))
      ensures OrOne(Some(provider.starter.currentDay)) < dayNumber ==> selectedDay == old(selectedDay)
    {
      if dayNumber <= OrOne(Some(provider.starter.currentDay)) {
        selectedDay := Some(OverallDay(expandedMonth.value, dayNumber));
      }
    }

    /** A catch-up start handed over by the app opens that day. */
    method OpenCatchUpStart(start: Option<int>)
      modifies this`selectedDay
      ensures start.Some? && start.value != 0 ==> selectedDay == start
      ensures start.None? || start.value == 0 ==> selectedDay == old(selectedDay)
    {
      if start.Some? && start.value != 0 {
        selectedDay := start;
      }
    }

    /**
     * Saving the form of day `id`: blank text changes nothing.  Otherwise the
     * trimmed text is saved as the day's reflection and the form clears; in
     * catch-up mode the day leaves the queue, the mode ends once the queue is
     * empty, and otherwise the next queued day opens.  Outside catch-up mode
     * the queue is left alone.
     */
    method Save(id: int, today: int)
      requires provider.Valid()
      modifies provider`reflectionsByOffice, provider`manualCompletedDays, provider`manualCompletionCount,
        provider`phaseStatus, provider`phaseCompletions, provider`graceDays, provider`lastActiveDate,
        provider`lastCompletedDay, provider`badges, provider`badgeUnlock,
        store, this`reflectionText, this`selectedDay
      ensures provider.Valid()
      ensures IsBlank(old(reflectionText)) ==>
        unchanged(provider) && unchanged(store) && unchanged(this)
      ensures !IsBlank(old(reflectionText)) && provider.selectedOffice.Some? && id != 0 ==>
        id in ReflectionsOf(provider.reflectionsByOffice, provider.selectedOffice.value)
        && ReflectionsOf(provider.reflectionsByOffice, provider.selectedOffice.value)[id] == Trim(old(reflectionText))
        && id in provider.manualCompletedDays
      ensures !IsBlank(old(reflectionText)) ==> reflectionText == []
      ensures !IsBlank(old(reflectionText)) && old(store.mode) ==>
        store.queue == RemoveAll(old(store.queue), id) && store.mode == (store.queue != [])
        && selectedDay == if store.queue == [] then old(selectedDay) else Some(store.queue[0])
      ensures !IsBlank(old(reflectionText)) && !old(store.mode) ==>
        unchanged(store) && selectedDay == old(selectedDay)
    {
      var text := Trim(reflectionText);
      if text == [] {
        return;
      }
      SaveText(id, text, today);
    }

    /** The save of a non-blank, trimmed `text`. */
    method SaveText(id: int, text: string, today: int)
      requires provider.Valid()
      modifies provider`reflectionsByOffice, provider`manualCompletedDays, provider`manualCompletionCount,
        provider`phaseStatus, provider`phaseCompletions, provider`graceDays, provider`lastActiveDate,
        provider`lastCompletedDay, provider`badges, provider`badgeUnlock,
        store, this`reflectionText, this`selectedDay
      ensures provider.Valid() && reflectionText == []
      ensures provider.selectedOffice.Some? && id != 0 ==>
        id in ReflectionsOf(provider.reflectionsByOffice, provider.selectedOffice.value)
        && ReflectionsOf(provider.reflectionsByOffice, provider.selectedOffice.value)[id] == text
        && id in provider.manualCompletedDays
      ensures old(store.mode) ==>
        store.queue == RemoveAll(old(store.queue), id) && store.mode == (store.queue != [])
        && selectedDay == if store.queue == [] then old(selectedDay) else Some(store.queue[0])
      ensures !old(store.mode) ==> unchanged(store) && selectedDay == old(selectedDay)
    {
      provider.SaveReflection(id, text, today);
      reflectionText := [];
      if store.mode {
        MoveOn(id);
      }
    }

    /** After a catch-up save: the day leaves the queue and the next queued day, if any, opens. */
    method MoveOn(id: int)
      requires store.mode
      modifies store, this`selectedDay
      ensures store.queue == RemoveAll(old(store.queue), id) && store.mode == (store.queue != [])
      ensures selectedDay == if store.queue == [] then old(selectedDay) else Some(store.queue[0])
    {
      var next := store.Consume(id);
      if next.Some? {
        selectedDay := next;
      }
    }

    /**
     * "Next Incomplete Day" in catch-up mode: the first queued day other
     * than `id` opens, and the queue itself is kept as it is.
     */
    method NextIncompleteDay(id: int)
      requires store.mode
      modifies this`selectedDay
      ensures var rest := RemoveAll(store.queue, id);
        selectedDay == if rest == [] then old(selectedDay) else Some(rest[0])
      ensures selectedDay != old(selectedDay) ==>
        selectedDay.value in store.queue && selectedDay.value != id
    {
      var rest := RemoveAll(store.queue, id);
      if rest != [] {
        selectedDay := Some(rest[0]);
      }
    }

    /** Closing the day dialog. */
    method Close()
      modifies this`selectedDay
      ensures selectedDay.None?
    {
      selectedDay := None;
    }
  }
}
