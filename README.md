# Priesthood path: a verified model of the day-progression engine

The application guides a priesthood holder (deacon, teacher, priest or elder)
through a 120-day path:
- a starter week of days 1 to 7, closed by a Sunday weekly reflection;
- four mastery months covering overall days 8-35, 36-63, 64-91 and 92-120.

Each day is completed by completing its mission or by saving a reflection.
A day saved by hand is a *manual* day. A day skipped after an absence can be
*excused* as a grace day.

The closing days 7, 35, 63 and 91 end a phase. Ending a phase either opens a
celebration or, when some of the phase's days were excused and not all of
them were done by hand, a review. The advance waits until that modal closes.

After an absence the app reacts according to the gap:
- 1 or 2 days: a welcome toast;
- 3 to 6 days: a catch-up offer, which queues the missed days;
- 7 days or more: an offer to recenter.

The Path and Dashboard pages show the day, phase and month state, and both
consume the catch-up queue. Several smaller parts are modelled too:
- the Journal streak, filter and milestone;
- the Ordinance Lab search and prayer text;
- the weekly reflection wizard;
- the Profile office change and its ribbons.

The model is written in Dafny, one module per concern:

| file | module | models |
|---|---|---|
| common.dfy | Common | Option, lists used as sets, in-range counting, `filter(x => x !== d)` |
| text.dfy | Text | `trim`, ASCII `toLowerCase`, `includes`, `join`, decimal rendering |
| sorting.dfy | Sorting | a stable sort by key (the date order of the journal) |
| days.dfy | Days | offices and orders, month lengths, overall-day arithmetic, `Math.round` percentages |
| mission.dfy | Mission | the provider's pure derivations: active day, missions, phase ranges and metrics, starter-state steps |
| flow.dfy | PhaseFlow | the phase-completion state machine as pure steps over one `Flow` value |
| provider.dfy | Provider | class `MissionProvider`: the provider state and every operation on it |
| catchup.dfy | CatchUp | class `CatchUpStore`: the stored catch-up queue and mode |
| recovery.dfy | Recovery | the recovery policy and class `App`: the recovery effect and its handlers, office update, reset, habits |
| path.dfy | PathPage | day statuses, month timeline, calendar cells and class `PathView` |
| dashboard.dfy | DashboardPage | panel priority, the phase tracker and class `DashboardView` |
| journal.dfy | Journal | storage flattening, the streak loop, filtering, sorting, the milestone |
| ordinance.dfy | Ordinance | prayer-text precedence and the card filter |
| wizard.dfy | Wizard | class `ReflectionWizard`, the weekly reflection step machine |
| profile.dfy | ProfilePage | class `ProfileView`, office change and confirmation; ribbons |

How the model represents the source:
- **Stateful objects become classes.** Stateful React components and the
  provider are classes whose fields are the component's state. Each handler
  is a method with a `modifies` frame.
- **Snapshot semantics.** A provider operation reads the state as it was when
  it was called, and its updates land afterwards. Each method therefore
  computes from the old fields, and a method that calls another passes that
  method's result through.
- **The phase flow.** The phase-completion part of the provider (starter
  state, progress, badges, phase status and completions, the celebration, the
  review and the held advance) is captured as `Provider.MissionProvider.Snapshot()`.
  The operations that drive the flow (advancing, completing a mastery mission
  or the week, closing the celebration with or without silver) are proved to
  move that snapshot by a pure step of `PhaseFlow`, and the properties are
  proved about those steps. Jumping to a day (`setOverallDay` and the review
  of excused days) is stated field by field through `Mission.JumpTo`. The operations that record a manual day
  (`recordManualCompletion`, `saveReflection` and the day-7 record) state
  their effect on the snapshot field by field: a newly recorded day that fills
  its phase turns that phase gold and complete, the day-120 reflection adds its
  badge, and nothing else in the snapshot changes.
- **Dates.** Dates are whole day numbers. Today's date is a parameter wherever
  the source reads the clock.

## Model

| member | source | states |
|---|---|---|
| Days.OrderOf | src/context/MissionProvider.jsx:39-44 | only the elder office belongs to the Melchizedek order; every other office, or no office, is Aaronic |
| Days.MasteryDays | src/context/MissionProvider.jsx:32-38 | months 1 to 3 last 28 days and month 4 lasts 29; an unknown month defaults to 28 |
| Days.SliceCount | src/context/MissionProvider.jsx:547-551 | `slice(0, k)` keeps `k` elements, counts a negative `k` from the end, and never keeps more than the list has |
| Days.DaysThrough | src/context/MissionProvider.jsx:547-551 | the number of days in mastery months 1 to n: 0, 28, 56 and 84 |
| Days.MonthOffset | src/pages/Path.jsx:86-90 | the overall day before day 1 of month m is 7 + 28(m-1) for months 1 to 4 and 91 beyond; it stays within 7..91 for any month, including a month below 1, where the slice counts from the end |
| Days.FindMonthBreak | src/context/MissionProvider.jsx:935-944 | the month break found for an overall day is the one whose span holds it, and none is found outside 8..120 |
| Days.MonthBreaksAgree | src/context/MissionProvider.jsx:935-940 | the month-break table is exactly the span of overall days each month covers |
| Days.OverallDayRoundTrip | src/pages/Path.jsx:86-90 | a mastery position names one overall day in 8..120, and the month lookup on that day returns the position |
| Days.FindMonthBreakRoundTrip | src/context/MissionProvider.jsx:935-951 | every overall day in 8..120 is reached from exactly the position the lookup gives |
| Days.RoundRatio | src/pages/Dashboard.jsx:542 | `Math.round(num/den)` for a positive denominator is the nearest whole number, with halves rounded up |
| Days.RoundRatioMonotone | src/pages/Dashboard.jsx:548 | rounding a ratio is monotone in its numerator |
| Days.RoundRatioExact | src/components/WeeklyReflectionWizard.jsx:42 | rounding gives the exact quotient of an exact multiple |
| Days.PercentBounds | src/pages/Dashboard.jsx:542-551 | for a whole below 200 (every whole the source divides by is at most 120), a share of at most the whole rounds to between 0 and 100 per cent; it is 100 exactly when the share is complete, and at least 1 when any part is there. A larger whole can round an incomplete share up to 100: 199 of 200 gives 100 |
| Mission.FindDay | src/context/MissionProvider.jsx:282 | the found mission is the first entry with that day number, and none means no entry has it |
| Mission.AllDays | src/context/MissionProvider.jsx:333-390 | `allDays` is empty without an office; otherwise it is exactly the office's starter week followed by months 1, 2, 3 and 4 of its order's track, in that order, and it holds exactly their entries |
| Mission.FindDayPrefix | src/context/MissionProvider.jsx:282 | when the front part of a list holds an entry with the day number, `find` on the whole list returns the same entry as on that front part |
| Mission.StarterDaysComeFirst | src/context/MissionProvider.jsx:386-389 | because the starter week comes first, looking a day up in `allDays` finds the starter-week entry whenever the starter week has that day |
| Mission.IsCompletedToday | src/context/MissionProvider.jsx:544-546 | holds exactly when an office is selected and its stored completion date is today |
| Mission.StarterActiveDay | src/context/MissionProvider.jsx:259-292 | there is a starter-week active day exactly when an office with a starter pack is selected, and it never exceeds the length of that office's mission list |
| Mission.MasteryActiveDay | src/context/MissionProvider.jsx:543-553 | the mastery active day is `(currentDay or 1) + 7 +` the days of the months before the current one, and agrees with `overallDayForMonth` |
| Mission.StarterDayAfterCompletion | src/context/MissionProvider.jsx:276-281 | after completing starter day k today, day k stays active for the rest of today; on any later day the active day becomes `min(k+1, missions.length)` |
| Mission.FallbackMission | src/context/MissionProvider.jsx:533-540 | the synthesised mission for a day without curriculum carries the overall day of that month and day, and the generic scripture and link |
| Mission.MasteryMission | src/context/MissionProvider.jsx:478-541 | there is a mastery mission exactly when the starter week is finished and an office is selected |
| Mission.MasteryMissionIsActiveDay | src/context/MissionProvider.jsx:478-553 | the mastery mission always carries the overall day that the provider reports as active |
| Mission.ActiveMission | src/context/MissionProvider.jsx:554-556 | in the starter week, an active mission is the day whose number is the active day |
| Mission.PhaseRangeForEndDay | src/context/MissionProvider.jsx:432-438 | a phase range is returned exactly for the closing days 7, 35, 63 and 91, and it is the range that ends on that day |
| Mission.FindPhaseRange | src/context/MissionProvider.jsx:453-460 | the phase range found for a day is the one holding it, and there is none outside 1..91 |
| Mission.RangesTile | src/context/MissionProvider.jsx:432-438 | the four phase ranges tile days 1..91 in order, without gaps or overlap |
| Mission.ResolvePhaseCompletion | src/context/MissionProvider.jsx:392-430 | closing days get celebration content for their phase; every other day gets none |
| Mission.PhaseContent | src/context/MissionProvider.jsx:392-430 | a closing day's content names the phase that day closes, and the phase-2 text names the order's track |
| Mission.ExcusedInRange | src/context/MissionProvider.jsx:443-449 | the excused days in a range are exactly the grace keys inside it, listed strictly ascending |
| Mission.GetPhaseMetrics | src/context/MissionProvider.jsx:440-451 | the metrics give the phase length, the number of manual days inside the phase, and its excused days in ascending order |
| Mission.BoundaryMetrics | src/context/MissionProvider.jsx:392-451 | on a closing day, the celebration content and the range name the same phase, and the reported excused days lie in that range |
| Mission.GateIff | src/context/MissionProvider.jsx:626-651 | with no duplicate manual days, a closing day opens the review exactly when one of the phase's days is excused and one of them is not manual; otherwise it celebrates |
| Mission.GateCore | src/context/MissionProvider.jsx:440-451 | the review condition of `GateIff`, stated for any span and metrics that describe it |
| Mission.ExcusedNonEmptyIff | src/context/MissionProvider.jsx:443-449 | the list of a span's excused days is empty exactly when none of the span's days is excused |
| Mission.PhaseFilledIff | src/context/MissionProvider.jsx:453-476 | a day's phase counts as complete (gold) exactly when every day of that phase is manual |
| Mission.AdvancedStarter | src/context/MissionProvider.jsx:558-606 | an advance keeps the starter-finished flag; it marks month 2's reflection complete once month 2 closes, and mastery complete once month 4 closes, and never clears either |
| Mission.AdvanceWellPlaced | src/context/MissionProvider.jsx:558-606 | an advance keeps the month in 0..4 and the day within the month's length |
| Mission.AdvanceMovesOneDay | src/context/MissionProvider.jsx:558-606 | in months 1 to 4 an advance moves the overall day forward by exactly one, and holds at day 120 |
| Mission.AdvanceCompletesOnlyAtEnd | src/context/MissionProvider.jsx:580-606 | after an advance, mastery is complete only if it already was or the advance closed month 4 |
| Mission.JumpTo | src/context/MissionProvider.jsx:916-960 | `setOverallDay` past 120 changes nothing. Up to 7 it enters starter mode at month 0, day 1, with the previous day completed. From 8 to 120 it lands in mastery mode with the completed day being the day of the month before the target |
| Mission.JumpLandsOnDay | src/context/MissionProvider.jsx:916-960 | for every d in 8..120, the active day after `setOverallDay(d)` is d; the position stays well placed, the stored completed day is a day of the month (not an overall day), and past day 63 month 2's reflection counts as done |
| Mission.JumpIntoStarterWeek | src/context/MissionProvider.jsx:918-933 | a jump into the starter week leaves starter mode at month 0, day 1, with `max(0, d-1)` completed and no completion date |
| Mission.AddBadge | src/context/MissionProvider.jsx:562-579 | adding a badge keeps the list free of duplicates and adds the badge exactly when it was missing |
| Mission.FinalBadge | src/context/MissionProvider.jsx:699-726 | the day-120 reflection awards "Priesthood Master" exactly when at least 108 days, counting it, are manual, and "Path Finisher" otherwise |
| PhaseFlow.Advance | src/context/MissionProvider.jsx:558-615 | one mastery advance for an office. Closing month 2 adds the order's badge once and announces it. Closing month 4 completes phase 5. The office's progress is stamped. All other fields are unchanged |
| PhaseFlow.FinishStarter | src/context/MissionProvider.jsx:806-815 | finishing the starter week begins mastery at month 1, day 1, and clears the office's progress to day 0 with no date |
| PhaseFlow.Hold | src/context/MissionProvider.jsx:626-651 | a held boundary opens the review exactly when the gate says so and the celebration otherwise; the advance waits in the held slot |
| PhaseFlow.CompleteMastery | src/context/MissionProvider.jsx:617-666 | a day that closes a phase not yet complete holds the advance; every other day advances |
| PhaseFlow.CompleteWeek | src/context/MissionProvider.jsx:734-785 | when phase 1 is not complete the starter advance is held behind the review or the celebration; otherwise mastery begins |
| PhaseFlow.ApplyPending | src/context/MissionProvider.jsx:787-822 | the held advance is applied once and the slot is emptied |
| PhaseFlow.ContinueCelebration | src/context/MissionProvider.jsx:787-822 | `continuePhaseCompletion` marks the celebrated phase complete without touching its medal, applies the held advance and closes the celebration; without a celebration it does nothing |
| PhaseFlow.ProceedWithSilver | src/context/MissionProvider.jsx:824-856 | `proceedPhaseWithSilver` marks the reviewed phase complete with a silver medal, applies the held advance and closes the review; without a review it does nothing |
| PhaseFlow.CompleteMasteryMoves | src/context/MissionProvider.jsx:617-666 | completing a mastery day either moves exactly one overall day on (staying at 120 at the end) or stays put because the day closes an unfinished phase |
| PhaseFlow.CompleteMasteryReviewIff | src/context/MissionProvider.jsx:626-651 | completing a mastery day opens the review exactly when it closes an unfinished phase that has an excused day and a day that is not manual |
| PhaseFlow.CompleteWeekReviewIff | src/context/MissionProvider.jsx:755-785 | the weekly reflection opens the review exactly when phase 1 is not complete, one of days 1-7 is excused and one of them is not manual |
| PhaseFlow.ResolvingKeepsCompletions | src/context/MissionProvider.jsx:787-856 | resolving a phase modal never removes a phase from the completed ones |
| Provider.Stamped | src/context/MissionProvider.jsx:303-313 | stamping keeps every existing grace key, adds the listed days, dates those days with the stamp, and leaves the other keys' dates as they were |
| Provider.StampedSnoc | src/context/MissionProvider.jsx:306-311 | the copy-then-assign loop adds one map update per day |
| Provider.MissionProvider.Commit | src/context/MissionProvider.jsx:60-131 | the state fields hold exactly the given flow value |
| Provider.MissionProvider.constructor | src/context/MissionProvider.jsx:60-131 | a first visit: no name and no office, no progress, reflections, badges, completions, grace or manual days, and nothing pending |
| Provider.MissionProvider.SetUserName | src/context/MissionProvider.jsx:1072 | the name is set |
| Provider.MissionProvider.SelectOffice | src/context/MissionProvider.jsx:1074 | the office is set |
| Provider.MissionProvider.TriggerHigherUnlocked | src/context/MissionProvider.jsx:1102 | the higher-priesthood moment is raised |
| Provider.MissionProvider.RecordCompletion | src/context/MissionProvider.jsx:296-301 | the last active date becomes today and the last completed day becomes the given day |
| Provider.MissionProvider.MarkCompletedDate | src/context/MissionProvider.jsx:654-656 | today joins the set of completed dates |
| Provider.MissionProvider.MarkGraceDays | src/context/MissionProvider.jsx:303-313 | no days means no change; otherwise every listed day becomes excused, dated by the given key or else today, and every other day keeps its grace date |
| Provider.MissionProvider.ClearGraceDay | src/context/MissionProvider.jsx:315-321 | only that day stops being excused |
| Provider.MissionProvider.UpdatePhaseStatusIfComplete | src/context/MissionProvider.jsx:453-476 | when every day of the phase containing the day is manual, that phase turns gold and complete; nothing else changes |
| Provider.MissionProvider.RecordManualCompletion | src/context/MissionProvider.jsx:323-331 | idempotent: day 0 or a day already present changes nothing. The first time, the day is appended, the count grows by one (it stays equal to the list's length), only its grace key goes, and its phase turns gold when that fills it |
| Provider.MissionProvider.AdvanceMasteryState | src/context/MissionProvider.jsx:558-615 | the state moves by the step `PhaseFlow.Advance` for the selected office |
| Provider.MissionProvider.SetOverallDay | src/context/MissionProvider.jsx:916-960 | without an office or past 120 nothing changes; otherwise the starter state and the office's stored completed day move to the jump's target with no date, and from 8 to 120 the active day is the target |
| Provider.MissionProvider.CompleteMission | src/context/MissionProvider.jsx:617-666 | nothing happens without an office or once today is completed. Otherwise today is flagged completed and stamped, the active day becomes the last completed day, and a starter day is stored as the office's progress dated today. In mastery the state moves by `PhaseFlow.CompleteMastery` |
| Provider.MissionProvider.CompleteMissionFor | src/context/MissionProvider.jsx:620-666 | `completeMission` once it acts; the same state change as above |
| Provider.MissionProvider.RecordMissionDay | src/context/MissionProvider.jsx:654-665 | today is flagged completed and becomes the last active date, the day becomes the last completed one, and the flow is unchanged |
| Provider.MissionProvider.SetProgress | src/context/MissionProvider.jsx:659-664 | only the office's progress entry changes |
| Provider.MissionProvider.SaveReflection | src/context/MissionProvider.jsx:668-727 | nothing happens without an office or for day 0. Otherwise the text is filed under the office and day, the day is recorded as manual, today is stamped and the last completed day is raised to the day. Only day 120 awards a badge. A newly recorded day that fills its phase turns it gold and complete; otherwise the medals and completions are unchanged, and no other part of the phase flow changes |
| Provider.MissionProvider.SaveReflectionFor | src/context/MissionProvider.jsx:672-727 | `saveReflection` once it acts; the same state change as above, including the phase outcome and the untouched rest of the phase flow |
| Provider.MissionProvider.FileReflection | src/context/MissionProvider.jsx:670-727 | the reflection is filed under the selected office and day; day 120 adds the final badge for the given count of manual days and raises its modal, any other day leaves the badges alone, and nothing else in the phase flow changes |
| Provider.MissionProvider.StoreReflection | src/context/MissionProvider.jsx:672-680 | the text is filed for the office and day, and the office's other days are kept |
| Provider.MissionProvider.RecordReflectionDay | src/context/MissionProvider.jsx:682-697 | the day is manual afterwards, and the last active and last completed writes follow; a newly recorded day that fills its phase turns it gold and complete, otherwise medals and completions are unchanged, and nothing else in the phase flow changes |
| Provider.MissionProvider.AwardBadge | src/context/MissionProvider.jsx:699-726 | the badge is added once and its unlock modal raised |
| Provider.MissionProvider.CompleteWeeklyReflection | src/context/MissionProvider.jsx:734-785 | nothing happens without an office. Otherwise day 7 is recorded as manual and as the last completed day, and the state moves by `PhaseFlow.CompleteWeek`, judged on the completions, manual days and grace days as they were before the call |
| Provider.MissionProvider.CompleteWeekFor | src/context/MissionProvider.jsx:740-785 | `completeWeeklyReflection` once an office is selected; the same state change as above |
| Provider.MissionProvider.RecordWeekDay | src/context/MissionProvider.jsx:754-757 | day 7 is recorded as manual and as the last completed day; only phase status and completions can change |
| Provider.MissionProvider.ContinuePhaseCompletion | src/context/MissionProvider.jsx:787-822 | the state moves by `PhaseFlow.ContinueCelebration` |
| Provider.MissionProvider.ProceedPhaseWithSilver | src/context/MissionProvider.jsx:824-856 | the state moves by `PhaseFlow.ProceedWithSilver` |
| Provider.MissionProvider.ReviewPhaseExcused | src/context/MissionProvider.jsx:858-864 | without a review nothing changes. Otherwise the path jumps to the review's earliest excused day, both pending slots are cleared, and nothing is marked complete |
| Provider.MissionProvider.DebugResetAll | src/context/MissionProvider.jsx:974-1028 | every piece of progress goes back to a first visit, and saved reflections stay |
| Provider.MissionProvider.ResetFlow | src/context/MissionProvider.jsx:976-1000 | the office, the manual list and the whole flow return to the first-visit values |
| CatchUp.CatchUpStore.constructor | src/pages/Path.jsx:72-85 | with nothing stored, the queue is empty and catch-up mode is off |
| CatchUp.CatchUpStore.Start | src/App.jsx:351-359 | the queue is replaced and catch-up mode is switched on |
| CatchUp.CatchUpStore.Consume | src/pages/Path.jsx:477-496 | the saved day leaves the queue, the mode ends once the queue is empty, and the next day is the head of what remains |
| CatchUp.RemoveAllShrinks | src/pages/Path.jsx:478-480 | consuming a queued day makes the queue strictly shorter |
| CatchUp.RemoveAllAscending | src/pages/Dashboard.jsx:284-286 | removing a day keeps the queue ascending, so the next day opened is the earliest one left |
| Recovery.Classify | src/App.jsx:166-199 | a gap of 0 or less gets no action, 1-2 a toast, 3-6 a catch-up offer, and 7 or more a recenter offer |
| Recovery.ClassifyMonotone | src/App.jsx:177-199 | a longer absence never gets a milder reaction |
| Recovery.TargetDay | src/App.jsx:167-170 | `min(120, lastCompleted + gap)`, so the target is never past day 120 |
| Recovery.TargetAhead | src/App.jsx:167-170 | before the last day, a gap always moves the target past the last completed day |
| Recovery.Ids | src/App.jsx:348-349 | the day numbers of the days, in order |
| Recovery.Unfinished | src/App.jsx:171-175 | the days before the bound that are not manual, in catalog order |
| Recovery.MissedDays | src/App.jsx:171-175 | the missed days are exactly the days before the active day (0 if there is none) that are not manual, sorted by day; excused days are kept |
| Recovery.IdsAscending | src/App.jsx:171-175 | a list sorted by day gives its numbers in ascending order |
| Recovery.Below | src/App.jsx:350 | the ids below the bound, with their order kept |
| Recovery.BelowAscending | src/App.jsx:348-350 | filtering an ascending queue keeps it ascending |
| Recovery.AscendingHead | src/App.jsx:361-362 | an ascending queue starts with its smallest day |
| Recovery.CatchUpQueueMembers | src/App.jsx:347-350 | a day is queued exactly when it belongs to a missed day and lies below the active day at the click |
| Recovery.CatchUpQueueIsMissed | src/App.jsx:171-175 | the queue holds exactly the non-manual days before both active days, earliest first |
| Recovery.SafeName | src/App.jsx:73 | the trimmed name, or "Brother" when it trims to nothing |
| Recovery.WelcomeNamesUser | src/App.jsx:180 | the toast greets the user by the trimmed name, or as "Brother" |
| Recovery.Decide | src/App.jsx:176-199 | the offer has the kind the gap classifies as. The toast carries the welcome message; the other two offers carry the missed days, the target day and the last completed day |
| Recovery.Flip | src/App.jsx:113-115 | exactly the one habit flips |
| Recovery.AllDoneIffEvery | src/App.jsx:120 | the day counts as complete exactly when every habit is checked |
| Recovery.App.constructor | src/App.jsx:19-77 | the app starts on the dashboard with no offer, no toast, no stamp and no habits checked |
| Recovery.App.CheckRecovery | src/App.jsx:150-200 | a quiet check (no office, already shown today, or no gap) changes nothing, not even the stamp; otherwise today is stamped and the offer the gap calls for is set, with a toast for a short gap |
| Recovery.App.OnCatchUp | src/App.jsx:347-366 | the missed ids below the active day become the queue and catch-up mode switches on; a non-empty queue opens its head on the dashboard; the offer closes |
| Recovery.App.Resume | src/App.jsx:367-377 | with a non-zero target: a jump to the target, every missed day excused and dated today (other grace keys kept), and the day before the target recorded as the last completed. The offer closes either way |
| Recovery.App.JumpAhead | src/App.jsx:369-375 | the jump, grace stamping and last completed write of Resume and Restart |
| Recovery.App.Dismiss | src/App.jsx:378 | closing an offer clears it |
| Recovery.App.CloseToast | src/App.jsx:400-406 | closing the toast hides it and clears the offer |
| Recovery.App.HandleResetProgress | src/App.jsx:228-231 | the mission sheet closes, and with an office the path returns to day 1 of the starter week with day 0 completed |
| Recovery.App.HandleOfficeUpdate | src/App.jsx:221-226 | the office is set, and the higher-priesthood moment fires when asked |
| Recovery.App.ToggleHabit | src/App.jsx:113-130 | exactly the toggled habit flips; today's log entry is marked completed exactly when all habits are checked, and other days are kept |
| PathPage.StarterStatus | src/pages/Path.jsx:154-160 | a starter day is locked iff it is after the current day, current iff it is the current day, and missed iff it is before the current day and neither manual nor excused; these three are mutually exclusive |
| PathPage.StarterLabel | src/pages/Path.jsx:193-201 | the label takes the first that applies of Excused, Completed, Missed, Current and Locked; Locked shows exactly for a later day that is neither excused nor completed |
| PathPage.MonthStateOf | src/pages/Path.jsx:267-273 | month 3 is locked until month 2's reflection is done; a month is complete iff the starter week is finished and it lies before the active month; an active month is not locked |
| PathPage.OneActiveMonth | src/pages/Path.jsx:267-271 | at most one month of the timeline is active |
| PathPage.TimelineLockedInStarter | src/pages/Path.jsx:267-273 | before the starter week is finished every month is locked and none is active or complete |
| PathPage.CalendarCell | src/pages/Path.jsx:355-368 | a cell names its overall day; it is locked iff after the month's active day and current iff on it; it is missed when before the current day with neither a manual completion nor an excuse |
| PathPage.CalendarAgreesWithActiveDay | src/pages/Path.jsx:55 | in mastery mode, the current cell of the active month is the provider's active day, and a missed cell is neither locked nor current |
| PathPage.FormShownForStarterDay | src/pages/Path.jsx:459-460 | the reflection form appears for a starter-week day exactly when the day is neither locked, current nor completed; equally, when it lies behind the current day, is missed or excused, and is not completed |
| PathPage.FormShownForCell | src/pages/Path.jsx:459-460 | a missed calendar cell offers the reflection form, and a completed one never does |
| PathPage.SelectedMission | src/pages/Path.jsx:32-35 | there is no opened mission without an office or a selected day; otherwise it is the first day with that id |
| PathPage.PathView.constructor | src/pages/Path.jsx:26-30 | no day and no month is open, and the form is empty |
| PathPage.PathView.TapStarterDay | src/pages/Path.jsx:160-166 | tapping a starter day opens it unless it is locked |
| PathPage.PathView.TapMonth | src/pages/Path.jsx:268-279 | tapping a month opens its calendar only when it is the active month |
| PathPage.PathView.TapCell | src/pages/Path.jsx:358-368 | only unlocked cells can be selected, and selecting one opens its overall day |
| PathPage.PathView.OpenCatchUpStart | src/pages/Path.jsx:41-45 | a catch-up start handed over by the app opens that day |
| PathPage.PathView.Save | src/pages/Path.jsx:459-496 | blank text changes nothing. Otherwise the trimmed text is saved and the form clears. In catch-up mode exactly the saved day leaves the queue, and the mode ends iff the queue is then empty; otherwise the queue's head opens |
| PathPage.PathView.SaveText | src/pages/Path.jsx:470-496 | a non-blank, trimmed text is saved as the day's reflection and the form clears; in catch-up mode exactly that day leaves the queue and the mode ends iff the queue is then empty, otherwise the queue is untouched |
| PathPage.PathView.MoveOn | src/pages/Path.jsx:477-496 | the saved day leaves the queue, the mode ends iff the queue is then empty, and the queue's head opens when there is one |
| PathPage.PathView.NextIncompleteDay | src/pages/Path.jsx:502-513 | the first queued day other than the open one is opened, and the queue is kept |
| PathPage.PathView.Close | src/pages/Path.jsx:412 | the day dialog closes |
| DashboardPage.PanelPriority | src/pages/Dashboard.jsx:317-454 | each panel appears exactly when its condition holds and no condition of higher priority does, in this order: onboarding, Hall of Mastery, final reflection, Sunday gate, mission card |
| DashboardPage.TrackersBesidePanel | src/pages/Dashboard.jsx:456 | the trackers show iff mastery is not complete and the Sunday gate is not up, so they always show under the mission card |
| DashboardPage.TrackerPhases | src/pages/Dashboard.jsx:489-533 | the tracker has five phases, and each phase's target is its number of days |
| DashboardPage.TrackerPhasesAgree | src/pages/Dashboard.jsx:489-533 | the tracker's phases are the provider's phase ranges for the starter week and months 1 to 3, plus the span of month 4 |
| DashboardPage.TrackerPhaseFor | src/pages/Dashboard.jsx:535-537 | the phase whose span holds the current day, else the starter week |
| DashboardPage.Tracker | src/pages/Dashboard.jsx:535-553 | the day within the phase is `min(target, max(1, currentDay - start + 1))`, which is the position of the day in the phase when the day lies inside it, and lies in 1..target; its percentage is the rounded share of the target and lies in 1..100. The phase is complete iff today is its end and the mission is done. The manual days counted are only those inside the phase; the phase progress is their rounded share of the target, the mastery score is the rounded share of all manual days over `max(currentDay, 1)`, and the medal is Gold iff the progress is 100 |
| DashboardPage.GoldIffPhaseFilled | src/pages/Dashboard.jsx:544-553 | the phase share lies between 0 and 100, and the medal reads Gold exactly when every day of the phase is manual (Silver otherwise) |
| DashboardPage.MasteryScoreBounds | src/pages/Dashboard.jsx:549-551 | when there are no more manual days than `max(currentDay, 1)` and the current day is below 200, the mastery score is between 0 and 100. The source does not keep that premise: `setOverallDay` never clears the manual days, so after a reset to day 1 the score exceeds 100 |
| DashboardPage.StoredReflection | src/pages/Dashboard.jsx:95-99 | the office's stored text for the day, or "" |
| DashboardPage.DashboardView.constructor | src/pages/Dashboard.jsx:42-44 | no catch-up day is open, both forms are empty and no done message shows |
| DashboardPage.DashboardView.OpenCatchUpDay | src/pages/Dashboard.jsx:95-99 | opening a catch-up day preloads its saved reflection |
| DashboardPage.DashboardView.TakeCatchUpStart | src/pages/Dashboard.jsx:88-93 | a catch-up start handed over by the app opens that day |
| DashboardPage.DashboardView.ResumeQueue | src/pages/Dashboard.jsx:101-108 | in catch-up mode with no day open, the head of the queue opens |
| DashboardPage.DashboardView.Verify | src/pages/Dashboard.jsx:277-304 | blank text changes nothing. Otherwise the reflection is saved and the day leaves the queue. An empty queue clears the mode, closes the card and shows the done message; otherwise the head opens |
| DashboardPage.DashboardView.MoveOn | src/pages/Dashboard.jsx:283-303 | the form clears, the day leaves the queue, and the card moves on to the head or closes with the done message |
| DashboardPage.DashboardView.SaveFinal | src/pages/Dashboard.jsx:401-405 | blank text changes nothing; otherwise day 120 is saved with the trimmed text and the form clears |
| Journal.FlattenMembers | src/pages/Journal.jsx:10-43 | an entry is gathered exactly when a journal key holds it, alone or in an array; malformed and falsy values and other keys add nothing |
| Journal.ParseEntries | src/pages/Journal.jsx:10-43 | the loop gathers exactly the flattened entries, in key order |
| Journal.RunIsMaximal | src/pages/Journal.jsx:56-76 | every day of the run ending at the cursor is present, and the day before the run is not |
| Journal.RunIsLongest | src/pages/Journal.jsx:56-76 | any run of present days ending at the cursor is at most as long as the streak |
| Journal.UpToShrinks | src/pages/Journal.jsx:66-73 | each step back over a present day shrinks the finite set still to visit, so the loop ends |
| Journal.CalculateStreak | src/pages/Journal.jsx:56-76 | the streak is the length of the maximal run of consecutive days with a daily entry that ends today |
| Journal.StreakNeedsToday | src/pages/Journal.jsx:63-75 | without a daily entry for today the streak is 0 |
| Journal.StreakIgnoresOtherEntries | src/pages/Journal.jsx:57-61 | an entry that is not a dated daily one leaves the streak as it was |
| Journal.Keep | src/pages/Journal.jsx:85-104 | the entries kept are exactly those that pass the type filter and contain the term; each kept entry occurs as often as in the input, and the result is a subsequence of the input, so the original order is kept |
| Journal.FilteredEntries | src/pages/Journal.jsx:85-106 | the list holds exactly the entries that pass the filter and match the trimmed, lower-cased term, each as often as it occurs, newest first |
| Journal.BlankSearchKeepsFiltered | src/pages/Journal.jsx:96-104 | a blank search keeps every entry that passes the type filter |
| Journal.FilterKinds | src/pages/Journal.jsx:87-95 | "Daily Missions" lists only daily entries and "Sunday Reports" only Sunday ones |
| Journal.MilestoneStage | src/pages/Journal.jsx:108-115 | below 7 entries the first line, below 30 the second, otherwise the on-track line |
| Journal.MilestoneMonotone | src/pages/Journal.jsx:108-115 | more entries never move the milestone line back |
| Sorting.SortBy | src/pages/Journal.jsx:105 | the result is sorted by the key and is a permutation of its input |
| Sorting.InsertByPerm | src/pages/Journal.jsx:105 | an insertion adds exactly the one element |
| Sorting.InsertBySorted | src/pages/Journal.jsx:105 | inserting into a sorted list keeps it sorted |
| Sorting.SortByMembers | src/pages/Journal.jsx:105 | sorting keeps exactly the elements it was given |
| Text.NonEmptyParts | src/pages/OrdinanceLab.jsx:48-49 | `filter(Boolean)` on strings keeps exactly the non-empty parts |
| Ordinance.BreadAndWater | src/pages/OrdinanceLab.jsx:48-49 | the text is the blank-line join of the non-empty prayers among bread and water, in that order: only water when bread is missing, only bread when water is missing, and `bread + "\n\n" + water` when both are present. It is empty exactly when both are missing, and it contains both |
| Ordinance.PrayerText | src/pages/OrdinanceLab.jsx:44-52 | "" for no card; `Prayer` when present; for a card, empty exactly when all five prayer fields are empty |
| Ordinance.PrayerPrecedence | src/pages/OrdinanceLab.jsx:46-52 | a lower field shows only when every field above it is empty; when the sacrament prayers are reached the text is exactly the blank-line join of the non-empty ones, bread first, and both appear in it |
| Ordinance.FilteredCards | src/pages/OrdinanceLab.jsx:28-41 | a card is listed exactly when its category passes the filter and its lower-cased search text contains the trimmed, lower-cased term |
| Ordinance.FilteredCardsInOrder | src/pages/OrdinanceLab.jsx:30-41 | the list is a subsequence of the ordinance list, so order is kept |
| Ordinance.AllAndBlankListsEverything | src/pages/OrdinanceLab.jsx:29-39 | "All" with a search that is empty after trimming lists every card |
| Ordinance.CategoryIsExact | src/pages/OrdinanceLab.jsx:31-32 | any filter other than "All" lists only cards of exactly that category |
| Ordinance.TitleMatchSearches | src/pages/OrdinanceLab.jsx:34-39 | a term found in the lower-cased title is found in the search text |
| Ordinance.TitleMatchListsCard | src/pages/OrdinanceLab.jsx:28-41 | a search term found in the title, ignoring case, lists the card when its category passes |
| Ordinance.StepMatchSearches | src/pages/OrdinanceLab.jsx:33-39 | text found in one of a card's steps is found by the search in any case |
| Wizard.QuestionIdsDistinct | src/components/WeeklyReflectionWizard.jsx:4-29 | there are five questions with distinct ids |
| Wizard.StepProgress | src/components/WeeklyReflectionWizard.jsx:42 | the progress of step i is 20(i+1), one of 20, 40, 60, 80 and 100, and 100 exactly on the last step |
| Wizard.AfterNext | src/components/WeeklyReflectionWizard.jsx:138-146 | Next moves one step on only past a valid answer, and never past the last step |
| Wizard.AfterBack | src/components/WeeklyReflectionWizard.jsx:116-120 | Back moves one step back and never below the first |
| Wizard.BackUndoesNext | src/components/WeeklyReflectionWizard.jsx:116-146 | Back undoes a successful Next, and Next past a valid answer undoes Back |
| Wizard.FilledIffNotBlank | src/components/WeeklyReflectionWizard.jsx:44-45 | an answer has a non-space character exactly when it is not blank after trimming |
| Wizard.AnsweredBeforeEach | src/components/WeeklyReflectionWizard.jsx:138-146 | every question before the current step has a non-blank answer |
| Wizard.AnsweredBeforeKept | src/components/WeeklyReflectionWizard.jsx:95-101 | answers to later questions do not affect the claim about earlier ones |
| Wizard.ReflectionWizard.constructor | src/components/WeeklyReflectionWizard.jsx:36-38 | the wizard starts at step 0 with no answers, untouched |
| Wizard.ReflectionWizard.Edit | src/components/WeeklyReflectionWizard.jsx:95-101 | only the active question's answer changes |
| Wizard.ReflectionWizard.Blur | src/components/WeeklyReflectionWizard.jsx:102 | leaving the box marks it touched |
| Wizard.ReflectionWizard.Back | src/components/WeeklyReflectionWizard.jsx:116-120 | the step stays in 0..4, never goes below 0, and touched is reset |
| Wizard.ReflectionWizard.Next | src/components/WeeklyReflectionWizard.jsx:138-146 | the step stays in 0..4 and advances only past a non-blank answer; past a blank one only touched is set |
| Wizard.ReflectionWizard.Complete | src/components/WeeklyReflectionWizard.jsx:129-136 | the answers are handed over exactly on the final step with a non-blank answer, and then every question has a non-blank answer |
| ProfilePage.ShouldTrigger | src/pages/Profile.jsx:87-88 | the higher-priesthood moment fires iff the previous office is not elder and the new one is elder |
| ProfilePage.NoTriggerWithinOrder | src/pages/Profile.jsx:87-88 | a change within one order never fires it |
| ProfilePage.ResetFor | src/App.jsx:228-231 | a reset brings the selected office back to day 0 with no date; every other office keeps its progress |
| ProfilePage.StaleResetKeepsNewOfficeProgress | src/pages/Profile.jsx:86-94 | the reset as written hits the previous office, so the new office keeps whatever progress it had stored |
| ProfilePage.StaleResetExample | src/pages/Profile.jsx:86-94 | moving from deacon to elder with a reset leaves an elder entry at mission 5 untouched |
| ProfilePage.ProfileView.constructor | src/pages/Profile.jsx:22-24 | the pending office is the selected one, the dialog is closed, and the choice is "continue" |
| ProfilePage.ProfileView.OfficeChange | src/pages/Profile.jsx:79-84 | picking the current office does nothing; another office is held pending and the dialog opens |
| ProfilePage.ProfileView.Choose | src/pages/Profile.jsx:24 | the chosen option is recorded |
| ProfilePage.ProfileView.Cancel | src/pages/Profile.jsx:277-279 | only the dialog closes; nothing else changes here or in the provider, so the unconfirmed pick stays pending, as in the source, whose sync effect runs only when the selected office changes |
| ProfilePage.ProfileView.ConfirmAsWritten | src/pages/Profile.jsx:86-94 | as written, the new office is selected and the moment fires on promotion; "continue" leaves the path untouched; "reset" resets the previous office's progress |
| ProfilePage.ProfileView.Confirm | src/pages/Profile.jsx:86-94 | corrected: the new office is selected and the moment fires on promotion; "continue" leaves the path untouched; "reset" returns the new office to day 1 and keeps every other office's progress |
| ProfilePage.GlowOf | src/pages/Profile.jsx:200-216 | a ribbon is greyed exactly when locked, and glows silver exactly when unlocked and silver |
| ProfilePage.SilverReviewDrawsSilver | src/pages/Profile.jsx:184-186 | after proceeding with silver from a review, the phase's ribbon is unlocked with the silver glow |
| ProfilePage.CelebrationUnlocksRibbon | src/pages/Profile.jsx:184-186 | continuing a celebration unlocks that phase's ribbon and keeps its medal |
| Text.BlankIffAllSpace | src/pages/Path.jsx:470 | a string trims to nothing exactly when it is white space throughout |
| Text.TrimIdempotent | src/pages/Path.jsx:471 | trimmed text has no white space at either end, and trimming it again changes nothing |
| Text.JoinContainsPart | src/pages/OrdinanceLab.jsx:33 | every step occurs in the joined steps text |
| Text.NatToStringRoundTrip | src/context/MissionProvider.jsx:533-540 | rendering a day number in decimal loses nothing |
| Common.CountCoversRange | src/context/MissionProvider.jsx:453-476 | without repeats, the in-range count never exceeds the size of the range, and reaches it exactly when every day of the range is in the list |
| Common.RemoveAll | src/pages/Path.jsx:478-480 | every occurrence of the day is removed, every other element stays, and the list never grows |

## Left out

- Storage: reading and writing `localStorage`, the JSON fallbacks and the grace-day array migration. The stored values are plain fields.
- Cross-tab sync: the visibility and storage polling exists only for concurrency.
- Dates: real dates, time zones and `toISOString` slicing are not modelled. Dates are whole day numbers, and today is a parameter. An undated journal entry sorts as day 0.
- Date-window counters: the weekly habit count and the dashboard's thirty-day consistency scan depend on calendar windows.
- Browser side effects: the service worker, notifications and the daily nudge, speech synthesis, clipboard export, vibration, random ids and time-based storage keys are browser I/O.
- React effects: an effect that runs after a render is modelled as a call made in that order. For example, the Path and Dashboard components take a catch-up start through `OpenCatchUpStart` and `TakeCatchUpStart`.
- Text: `toLowerCase` and `trim` are modelled on ASCII only, so there is no Unicode case mapping or Unicode white space.
- Floating point: `Math.round` of a quotient is computed exactly on integers, with halves rounded up; no float is rounded.
- Curriculum: the curriculum and ordinance JSON files are not part of this model. Their content is an abstract `Catalog`, and the phase and fallback texts are constants.
- `debugCompleteMonth`: it refers to an undefined constant and throws.
- `debugAdvanceDay`, `debugSetOverallDay`'s toolbar and `debugToggleOrder`: these are developer tools, and the model has no developer UI.
- Recovery.App.Resume: it also stands for Restart after a recenter offer, whose handler is the same code.
- Grace values: these are day numbers, so every stored grace date counts as truthy.
- DashboardPage.Tracker: the `phaseStatus` badge branch is not modelled separately. Both of its arms read "Silver".
- Profile page: the reminder toggle, the journal entry count and the notification permission flow are not modelled.
- Wizard: showing the stored weekly notes and the close button are not modelled.
- Display-only components: the navigation, habit tracker, mission card, modals, toast and the unused reflection wizard only display values.

## Findings

| source | as written | input that shows it | evidently intended | confidence | as-written member | corrected member |
|---|---|---|---|---|---|---|
| src/pages/Profile.jsx:86-94 | `handleConfirm` calls `onUpdateOffice(pendingOffice, …)` (line 89) and then `onResetProgress()` (lines 90-91) in the same event. The office update is a deferred state update, and the reset runs `setOverallDay(1)` through a closure over the office selected before the change (src/context/MissionProvider.jsx:916-933), so it resets the previous office's progress. `ConfirmAsWritten` makes the reset before the office update to reproduce that deferral. | Change from deacon to elder with "reset" while elder progress `{completedDay: 5}` is stored: elder stays at mission 5 and deacon is reset | the reset applies to the newly selected office, which starts again at day 1 | medium, not executed | ProfilePage.ProfileView.ConfirmAsWritten, ProfilePage.StaleResetKeepsNewOfficeProgress, ProfilePage.StaleResetExample | ProfilePage.ProfileView.Confirm |
