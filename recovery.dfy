/**
 * The app shell around the provider: the recovery policy that greets a user
 * coming back after a gap (a toast, a catch-up offer or a recenter offer),
 * the handlers behind those offers, the reset and office-update handlers of
 * the profile page, and the daily habit checklist with its log.
 */
module Recovery {
  import opened Common
  import opened Days
  import opened Text
  import opened Sorting
  import opened Mission
  import opened Provider
  import opened CatchUp

  // ------------------------------------------------------------ classification

  /** How hard the app steps in after a gap of whole days. */
  datatype Kind = Nudge | CatchUpPrompt | RecenterPrompt

  /** Strength of a reaction: none, then toast, catch-up, recenter. */
  function Severity(k: Option<Kind>): nat
  {
    match k
    case None => 0
    case Some(Nudge) => 1
    case Some(CatchUpPrompt) => 2
    case Some(RecenterPrompt) => 3
  }

  /** No reaction without a gap; a toast for one or two days; a catch-up offer up to six; a recenter beyond. */
  function Classify(gap: int): (k: Option<Kind>)
    ensures k.None? <==> gap <= 0
    ensures k == Some(Nudge) <==> 1 <= gap <= 2
    ensures k == Some(CatchUpPrompt) <==> 3 <= gap <= 6
    ensures k == Some(RecenterPrompt) <==> 7 <= gap
  {
    if gap <= 0 then None
    else if gap <= 2 then Some(Nudge)
    else if gap <= 6 then Some(CatchUpPrompt)
    else Some(RecenterPrompt)
  }

  /** A longer absence never gets a milder reaction. */
  lemma ClassifyMonotone(a: int, b: int)
    requires a <= b
    ensures Severity(Classify(a)) <= Severity(Classify(b))
  {
  }

  /** The day a jump forward lands on: the last completed day moved on by the gap, capped at day 120. */
  function TargetDay(lastCompleted: int, gap: int): (t: int)
    ensures t <= LastDay && t <= lastCompleted + gap
    ensures t == LastDay || t == lastCompleted + gap
  {
    Min(LastDay, lastCompleted + gap)
  }

  /** Before the last day, a real gap always moves the target past the last completed day. */
  lemma TargetAhead(lastCompleted: int, gap: int)
    requires 0 < gap && lastCompleted < LastDay
    ensures lastCompleted < TargetDay(lastCompleted, gap)
    ensures TargetDay(lastCompleted, gap) - lastCompleted <= gap
  {
  }

  // -------------------------------------------------------------- missed days

  function DayOf(m: MissionContent): int
  {
    m.day
  }

  /** `missedDays.map(day => day.id)`. */
  function Ids(days: seq<MissionContent>): (r: seq<int>)
    ensures |r| == |days|
    ensures forall i :: 0 <= i < |days| ==> r[i] == days[i].day
  {
    if days == [] then [] else Ids(days[..|days| - 1]) + [days[|days| - 1].day]
  }

  /** The days before `bound` that have no manual completion, in catalog order. */
  function Unfinished(days: seq<MissionContent>, bound: int, manual: seq<int>): (r: seq<MissionContent>)
    ensures |r| <= |days|
    ensures forall x :: x in r <==> x in days && x.day < bound && x.day !in manual
  {
    if days == [] then []
    else
      var last := days[|days| - 1];
      var init := Unfinished(days[..|days| - 1], bound, manual);
      assert days == days[..|days| - 1] + [last];
      if last.day < bound && last.day !in manual then init + [last] else init
  }

  /**
   * `missedDays`: every day before the active day (no active day counts as
   * 0) without a manual completion, ascending by day; days already excused
   * as grace days are not left out.
   */
  function MissedDays(days: seq<MissionContent>, active: Option<int>, manual: seq<int>): (r: seq<MissionContent>)
    ensures SortedBy(r, DayOf)
    ensures forall x :: x in r <==> x in days && x.day < GetOr(active, 0) && x.day !in manual
    ensures multiset(r) == multiset(Unfinished(days, GetOr(active, 0), manual))
  {
    var u := Unfinished(days, GetOr(active, 0), manual);
    SortByMembers(u, DayOf);
    SortBy(u, DayOf)
  }

  /** Days sorted by number give their numbers in ascending order. */
  lemma IdsAscending(m: seq<MissionContent>)
    requires SortedBy(m, DayOf)
    ensures Ascending(Ids(m))
  {
    forall i, j | 0 <= i < j < |m| ensures Ids(m)[i] <= Ids(m)[j] {
      assert DayOf(m[i]) <= DayOf(m[j]);
    }
  }

  /** The ids below `bound`, order kept. */
  function Below(ids: seq<int>, bound: int): (r: seq<int>)
    ensures |r| <= |ids|
    ensures forall x :: x in r <==> x in ids && x < bound
  {
    if ids == [] then []
    else (if ids[0] < bound then [ids[0]] else []) + Below(ids[1..], bound)
  }

  lemma {:induction false} BelowAscending(ids: seq<int>, bound: int)
    requires Ascending(ids)
    ensures Ascending(Below(ids, bound))
  {
    if ids != [] {
      BelowAscending(ids[1..], bound);
      var rest := Below(ids[1..], bound);
      var r := Below(ids, bound);
      assert r == (if ids[0] < bound then [ids[0]] else []) + rest;
      forall i, j | 0 <= i < j < |r| ensures r[i] <= r[j] {
        if ids[0] < bound && i == 0 {
          assert r[j] in rest;
          var k :| 0 <= k < |ids[1..]| && ids[1..][k] == r[j];
          assert ids[k + 1] == r[j];
        } else if ids[0] < bound {
          assert r[i] == rest[i - 1] && r[j] == rest[j - 1];
        }
      }
    }
  }

  /** The queue Catch Up stores: the missed day numbers below the active day at the time of the click. */
  function CatchUpQueue(missed: seq<MissionContent>, active: Option<int>): seq<int>
  {
    Below(Ids(missed), GetOr(active, 0))
  }

  /** A queue in order starts with its smallest day. */
  lemma AscendingHead(q: seq<int>)
    requires Ascending(q) && q != []
    ensures forall x :: x in q ==> q[0] <= x
  {
    forall x | x in q ensures q[0] <= x {
      var k :| 0 <= k < |q| && q[k] == x;
      if k > 0 {
        assert q[0] <= q[k];
      }
    }
  }

  /** A day number is queued iff it belongs to a missed day and lies below the active day at the click. */
  lemma CatchUpQueueMembers(missed: seq<MissionContent>, b: Option<int>)
    ensures forall x :: x in CatchUpQueue(missed, b) <==>
      x < GetOr(b, 0) && exists m :: m in missed && m.day == x
  {
    var ids := Ids(missed);
    forall x ensures x in ids <==> exists m :: m in missed && m.day == x {
      if x in ids {
        var k :| 0 <= k < |ids| && ids[k] == x;
        assert missed[k] in missed;
      }
      if exists m :: m in missed && m.day == x {
        var m :| m in missed && m.day == x;
        var k :| 0 <= k < |missed| && missed[k] == m;
        assert ids[k] == x;
      }
    }
  }

  /**
   * The Catch Up queue holds exactly the days, before both the active day
   * when the offer was made and the one at the click, that have no manual
   * completion, earliest first: a catch-up session starts at the earliest
   * missed day.
   */
  lemma CatchUpQueueIsMissed(days: seq<MissionContent>, a: Option<int>, manual: seq<int>, b: Option<int>)
    ensures var q := CatchUpQueue(MissedDays(days, a, manual), b);
      Ascending(q)
      && (forall x :: x in q <==>
            x < GetOr(a, 0) && x < GetOr(b, 0) && x !in manual && exists m :: m in days && m.day == x)
      && (q != [] ==> forall x :: x in q ==> q[0] <= x)
  {
    var missed := MissedDays(days, a, manual);
    var q := CatchUpQueue(missed, b);
    IdsAscending(missed);
    BelowAscending(Ids(missed), GetOr(b, 0));
    CatchUpQueueMembers(missed, b);
    if q != [] {
      AscendingHead(q);
    }
  }

  // ------------------------------------------------------------------ offers

  const WelcomeStart := "Welcome back, "
  const WelcomeEnd := ". We missed you yesterday."
  const DefaultName := "Brother"

  /** `userName?.trim() || "Brother"`. */
  function SafeName(userName: string): (r: string)
    ensures r != []
    ensures IsBlank(userName) ==> r == DefaultName
    ensures !IsBlank(userName) ==> r == Trim(userName)
  {
    var t := Trim(userName);
    if t == [] then DefaultName else t
  }

  function WelcomeMessage(userName: string): string
  {
    WelcomeStart + SafeName(userName) + WelcomeEnd
  }

  /** The toast greets the user by the trimmed name, or as "Brother" without one. */
  lemma WelcomeNamesUser(userName: string)
    ensures Contains(WelcomeMessage(userName), SafeName(userName))
  {
    var n := SafeName(userName);
    assert OccursAt(n, n, 0);
    ContainsInConcat(WelcomeStart, n, WelcomeEnd, n);
  }

  /** `recoveryState`: what the app offers after a gap. */
  datatype Offer =
    | ToastOffer(message: string)
    | CatchUpOffer(missed: seq<MissionContent>, target: int, lastCompleted: int)
    | RecenterOffer(missed: seq<MissionContent>, target: int, lastCompleted: int)

  function KindOf(o: Offer): Kind
  {
    match o
    case ToastOffer(_) => Nudge
    case CatchUpOffer(_, _, _) => CatchUpPrompt
    case RecenterOffer(_, _, _) => RecenterPrompt
  }

  /**
   * The offer for a gap: none without one; otherwise of the kind the gap
   * classifies as, the toast carrying the welcome message and the other two
   * the missed days, the target day and the last completed day.
   */
  function Decide(gap: int, lastCompleted: int, missed: seq<MissionContent>, userName: string): (o: Option<Offer>)
    ensures o.None? <==> gap <= 0
    ensures o.Some? ==> Classify(gap) == Some(KindOf(o.value))
    ensures o.Some? && o.value.ToastOffer? ==> o.value.message == WelcomeMessage(userName)
    ensures o.Some? && !o.value.ToastOffer? ==>
      o.value.missed == missed && o.value.target == TargetDay(lastCompleted, gap)
      && o.value.lastCompleted == lastCompleted
  {
    match Classify(gap)
    case None => None
    case Some(Nudge) => Some(ToastOffer(WelcomeMessage(userName)))
    case Some(CatchUpPrompt) => Some(CatchUpOffer(missed, TargetDay(lastCompleted, gap), lastCompleted))
    case Some(RecenterPrompt) => Some(RecenterOffer(missed, TargetDay(lastCompleted, gap), lastCompleted))
  }

  // ------------------------------------------------------------------ habits

  datatype HabitKey = Scripture | Prayer | Service

  datatype Habits = Habits(scripture: bool, prayer: bool, service: bool)
  {
    function Get(k: HabitKey): bool
    {
      match k
      case Scripture => scripture
      case Prayer => prayer
      case Service => service
    }

    /** `Object.values(habits).every(Boolean)`. */
    predicate AllDone()
    {
      scripture && prayer && service
    }
  }

  /** One day of the habit log. */
  datatype HabitEntry = HabitEntry(completed: bool, habits: Habits)

  /** `{ ...prev, [key]: !prev[key] }`: exactly the one habit flips. */
  function Flip(h: Habits, k: HabitKey): (r: Habits)
    ensures r.Get(k) == !h.Get(k)
    ensures forall j :: j != k ==> r.Get(j) == h.Get(j)
  {
    match k
    case Scripture => h.(scripture := !h.scripture)
    case Prayer => h.(prayer := !h.prayer)
    case Service => h.(service := !h.service)
  }

  /** The day is complete exactly when every habit is checked. */
  lemma AllDoneIffEvery(h: Habits)
    ensures h.AllDone() <==> forall k :: h.Get(k)
  {
    if !h.AllDone() {
      assert !h.Get(Scripture) || !h.Get(Prayer) || !h.Get(Service);
    }
  }

  datatype Page = DashboardPage | PathPage | JournalPage | OrdinancePage | ProfilePage

  // --------------------------------------------------------------------- app

  class App {
    const provider: MissionProvider
    const store: CatchUpStore
    var recovery: Option<Offer>
    var showToast: bool
    /** `priesthood.recoveryShown`: the day the prompt was last decided. */
    var recoveryShown: Option<int>
    var catchUpStartDay: Option<int>
    var page: Page
    var missionOpen: bool
    var habits: Habits
    var habitLog: map<int, HabitEntry>

    constructor (p: MissionProvider, s: CatchUpStore)
      ensures provider == p && store == s
      ensures recovery.None? && !showToast && recoveryShown.None? && catchUpStartDay.None?
      ensures page == DashboardPage && !missionOpen
      ensures habits == Habits(false, false, false) && habitLog == map[]
    {
      provider := p;
      store := s;
      recovery := None;
      showToast := false;
      recoveryShown := None;
      catchUpStartDay := None;
      page := DashboardPage;
      missionOpen := false;
      habits := Habits(false, false, false);
      habitLog := map[];
    }

    /** Whole days between the last active day and `today`; none without a last active day. */
    function Gap(today: int): Option<int>
      reads provider`lastActiveDate
    {
      if provider.lastActiveDate.None? then None else Some(today - provider.lastActiveDate.value)
    }

    /** The recovery check stays quiet: no office, already decided today, or no gap. */
    predicate Quiet(today: int)
      reads this`recoveryShown, provider`selectedOffice, provider`lastActiveDate
    {
      provider.selectedOffice.None? || recoveryShown == Some(today) || GetOr(Gap(today), 0) <= 0
    }

    /** The missed days as the provider's current state gives them. */
    function Missed(today: int): seq<MissionContent>
      reads provider`selectedOffice, provider`progressByOffice, provider`starter, provider`manualCompletedDays
    {
      MissedDays(AllDays(provider.catalog, provider.selectedOffice), provider.ActiveDayOn(today),
        provider.manualCompletedDays)
    }

    /**
     * The recovery effect: when it is not quiet, it stamps today as decided
     * and sets the offer the gap calls for, showing the toast for a short
     * gap; when quiet it changes nothing, not even the stamp.
     */
    method CheckRecovery(today: int)
      modifies this`recovery, this`showToast, this`recoveryShown
      ensures old(Quiet(today)) ==> unchanged(this)
      ensures !old(Quiet(today)) ==>
        recoveryShown == Some(today)
        && recovery == Decide(Gap(today).value, provider.lastCompletedDay, Missed(today), provider.userName)
        && showToast == (old(showToast) || Gap(today).value <= 2)
    {
      if Quiet(today) {
        return;
      }
      var gap := Gap(today).value;
      recoveryShown := Some(today);
      recovery := Decide(gap, provider.lastCompletedDay, Missed(today), provider.userName);
      if gap <= 2 {
        showToast := true;
      }
    }

    /**
     * Catch Up: stores the missed days below the active day as the queue,
     * switches catch-up mode on, and when there is a first day opens the
     * dashboard on it; the offer closes.
     */
    method OnCatchUp(today: int)
      requires recovery.Some? && recovery.value.CatchUpOffer?
      modifies store, this`catchUpStartDay, this`page, this`recovery
      ensures store.queue == CatchUpQueue(old(recovery).value.missed, provider.ActiveDayOn(today))
      ensures store.mode && recovery.None?
      ensures store.queue != [] ==> catchUpStartDay == Some(store.queue[0]) && page == DashboardPage
      ensures store.queue == [] ==> catchUpStartDay == old(catchUpStartDay) && page == old(page)
    {
      var queue := CatchUpQueue(recovery.value.missed, provider.ActiveDayOn(today));
      store.Start(queue);
      if queue != [] {
        catchUpStartDay := Some(queue[0]);
        page := DashboardPage;
      }
      recovery := None;
    }

    /**
     * Resume (after a catch-up offer) and Restart (after a recenter offer):
     * with a non-zero target, jump to it, stamp every missed day as a grace
     * day dated today (other grace days kept), and record the day before the
     * target as the last completed; the offer closes either way.
     */
    method Resume(today: int)
      requires provider.Valid() && recovery.Some? && !recovery.value.ToastOffer?
      modifies provider`starter, provider`progressByOffice, provider`graceDays,
        provider`lastActiveDate, provider`lastCompletedDay, this`recovery
      ensures provider.Valid() && recovery.None?
      ensures old(recovery).value.target == 0 ==> unchanged(provider)
      ensures old(recovery).value.target != 0 ==>
        provider.lastActiveDate == Some(today) && provider.lastCompletedDay == old(recovery).value.target - 1
      ensures old(recovery).value.target != 0 ==>
        provider.graceDays == if old(recovery).value.missed == [] then old(provider.graceDays)
          else Stamped(old(provider.graceDays), Ids(old(recovery).value.missed), today)
      ensures (old(recovery).value.target != 0 && provider.selectedOffice.Some? &&
        JumpTo(old(provider.starter), old(recovery).value.target).Some?) ==>
        provider.starter == JumpTo(old(provider.starter), old(recovery).value.target).value.starter
      ensures provider.selectedOffice.Some? && 8 <= old(recovery).value.target <= LastDay ==>
        provider.starter.isStarterFinished && MasteryActiveDay(provider.starter) == old(recovery).value.target
    {
      var o := recovery.value;
      if o.target != 0 {
        JumpAhead(o.target, Ids(o.missed), today);
      }
      recovery := None;
    }

    method JumpAhead(target: int, missed: seq<int>, today: int)
      requires provider.Valid()
      modifies provider`starter, provider`progressByOffice, provider`graceDays,
        provider`lastActiveDate, provider`lastCompletedDay
      ensures provider.Valid()
      ensures provider.lastActiveDate == Some(today) && provider.lastCompletedDay == target - 1
      ensures provider.graceDays == if missed == [] then old(provider.graceDays)
        else Stamped(old(provider.graceDays), missed, today)
      ensures provider.selectedOffice.Some? && JumpTo(old(provider.starter), target).Some? ==>
        provider.starter == JumpTo(old(provider.starter), target).value.starter
      ensures provider.selectedOffice.Some? && 8 <= target <= LastDay ==>
        provider.starter.isStarterFinished && MasteryActiveDay(provider.starter) == target
    {
      provider.SetOverallDay(target);
      provider.MarkGraceDays(missed, Some(today), today);
      provider.RecordCompletion(target - 1, today);
    }

    /** Closing an offer without acting on it. */
    method Dismiss()
      modifies this`recovery
      ensures recovery.None?
    {
      recovery := None;
    }

    /** Closing the toast hides it and clears the offer. */
    method CloseToast()
      modifies this`recovery, this`showToast
      ensures recovery.None? && !showToast
    {
      recovery := None;
      showToast := false;
    }

    /**
     * The profile's reset: the mission sheet closes and, with an office,
     * the path goes back to day 1 of the starter week with nothing completed.
     */
    method HandleResetProgress()
      requires provider.Valid()
      modifies this`missionOpen, provider`starter, provider`progressByOffice
      ensures provider.Valid() && !missionOpen
      ensures provider.selectedOffice.None? ==> unchanged(provider)
      ensures provider.selectedOffice.Some? ==>
        !provider.starter.isStarterFinished && provider.starter.currentMonth == 0
        && provider.starter.currentDay == 1
        && provider.progressByOffice == old(provider.progressByOffice)[provider.selectedOffice.value := Progress(0, None)]
    {
      missionOpen := false;
      provider.SetOverallDay(1);
    }

    /** The profile's office change: the office is set, and the higher-priesthood moment fires when asked. */
    method HandleOfficeUpdate(office: Office, shouldTrigger: bool)
      requires provider.Valid()
      modifies provider`selectedOffice, provider`higherUnlocked
      ensures provider.Valid() && provider.selectedOffice == Some(office)
      ensures provider.higherUnlocked == (old(provider.higherUnlocked) || shouldTrigger)
    {
      provider.SelectOffice(office);
      if shouldTrigger {
        provider.TriggerHigherUnlocked();
      }
    }

    /**
     * Checking or unchecking a habit flips exactly that habit, and today's
     * log entry records the habits with `completed` set iff all are checked;
     * other days of the log are kept.
     */
    method ToggleHabit(key: HabitKey, today: int)
      modifies this`habits, this`habitLog
      ensures habits == Flip(old(habits), key)
      ensures habitLog == old(habitLog)[today := HabitEntry(habits.AllDone(), habits)]
    {
      habits := Flip(habits, key);
      habitLog := habitLog[today := HabitEntry(habits.AllDone(), habits)];
    }
  }
}
