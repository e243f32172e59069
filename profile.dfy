/**
 * The profile page: changing the priesthood office through a confirmation
 * dialog that either keeps the current progress or resets to day 1, and the
 * mastery ribbons drawn from the phase completions and medals.
 */
module ProfilePage {
  import opened Common
  import opened Days
  import opened Mission
  import opened PhaseFlow
  import opened Provider
  import opened Recovery

  // ------------------------------------------------------------------ office

  /** The higher-priesthood moment: moving from outside the elder office into it. */
  function ShouldTrigger(previous: Option<Office>, next: Office): (t: bool)
    ensures t <==> OrderOf(previous) == Aaronic && OrderOf(Some(next)) == Melchizedek
  {
    previous != Some(Elder) && next == Elder
  }

  /** Staying an elder, or moving within the Aaronic offices, never fires it. */
  lemma NoTriggerWithinOrder(previous: Option<Office>, next: Office)
    requires OrderOf(previous) == OrderOf(Some(next))
    ensures !ShouldTrigger(previous, next)
  {
  }

  /** The progress entries after a reset to day 1 made while `office` is the selected one. */
  function ResetFor(progress: map<Office, Progress>, office: Option<Office>): (r: map<Office, Progress>)
    ensures office.Some? ==> office.value in r && r[office.value] == Progress(0, None)
    ensures office.None? ==> r == progress
    ensures forall o :: o in progress && Some(o) != office ==> o in r && r[o] == progress[o]
    ensures forall o :: o in r ==> o in progress || Some(o) == office
  {
    if office.None? then progress else progress[office.value := Progress(0, None)]
  }

  /**
   * The reset runs while the previous office is still the selected one, so
   * the new office keeps whatever progress it had stored: here an elder
   * entry at mission 5 survives a reset chosen on the move from deacon to elder.
   */
  lemma StaleResetKeepsNewOfficeProgress(progress: map<Office, Progress>, previous: Office, next: Office)
    requires previous != next && next in progress
    ensures next in ResetFor(progress, Some(previous))
    ensures ResetFor(progress, Some(previous))[next] == progress[next]
    ensures ResetFor(progress, Some(next))[next] == Progress(0, None)
  {
  }

  lemma StaleResetExample()
    ensures var p := map[Deacon := Progress(2, Some(40)), Elder := Progress(5, Some(40))];
      ResetFor(p, Some(Deacon))[Elder] == Progress(5, Some(40)) != Progress(0, None)
  {
    var p := map[Deacon := Progress(2, Some(40)), Elder := Progress(5, Some(40))];
    StaleResetKeepsNewOfficeProgress(p, Deacon, Elder);
  }

  datatype Choice = KeepProgress | ResetToDayOne

  class ProfileView {
    const app: App
    var pendingOffice: Option<Office>
    var showConfirm: bool
    var choice: Choice

    /** The dialog is open only over an office that was picked. */
    ghost predicate Valid()
      reads this
    {
      showConfirm ==> pendingOffice.Some?
    }

    constructor (a: App)
      ensures Valid() && app == a
      ensures pendingOffice == a.provider.selectedOffice && !showConfirm && choice == KeepProgress
    {
      app := a;
      pendingOffice := a.provider.selectedOffice;
      showConfirm := false;
      choice := KeepProgress;
    }

    /** Picking an office: the current one does nothing, another one opens the dialog. */
    method OfficeChange(next: Office)
      requires Valid()
      modifies this`pendingOffice, this`showConfirm
      ensures Valid()
      ensures Some(next) == app.provider.selectedOffice ==> unchanged(this)
      ensures Some(next) != app.provider.selectedOffice ==> pendingOffice == Some(next) && showConfirm
    {
      if Some(next) == app.provider.selectedOffice {
        return;
      }
      pendingOffice := Some(next);
      showConfirm := true;
    }

    method Choose(c: Choice)
      requires Valid()
      modifies this`choice
      ensures Valid() && choice == c
    {
      choice := c;
    }

    /** Cancel closes the dialog and changes nothing else, here or in the provider. */
    method Cancel()
      requires Valid()
      modifies this`showConfirm
      ensures Valid() && !showConfirm
    {
      showConfirm := false;
    }

    /**
     * `handleConfirm` as written.  The source updates the office first and
     * then asks for the reset, but the office update is deferred and the
     * reset reads the office from its closure, so the reset is made while the
     * previous office is still selected: the previous office's progress is
     * the one reset (nothing is reset without a previous office).  The method
     * makes the reset first and the office update afterwards to reproduce
     * that order of effects.
     */
    method ConfirmAsWritten()
      requires Valid() && showConfirm && app.provider.Valid()
      modifies this`showConfirm, app`missionOpen, app.provider`starter, app.provider`progressByOffice,
        app.provider`selectedOffice, app.provider`higherUnlocked
      ensures Valid() && !showConfirm && app.provider.Valid()
      ensures app.provider.selectedOffice == pendingOffice
      ensures app.provider.higherUnlocked ==
        (old(app.provider.higherUnlocked) || ShouldTrigger(old(app.provider.selectedOffice), pendingOffice.value))
      ensures choice == KeepProgress ==>
        app.provider.starter == old(app.provider.starter)
        && app.provider.progressByOffice == old(app.provider.progressByOffice)
      ensures (choice == ResetToDayOne && old(app.provider.selectedOffice).Some?) ==>
        app.provider.progressByOffice == ResetFor(old(app.provider.progressByOffice), old(app.provider.selectedOffice))
        && !app.provider.starter.isStarterFinished && app.provider.starter.currentMonth == 0
        && app.provider.starter.currentDay == 1
    {
      var provider := app.provider;
      var trigger := ShouldTrigger(provider.selectedOffice, pendingOffice.value);
      if choice == ResetToDayOne {
        app.HandleResetProgress();
      }
      app.HandleOfficeUpdate(pendingOffice.value, trigger);
      showConfirm := false;
    }

    /**
     * `handleConfirm` as intended: the new office is selected, the
     * higher-priesthood moment fires on promotion into the elder office, and
     * a reset brings the new office back to day 1 while keeping every other
     * office's progress; keeping progress leaves the path untouched.
     */
    method Confirm()
      requires Valid() && showConfirm && app.provider.Valid()
      modifies this`showConfirm, app`missionOpen, app.provider`starter, app.provider`progressByOffice,
        app.provider`selectedOffice, app.provider`higherUnlocked
      ensures Valid() && !showConfirm && app.provider.Valid()
      ensures app.provider.selectedOffice == pendingOffice
      ensures app.provider.higherUnlocked ==
        (old(app.provider.higherUnlocked) || ShouldTrigger(old(app.provider.selectedOffice), pendingOffice.value))
      ensures choice == KeepProgress ==>
        app.provider.starter == old(app.provider.starter)
        && app.provider.progressByOffice == old(app.provider.progressByOffice)
      ensures choice == ResetToDayOne ==>
        app.provider.progressByOffice == ResetFor(old(app.provider.progressByOffice), pendingOffice)
        && !app.provider.starter.isStarterFinished && app.provider.starter.currentMonth == 0
        && app.provider.starter.currentDay == 1
    {
      var provider := app.provider;
      var trigger := ShouldTrigger(provider.selectedOffice, pendingOffice.value);
      app.HandleOfficeUpdate(pendingOffice.value, trigger);
      if choice == ResetToDayOne {
        app.HandleResetProgress();
      }
      showConfirm := false;
    }
  }

  // ----------------------------------------------------------------- ribbons

  /** How a ribbon is drawn: greyed out while locked, else with a silver or a gold glow. */
  datatype Glow = Greyed | SilverGlow | GoldGlow

  datatype Ribbon = Ribbon(unlocked: bool, silver: bool)

  /** A ribbon is unlocked by its phase's completion and silver by its phase's medal. */
  function RibbonFor(key: PhaseKey, completions: set<PhaseKey>, status: map<PhaseKey, Medal>): (r: Ribbon)
  {
    Ribbon(key in completions, key in status && status[key] == Silver)
  }

  /** The glow of a ribbon; the "Silver" caption follows the medal even on a locked ribbon. */
  function GlowOf(r: Ribbon): (g: Glow)
    ensures g == Greyed <==> !r.unlocked
    ensures g == SilverGlow <==> r.unlocked && r.silver
  {
    if !r.unlocked then Greyed else if r.silver then SilverGlow else GoldGlow
  }

  /** Proceeding with silver from a review draws that phase's ribbon unlocked with the silver glow. */
  lemma SilverReviewDrawsSilver(f: Flow, office: Option<Office>)
    requires f.pending.Some? ==> office.Some?
    requires f.review.Some?
    ensures var g := ProceedWithSilver(f, office);
      GlowOf(RibbonFor(f.review.value.range.key, g.completions, g.status)) == SilverGlow
  {
  }

  /** Continuing a celebration unlocks that phase's ribbon and keeps its medal. */
  lemma CelebrationUnlocksRibbon(f: Flow, office: Option<Office>)
    requires f.pending.Some? ==> office.Some?
    requires f.celebration.Some?
    ensures var key := f.celebration.value.key;
      var g := ContinueCelebration(f, office);
      RibbonFor(key, g.completions, g.status) == RibbonFor(key, f.completions, f.status).(unlocked := true)
  {
  }
}
