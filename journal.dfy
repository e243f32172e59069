/**
 * The journal page: the entries gathered from the stored reflections and
 * Sunday reports, the streak of consecutive days with a daily entry ending
 * today, the filtered, searched and newest-first list, and the milestone line.
 */
module Journal {
  import opened Common
  import opened Text
  import opened Sorting

  datatype EntryKind = DailyKind | SundayKind | OtherKind

  /**
   * A journal entry; `date` is its day number (absent when the entry has no
   * date), and text fields that are missing read as "".
   */
  datatype Entry = Entry(kind: EntryKind, date: Option<int>, prompt: string, response: string, office: string)

  // ----------------------------------------------------------------- storage

  /** A stored value after `JSON.parse`: malformed, falsy, one value, or an array. */
  datatype Stored = Malformed | Falsy | Single(entry: Entry) | Many(entries: seq<Entry>)

  datatype StorageItem = StorageItem(key: string, value: Stored)

  const ReflectionPrefix := "reflection_"
  const SundayPrefix := "sunday_report_"

  predicate StartsWith(s: string, prefix: string)
  {
    |prefix| <= |s| && s[..|prefix|] == prefix
  }

  /** A key the journal reads: a daily reflection or a Sunday report. */
  predicate JournalKey(key: string)
  {
    StartsWith(key, ReflectionPrefix) || StartsWith(key, SundayPrefix)
  }

  /** What one stored value adds: an array's elements, a single truthy value, or nothing. */
  function Unpack(v: Stored): seq<Entry>
  {
    match v
    case Malformed => []
    case Falsy => []
    case Single(e) => [e]
    case Many(es) => es
  }

  /** The entries of a storage listing, in key order; keys outside the journal add nothing. */
  function Flatten(items: seq<StorageItem>): (r: seq<Entry>)
  {
    if items == [] then []
    else
      var last := items[|items| - 1];
      Flatten(items[..|items| - 1]) + (if JournalKey(last.key) then Unpack(last.value) else [])
  }

  /**
   * An entry is gathered exactly when some journal key holds it, alone or in
   * an array; malformed and falsy values and other keys contribute nothing.
   */
  lemma {:induction false} FlattenMembers(items: seq<StorageItem>, e: Entry)
    ensures e in Flatten(items) <==>
      exists k :: 0 <= k < |items| && JournalKey(items[k].key) && e in Unpack(items[k].value)
  {
    if items != [] {
      var init := items[..|items| - 1];
      var last := items[|items| - 1];
      FlattenMembers(init, e);
      if e in Flatten(items) && e !in Flatten(init) {
        assert JournalKey(last.key) && e in Unpack(last.value);
      }
      if exists k :: 0 <= k < |items| && JournalKey(items[k].key) && e in Unpack(items[k].value) {
        var k :| 0 <= k < |items| && JournalKey(items[k].key) && e in Unpack(items[k].value);
        if k < |items| - 1 {
          assert init[k] == items[k];
        }
      }
    }
  }

  /** `parseEntriesFromStorage`: walks the storage keys in order and appends what each journal key holds. */
  method ParseEntries(items: seq<StorageItem>) returns (entries: seq<Entry>)
    ensures entries == Flatten(items)
  {
    entries := [];
    var i := 0;
    while i < |items|
      invariant 0 <= i <= |items|
      invariant entries == Flatten(items[..i])
    {
      var item := items[i];
      if StartsWith(item.key, ReflectionPrefix) || StartsWith(item.key, SundayPrefix) {
        match item.value {
          case Many(es) =>
            var j := 0;
            while j < |es|
              invariant 0 <= j <= |es|
              invariant entries == Flatten(items[..i]) + es[..j]
            {
              entries := entries + [es[j]];
              j := j + 1;
            }
            assert es[..j] == es;
          case Single(e) =>
            entries := entries + [e];
          case Malformed =>
          case Falsy =>
        }
      }
      assert items[..i + 1][..i] == items[..i];
      i := i + 1;
    }
    assert items[..i] == items;
  }

  // ------------------------------------------------------------------ streak

  /** The days that hold a dated daily entry; other kinds and undated entries do not count. */
  function DailyDays(entries: seq<Entry>): set<int>
  {
    set e | e in entries && e.kind == DailyKind && e.date.Some? :: e.date.value
  }

  /** The days of `days` that are not after `cursor`. */
  function UpTo(days: set<int>, cursor: int): set<int>
  {
    set x | x in days && x <= cursor
  }

  lemma UpToShrinks(days: set<int>, cursor: int)
    requires cursor in days
    ensures |UpTo(days, cursor - 1)| < |UpTo(days, cursor)|
  {
    assert cursor in UpTo(days, cursor) && cursor !in UpTo(days, cursor - 1);
    SubsetSize(UpTo(days, cursor - 1), UpTo(days, cursor));
  }

  /** The number of consecutive days of `days` ending at `cursor`. */
  function Run(days: set<int>, cursor: int): (n: nat)
    decreases |UpTo(days, cursor)|
  {
    if cursor in days then
      UpToShrinks(days, cursor);
      1 + Run(days, cursor - 1)
    else 0
  }

  /**
   * The run is the maximal one: every day after `cursor - n` up to `cursor`
   * is present and day `cursor - n` is not.
   */
  lemma {:induction false} RunIsMaximal(days: set<int>, cursor: int)
    ensures forall d :: cursor - Run(days, cursor) < d <= cursor ==> d in days
    ensures cursor - Run(days, cursor) !in days
    decreases |UpTo(days, cursor)|
  {
    if cursor in days {
      UpToShrinks(days, cursor);
      RunIsMaximal(days, cursor - 1);
    }
  }

  /** Any run of present days ending at `cursor` is at most the streak. */
  lemma {:induction false} RunIsLongest(days: set<int>, cursor: int, m: nat)
    requires forall d :: cursor - m < d <= cursor ==> d in days
    ensures m <= Run(days, cursor)
    decreases m
  {
    if m > 0 {
      assert cursor in days;
      RunIsLongest(days, cursor - 1, m - 1);
    }
  }

  /** `calculateStreak`: counts back from today while each day holds a daily entry. */
  method CalculateStreak(entries: seq<Entry>, today: int) returns (streak: nat)
    ensures streak == Run(DailyDays(entries), today)
    ensures forall d :: today - streak < d <= today ==> d in DailyDays(entries)
    ensures today - streak !in DailyDays(entries)
  {
    var days := DailyDays(entries);
    RunIsMaximal(days, today);
    if |days| == 0 {
      return 0;
    }
    streak := 0;
    var cursor := today;
    while cursor in days
      invariant cursor == today - streak
      invariant Run(days, today) == streak + Run(days, cursor)
      decreases |UpTo(days, cursor)|
    {
      UpToShrinks(days, cursor);
      streak := streak + 1;
      cursor := cursor - 1;
    }
  }

  /** Without a daily entry for today the streak is 0, whatever came before. */
  lemma StreakNeedsToday(entries: seq<Entry>, today: int)
    requires today !in DailyDays(entries)
    ensures Run(DailyDays(entries), today) == 0
  {
  }

  /** An entry that is not a dated daily one leaves the streak as it was. */
  lemma StreakIgnoresOtherEntries(entries: seq<Entry>, e: Entry, today: int)
    requires e.kind != DailyKind || e.date.None?
    ensures Run(DailyDays(entries + [e]), today) == Run(DailyDays(entries), today)
  {
    assert DailyDays(entries + [e]) == DailyDays(entries);
  }

  // ---------------------------------------------------------- filter and sort

  datatype Filter = AllEntries | DailyMissions | SundayReports

  predicate PassesFilter(f: Filter, e: Entry)
  {
    match f
    case AllEntries => true
    case DailyMissions => e.kind == DailyKind
    case SundayReports => e.kind == SundayKind
  }

  const DailyPrompt := "Record how this assignment shaped your confidence and spiritual focus today."
  const SundayPrompt := "Weekly Account of Stewardship"

  /** `entry.prompt || promptByType[entry.type] || ""`. */
  function PromptOf(e: Entry): string
  {
    if e.prompt != [] then e.prompt
    else match e.kind
      case DailyKind => DailyPrompt
      case SundayKind => SundayPrompt
      case OtherKind => []
  }

  /** The lower-cased prompt, response or office contains the lower-cased term. */
  predicate MatchesTerm(e: Entry, term: string)
  {
    Contains(Lower(PromptOf(e)), term) || Contains(Lower(e.response), term) || Contains(Lower(e.office), term)
  }

  /**
   * The entries that pass the filter and match the term, in their original
   * order: each kept one occurs as often as in the input, the others not at all.
   */
  function Keep(entries: seq<Entry>, f: Filter, term: string): (r: seq<Entry>)
    ensures forall e :: e in r <==> e in entries && PassesFilter(f, e) && MatchesTerm(e, term)
    ensures forall e :: multiset(r)[e] == if PassesFilter(f, e) && MatchesTerm(e, term) then multiset(entries)[e] else 0
    ensures Subsequence(r, entries)
  {
    if entries == [] then []
    else
      var e := entries[0];
      assert entries == [e] + entries[1..];
      var rest := Keep(entries[1..], f, term);
      if PassesFilter(f, e) && MatchesTerm(e, term) then
        var r := [e] + rest;
        assert r[0] == e && r[1..] == rest;
        r
      else rest
  }

  /** Newest first: the day number negated (an undated entry sorts as day 0). */
  function NewestFirst(e: Entry): int
  {
    -GetOr(e.date, 0)
  }

  /** Sorting newest first keeps the entries, each as often, and orders them by descending date. */
  lemma SortedNewestFirst(kept: seq<Entry>)
    ensures var r := SortBy(kept, NewestFirst);
      (forall e :: e in r <==> e in kept)
      && (forall i, j :: 0 <= i < j < |r| ==> GetOr(r[j].date, 0) <= GetOr(r[i].date, 0))
      && multiset(r) == multiset(kept)
  {
    SortByMembers(kept, NewestFirst);
    var r := SortBy(kept, NewestFirst);
    forall i, j | 0 <= i < j < |r|
      ensures GetOr(r[j].date, 0) <= GetOr(r[i].date, 0)
    {
      assert NewestFirst(r[i]) <= NewestFirst(r[j]);
    }
  }

  /**
   * `filteredEntries`: the entries passing the type filter whose prompt,
   * response or office contains the trimmed, lower-cased search term, each
   * kept as often as it occurs, newest first.
   */
  function FilteredEntries(entries: seq<Entry>, f: Filter, search: string): (r: seq<Entry>)
    ensures forall e :: e in r <==> e in entries && PassesFilter(f, e) && MatchesTerm(e, Lower(Trim(search)))
    ensures forall i, j :: 0 <= i < j < |r| ==> GetOr(r[j].date, 0) <= GetOr(r[i].date, 0)
    ensures multiset(r) == multiset(Keep(entries, f, Lower(Trim(search))))
  {
    var kept := Keep(entries, f, Lower(Trim(search)));
    SortedNewestFirst(kept);
    SortBy(kept, NewestFirst)
  }

  /** A blank search keeps every entry the type filter passes. */
  lemma BlankSearchKeepsFiltered(entries: seq<Entry>, f: Filter, search: string)
    requires IsBlank(search)
    ensures forall e :: e in FilteredEntries(entries, f, search) <==> e in entries && PassesFilter(f, e)
  {
    assert Lower(Trim(search)) == [];
    forall e | e in entries {
      ContainsEmpty(Lower(PromptOf(e)));
    }
  }

  /** "Daily Missions" lists only daily entries and "Sunday Reports" only Sunday ones. */
  lemma FilterKinds(entries: seq<Entry>, search: string)
    ensures forall e :: e in FilteredEntries(entries, DailyMissions, search) ==> e.kind == DailyKind
    ensures forall e :: e in FilteredEntries(entries, SundayReports, search) ==> e.kind == SundayKind
  {
  }

  // --------------------------------------------------------------- milestone

  const EarlyMilestone := "3 weeks until Teacher advancement"
  const MiddleMilestone := "2 weeks until Teacher advancement"
  const OnTrackMilestone := "On track for your next advancement"

  /** Which milestone line a number of entries reaches: below 7, below 30, or beyond. */
  function MilestoneStage(total: nat): (stage: nat)
    ensures stage <= 2
    ensures stage == 0 <==> total < 7
    ensures stage == 2 <==> 30 <= total
  {
    if total < 7 then 0 else if total < 30 then 1 else 2
  }

  function Milestone(total: nat): string
  {
    match MilestoneStage(total)
    case 0 => EarlyMilestone
    case 1 => MiddleMilestone
    case _ => OnTrackMilestone
  }

  /** More entries never move the milestone line back. */
  lemma MilestoneMonotone(a: nat, b: nat)
    requires a <= b
    ensures MilestoneStage(a) <= MilestoneStage(b)
  {
  }
}
