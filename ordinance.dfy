/**
 * The ordinance lab: the prayer shown for an ordinance card, and the cards
 * listed for a category filter and a search term.
 */
module Ordinance {
  import opened Common
  import opened Text

  /**
   * An ordinance card; `prayerUpper` is the `Prayer` field and `prayer` the
   * `prayer` field, `steps` is absent when it is not an array, and missing
   * text fields read as "".
   */
  datatype Card = Card(
    title: string, category: string, steps: Option<seq<string>>,
    prayerUpper: string, prayer: string, bread: string, water: string, hint: string)

  // ------------------------------------------------------------- prayer text

  const BlankLine := "\n\n"

  /**
   * `[bread, water].filter(Boolean).join("\n\n")`: bread before water with a
   * blank line between them, a missing one left out together with the blank
   * line.
   */
  function BreadAndWater(bread: string, water: string): (r: string)
    ensures r == Join(NonEmptyParts([bread, water]), BlankLine)
    ensures bread == [] ==> r == water
    ensures water == [] ==> r == bread
    ensures bread != [] && water != [] ==> r == bread + BlankLine + water
    ensures r == [] <==> bread == [] && water == []
    ensures Contains(r, bread) && Contains(r, water)
  {
    assert [bread, water][1..] == [water] && [water][1..] == [];
    assert NonEmptyParts([water]) == (if water == [] then [] else [water]);
    assert bread != [] && water != [] ==> NonEmptyParts([bread, water]) == [bread, water];
    assert [bread, water][..1] == [bread];
    assert OccursAt(bread, bread, 0) && OccursAt(water, water, 0);
    ContainsEmpty(bread);
    ContainsEmpty(water);
    if bread != [] && water != [] then
      ContainsInConcat([], bread, BlankLine + water, bread);
      ContainsInConcat(bread + BlankLine, water, [], water);
      assert [] + bread + (BlankLine + water) == bread + BlankLine + water;
      assert bread + BlankLine + water + [] == bread + BlankLine + water;
      bread + BlankLine + water
    else if bread != [] then bread
    else water
  }

  /** `getPrayerText`: none without a card, then `Prayer`, `prayer`, the two sacrament prayers, the hint. */
  function PrayerText(card: Option<Card>): (r: string)
    ensures card.None? ==> r == []
    ensures card.Some? && card.value.prayerUpper != [] ==> r == card.value.prayerUpper
    ensures card.Some? ==>
      (r == [] <==>
        (card.value.prayerUpper == [] && card.value.prayer == [] && card.value.bread == []
          && card.value.water == [] && card.value.hint == []))
  {
    if card.None? then []
    else
      var c := card.value;
      if c.prayerUpper != [] then c.prayerUpper
      else if c.prayer != [] then c.prayer
      else if c.bread != [] || c.water != [] then BreadAndWater(c.bread, c.water)
      else c.hint
  }

  /**
   * The precedence in full: a lower field is shown only when every field
   * above it is empty, and the sacrament prayers, when reached, are shown as
   * their blank-line join, bread first, both in the shown text.
   */
  lemma PrayerPrecedence(c: Card)
    ensures c.prayerUpper == [] && c.prayer != [] ==> PrayerText(Some(c)) == c.prayer
    ensures c.prayerUpper == [] && c.prayer == [] && (c.bread != [] || c.water != []) ==>
      PrayerText(Some(c)) == Join(NonEmptyParts([c.bread, c.water]), BlankLine)
      && Contains(PrayerText(Some(c)), c.bread) && Contains(PrayerText(Some(c)), c.water)
    ensures c.prayerUpper == [] && c.prayer == [] && c.bread == [] && c.water == [] ==>
      PrayerText(Some(c)) == c.hint
  {
  }

  // --------------------------------------------------------------- filtering

  const AllCategories := "All"
  const Space := " "

  /** What follows the title in the search text: the steps joined by spaces, the prayer, the water prayer and the hint. */
  function AfterTitle(c: Card): string
  {
    var stepsText := if c.steps.Some? then Join(c.steps.value, Space) else [];
    var prayer := if c.prayerUpper != [] then c.prayerUpper else if c.prayer != [] then c.prayer else c.bread;
    Space + stepsText + Space + prayer + Space + c.water + Space + c.hint
  }

  /** The text a search looks through, lower-cased. */
  function SearchText(c: Card): string
  {
    Lower(c.title + AfterTitle(c))
  }

  predicate MatchesCategory(filter: string, c: Card)
  {
    filter == AllCategories || c.category == filter
  }

  predicate MatchesSearch(term: string, c: Card)
  {
    |term| == 0 || Contains(SearchText(c), term)
  }

  /** `filteredCards`: the cards of the category whose search text holds the trimmed, lower-cased term. */
  function FilteredCards(cards: seq<Card>, filter: string, search: string): (r: seq<Card>)
    ensures forall c :: c in r <==> c in cards && MatchesCategory(filter, c) && MatchesSearch(Lower(Trim(search)), c)
    ensures |r| <= |cards|
  {
    if cards == [] then []
    else
      var c := cards[0];
      (if MatchesCategory(filter, c) && MatchesSearch(Lower(Trim(search)), c) then [c] else [])
        + FilteredCards(cards[1..], filter, search)
  }

  /** The listed cards appear in the order of the ordinance list. */
  lemma {:induction false} FilteredCardsInOrder(cards: seq<Card>, filter: string, search: string)
    ensures Subsequence(FilteredCards(cards, filter, search), cards)
  {
    if cards != [] {
      FilteredCardsInOrder(cards[1..], filter, search);
      var r := FilteredCards(cards, filter, search);
      var rest := FilteredCards(cards[1..], filter, search);
      if MatchesCategory(filter, cards[0]) && MatchesSearch(Lower(Trim(search)), cards[0]) {
        assert r[0] == cards[0] && r[1..] == rest;
      } else {
        assert r == rest;
      }
    }
  }

  /** "All" with a blank search lists every card. */
  lemma AllAndBlankListsEverything(cards: seq<Card>, search: string)
    requires IsBlank(search)
    ensures FilteredCards(cards, AllCategories, search) == cards
  {
    if cards != [] {
      AllAndBlankListsEverything(cards[1..], search);
    }
  }

  /** Any other filter lists only cards of exactly that category. */
  lemma CategoryIsExact(cards: seq<Card>, filter: string, search: string)
    requires filter != AllCategories
    ensures forall c :: c in FilteredCards(cards, filter, search) ==> c.category == filter
  {
  }

  /** A term found in a card's title, ignoring case, is found in its search text. */
  lemma TitleMatchSearches(c: Card, term: string)
    requires Contains(Lower(c.title), term)
    ensures MatchesSearch(term, c)
  {
    LowerAppend(c.title, AfterTitle(c));
    ContainsInConcat([], Lower(c.title), Lower(AfterTitle(c)), term);
    assert [] + Lower(c.title) + Lower(AfterTitle(c)) == SearchText(c);
  }

  /** A search term found in a card's title, ignoring case, lists the card when its category passes. */
  lemma TitleMatchListsCard(cards: seq<Card>, filter: string, search: string, c: Card)
    requires c in cards && MatchesCategory(filter, c)
    requires Contains(Lower(c.title), Lower(Trim(search)))
    ensures c in FilteredCards(cards, filter, search)
  {
    TitleMatchSearches(c, Lower(Trim(search)));
  }

  /** Text found in one of a card's steps, in any case, is found by the search. */
  lemma StepMatchSearches(c: Card, k: int, needle: string)
    requires c.steps.Some? && 0 <= k < |c.steps.value|
    requires Contains(c.steps.value[k], needle)
    ensures MatchesSearch(Lower(needle), c)
  {
    var stepsText := Join(c.steps.value, Space);
    var prayer := if c.prayerUpper != [] then c.prayerUpper else if c.prayer != [] then c.prayer else c.bread;
    var front := c.title + Space;
    var back := Space + prayer + Space + c.water + Space + c.hint;
    assert c.title + AfterTitle(c) == front + stepsText + back;
    JoinContainsPart(c.steps.value, Space, k);
    ContainsTransitive(stepsText, c.steps.value[k], needle);
    ContainsInConcat(front, stepsText, back, needle);
    LowerKeepsContains(front + stepsText + back, needle);
  }
}
