/**
 * The scoring engine: achieved score and maximum score of a checklist
 * definition against the stored responses. Points are multiples of one half
 * and are kept exact as `real`.
 */
module Scoring {

  import opened Wrappers
  import opened Checklist
  import opened Responses

  /** Any priority other than "high" is scored as "low". */
  datatype Priority = High | Low

  function PriorityOf(item: Item): (p: Priority)
    ensures p == High <==> item.priority == "high"
    ensures item.priority != "high" ==> p == Low
  {
    if item.priority == "high" then High else Low
  }

  /** The fixed priority -> choice -> points table. */
  const SCORE_MAP: map<Priority, map<string, real>> := map[
    High := map["OK" := 2.0, "mR" := 1.0, "MR" := 0.0],
    Low := map["OK" := 1.0, "mR" := 0.5, "MR" := 0.0]
  ]

  /** The most an item can earn: 2 for priority "high", 1 otherwise. */
  function Weight(item: Item): (w: nat)
    ensures w as real == Points(PriorityOf(item), "OK")
    ensures w == 2 <==> PriorityOf(item) == High
    ensures 1 <= w <= 2
  {
    if item.priority == "high" then 2 else 1
  }

  /** `SCORE_MAP[priority][choice] ?? 0`: a choice missing from the table earns nothing. */
  function Points(p: Priority, choice: string): (points: real)
    ensures choice !in {"OK", "mR", "MR"} ==> points == 0.0
    ensures 0.0 <= points <= (if p == High then 2.0 else 1.0)
    ensures points == (if p == High then 2.0 else 1.0) <==> choice == "OK"
  {
    assert p == High || p == Low;
    assert SCORE_MAP.Keys == {High, Low};
    if choice in SCORE_MAP[p] then SCORE_MAP[p][choice] else 0.0
  }

  /** What one item contributes: nothing without a reviewer choice or for "NA". */
  function ItemScore(item: Item, scores: map<string, Entry>): (points: real)
    ensures ReviewerChoice(scores, item.code) == None ==> points == 0.0
    ensures ReviewerChoice(scores, item.code) == Some("NA") ==> points == 0.0
    ensures 0.0 <= points <= Weight(item) as real
    ensures points == Weight(item) as real <==> ReviewerChoice(scores, item.code) == Some("OK")
  {
    match ReviewerChoice(scores, item.code)
    case None => 0.0
    case Some(choice) => if choice == "NA" then 0.0 else Points(PriorityOf(item), choice)
  }

  function ItemsScore(items: seq<Item>, scores: map<string, Entry>): real
  {
    if items == [] then 0.0
    else ItemsScore(items[..|items| - 1], scores) + ItemScore(items[|items| - 1], scores)
  }

  function SectionsScore(sections: seq<Section>, scores: map<string, Entry>): real
  {
    if sections == [] then 0.0
    else SectionsScore(sections[..|sections| - 1], scores) + ItemsScore(sections[|sections| - 1].items, scores)
  }

  /** `computeTotalScore`: 0 while no definition is loaded. */
  function TotalScore(data: Option<Definition>, scores: map<string, Entry>): (total: real)
    ensures 0.0 <= total <= MaxScore(data) as real
    ensures data.None? ==> total == 0.0
  {
    match data
    case None => 0.0
    case Some(d) =>
      SectionsScoreBounds(d.sections, scores);
      SectionsScore(d.sections, scores)
  }

  function ItemsMax(items: seq<Item>): nat
  {
    if items == [] then 0 else ItemsMax(items[..|items| - 1]) + Weight(items[|items| - 1])
  }

  function SectionsMax(sections: seq<Section>): nat
  {
    if sections == [] then 0
    else SectionsMax(sections[..|sections| - 1]) + ItemsMax(sections[|sections| - 1].items)
  }

  /** `computeMaxScore`: it reads only the definition, never the responses. */
  function MaxScore(data: Option<Definition>): (max: nat)
    ensures TotalItems(data) <= max <= 2 * TotalItems(data)
    ensures data.None? ==> max == 0
  {
    match data
    case None => 0
    case Some(d) =>
      SectionsMaxBounds(d.sections);
      SectionsMax(d.sections)
  }

  //-----------------------------------------------------------
  // The loops of the source, proved against the functions above
  //-----------------------------------------------------------

  /** `computeTotalScore`: `total += points` over every item of every section. */
  method ComputeTotalScore(data: Option<Definition>, scores: map<string, Entry>) returns (total: real)
    ensures total == TotalScore(data, scores)
    ensures 0.0 <= total <= MaxScore(data) as real
  {
    if data.None? {
      return 0.0;
    }
    var sections := data.value.sections;
    total := 0.0;
    var i := 0;
    while i < |sections|
      invariant 0 <= i <= |sections|
      invariant total == SectionsScore(sections[..i], scores)
    {
      var items := sections[i].items;
      var j := 0;
      while j < |items|
        invariant 0 <= j <= |items|
        invariant total == SectionsScore(sections[..i], scores) + ItemsScore(items[..j], scores)
      {
        assert items[..j + 1][..j] == items[..j];
        var points := 0.0;
        var choice := ReviewerChoice(scores, items[j].code);
        if choice.Some? && choice.value != "NA" {
          points := Points(PriorityOf(items[j]), choice.value);
        }
        total := total + points;
        j := j + 1;
      }
      assert items[..j] == items;
      assert sections[..i + 1][..i] == sections[..i];
      i := i + 1;
    }
    assert sections[..i] == sections;
  }

  /** `computeMaxScore`: `max += weight` over every item of every section. */
  method ComputeMaxScore(data: Option<Definition>) returns (max: nat)
    ensures max == MaxScore(data)
    ensures TotalItems(data) <= max <= 2 * TotalItems(data)
  {
    if data.None? {
      return 0;
    }
    var sections := data.value.sections;
    max := 0;
    var i := 0;
    while i < |sections|
      invariant 0 <= i <= |sections|
      invariant max == SectionsMax(sections[..i])
    {
      var items := sections[i].items;
      var j := 0;
      while j < |items|
        invariant 0 <= j <= |items|
        invariant max == SectionsMax(sections[..i]) + ItemsMax(items[..j])
      {
        assert items[..j + 1][..j] == items[..j];
        max := max + (if items[j].priority == "high" then 2 else 1);
        j := j + 1;
      }
      assert items[..j] == items;
      assert sections[..i + 1][..i] == sections[..i];
      i := i + 1;
    }
    assert sections[..i] == sections;
  }

  //-----------------------------------------------------------
  // Properties
  //-----------------------------------------------------------

  lemma {:induction false} ItemsScoreBounds(items: seq<Item>, scores: map<string, Entry>)
    ensures 0.0 <= ItemsScore(items, scores) <= ItemsMax(items) as real
  {
    if items != [] {
      ItemsScoreBounds(items[..|items| - 1], scores);
    }
  }

  lemma {:induction false} SectionsScoreBounds(sections: seq<Section>, scores: map<string, Entry>)
    ensures 0.0 <= SectionsScore(sections, scores) <= SectionsMax(sections) as real
  {
    if sections != [] {
      SectionsScoreBounds(sections[..|sections| - 1], scores);
      ItemsScoreBounds(sections[|sections| - 1].items, scores);
    }
  }

  /** The achieved score never leaves `[0, computeMaxScore()]`. */
  lemma TotalScoreBounds(data: Option<Definition>, scores: map<string, Entry>)
    ensures 0.0 <= TotalScore(data, scores) <= MaxScore(data) as real
  {
    if data.Some? {
      SectionsScoreBounds(data.value.sections, scores);
    }
  }

  /** Full marks exactly when every item carries the reviewer choice "OK". */
  lemma {:induction false} ItemsScoreFull(items: seq<Item>, scores: map<string, Entry>)
    ensures ItemsScore(items, scores) == ItemsMax(items) as real
        <==> forall k :: 0 <= k < |items| ==> ReviewerChoice(scores, items[k].code) == Some("OK")
  {
    if items != [] {
      var init := items[..|items| - 1];
      ItemsScoreFull(init, scores);
      ItemsScoreBounds(init, scores);
      assert forall k :: 0 <= k < |init| ==> init[k] == items[k];
    }
  }

  lemma {:induction false} ItemsMaxBounds(items: seq<Item>)
    ensures |items| <= ItemsMax(items) <= 2 * |items|
  {
    if items != [] {
      ItemsMaxBounds(items[..|items| - 1]);
    }
  }

  lemma {:induction false} SectionsMaxBounds(sections: seq<Section>)
    ensures ItemCount(sections) <= SectionsMax(sections) <= 2 * ItemCount(sections)
  {
    if sections != [] {
      SectionsMaxBounds(sections[..|sections| - 1]);
      ItemsMaxBounds(sections[|sections| - 1].items);
    }
  }

  /** Every item weighs 1 or 2, so the maximum lies between one and two points per item. */
  lemma MaxScoreBounds(data: Option<Definition>)
    ensures TotalItems(data) <= MaxScore(data) <= 2 * TotalItems(data)
    ensures MaxScore(data) > 0 <==> TotalItems(data) > 0
  {
    if data.Some? {
      SectionsMaxBounds(data.value.sections);
    }
  }

  /** Stores that agree on every reviewer choice give the same items score. */
  lemma {:induction false} ItemsScoreReadsReviewerChoices(items: seq<Item>, s1: map<string, Entry>, s2: map<string, Entry>)
    requires forall code :: ReviewerChoice(s1, code) == ReviewerChoice(s2, code)
    ensures ItemsScore(items, s1) == ItemsScore(items, s2)
  {
    if items != [] {
      ItemsScoreReadsReviewerChoices(items[..|items| - 1], s1, s2);
    }
  }

  lemma {:induction false} SectionsScoreReadsReviewerChoices(sections: seq<Section>, s1: map<string, Entry>, s2: map<string, Entry>)
    requires forall code :: ReviewerChoice(s1, code) == ReviewerChoice(s2, code)
    ensures SectionsScore(sections, s1) == SectionsScore(sections, s2)
  {
    if sections != [] {
      SectionsScoreReadsReviewerChoices(sections[..|sections| - 1], s1, s2);
      ItemsScoreReadsReviewerChoices(sections[|sections| - 1].items, s1, s2);
    }
  }

  /** The total score depends on the stored responses only through the reviewer choices. */
  lemma TotalScoreReadsReviewerChoices(data: Option<Definition>, s1: map<string, Entry>, s2: map<string, Entry>)
    requires forall code :: ReviewerChoice(s1, code) == ReviewerChoice(s2, code)
    ensures TotalScore(data, s1) == TotalScore(data, s2)
  {
    if data.Some? {
      SectionsScoreReadsReviewerChoices(data.value.sections, s1, s2);
    }
  }

  /** An author's answer never changes the score. */
  lemma AuthorAnswerKeepsScore(data: Option<Definition>, scores: map<string, Entry>, code: string, choice: string)
    ensures TotalScore(data, scores[code := WithChoice(Lookup(scores, code), Author, choice)])
         == TotalScore(data, scores)
  {
    var updated := scores[code := WithChoice(Lookup(scores, code), Author, choice)];
    forall c ensures ReviewerChoice(updated, c) == ReviewerChoice(scores, c) {
      RecordingSetsOnlyOneField(scores, code, Author, choice, c);
    }
    TotalScoreReadsReviewerChoices(data, updated, scores);
  }

  /** Legacy migration never changes the score. */
  lemma MigrationKeepsScore(data: Option<Definition>, scores: map<string, Entry>)
    ensures TotalScore(data, MigratedScores(scores)) == TotalScore(data, scores)
  {
    forall c ensures ReviewerChoice(MigratedScores(scores), c) == ReviewerChoice(scores, c) {
      MigrationPreservesChoices(scores, c);
    }
    TotalScoreReadsReviewerChoices(data, MigratedScores(scores), scores);
  }

  /** With nothing answered (or reset) the score is 0. */
  lemma EmptyStoreScoresZero(data: Option<Definition>)
    ensures TotalScore(data, map[]) == 0.0
  {
    if data.Some? {
      EmptySectionsScoreZero(data.value.sections);
    }
  }

  lemma {:induction false} EmptySectionsScoreZero(sections: seq<Section>)
    ensures SectionsScore(sections, map[]) == 0.0
  {
    if sections != [] {
      EmptySectionsScoreZero(sections[..|sections| - 1]);
      EmptyItemsScoreZero(sections[|sections| - 1].items);
    }
  }

  lemma {:induction false} EmptyItemsScoreZero(items: seq<Item>)
    ensures ItemsScore(items, map[]) == 0.0
  {
    if items != [] {
      EmptyItemsScoreZero(items[..|items| - 1]);
    }
  }

  /**
   * One high-priority item "A1" answered "OK" and one low-priority item "A2"
   * answered "mR" score 2.5 out of 3.
   */
  lemma TwoItemExample()
    ensures var data := Some(Definition([Section("A", [Item("A1", "high"), Item("A2", "low")])]));
      var scores := map["A1" := Record(None, Some("OK")), "A2" := Record(None, Some("mR"))];
      TotalScore(data, scores) == 2.5 && MaxScore(data) == 3
  {
    var items := [Item("A1", "high"), Item("A2", "low")];
    var sections := [Section("A", items)];
    var scores := map["A1" := Record(None, Some("OK")), "A2" := Record(None, Some("mR"))];
    assert items[..1] == [Item("A1", "high")];
    assert items[..1][..0] == [];
    assert sections[..0] == [];
    assert ItemScore(Item("A1", "high"), scores) == 2.0;
    assert ItemScore(Item("A2", "low"), scores) == 0.5;
    assert ItemsScore(items, scores) == 2.5;
    assert SectionsScore(sections, scores) == 2.5;
    assert ItemsMax(items) == 3;
    assert SectionsMax(sections) == 3;
  }
}
