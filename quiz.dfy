/**
 * The personalisation quiz: three questions whose answers are tag lists, a tag-match score
 * per destination, and the six best-scoring destinations as recommendations.
 */
module Quiz {
  import opened Wrappers
  import opened Strings
  import opened Seqs
  import Sorting
  import opened Catalog

  const QuestionIds: seq<string> := ["terrain", "activity", "budget"]
  const MaxRecommendations: nat := 6

  /** Some tag occurs in `text`, ignoring case. */
  predicate MentionsSomeTag(text: string, tags: seq<string>) {
    exists k :: 0 <= k < |tags| && Includes(ToLower(text), ToLower(tags[k]))
  }

  /** How many of `types` mention some tag. */
  function TypeHits(types: seq<string>, tags: seq<string>): (n: nat)
    ensures n <= |types|
    ensures tags == [] ==> n == 0
  {
    if types == [] then 0
    else TypeHits(types[..|types| - 1], tags) + (if MentionsSomeTag(types[|types| - 1], tags) then 1 else 0)
  }

  /** The quiz score of `d`: 2 per matching travel type, 3 for a matching category, 2 for the budget level. */
  function Score(d: Destination, tags: seq<string>): (s: nat)
    ensures s <= 2 * |d.travelType| + 5
    ensures tags == [] ==> s == 0
  {
    2 * TypeHits(d.travelType, tags)
      + (if MentionsSomeTag(d.category, tags) then 3 else 0)
      + (if d.budgetLevel in tags then 2 else 0)
  }

  /** The scoring loop: a running total over the travel types, then the category and budget bonuses. */
  method ComputeScore(d: Destination, tags: seq<string>) returns (score: nat)
    ensures score == Score(d, tags)
  {
    score := 0;
    var i := 0;
    while i < |d.travelType|
      invariant 0 <= i <= |d.travelType|
      invariant score == 2 * TypeHits(d.travelType[..i], tags)
    {
      var t := d.travelType[i];
      assert d.travelType[..i + 1][..i] == d.travelType[..i];
      if exists k :: 0 <= k < |tags| && Includes(ToLower(t), ToLower(tags[k])) {
        score := score + 2;
      }
      i := i + 1;
    }
    assert d.travelType[..i] == d.travelType;
    if exists k :: 0 <= k < |tags| && Includes(ToLower(d.category), ToLower(tags[k])) {
      score := score + 3;
    }
    if d.budgetLevel in tags {
      score := score + 2;
    }
  }

  /** The sort comparator `b.score - a.score` as a relation: `a` may stay ahead of `b`. */
  function ByScore(tags: seq<string>): (before: (Destination, Destination) -> bool)
    ensures forall a: Destination, b: Destination :: Score(a, tags) > Score(b, tags) ==> before(a, b) && !before(b, a)
    ensures forall a: Destination, b: Destination :: Score(a, tags) == Score(b, tags) ==> before(a, b) && before(b, a)
  {
    (a: Destination, b: Destination) => Score(b, tags) <= Score(a, tags)
  }

  lemma ByScoreIsTotalPreorder(tags: seq<string>)
    ensures Sorting.TotalPreorder(ByScore(tags))
  {
  }

  /** The catalog ordered by score, best first, ties in catalog order. */
  function Ranked(catalog: seq<Destination>, tags: seq<string>): (r: seq<Destination>)
    ensures multiset(r) == multiset(catalog)
    ensures forall i, j :: 0 <= i < j < |r| ==> Score(r[i], tags) >= Score(r[j], tags)
  {
    ByScoreIsTotalPreorder(tags);
    Sorting.SortSorted(catalog, ByScore(tags));
    Sorting.Sort(catalog, ByScore(tags))
  }

  /** The first six of the ranking. */
  function Recommend(catalog: seq<Destination>, tags: seq<string>): (r: seq<Destination>)
    ensures |r| == if |catalog| < MaxRecommendations then |catalog| else MaxRecommendations
    ensures forall d :: d in r ==> d in catalog
    ensures forall i, j :: 0 <= i < j < |r| ==> Score(r[i], tags) >= Score(r[j], tags)
  {
    var ranked := Ranked(catalog, tags);
    var r := Take(ranked, MaxRecommendations);
    assert forall d :: d in r ==> d in catalog by {
      forall d | d in r ensures d in catalog {
        assert d in multiset(ranked);
      }
    }
    r
  }

  /** Nothing left out of the recommendations scores higher than anything in them. */
  lemma RecommendIsTop(catalog: seq<Destination>, tags: seq<string>, d: Destination, x: Destination)
    requires d in catalog && d !in Recommend(catalog, tags) && x in Recommend(catalog, tags)
    ensures Score(d, tags) <= Score(x, tags)
  {
    var ranked := Ranked(catalog, tags);
    var r := Recommend(catalog, tags);
    assert d in multiset(ranked);
    var j :| 0 <= j < |ranked| && ranked[j] == d;
    var i :| 0 <= i < |r| && r[i] == x;
    assert ranked[i] == x;
    if j < |r| {
      assert r[j] == d;
    }
  }

  /** Equal scores keep catalog order: the ranking is stable. */
  lemma RankedIsStable(catalog: seq<Destination>, tags: seq<string>, d: Destination)
    ensures Sorting.Equivalents(Ranked(catalog, tags), ByScore(tags), d)
         == Sorting.Equivalents(catalog, ByScore(tags), d)
  {
    ByScoreIsTotalPreorder(tags);
    Sorting.SortStable(catalog, ByScore(tags), d);
  }

  /** `{ ...answers, [id]: tags }` on an insertion-ordered record of answers. */
  function RecordAnswer(answers: seq<(string, seq<string>)>, id: string, tags: seq<string>): (r: seq<(string, seq<string>)>)
    ensures |r| == |answers| || |r| == |answers| + 1
    ensures Lookup(r, id) == Some(tags)
    ensures forall other :: other != id ==> Lookup(r, other) == Lookup(answers, other)
  {
    if answers == [] then [(id, tags)]
    else if answers[0].0 == id then [(id, tags)] + answers[1..]
    else [answers[0]] + RecordAnswer(answers[1..], id, tags)
  }

  /** The value recorded under `id`, if any. */
  function Lookup(answers: seq<(string, seq<string>)>, id: string): Option<seq<string>> {
    if answers == [] then None
    else if answers[0].0 == id then Some(answers[0].1)
    else Lookup(answers[1..], id)
  }

  /** `Object.values(answers).flat()`. */
  function AllTags(answers: seq<(string, seq<string>)>): (tags: seq<string>)
    ensures forall k :: 0 <= k < |answers| ==> forall t :: t in answers[k].1 ==> t in tags
  {
    if answers == [] then []
    else answers[0].1 + AllTags(answers[1..])
  }

  class QuizState {
    const catalog: seq<Destination>
    var currentQuestion: nat
    var answers: seq<(string, seq<string>)>
    var recommendations: seq<Destination>
    var showResults: bool

    ghost predicate Valid()
      reads this
    {
      currentQuestion < |QuestionIds|
    }

    constructor(catalog: seq<Destination>)
      ensures Valid()
      ensures this.catalog == catalog
      ensures currentQuestion == 0 && answers == [] && recommendations == [] && !showResults
    {
      this.catalog := catalog;
      currentQuestion := 0;
      answers := [];
      recommendations := [];
      showResults := false;
    }

    /** Records the answer; before the last question it moves on, on the last it shows the recommendations. */
    method HandleAnswer(questionId: string, tags: seq<string>)
      requires Valid()
      modifies this
      ensures Valid()
      ensures answers == RecordAnswer(old(answers), questionId, tags)
      ensures old(currentQuestion) < |QuestionIds| - 1 ==>
        currentQuestion == old(currentQuestion) + 1
        && recommendations == old(recommendations) && showResults == old(showResults)
      ensures old(currentQuestion) == |QuestionIds| - 1 ==>
        currentQuestion == old(currentQuestion)
        && recommendations == Recommend(catalog, AllTags(answers)) && showResults
    {
      answers := RecordAnswer(answers, questionId, tags);
      if currentQuestion < |QuestionIds| - 1 {
        currentQuestion := currentQuestion + 1;
      } else {
        recommendations := Recommend(catalog, AllTags(answers));
        showResults := true;
      }
    }

    method Reset()
      modifies this
      ensures Valid()
      ensures currentQuestion == 0 && answers == [] && recommendations == [] && !showResults
    {
      currentQuestion := 0;
      answers := [];
      recommendations := [];
      showResults := false;
    }
  }
}
