// The sentiment classification pass of the analysis endpoint: every comment's
// compound polarity score is mapped to one of three labels by two fixed,
// inclusive thresholds, the labels are tallied, and an ordered list of
// (comment, label) pairs is built.
//
// The lexicon-based scorer is not modelled; it enters as a total function
// from the comment text to its compound score.
module Sentiment {

  /** The three labels, named as in the response's "sentimientos" object. */
  datatype Label = Positivo | Neutral | Negativo

  /** One entry of "lista_comentarios": the comment text and its label. */
  datatype Classified = Classified(comentario: string, sentimiento: Label)

  /** The external compound scorer: deterministic, no side effects. */
  type Scorer = string -> real

  const PositiveThreshold: real := 0.05
  const NegativeThreshold: real := -0.05

  /** Label of a compound score; both thresholds belong to their polar label. */
  function LabelOf(score: real): (l: Label)
    ensures l == Positivo <==> score >= PositiveThreshold
    ensures l == Negativo <==> score <= NegativeThreshold
    ensures l == Neutral <==> NegativeThreshold < score < PositiveThreshold
  {
    if score >= PositiveThreshold then Positivo
    else if score <= NegativeThreshold then Negativo
    else Neutral
  }

  /** Position of a label on the polarity scale, most negative first. */
  function Rank(l: Label): nat
  {
    match l
    case Negativo => 0
    case Neutral => 1
    case Positivo => 2
  }

  /** A higher score never receives a more negative label. */
  lemma LabelMonotone(s1: real, s2: real)
    requires s1 <= s2
    ensures Rank(LabelOf(s1)) <= Rank(LabelOf(s2))
  {
  }

  function Entry(scorer: Scorer, c: string): Classified
  {
    Classified(c, LabelOf(scorer(c)))
  }

  /** The classified list: same length and order as the input, each comment
      kept unchanged beside its own label. */
  function Classify(comments: seq<string>, scorer: Scorer): (r: seq<Classified>)
    ensures |r| == |comments|
    ensures forall i :: 0 <= i < |comments| ==>
              r[i].comentario == comments[i] && r[i].sentimiento == LabelOf(scorer(comments[i]))
  {
    if comments == [] then []
    else Classify(comments[..|comments| - 1], scorer) + [Entry(scorer, comments[|comments| - 1])]
  }

  /** How many of the comments receive label l. */
  function Count(comments: seq<string>, scorer: Scorer, l: Label): nat
  {
    if comments == [] then 0
    else Count(comments[..|comments| - 1], scorer, l)
         + (if LabelOf(scorer(comments[|comments| - 1])) == l then 1 else 0)
  }

  /** The counts map: exactly the three labels, each with its own count. */
  function Tally(comments: seq<string>, scorer: Scorer): map<Label, nat>
  {
    map[Positivo := Count(comments, scorer, Positivo),
        Neutral := Count(comments, scorer, Neutral),
        Negativo := Count(comments, scorer, Negativo)]
  }

  /** Independent reference for Count: the positions whose comment has label l. */
  ghost function Positions(comments: seq<string>, scorer: Scorer, l: Label): set<nat>
  {
    set i: nat | i < |comments| && LabelOf(scorer(comments[i])) == l
  }

  lemma {:induction false} CountIsPositions(comments: seq<string>, scorer: Scorer, l: Label)
    ensures Count(comments, scorer, l) == |Positions(comments, scorer, l)|
    decreases |comments|
  {
    if comments != [] {
      var n := |comments| - 1;
      var front := comments[..n];
      CountIsPositions(front, scorer, l);
      var tail := if LabelOf(scorer(comments[n])) == l then {n} else {};
      assert Positions(comments, scorer, l) == Positions(front, scorer, l) + tail by {
        forall i: nat | i < n ensures front[i] == comments[i] { }
      }
      assert n !in Positions(front, scorer, l);
    }
  }

  /** Counting distributes over concatenation of comment lists. */
  lemma {:induction false} CountAppend(a: seq<string>, b: seq<string>, scorer: Scorer, l: Label)
    ensures Count(a + b, scorer, l) == Count(a, scorer, l) + Count(b, scorer, l)
    decreases |b|
  {
    if b == [] {
      assert a + b == a;
    } else {
      var n := |b| - 1;
      CountAppend(a, b[..n], scorer, l);
      assert (a + b)[..|a + b| - 1] == a + b[..n];
    }
  }

  /** Each comment increments exactly one count: the one of its own label. */
  lemma OneMoreComment(comments: seq<string>, c: string, scorer: Scorer)
    ensures forall l :: Count(comments + [c], scorer, l)
                        == Count(comments, scorer, l) + (if LabelOf(scorer(c)) == l then 1 else 0)
  {
    forall l: Label
      ensures Count(comments + [c], scorer, l)
              == Count(comments, scorer, l) + (if LabelOf(scorer(c)) == l then 1 else 0)
    {
      CountAppend(comments, [c], scorer, l);
      assert [c][..0] == [];
    }
  }

  /** The three counts add up to the number of comments. */
  lemma {:induction false} CountsSum(comments: seq<string>, scorer: Scorer)
    ensures Count(comments, scorer, Positivo) + Count(comments, scorer, Neutral)
            + Count(comments, scorer, Negativo) == |comments|
    decreases |comments|
  {
    if comments != [] {
      CountsSum(comments[..|comments| - 1], scorer);
    }
  }

  /** The count of a label is the number of classified entries carrying it. */
  lemma CountMatchesList(comments: seq<string>, scorer: Scorer, l: Label)
    ensures Count(comments, scorer, l)
            == |set i: nat | i < |comments| && Classify(comments, scorer)[i].sentimiento == l|
  {
    CountIsPositions(comments, scorer, l);
    var cs := Classify(comments, scorer);
    assert (set i: nat | i < |comments| && cs[i].sentimiento == l) == Positions(comments, scorer, l);
  }

  /** analizar_sentimientos_vader: one pass over the comments that bumps the
      count of each comment's label and appends the comment with its label. */
  method Analyze(comments: seq<string>, scorer: Scorer)
    returns (counts: map<Label, nat>, classified: seq<Classified>)
    ensures counts.Keys == {Positivo, Neutral, Negativo}
    ensures counts == Tally(comments, scorer)
    ensures counts[Positivo] + counts[Neutral] + counts[Negativo] == |comments|
    ensures classified == Classify(comments, scorer)
  {
    counts := map[Positivo := 0, Neutral := 0, Negativo := 0];
    classified := [];
    for i := 0 to |comments|
      invariant counts == Tally(comments[..i], scorer)
      invariant classified == Classify(comments[..i], scorer)
    {
      var comentario := comments[i];
      var score := scorer(comentario);
      var sentimiento := Neutral;
      if score >= PositiveThreshold {
        sentimiento := Positivo;
        counts := counts[Positivo := counts[Positivo] + 1];
      } else if score <= NegativeThreshold {
        sentimiento := Negativo;
        counts := counts[Negativo := counts[Negativo] + 1];
      } else {
        counts := counts[Neutral := counts[Neutral] + 1];
      }
      classified := classified + [Classified(comentario, sentimiento)];
      assert comments[..i + 1] == comments[..i] + [comentario];
      OneMoreComment(comments[..i], comentario, scorer);
    }
    assert comments[..|comments|] == comments;
    CountsSum(comments, scorer);
  }

  /** Scores of the three-comment scenario: 0.6, -0.6 and 0.0. */
  function ScenarioScore(c: string): real
  {
    if c == "I love this!" then 0.6 else if c == "I hate this." then -0.6 else 0.0
  }

  /** Three comments scored 0.6, -0.6 and 0.0 get one label each, in order. */
  lemma ThreeCommentScenario()
    ensures var comments := ["I love this!", "I hate this.", "It's ok."];
            Tally(comments, ScenarioScore) == map[Positivo := 1, Neutral := 1, Negativo := 1]
            && Classify(comments, ScenarioScore) == [Classified("I love this!", Positivo),
                                                     Classified("I hate this.", Negativo),
                                                     Classified("It's ok.", Neutral)]
  {
    var comments := ["I love this!", "I hate this.", "It's ok."];
    assert comments[..2] == ["I love this!", "I hate this."];
    assert comments[..2][..1] == ["I love this!"];
    assert comments[..2][..1][..0] == [];
    assert ScenarioScore(comments[2]) == 0.0 by {
      assert comments[2][1] != "I love this!"[1];
      assert comments[2][1] != "I hate this."[1];
    }
    assert LabelOf(ScenarioScore(comments[0])) == Positivo;
    assert LabelOf(ScenarioScore(comments[1])) == Negativo;
    assert LabelOf(ScenarioScore(comments[2])) == Neutral;
    forall l: Label
      ensures Count(comments, ScenarioScore, l) == 1
    {
      assert Count(comments[..2][..1], ScenarioScore, l) == if l == Positivo then 1 else 0;
      assert Count(comments[..2], ScenarioScore, l) == if l == Neutral then 0 else 1;
    }
  }
}
