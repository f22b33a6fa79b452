/** views/Learn.tsx: the practice quiz that asks for the `T-LF` prefix of an item's code, the
    normalised answer check and the streak counter. */
module Learn {
  import opened Text
  import opened Seqs
  import opened Types
  import opened EntryForm

  predicate Configured(r: EncodingRule) {
    r.code != ""
  }

  /** `rules.filter(r => r.code)`: the rules with a code, in table order. */
  function ConfiguredRules(rules: seq<EncodingRule>): (r: seq<EncodingRule>)
    ensures IsSubseq(r, rules)
    ensures forall x :: x in r <==> x in rules && x.code != ""
    ensures forall x: EncodingRule :: x.code != "" ==> multiset(r)[x] == multiset(rules)[x]
  {
    FilterIsSubseq(rules, Configured);
    FilterMultiplicity(rules, Configured);
    Filter(rules, Configured)
  }

  datatype Question = Question(catLabel: string, locLabel: string, floor: string, answer: string)

  datatype Feedback = Correct | Incorrect

  /** The expected answer: category code, `-`, location code, floor digit. */
  function QuizAnswer(catCode: string, locCode: string, floor: string): string {
    catCode + "-" + locCode + floor
  }

  /** The quiz floors "0".."4". */
  function QuizFloor(floorPick: nat): (f: string)
    requires floorPick < 5
    ensures f in ["0", "1", "2", "3", "4"]
  {
    [DigitChar(floorPick)]
  }

  /** generateQuestion. `catPick`, `locPick` and `floorPick` stand for the three
      `Math.floor(Math.random() * n)` draws; there is no question unless both lists have a
      configured rule. */
  function NextQuestion(cats: seq<EncodingRule>, locs: seq<EncodingRule>, catPick: nat, locPick: nat, floorPick: nat)
    : (q: Option<Question>)
    requires floorPick < 5
    requires |ConfiguredRules(cats)| > 0 && |ConfiguredRules(locs)| > 0 ==>
      catPick < |ConfiguredRules(cats)| && locPick < |ConfiguredRules(locs)|
    ensures q.None? <==> (forall c :: c in cats ==> c.code == "") || (forall l :: l in locs ==> l.code == "")
    ensures q.Some? ==>
      && q.value.floor in ["0", "1", "2", "3", "4"]
      && exists c, l :: c in cats && c.code != "" && l in locs && l.code != "" &&
           q.value == Question(c.labelText, l.labelText, q.value.floor, QuizAnswer(c.code, l.code, q.value.floor))
  {
    var cs, ls := ConfiguredRules(cats), ConfiguredRules(locs);
    if |cs| == 0 || |ls| == 0 then
      assert forall c :: c in cats ==> c.code == "" || c in cs;
      assert forall l :: l in locs ==> l.code == "" || l in ls;
      None
    else
      var c, l, f := cs[catPick], ls[locPick], QuizFloor(floorPick);
      assert c in cs && l in ls;
      Some(Question(c.labelText, l.labelText, f, QuizAnswer(c.code, l.code, f)))
  }

  /** checkAnswer's comparison: the input upper-cased, then trimmed, equals the answer. */
  predicate AnswerAccepted(input: string, answer: string) {
    Trim(Upper(input)) == answer
  }

  /** The check forgives case and surrounding whitespace: any input that upper-cases to the
      answer, padded with whitespace on either side, is accepted, provided the answer itself
      neither begins nor ends with whitespace. */
  lemma PaddedAnswerAccepted(w1: string, typed: string, w2: string, answer: string)
    requires AllWhitespace(w1) && AllWhitespace(w2) && Upper(typed) == answer
    requires |answer| > 0 && !IsWhitespace(answer[0]) && !IsWhitespace(answer[|answer| - 1])
    ensures AnswerAccepted(w1 + typed + w2, answer)
  {
    UpperAppend(w1 + typed, w2);
    UpperAppend(w1, typed);
    UpperOfWhitespace(w1);
    UpperOfWhitespace(w2);
    TrimPadding(w1, answer, w2);
  }

  /** An answer that begins or ends with whitespace, as one built from a code " " does, is
      never accepted, whatever is typed. */
  lemma BlankEdgedAnswerRejected(input: string, answer: string)
    requires |answer| > 0 && (IsWhitespace(answer[0]) || IsWhitespace(answer[|answer| - 1]))
    ensures !AnswerAccepted(input, answer)
  {
    TrimmedEnds(Upper(input));
  }

  /** The expected answer is the `T-LF` prefix of the code the entry form composes from the
      same rule codes and floor. */
  lemma AnswerIsCodePrefix(catCode: string, locCode: string, floor: string, timeCode: string, personCode: string)
    ensures ComposeCode(catCode, locCode, floor, timeCode, personCode)
      == QuizAnswer(catCode, locCode, floor) + "-" + timeCode + "-" + personCode
  {
  }

  /** The quiz draws floor "0" for any location, which the entry form offers only outdoors,
      and never floor "5", which the form offers indoors. */
  lemma QuizFloorsDifferFromForm(locId: string)
    requires !IsOutdoor(locId)
    ensures QuizFloor(0) !in Floors(locId)
    ensures "5" in Floors(locId) && forall k :: 0 <= k < 5 ==> QuizFloor(k) != "5"
  {
  }

  /** `hasConfig`: at least one category, and at least one location with a code. */
  predicate HasConfig(g: GlobalState) {
    |g.categories| > 0 && exists l :: l in g.locations && l.code != ""
  }

  /** hasConfig asks only for a category to exist, not for one with a code: with every
      category code empty the quiz screen shows but no question is ever generated. */
  lemma ConfigShownWithoutQuestion(g: GlobalState, l: EncodingRule, catPick: nat, locPick: nat, floorPick: nat)
    requires |g.categories| > 0 && forall c :: c in g.categories ==> c.code == ""
    requires l in g.locations && l.code != "" && floorPick < 5
    ensures HasConfig(g)
    ensures ConfiguredRules(g.categories) == []
    ensures NextQuestion(g.categories, g.locations, catPick, locPick, floorPick).None?
  {
    var cs := ConfiguredRules(g.categories);
    assert forall k :: 0 <= k < |cs| ==> cs[k] in cs;
  }

  /** The quiz view's own state. */
  class Quiz {
    var question: Option<Question>
    var userAnswer: string
    var feedback: Option<Feedback>
    var streak: nat

    constructor()
      ensures question == None && userAnswer == "" && feedback == None && streak == 0
    {
      question, userAnswer, feedback, streak := None, "", None, 0;
    }

    /** generateQuestion: a new question clears the input and the feedback and keeps the
        streak; without configured rules nothing changes. */
    method GenerateQuestion(g: GlobalState, catPick: nat, locPick: nat, floorPick: nat)
      requires floorPick < 5
      requires |ConfiguredRules(g.categories)| > 0 && |ConfiguredRules(g.locations)| > 0 ==>
        catPick < |ConfiguredRules(g.categories)| && locPick < |ConfiguredRules(g.locations)|
      modifies this`question, this`userAnswer, this`feedback
      ensures var q := NextQuestion(g.categories, g.locations, catPick, locPick, floorPick);
        && (q.None? ==> question == old(question) && userAnswer == old(userAnswer) && feedback == old(feedback))
        && (q.Some? ==> question == q && userAnswer == "" && feedback == None)
    {
      var q := NextQuestion(g.categories, g.locations, catPick, locPick, floorPick);
      if q.Some? {
        question := q;
        userAnswer := "";
        feedback := None;
      }
    }

    method SetUserAnswer(value: string)
      modifies this`userAnswer
      ensures userAnswer == value
    {
      userAnswer := value;
    }

    /** checkAnswer: a correct answer extends the streak by one, a wrong one resets it. */
    method CheckAnswer()
      modifies this`feedback, this`streak
      ensures old(question).None? ==> feedback == old(feedback) && streak == old(streak)
      ensures old(question).Some? ==>
        && (feedback == Some(Correct) <==> AnswerAccepted(userAnswer, question.value.answer))
        && (feedback == Some(Incorrect) <==> !AnswerAccepted(userAnswer, question.value.answer))
        && streak == (if feedback == Some(Correct) then old(streak) + 1 else 0)
    {
      if question.None? {
        return;
      }
      if AnswerAccepted(userAnswer, question.value.answer) {
        feedback := Some(Correct);
        streak := streak + 1;
      } else {
        feedback := Some(Incorrect);
        streak := 0;
      }
    }
  }
}
