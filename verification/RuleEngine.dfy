/** Tier 1 rule evaluation: the first enabled match wins, and the local classifier is consulted
    lazily. */
module RuleEngine {
  import opened Model

  // ----- The simple reading: every condition is a plain predicate -----

  /** A condition holds if it is `always`, or sets at least one field and meets all it sets.
      `category` is the classifier's answer. */
  predicate Holds(c: Condition, m: Message, category: string) {
    || c.always
    || (&& (c.fromDomainIn.Some? || c.fromIn.Some? || c.categoryIn.Some?)
        && (c.fromDomainIn.Some? ==> m.fromDomain in c.fromDomainIn.value)
        && (c.fromIn.Some? ==> m.fromAddress in c.fromIn.value)
        && (c.categoryIn.Some? ==> category in c.categoryIn.value))
  }

  /** Whether deciding the condition takes the classifier's answer. */
  predicate Asks(c: Condition, m: Message) {
    && !c.always && c.categoryIn.Some?
    && (c.fromDomainIn.Some? ==> m.fromDomain in c.fromDomainIn.value)
    && (c.fromIn.Some? ==> m.fromAddress in c.fromIn.value)
  }

  /** Rule `i` is reached: no earlier enabled rule holds. */
  ghost predicate Reached(rules: seq<Rule>, m: Message, category: string, i: nat) {
    i <= |rules| && forall j | 0 <= j < i :: !(rules[j].enabled && Holds(rules[j].when, m, category))
  }

  /** Some reached, enabled condition asks for the classifier. Whatever the answer would be, the
      first such condition is reached without it. */
  ghost predicate Consults(rules: seq<Rule>, m: Message, category: string) {
    exists i: nat :: i < |rules| && rules[i].enabled && Asks(rules[i].when, m) && Reached(rules, m, category, i)
  }

  // ----- Evaluation with the classifier's answer known up front -----

  /** `answer` is what classifying the message gives, if a classifier is configured. */
  function Evaluate(
    m: Message, rules: seq<Rule>, unmatched: Action, answer: Option<Outcome<string>>): Outcome<RuleVerdict>
  {
    if rules == [] then Ok(RuleVerdict(unmatched, None))
    else if !rules[0].enabled then Evaluate(m, rules[1..], unmatched, answer)
    else if Asks(rules[0].when, m) && answer.None? then Raised(NoClassifier)
    else if Asks(rules[0].when, m) && answer.value.Raised? then Raised(answer.value.exn)
    else if Holds(rules[0].when, m, if Asks(rules[0].when, m) then answer.value.value else "")
    then Ok(RuleVerdict(rules[0].action, Some(rules[0].id)))
    else Evaluate(m, rules[1..], unmatched, answer)
  }

  /** `v` is the verdict of the first enabled rule that holds, or of the unmatched default. */
  ghost predicate FirstMatch(
    m: Message, rules: seq<Rule>, unmatched: Action, category: string, v: RuleVerdict)
  {
    || (Reached(rules, m, category, |rules|) && v == RuleVerdict(unmatched, None))
    || exists i: nat :: i < |rules| && rules[i].enabled && Holds(rules[i].when, m, category)
                        && Reached(rules, m, category, i)
                        && v == RuleVerdict(rules[i].action, Some(rules[i].id))
  }

  lemma {:induction false} ReachedTail(rules: seq<Rule>, m: Message, category: string, i: nat)
    requires rules != [] && !(rules[0].enabled && Holds(rules[0].when, m, category))
    ensures Reached(rules[1..], m, category, i) <==> Reached(rules, m, category, i + 1)
  {
    if Reached(rules[1..], m, category, i) {
      forall j | 0 <= j < i + 1 ensures !(rules[j].enabled && Holds(rules[j].when, m, category)) {
        assert j > 0 ==> rules[1..][j - 1] == rules[j];
      }
    }
    if Reached(rules, m, category, i + 1) {
      forall j | 0 <= j < i ensures !(rules[1..][j].enabled && Holds(rules[1..][j].when, m, category)) {
        assert rules[1..][j] == rules[j + 1];
      }
    }
  }

  /** Evaluation is the first match of the simple reading; it fails for want of a classifier
      exactly when one is consulted and none is configured. */
  lemma {:induction false} EvaluateIsFirstMatch(
    m: Message, rules: seq<Rule>, unmatched: Action, answer: Option<Outcome<string>>, category: string)
    requires answer.Some? && answer.value.Ok? ==> category == answer.value.value
    ensures var r := Evaluate(m, rules, unmatched, answer);
            && (r.Ok? ==> FirstMatch(m, rules, unmatched, category, r.value))
            && (r.Raised? <==> Consults(rules, m, category) && (answer.Some? ==> answer.value.Raised?))
            && (r.Raised? ==> r.exn == if answer.None? then NoClassifier else answer.value.exn)
  {
    if rules == [] {
      assert Reached(rules, m, category, |rules|);
    } else {
      var c, tail := rules[0].when, rules[1..];
      assert Reached(rules, m, category, 0);
      if rules[0].enabled && (Asks(c, m) || Holds(c, m, category)) {
        if Asks(c, m) {
          assert Consults(rules, m, category);
        }
      }
      if !(rules[0].enabled && (Holds(c, m, category) || (Asks(c, m) && (answer.None? || answer.value.Raised?)))) {
        EvaluateIsFirstMatch(m, tail, unmatched, answer, category);
        var r := Evaluate(m, tail, unmatched, answer);
        if r.Ok? {
          if Reached(tail, m, category, |tail|) && r.value == RuleVerdict(unmatched, None) {
            ReachedTail(rules, m, category, |tail|);
          } else {
            var i: nat :| i < |tail| && tail[i].enabled && Holds(tail[i].when, m, category)
                        && Reached(tail, m, category, i)
                        && r.value == RuleVerdict(tail[i].action, Some(tail[i].id));
            ReachedTail(rules, m, category, i);
            assert rules[i + 1] == tail[i];
          }
        }
        ConsultsTail(rules, m, category, answer.None? || answer.value.Raised?);
      } else if !Asks(c, m) {
        forall i: nat | i < |rules| && Reached(rules, m, category, i) ensures i == 0 {}
      }
    }
  }

  lemma ConsultsTail(rules: seq<Rule>, m: Message, category: string, unanswered: bool)
    requires rules != [] && !(rules[0].enabled && Holds(rules[0].when, m, category))
    requires unanswered ==> !(rules[0].enabled && Asks(rules[0].when, m))
    ensures unanswered ==> (Consults(rules, m, category) <==> Consults(rules[1..], m, category))
  {
    var tail := rules[1..];
    if Consults(tail, m, category) {
      var i: nat :| i < |tail| && tail[i].enabled && Asks(tail[i].when, m) && Reached(tail, m, category, i);
      ReachedTail(rules, m, category, i);
      assert rules[i + 1] == tail[i];
    }
    if unanswered && Consults(rules, m, category) {
      var i: nat :| i < |rules| && rules[i].enabled && Asks(rules[i].when, m) && Reached(rules, m, category, i);
      ReachedTail(rules, m, category, i - 1);
      assert rules[i] == tail[i - 1];
    }
  }

  // ----- Evaluation as the daemon does it: lazily, with a memo -----

  /** A classifier may answer differently on every call. */
  class Classifier {
    const answers: (nat, Message) -> Outcome<string>
    var calls: nat

    constructor (answers: (nat, Message) -> Outcome<string>)
      ensures this.answers == answers && calls == 0
    {
      this.answers, calls := answers, 0;
    }

    method Classify(m: Message) returns (r: Outcome<string>)
      modifies this
      ensures calls == old(calls) + 1 && r == answers(old(calls), m)
    {
      r := answers(calls, m);
      calls := calls + 1;
    }
  }

  /** The answer of the classifier's next call, if a classifier is configured. */
  function NextAnswer(classifier: Classifier?, m: Message): Option<Outcome<string>>
    reads classifier
  {
    if classifier == null then None else Some(classifier.answers(classifier.calls, m))
  }

  /** The category an answer gives; if there is no usable answer, any category will do. */
  function CategoryOf(answer: Option<Outcome<string>>): string {
    if answer.Some? && answer.value.Ok? then answer.value.value else ""
  }

  /** Rule loop with early return; `memo` holds the classifier's answer once it has been asked.
      The result is that of knowing the answer up front; the classifier is asked once if a reached
      condition needs it, and otherwise not at all. */
  method EvaluateLazily(m: Message, rules: seq<Rule>, unmatched: Action, classifier: Classifier?)
    returns (r: Outcome<RuleVerdict>)
    modifies classifier
    ensures r == Evaluate(m, rules, unmatched, old(NextAnswer(classifier, m)))
    ensures classifier != null ==>
              classifier.calls == old(classifier.calls)
                + if Consults(rules, m, CategoryOf(old(NextAnswer(classifier, m)))) then 1 else 0
  {
    ghost var answer := NextAnswer(classifier, m);
    ghost var category := CategoryOf(answer);
    var memo: Option<string> := None;
    for i := 0 to |rules|
      invariant classifier != null ==>
                  classifier.calls == old(classifier.calls) + if memo.Some? then 1 else 0
      invariant memo.Some? ==> answer == Some(Ok(memo.value)) && Consults(rules, m, category)
      invariant memo.None? ==> forall j | 0 <= j < i :: !(rules[j].enabled && Asks(rules[j].when, m))
      invariant Evaluate(m, rules, unmatched, answer) == Evaluate(m, rules[i..], unmatched, answer)
      invariant Reached(rules, m, category, i)
    {
      var c := rules[i].when;
      assert rules[i..][0] == rules[i] && rules[i..][1..] == rules[i + 1..];
      var matched := false;
      if rules[i].enabled {
        if c.always {
          matched := true;
        } else if c.fromDomainIn.Some? && m.fromDomain !in c.fromDomainIn.value {
        } else if c.fromIn.Some? && m.fromAddress !in c.fromIn.value {
        } else if c.categoryIn.Some? {
          if memo.None? {
            assert Asks(c, m);
            if classifier == null {
              return Raised(NoClassifier);
            }
            var a := classifier.Classify(m);
            if a.Raised? {
              return Raised(a.exn);
            }
            memo := Some(a.value);
          }
          matched := memo.value in c.categoryIn.value;
        } else {
          matched := c.fromDomainIn.Some? || c.fromIn.Some?;
        }
      }
      if matched {
        return Ok(RuleVerdict(rules[i].action, Some(rules[i].id)));
      }
    }
    assert rules[|rules|..] == [];
    r := Ok(RuleVerdict(unmatched, None));
  }
}
