/** Shadow comparisons of mined rules and the promotion or demotion each one causes. */
module Lifecycle {

  const STREAK_LIMIT := 100

  datatype RuleState = Active | Shadow | Demoted

  datatype Rule = Rule(state: RuleState, enabled: bool)

  datatype Event = Event(rule: string, agreed: bool, tools: seq<string>)

  /** The comparisons of one rule, oldest first. */
  function History(events: seq<Event>, rule: string): seq<bool> {
    if events == [] then []
    else
      var front := History(events[..|events| - 1], rule);
      var e := events[|events| - 1];
      if e.rule == rule then front + [e.agreed] else front
  }

  /** Length of the agreeing end of a history. */
  function Suffix(h: seq<bool>): nat {
    if h == [] || !h[|h| - 1] then 0 else 1 + Suffix(h[..|h| - 1])
  }

  /** ORDER BY id DESC LIMIT n. */
  function Newest(h: seq<bool>, n: nat): (rows: seq<bool>)
    ensures |rows| == if |h| < n then |h| else n
    ensures forall i :: 0 <= i < |rows| ==> rows[i] == h[|h| - 1 - i]
  {
    if h == [] || n == 0 then [] else [h[|h| - 1]] + Newest(h[..|h| - 1], n - 1)
  }

  function Capped(k: nat): nat {
    if k < STREAK_LIMIT then k else STREAK_LIMIT
  }

  /** The rule's next state after a comparison that is already the last entry of its history. */
  function Evaluated(r: Rule, h: seq<bool>, agreed: bool, bar: int): Rule {
    if !agreed then Rule(Demoted, false)
    else if Capped(Suffix(h)) >= bar then Rule(Active, true)
    else r
  }

  /** UPDATE rules .. WHERE name = ?. */
  function WithRule(rules: map<string, Rule>, name: string, r: Rule): map<string, Rule> {
    if name in rules then rules[name := r] else rules
  }

  lemma {:induction false} SuffixMeaning(h: seq<bool>)
    ensures Suffix(h) <= |h|
    ensures forall i :: |h| - Suffix(h) <= i < |h| ==> h[i]
    ensures Suffix(h) < |h| ==> !h[|h| - Suffix(h) - 1]
  {
    if h != [] && h[|h| - 1] {
      SuffixMeaning(h[..|h| - 1]);
    }
  }

  class ShadowStore {
    var events: seq<Event>
    var rules: map<string, Rule>

    constructor (rules: map<string, Rule>)
      ensures events == [] && this.rules == rules
    {
      this.events := [];
      this.rules := rules;
    }

    method RecordShadow(e: Event)
      modifies this`events
      ensures events == old(events) + [e]
    {
      events := events + [e];
    }

    /** The streak loop: newest first, at most 100 rows, stopping at the first disagreement. */
    method ShadowStreak(rule: string) returns (streak: nat)
      ensures streak == Capped(Suffix(History(events, rule)))
    {
      ghost var h := History(events, rule);
      var rows := Newest(History(events, rule), STREAK_LIMIT);
      SuffixMeaning(h);
      streak := 0;
      for i := 0 to |rows|
        invariant streak == i && i <= Suffix(h)
      {
        if !rows[i] {
          return;
        }
        streak := streak + 1;
      }
    }

    method SetRuleState(rule: string, state: RuleState, enabled: bool)
      modifies this`rules
      ensures rules == WithRule(old(rules), rule, Rule(state, enabled))
    {
      if rule in rules {
        rules := rules[rule := Rule(state, enabled)];
      }
    }

    method EvaluateLifecycle(rule: string, agreed: bool, bar: int)
      modifies this`rules
      ensures rule in old(rules) ==>
                rules == old(rules)[rule := Evaluated(old(rules)[rule], History(events, rule), agreed, bar)]
      ensures rule !in old(rules) ==> rules == old(rules)
    {
      if !agreed {
        SetRuleState(rule, Demoted, false);
        return;
      }
      var streak := ShadowStreak(rule);
      if streak >= bar {
        SetRuleState(rule, Active, true);
      }
    }
  }

  /** A fresh shadow rule after the comparisons `h`, one at a time. */
  function Lifetime(h: seq<bool>, bar: int): Rule {
    if h == [] then Rule(Shadow, true)
    else Evaluated(Lifetime(h[..|h| - 1], bar), h, h[|h| - 1], bar)
  }

  /**
   Closed form: active when the agreeing suffix, counted up to 100, reaches the bar; otherwise
   still shadow if no comparison ever diverged; otherwise demoted and disabled. A bar above 100
   is never reached.
   */
  lemma {:induction false} LifetimeClosedForm(h: seq<bool>, bar: int)
    requires bar >= 1
    ensures Lifetime(h, bar) ==
            if Capped(Suffix(h)) >= bar then Rule(Active, true)
            else if Suffix(h) == |h| then Rule(Shadow, true)
            else Rule(Demoted, false)
    ensures Lifetime(h, bar).state == Active <==> bar <= 100 && Suffix(h) >= bar
  {
    if h != [] {
      LifetimeClosedForm(h[..|h| - 1], bar);
      SuffixMeaning(h[..|h| - 1]);
    }
  }

  /** Any number of stored events, interleaved over rules, leaves each rule where its own history puts it. */
  function Processed(events: seq<Event>, rules: map<string, Rule>, bar: int): map<string, Rule> {
    if events == [] then rules
    else
      var before := Processed(events[..|events| - 1], rules, bar);
      var e := events[|events| - 1];
      if e.rule in before
      then before[e.rule := Evaluated(before[e.rule], History(events, e.rule), e.agreed, bar)] else before
  }

  lemma {:induction false} InterleavedLifetimes(events: seq<Event>, rules: map<string, Rule>, bar: int)
    requires bar >= 1 && forall n :: n in rules ==> rules[n] == Rule(Shadow, true)
    ensures Processed(events, rules, bar).Keys == rules.Keys
    ensures forall n :: n in rules ==> Processed(events, rules, bar)[n] == Lifetime(History(events, n), bar)
  {
    if events != [] {
      var front, e := events[..|events| - 1], events[|events| - 1];
      InterleavedLifetimes(front, rules, bar);
      var h := History(events, e.rule);
      assert h[..|h| - 1] == History(front, e.rule);
    }
  }
}
