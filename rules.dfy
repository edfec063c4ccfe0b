/**
 * Branch rules and the first-match search over them (`matchRule`).
 *
 * Regular expressions are not modelled: an `Engine` supplies the two
 * operations the search needs, compiling a pattern (None when `new RegExp`
 * throws) and testing a compiled expression against the branch name.
 */
module Rules {
  import opened Wrappers

  /** A colour value as read from the settings; None is an absent property. */
  type Field = Option<string>

  /** One entry of `branchHighlighter.rules`. */
  datatype Rule = Rule(
    pattern: Option<string>,
    bg: Field,
    fg: Field,
    statusBg: Field,
    statusFg: Field,
    titleBarBg: Field,
    titleBarFg: Field)

  /** The host's regular-expression engine, left abstract. */
  datatype Engine<!Re> = Engine(compile: string -> Option<Re>, test: (Re, string) -> bool)

  /** The source `new RegExp` compiles for a rule: a missing `pattern`
      property is `undefined`, which RegExp reads as the empty pattern. */
  function PatternSource(r: Rule): string {
    r.pattern.GetOr("")
  }

  /** Rule `r` governs `branch`: its pattern compiles and the compiled
      expression accepts the branch name. */
  predicate Matches<Re>(e: Engine<Re>, r: Rule, branch: string) {
    match e.compile(PatternSource(r))
    case None => false
    case Some(re) => e.test(re, branch)
  }

  /** No rule among `rules[..k]` governs `branch`. */
  predicate NoneMatchBefore<Re>(e: Engine<Re>, branch: string, rules: seq<Rule>, k: nat)
    requires k <= |rules|
  {
    forall j | 0 <= j < k :: !Matches(e, rules[j], branch)
  }

  /** The rule `matchRule` selects: the first one, in list order, that matches. */
  function FirstMatch<Re>(e: Engine<Re>, branch: string, rules: seq<Rule>): (r: Option<Rule>)
    ensures r.None? <==> NoneMatchBefore(e, branch, rules, |rules|)
    ensures r.Some? ==>
      exists k | 0 <= k < |rules| ::
        rules[k] == r.value && Matches(e, rules[k], branch) && NoneMatchBefore(e, branch, rules, k)
  {
    if |rules| == 0 then None
    else if Matches(e, rules[0], branch) then
      assert NoneMatchBefore(e, branch, rules, 0);
      Some(rules[0])
    else
      var rest := FirstMatch(e, branch, rules[1..]);
      if rest.Some? then
        var k :| 0 <= k < |rules| - 1 && rules[1..][k] == rest.value
          && Matches(e, rules[1..][k], branch) && NoneMatchBefore(e, branch, rules[1..], k);
        assert rules[k + 1] == rest.value && Matches(e, rules[k + 1], branch);
        assert NoneMatchBefore(e, branch, rules, k + 1);
        rest
      else
        assert forall j | 1 <= j < |rules| :: rules[j] == rules[1..][j - 1];
        rest
  }

  /** The search is determined by the first matching index: if rule `k`
      matches and no earlier one does, `rules[k]` is the result. */
  lemma FirstMatchAt<Re>(e: Engine<Re>, branch: string, rules: seq<Rule>, k: nat)
    requires k < |rules| && Matches(e, rules[k], branch)
    requires NoneMatchBefore(e, branch, rules, k)
    ensures FirstMatch(e, branch, rules) == Some(rules[k])
  {
  }

  /** Whatever the search returns is an element of the list. */
  lemma FirstMatchIsMember<Re>(e: Engine<Re>, branch: string, rules: seq<Rule>)
    ensures FirstMatch(e, branch, rules).Some? ==> FirstMatch(e, branch, rules).value in rules
  {
  }

  /** Searching a concatenation searches the second part only when the first
      part has no match. */
  lemma {:induction false} FirstMatchAppend<Re>(e: Engine<Re>, branch: string, a: seq<Rule>, b: seq<Rule>)
    ensures FirstMatch(e, branch, a + b) ==
      if FirstMatch(e, branch, a).Some? then FirstMatch(e, branch, a) else FirstMatch(e, branch, b)
  {
    if |a| > 0 {
      assert (a + b)[0] == a[0];
      assert (a + b)[1..] == a[1..] + b;
      FirstMatchAppend(e, branch, a[1..], b);
    } else {
      assert a + b == b;
    }
  }

  /** A rule whose pattern does not compile is skipped wherever it sits: it
      neither is selected nor stops the search of the rules after it. */
  lemma {:induction false} InvalidRuleSkipped<Re>(e: Engine<Re>, branch: string, a: seq<Rule>, bad: Rule, b: seq<Rule>)
    requires e.compile(PatternSource(bad)).None?
    ensures FirstMatch(e, branch, a + [bad] + b) == FirstMatch(e, branch, a + b)
  {
    assert a + [bad] + b == a + ([bad] + b);
    FirstMatchAppend(e, branch, a, [bad] + b);
    FirstMatchAppend(e, branch, a, b);
    assert ([bad] + b)[1..] == b;
  }

  /** `matchRule`: walks the rules in order and returns the first one whose
      pattern compiles and matches; patterns that fail to compile are ignored. */
  method MatchRule<Re>(e: Engine<Re>, branch: string, rules: seq<Rule>) returns (r: Option<Rule>)
    ensures r == FirstMatch(e, branch, rules)
  {
    for i := 0 to |rules|
      invariant NoneMatchBefore(e, branch, rules, i)
    {
      var compiled := e.compile(PatternSource(rules[i]));
      if compiled.Some? && e.test(compiled.value, branch) {
        FirstMatchAt(e, branch, rules, i);
        return Some(rules[i]);
      }
    }
    return None;
  }
}
