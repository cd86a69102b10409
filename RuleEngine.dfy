/**
 * The rule score of backend/app/engine/rule_engine.py: 1.0 when a rule term
 * occurs in the query or a rule pattern matches it, 0.0 otherwise. Regular
 * expression search is the parameter `search`.
 */
module RuleEngine {
  import opened Wrappers
  import opened Text

  /** One line of a rule file: blank, or a JSON object whose key (`term` or `pattern`) may be missing. */
  datatype RuleLine = Blank | Entry(value: Option<string>)

  /** The lexeme half of `_load_rule_lists`: every present, non-empty `term`. */
  function LoadTerms(lines: seq<RuleLine>): (terms: set<string>)
    ensures forall t :: t in terms <==> t != "" && exists i :: 0 <= i < |lines| && lines[i] == Entry(Some(t))
  {
    if lines == [] then {}
    else
      var init, last := lines[..|lines| - 1], lines[|lines| - 1];
      assert forall i :: 0 <= i < |init| ==> init[i] == lines[i];
      LoadTerms(init) + (if last.Entry? && last.value.Some? && last.value.value != "" then {last.value.value} else {})
  }

  /** The pattern half of `_load_rule_lists`: every present, non-empty `pattern`, in file order. */
  function LoadPatterns(lines: seq<RuleLine>): (patterns: seq<string>)
    ensures forall p :: p in patterns <==> p != "" && exists i :: 0 <= i < |lines| && lines[i] == Entry(Some(p))
  {
    if lines == [] then []
    else
      var init, last := lines[..|lines| - 1], lines[|lines| - 1];
      assert forall i :: 0 <= i < |init| ==> init[i] == lines[i];
      LoadPatterns(init) + (if last.Entry? && last.value.Some? && last.value.value != "" then [last.value.value] else [])
  }

  /** The first loop finds a term: some non-empty term occurs in the query. */
  predicate TermHit(terms: set<string>, query: string) {
    exists t | t in terms :: t != "" && IsSubstring(t, query)
  }

  /** The second loop, in list order, stopping at the first pattern that matches. */
  function AnyPatternMatches(patterns: seq<string>, query: string, search: (string, string) -> bool): (found: bool)
    ensures found <==> exists i :: 0 <= i < |patterns| && search(patterns[i], query)
  {
    if patterns == [] then false
    else if search(patterns[0], query) then true
    else
      var rest := AnyPatternMatches(patterns[1..], query, search);
      assert forall i :: 1 <= i < |patterns| ==> patterns[i] == patterns[1..][i - 1];
      rest
  }

  /** `calculate_rule_score`. */
  function CalculateRuleScore(query: string, terms: set<string>, patterns: seq<string>,
                              search: (string, string) -> bool): (score: real)
    ensures score == 0.0 || score == 1.0
    ensures score == 1.0 <==> TermHit(terms, query) || exists p :: p in patterns && search(p, query)
  {
    if TermHit(terms, query) then 1.0
    else if AnyPatternMatches(patterns, query, search) then 1.0
    else 0.0
  }

  /** An empty term never matches, although `""` occurs in every string. */
  lemma EmptyTermNeverMatches(query: string, terms: set<string>, patterns: seq<string>,
                              search: (string, string) -> bool)
    ensures CalculateRuleScore(query, terms + {""}, patterns, search) == CalculateRuleScore(query, terms - {""}, patterns, search)
  {
    assert TermHit(terms + {""}, query) == TermHit(terms - {""}, query);
  }

  /** More terms or more patterns can only keep or raise the score. */
  lemma ScoreMonotone(query: string, terms: set<string>, moreTerms: set<string>,
                      patterns: seq<string>, morePatterns: seq<string>, search: (string, string) -> bool)
    requires terms <= moreTerms
    requires forall p :: p in patterns ==> p in morePatterns
    ensures CalculateRuleScore(query, terms, patterns, search) <= CalculateRuleScore(query, moreTerms, morePatterns, search)
  {
  }

  /** Loaded rules decide the score: it is 1.0 exactly when a loaded term occurs or a loaded pattern matches. */
  lemma LoadedScore(query: string, lexemeLines: seq<RuleLine>, patternLines: seq<RuleLine>,
                    search: (string, string) -> bool)
    ensures var score := CalculateRuleScore(query, LoadTerms(lexemeLines), LoadPatterns(patternLines), search);
      score == 1.0 <==>
        (exists i :: 0 <= i < |lexemeLines| && lexemeLines[i].Entry? && lexemeLines[i].value.Some?
                     && lexemeLines[i].value.value != "" && IsSubstring(lexemeLines[i].value.value, query))
        || (exists i :: 0 <= i < |patternLines| && patternLines[i].Entry? && patternLines[i].value.Some?
                     && patternLines[i].value.value != "" && search(patternLines[i].value.value, query))
  {
    var terms := LoadTerms(lexemeLines);
    var patterns := LoadPatterns(patternLines);
    if TermHit(terms, query) {
      var t :| t in terms && t != "" && IsSubstring(t, query);
      var i :| 0 <= i < |lexemeLines| && lexemeLines[i] == Entry(Some(t));
    }
    if i :| 0 <= i < |lexemeLines| && lexemeLines[i].Entry? && lexemeLines[i].value.Some?
            && lexemeLines[i].value.value != "" && IsSubstring(lexemeLines[i].value.value, query) {
      assert lexemeLines[i].value.value in terms;
    }
    if i :| 0 <= i < |patternLines| && patternLines[i].Entry? && patternLines[i].value.Some?
            && patternLines[i].value.value != "" && search(patternLines[i].value.value, query) {
      assert patternLines[i].value.value in patterns;
    }
    if p :| p in patterns && search(p, query) {
      var i :| 0 <= i < |patternLines| && patternLines[i] == Entry(Some(p));
    }
  }
}
