/**
 * The retrieval wrapper of backend/app/Domain/retrieval/search_service.py:
 * profanity detection on the query, and the result selection around the
 * vector search. Lower-casing, the query clean-up, regular expression search
 * and the vector search are parameters.
 */
module Retrieval {
  import opened Wrappers
  import opened Text
  import opened Seqs

  /** One context returned by the vector search; a missing key is `None`. */
  datatype Context = Context(score: Option<real>, sourceFile: Option<string>, text: Option<string>)

  /** One entry of the `results` list of the response. */
  datatype SearchResult = SearchResult(score: real, sourceFile: string, chunkText: string)

  /** Article 311 (insult) of the Korean Criminal Act, returned when the search finds nothing. */
  const DefaultStatute: string :=
    "형법 제311조(모욕) 공연히 사람을 모욕한 자는 1년 이하의 징역 또는 200만원 이하의 벌금에 처한다."

  const DefaultResult: SearchResult := SearchResult(1.0, "default", DefaultStatute)

  // ---------------------------------------------------------------------------
  // Profanity detection

  /**
   * A word `detect_profanity` reports: a lexeme occurring in the cleaned query
   * (the empty lexeme always does), or a pattern that `search` finds in it.
   */
  predicate IsHit(w: string, cleanQuery: string, lexemes: seq<string>, patterns: seq<string>,
                  search: (string, string) -> bool) {
    (w in lexemes && IsSubstring(w, cleanQuery)) || (w in patterns && search(w, cleanQuery))
  }

  /** The reported words as a set: the set made by `set(hits)`. */
  function ProfanityHits(query: string, lexemes: seq<string>, patterns: seq<string>,
                         normalize: string -> string, search: (string, string) -> bool): (hits: set<string>)
    ensures forall w :: w in hits <==> IsHit(w, normalize(query), lexemes, patterns, search)
  {
    set w | w in lexemes + patterns && IsHit(w, normalize(query), lexemes, patterns, search)
  }

  /** `detect_profanity`: each reported word once, in no promised order. */
  method DetectProfanity(query: string, lexemes: seq<string>, patterns: seq<string>,
                         normalize: string -> string, search: (string, string) -> bool)
    returns (hits: seq<string>)
    ensures Distinct(hits)
    ensures forall w :: w in hits <==> IsHit(w, normalize(query), lexemes, patterns, search)
  {
    var raw: seq<string> := [];
    var cleanQuery := normalize(query);
    for i := 0 to |lexemes|
      invariant forall w :: w in raw <==> w in lexemes[..i] && IsSubstring(w, cleanQuery)
    {
      assert lexemes[..i + 1] == lexemes[..i] + [lexemes[i]];
      if IsSubstring(lexemes[i], cleanQuery) {
        raw := raw + [lexemes[i]];
      }
    }
    assert lexemes[..|lexemes|] == lexemes;
    for j := 0 to |patterns|
      invariant forall w :: w in raw <==>
        (w in lexemes && IsSubstring(w, cleanQuery)) || (w in patterns[..j] && search(w, cleanQuery))
    {
      assert patterns[..j + 1] == patterns[..j] + [patterns[j]];
      if search(patterns[j], cleanQuery) {
        raw := raw + [patterns[j]];
      }
    }
    assert patterns[..|patterns|] == patterns;
    // `list(set(hits))`
    hits := [];
    for k := 0 to |raw|
      invariant Distinct(hits)
      invariant forall w :: w in hits <==> w in raw[..k]
    {
      assert raw[..k + 1] == raw[..k] + [raw[k]];
      if raw[k] !in hits {
        hits := hits + [raw[k]];
      }
    }
    assert raw[..|raw|] == raw;
  }

  /** A profanity term loaded as the empty string is reported for every query. */
  lemma EmptyLexemeAlwaysHits(query: string, lexemes: seq<string>, patterns: seq<string>,
                              normalize: string -> string, search: (string, string) -> bool)
    requires "" in lexemes
    ensures "" in ProfanityHits(query, lexemes, patterns, normalize, search)
  {
    EmptyIsSubstring(normalize(query));
  }

  // ---------------------------------------------------------------------------
  // Result selection

  /** `max(top_k * 3, top_k)`: three times as many contexts, unless `top_k` is negative. */
  function FetchCount(topK: int): (n: int)
    ensures n >= topK
    ensures topK >= 0 ==> n == 3 * topK
    ensures topK < 0 ==> n == topK
  {
    if topK * 3 >= topK then topK * 3 else topK
  }

  /** Python's `s[:k]`, where a negative `k` drops `-k` elements from the end. */
  function Take<T>(s: seq<T>, k: int): (r: seq<T>)
    ensures r <= s
    ensures k >= 0 ==> |r| == if k <= |s| then k else |s|
    ensures k < 0 ==> |r| == if |s| + k >= 0 then |s| + k else 0
  {
    if k >= 0 then (if k <= |s| then s[..k] else s)
    else (if |s| + k >= 0 then s[..|s| + k] else [])
  }

  /** `w in text` for some hit, on the lower-cased text of the context (a missing text reads as `""`). */
  predicate Mentions(hits: set<string>, c: Context, lower: string -> string) {
    exists w | w in hits :: IsSubstring(w, lower(c.text.GetOr("")))
  }

  /** The `filtered` list: the contexts that mention a hit, in search order. */
  function Matching(raw: seq<Context>, hits: set<string>, lower: string -> string): (r: seq<Context>)
    ensures |r| <= |raw|
    ensures forall c :: c in r <==> c in raw && Mentions(hits, c, lower)
  {
    if raw == [] then []
    else
      var init, last := raw[..|raw| - 1], raw[|raw| - 1];
      assert raw == init + [last];
      Matching(init, hits, lower) + (if Mentions(hits, last, lower) then [last] else [])
  }

  /** The `contexts` the response is cut from: the matching ones for a profane query, unless there are none. */
  function Chosen(raw: seq<Context>, hits: set<string>, lower: string -> string): seq<Context> {
    if hits != {} && Matching(raw, hits, lower) != [] then Matching(raw, hits, lower) else raw
  }

  /** The renaming comprehension: `score`, `source_file`, `text` with defaults 0.0, "unknown", "". */
  function ToResult(c: Context): SearchResult {
    SearchResult(c.score.GetOr(0.0), c.sourceFile.GetOr("unknown"), c.text.GetOr(""))
  }

  /** The filter loop of `search_jsonl`: the contexts whose lower-cased text contains a word of `hits`, in order. */
  method FilterMentioning(rawContexts: seq<Context>, hits: seq<string>, ghost hitSet: set<string>,
                          lower: string -> string)
    returns (filtered: seq<Context>)
    requires forall w :: w in hits <==> w in hitSet
    ensures filtered == Matching(rawContexts, hitSet, lower)
  {
    filtered := [];
    for i := 0 to |rawContexts|
      invariant filtered == Matching(rawContexts[..i], hitSet, lower)
    {
      assert rawContexts[..i + 1][..i] == rawContexts[..i];
      var text := lower(rawContexts[i].text.GetOr(""));
      var mentions := MentionsAny(hits, text);
      assert mentions == Mentions(hitSet, rawContexts[i], lower);
      if mentions {
        filtered := filtered + [rawContexts[i]];
      }
    }
    assert rawContexts[..|rawContexts|] == rawContexts;
  }

  /** `search_jsonl`; `rag(query, k)` is the vector search asked for `k` contexts. */
  method SearchJsonl(query: string, topK: int := 5, lexemes: seq<string>, patterns: seq<string>,
                     normalize: string -> string, search: (string, string) -> bool,
                     lower: string -> string, rag: (string, int) -> seq<Context>)
    returns (results: seq<SearchResult>)
    ensures rag(query, FetchCount(topK)) == [] ==> results == [DefaultResult]
    ensures var raw := rag(query, FetchCount(topK));
      var top := Take(Chosen(raw, ProfanityHits(query, lexemes, patterns, normalize, search), lower), topK);
      raw != [] ==> |results| == |top| && forall i :: 0 <= i < |results| ==> results[i] == ToResult(top[i])
  {
    var hits := DetectProfanity(query, lexemes, patterns, normalize, search);
    ghost var hitSet := ProfanityHits(query, lexemes, patterns, normalize, search);
    assert forall w :: w in hits <==> w in hitSet;
    var rawContexts := rag(query, FetchCount(topK));
    if rawContexts == [] {
      return [DefaultResult];
    }
    var contexts := rawContexts;
    if |hits| > 0 {
      assert hits[0] in hitSet;
      var filtered := FilterMentioning(rawContexts, hits, hitSet, lower);
      if filtered != [] {
        contexts := filtered;
      } else {
        contexts := rawContexts;
      }
    } else {
      assert hitSet == {};
    }
    var topContexts := Take(contexts, topK);
    results := [];
    for i := 0 to |topContexts|
      invariant |results| == i
      invariant forall j :: 0 <= j < i ==> results[j] == ToResult(topContexts[j])
    {
      results := results + [ToResult(topContexts[i])];
    }
  }

  /** `any(w in text for w in bad_hits)`. */
  function MentionsAny(hits: seq<string>, text: string): (found: bool)
    ensures found <==> exists i :: 0 <= i < |hits| && IsSubstring(hits[i], text)
  {
    if hits == [] then false
    else if IsSubstring(hits[0], text) then true
    else
      var rest := MentionsAny(hits[1..], text);
      assert forall i :: 1 <= i < |hits| ==> hits[i] == hits[1..][i - 1];
      rest
  }

  // ---------------------------------------------------------------------------
  // Properties of the selection

  /** A query with no hit is answered from the search results unchanged. */
  lemma CleanQueryKeepsRanking(raw: seq<Context>, lower: string -> string)
    ensures Chosen(raw, {}, lower) == raw
  {
  }

  /**
   * `pos` lists, in increasing order, positions of `raw` holding the contexts of
   * `m`, each mentioning a hit, and it lists every position that mentions one.
   */
  predicate PicksPositions(raw: seq<Context>, m: seq<Context>, pos: seq<nat>, hits: set<string>,
                           lower: string -> string) {
    && |pos| == |m|
    && (forall i :: 0 <= i < |pos| ==> pos[i] < |raw| && raw[pos[i]] == m[i] && Mentions(hits, raw[pos[i]], lower))
    && (forall i, j :: 0 <= i < j < |pos| ==> pos[i] < pos[j])
    && (forall k :: 0 <= k < |raw| && Mentions(hits, raw[k], lower) ==> k in pos)
  }

  /** The profanity filter keeps the search order: it picks increasing positions of the search results. */
  lemma {:induction false} MatchingPositions(raw: seq<Context>, hits: set<string>, lower: string -> string)
    returns (pos: seq<nat>)
    ensures PicksPositions(raw, Matching(raw, hits, lower), pos, hits, lower)
  {
    if raw == [] {
      pos := [];
    } else {
      var init, last := raw[..|raw| - 1], raw[|raw| - 1];
      assert raw == init + [last];
      var p := MatchingPositions(init, hits, lower);
      var m := Matching(init, hits, lower);
      PicksPositionsSnoc(init, last, m, p, hits, lower);
      if Mentions(hits, last, lower) {
        assert Matching(raw, hits, lower) == m + [last];
        pos := p + [|init|];
      } else {
        assert Matching(raw, hits, lower) == m;
        pos := p;
      }
    }
  }

  /** One more search result extends the picked positions by its own position, if it mentions a hit. */
  lemma PicksPositionsSnoc(init: seq<Context>, last: Context, m: seq<Context>, p: seq<nat>,
                           hits: set<string>, lower: string -> string)
    requires PicksPositions(init, m, p, hits, lower)
    ensures Mentions(hits, last, lower) ==> PicksPositions(init + [last], m + [last], p + [|init|], hits, lower)
    ensures !Mentions(hits, last, lower) ==> PicksPositions(init + [last], m, p, hits, lower)
  {
    var raw := init + [last];
    var pos := if Mentions(hits, last, lower) then p + [|init|] else p;
    forall k | 0 <= k < |raw| && Mentions(hits, raw[k], lower) ensures k in pos {
      if k < |init| {
        assert raw[k] == init[k];
        assert k in p;
      } else {
        assert pos[|pos| - 1] == k;
      }
    }
  }

  /** Non-empty search results always give a non-empty selection, whatever the filter keeps. */
  lemma ChosenNonEmpty(raw: seq<Context>, hits: set<string>, lower: string -> string)
    requires raw != []
    ensures Chosen(raw, hits, lower) != []
    ensures forall c :: c in Chosen(raw, hits, lower) ==> c in raw
  {
  }

  /** Non-empty search results give at most `top_k` results, and at least one when `top_k` is positive. */
  lemma ResultCount(raw: seq<Context>, hits: set<string>, lower: string -> string, topK: int)
    requires raw != []
    ensures topK >= 0 ==> |Take(Chosen(raw, hits, lower), topK)| <= topK
    ensures topK > 0 ==> |Take(Chosen(raw, hits, lower), topK)| >= 1
  {
    ChosenNonEmpty(raw, hits, lower);
  }

  /** With a hit in some search result, only results mentioning a hit are shown. */
  lemma FilteredResultsMention(raw: seq<Context>, hits: set<string>, lower: string -> string, topK: int)
    requires exists c :: c in raw && Mentions(hits, c, lower)
    ensures forall c :: c in Take(Chosen(raw, hits, lower), topK) ==> Mentions(hits, c, lower)
  {
    var c :| c in raw && Mentions(hits, c, lower);
    assert c in Matching(raw, hits, lower);
    assert hits != {};
  }
}
