/** The context window looked up for a model name (orchestrator/context_manager.go). */
module ContextLimit {
  import opened Text

  /** An entry of the limits table. */
  datatype Limit = Limit(model: string, tokens: int)

  const DEFAULT_LIMIT := 128000

  /** The model is named, in any case, by the entry. */
  predicate Names(lower: string -> string, name: string, entry: Limit) {
    Contains(lower(name), lower(entry.model)) && lower(entry.model) != ""
  }

  predicate Longest(lower: string -> string, name: string, table: seq<Limit>, entry: Limit) {
    && entry in table && Names(lower, name, entry)
    && forall k :: 0 <= k < |table| && Names(lower, name, table[k]) ==> |lower(table[k].model)| <= |lower(entry.model)|
  }

  /** `tokens` is a possible answer: the limit of some longest matching entry. */
  ghost predicate Answer(lower: string -> string, name: string, table: seq<Limit>, tokens: int) {
    if exists entry :: Longest(lower, name, table, entry)
    then exists entry :: Longest(lower, name, table, entry) && entry.tokens == tokens
    else tokens == DEFAULT_LIMIT
  }

  /** `table` lists the entries in the order in which a range over the map visits them. */
  method LookupContextLimit(lower: string -> string, table: seq<Limit>, name: string) returns (bestLimit: int)
    ensures Answer(lower, name, table, bestLimit)
  {
    hide Contains;
    bestLimit := DEFAULT_LIMIT;
    var bestLen := 0;
    ghost var best: Option<Limit> := None;
    for i := 0 to |table|
      invariant best.None? ==> bestLen == 0 && bestLimit == DEFAULT_LIMIT
      invariant best.None? ==> forall k :: 0 <= k < i ==> !Names(lower, name, table[k])
      invariant best.Some? ==> best.value in table[..i] && Names(lower, name, best.value)
      invariant best.Some? ==> bestLimit == best.value.tokens && bestLen == |lower(best.value.model)|
      invariant forall k :: 0 <= k < i && Names(lower, name, table[k]) ==> |lower(table[k].model)| <= bestLen
    {
      var k := lower(table[i].model);
      if Contains(lower(name), k) && |k| > bestLen {
        bestLen, bestLimit := |k|, table[i].tokens;
        best := Some(table[i]);
      }
    }
    if best.Some? {
      assert Longest(lower, name, table, best.value);
    }
  }

  /** The answer does not depend on the order of the table exactly when all longest entries agree. */
  lemma AnswerIsUnique(lower: string -> string, name: string, table: seq<Limit>)
    ensures (forall s, t :: Answer(lower, name, table, s) && Answer(lower, name, table, t) ==> s == t)
       <==> (forall x, y :: Longest(lower, name, table, x) && Longest(lower, name, table, y) ==> x.tokens == y.tokens)
  {
    hide Longest;
    forall x, y | Longest(lower, name, table, x) && Longest(lower, name, table, y)
      ensures Answer(lower, name, table, x.tokens) && Answer(lower, name, table, y.tokens)
    {
    }
  }

  /** Visiting the same entries in another order allows the same answers. */
  lemma OrderKeepsAnswers(lower: string -> string, name: string, table: seq<Limit>, other: seq<Limit>, tokens: int)
    requires forall entry :: entry in table <==> entry in other
    ensures Answer(lower, name, table, tokens) == Answer(lower, name, other, tokens)
  {
    forall entry ensures Longest(lower, name, table, entry) == Longest(lower, name, other, entry) {
      assert forall k :: 0 <= k < |table| ==> table[k] in other;
      assert forall k :: 0 <= k < |other| ==> other[k] in table;
    }
  }

  // ---------------------------------------------------------------- the built-in table

  const ANTHROPIC := [
    Limit("claude-opus-4", 200000), Limit("claude-sonnet-4", 200000), Limit("claude-haiku-4", 200000),
    Limit("claude-3-5", 200000), Limit("claude-3-opus", 200000), Limit("claude-3-sonnet", 200000),
    Limit("claude-3-haiku", 200000), Limit("claude-2", 100000), Limit("claude-instant", 100000)]
  const GPT := [
    Limit("gpt-4o", 128000), Limit("gpt-4-turbo", 128000), Limit("gpt-4-1106", 128000), Limit("gpt-4-0125", 128000),
    Limit("gpt-4-32k", 32768), Limit("gpt-4", 8192), Limit("gpt-3.5-turbo-16k", 16385), Limit("gpt-3.5-turbo", 4096)]
  const OTHERS := [
    Limit("o1-preview", 128000), Limit("o1-mini", 128000), Limit("gemma4", 131072), Limit("gemma3", 131072),
    Limit("qwen2.5", 32768), Limit("qwen3", 131072), Limit("phi4", 16384), Limit("llama3.3", 131072),
    Limit("default", 128000)]
  const BUILT_IN := ANTHROPIC + GPT + OTHERS

  const MERGED := "qwen2.5-o1-mini"

  /** What a name contains has only characters of the name. */
  lemma ContainedCharacter(name: string, t: string, k: nat)
    requires k < |t|
    ensures Contains(name, t) ==> t[k] in name
  {
    if Contains(name, t) {
      var i := Index(name, t).value;
      assert name[i + k] == name[i..i + |t|][k] == t[k];
    }
  }

  /** An entry that is long has a character that the merged name lacks. */
  predicate LongIsForeign(t: string) {
    |t| <= 7 || t[0] in {'c', 'g', 'l'} || t[3] == 'p'
  }

  predicate AllForeign(table: seq<Limit>) {
    forall k :: 0 <= k < |table| ==> LongIsForeign(table[k].model)
  }

  lemma AnthropicAreForeign()
    ensures AllForeign(ANTHROPIC)
  {
  }

  lemma OthersAreForeign()
    ensures AllForeign(GPT) && AllForeign(OTHERS)
  {
  }

  lemma LongEntriesAreForeign()
    ensures AllForeign(BUILT_IN)
  {
    AnthropicAreForeign();
    OthersAreForeign();
    hide LongIsForeign;
  }

  lemma ContainedIsShort(t: string)
    requires LongIsForeign(t)
    ensures Contains(MERGED, t) ==> |t| <= 7
  {
    if |t| > 7 {
      ContainedCharacter(MERGED, t, 0);
      ContainedCharacter(MERGED, t, 3);
    }
  }

  /** Two longest entries of one length both answer. */
  lemma Tied(lower: string -> string, name: string, table: seq<Limit>, x: Limit, y: Limit)
    requires x in table && y in table && Names(lower, name, x) && Names(lower, name, y)
    requires |lower(x.model)| == |lower(y.model)|
    requires forall k :: 0 <= k < |table| && Names(lower, name, table[k]) ==> |lower(table[k].model)| <= |lower(x.model)|
    ensures Answer(lower, name, table, x.tokens) && Answer(lower, name, table, y.tokens)
  {
    hide Contains, Names;
    assert Longest(lower, name, table, x) && Longest(lower, name, table, y);
  }

  lemma BothAreContained()
    ensures Contains(MERGED, "qwen2.5") && Contains(MERGED, "o1-mini")
  {
    assert OccursAt(MERGED, "qwen2.5", 0) && OccursAt(MERGED, "o1-mini", 8);
  }

  /** With the built-in table, a model merged from two families has two longest entries with different
      limits, so its window depends on the order of the map. `lower` leaves lower-case names alone. */
  lemma TwoAnswers(lower: string -> string)
    requires lower(MERGED) == MERGED && forall k :: 0 <= k < |BUILT_IN| ==> lower(BUILT_IN[k].model) == BUILT_IN[k].model
    ensures Answer(lower, MERGED, BUILT_IN, 32768) && Answer(lower, MERGED, BUILT_IN, 128000)
  {
    var x, y := Limit("qwen2.5", 32768), Limit("o1-mini", 128000);
    assert BUILT_IN[|ANTHROPIC| + |GPT| + 4] == OTHERS[4] == x && BUILT_IN[|ANTHROPIC| + |GPT| + 1] == OTHERS[1] == y;
    assert |x.model| == 7 && |y.model| == 7;
    BothAreContained();
    LongEntriesAreForeign();
    hide Contains, OccursAt, LongIsForeign;
    forall k | 0 <= k < |BUILT_IN| && Names(lower, MERGED, BUILT_IN[k]) ensures |lower(BUILT_IN[k].model)| <= 7 {
      ContainedIsShort(BUILT_IN[k].model);
    }
    Tied(lower, MERGED, BUILT_IN, x, y);
  }
}
