/** The `TextGenerator` object: the staged fields its build steps assign and
    the loops of its model-building and generation methods, each proved
    against the value-level definitions in `Model` and `Generation`. */
module TextGeneration {
  import opened Tokens
  import opened Dicts
  import opened Model
  import opened Generation

  class TextGenerator {
    var tokenizedContent: seq<string>
    var bigrams: seq<Bigram>
    var headsAndTails: Table

    /** `__init__`: every stage starts empty. */
    constructor ()
      ensures tokenizedContent == [] && bigrams == [] && headsAndTails == Empty()
    {
      tokenizedContent := [];
      bigrams := [];
      headsAndTails := Empty();
    }

    /** `_set_tokenized_content`, with the tokenizer's output given: a list of
        tokens, each non-empty and free of whitespace. */
    method SetTokenizedContent(tokens: seq<string>)
      requires forall i :: 0 <= i < |tokens| ==> IsToken(tokens[i])
      modifies this
      ensures tokenizedContent == tokens
      ensures bigrams == old(bigrams) && headsAndTails == old(headsAndTails)
    {
      tokenizedContent := tokens;
    }

    /** `_set_bigrams`: one pair per window of three tokens, in order. */
    method SetBigrams()
      modifies this
      ensures |bigrams| == if |tokenizedContent| < 3 then 0 else |tokenizedContent| - 2
      ensures forall i :: 0 <= i < |bigrams| ==>
        bigrams[i] == Bigram(Join(tokenizedContent[i], tokenizedContent[i + 1]), tokenizedContent[i + 2])
      ensures tokenizedContent == old(tokenizedContent) && headsAndTails == old(headsAndTails)
    {
      var windows := Trigrams(tokenizedContent);
      var pairs: seq<Bigram> := [];
      for i := 0 to |windows|
        invariant |pairs| == i
        invariant forall j :: 0 <= j < i ==> pairs[j] == BigramOf(windows[j])
      {
        var w := windows[i];
        var head := Join(w.first, w.second);
        var tail := w.third;
        pairs := pairs + [Bigram(head, tail)];
      }
      bigrams := pairs;
    }

    /** `_set_heads_and_tails`: fold every pair, in order, into the table. */
    method SetHeadsAndTails()
      modifies this
      ensures headsAndTails == RecordAll(old(headsAndTails), bigrams)
      ensures tokenizedContent == old(tokenizedContent) && bigrams == old(bigrams)
    {
      var pairs := bigrams;
      for i := 0 to |pairs|
        invariant bigrams == pairs && tokenizedContent == old(tokenizedContent)
        invariant headsAndTails == RecordAll(old(headsAndTails), pairs[..i])
      {
        assert pairs[..i + 1][..i] == pairs[..i];
        headsAndTails := Record(headsAndTails, pairs[i]);
      }
      assert pairs[..|pairs|] == pairs;
    }

    /** `_appropriate_tail`: redraw until a tail is acceptable for a line of
        `lineLength` tokens, or signal a restart. */
    method AppropriateTail(lineLength: nat, head: string, rng: seq<nat>) returns (r: Result<TailDraw>)
      requires WellFormed(headsAndTails)
      ensures r == TailChoice(headsAndTails, lineLength, head, rng)
    {
      if head !in headsAndTails.at {
        return Failure(KeyError(head));
      }
      var tails := headsAndTails.at[head];
      var draws := rng;
      while draws != []
        invariant Redraw(tails, lineLength, draws) == TailChoice(headsAndTails, lineLength, head, rng)
        decreases |draws|
      {
        var tail := ChooseTail(tails, draws[0]);
        if lineLength < MinLength && AllTerminal(tails) {
          return Success(Restart(draws[1..]));
        }
        if lineLength < MinLength && EndsWithPunctuation(tail) {
          draws := draws[1..];
          continue;
        }
        return Success(Tail(tail, draws[1..]));
      }
      return Failure(OutOfDraws);
    }

    /** `_generate_sentence`: seed the line with a drawn head, append tails
        until one ends the sentence, and start over on a restart. */
    method GenerateSentence(rng: seq<nat>) returns (r: Result<Drawn<seq<string>>>)
      requires WellFormed(headsAndTails)
      ensures r == Generate(headsAndTails, rng)
      decreases |rng|
    {
      var t := headsAndTails;
      var drawn := AppropriateHead(t, rng);
      if drawn.Failure? {
        return Failure(drawn.error);
      }
      var head := drawn.value.value;
      var draws := drawn.value.rest;
      var line := Words(head);
      var length := |line|;
      while true
        invariant length == |line| >= 2
        invariant |draws| < |rng|
        invariant Extend(t, head, line, draws) == Generate(t, rng)
        decreases |draws|
      {
        var tail := AppropriateTail(length, head, draws);
        if tail.Failure? || tail.value.Restart? {
          ExtendStops(t, head, line, draws);
          if tail.Failure? {
            return Failure(tail.error);
          }
          r := GenerateSentence(tail.value.rest);
          return;
        }
        var token, rest := tail.value.token, tail.value.rest;
        ExtendAccepts(t, head, line, draws, token, rest);
        // The source's `line[-2] + ' ' + line[-1]` after the append, which
        // is the old last token joined with the tail (`AppendLastTwo`).
        head := Join(line[|line| - 1], token);
        line := line + [token];
        length := |line|;
        draws := rest;
        if EndsWithPunctuation(token) {
          return Success(Drawn(line, draws));
        }
      }
    }
  }

  /** `main_call` without the file prompt and the printing: tokens in, table
      out, with what the table then holds. */
  method Build(tokens: seq<string>) returns (g: TextGenerator)
    requires forall i :: 0 <= i < |tokens| ==> IsToken(tokens[i])
    ensures fresh(g)
    ensures g.tokenizedContent == tokens
    ensures |g.bigrams| == if |tokens| < 3 then 0 else |tokens| - 2
    ensures forall i :: 0 <= i < |g.bigrams| ==>
      g.bigrams[i] == Bigram(Join(tokens[i], tokens[i + 1]), tokens[i + 2])
    ensures g.headsAndTails == RecordAll(Empty(), g.bigrams)
    ensures WellFormed(g.headsAndTails)
    ensures forall h, x :: Count(g.headsAndTails, h, x) == multiset(g.bigrams)[Bigram(h, x)]
    ensures forall h :: HeadTotal(g.headsAndTails, h) == HeadOccurrences(g.bigrams, h)
    ensures forall h :: h in g.headsAndTails.at <==> HeadOccurrences(g.bigrams, h) > 0
  {
    g := new TextGenerator();
    g.SetTokenizedContent(tokens);
    g.SetBigrams();
    g.SetHeadsAndTails();
    forall i | 0 <= i < |g.bigrams|
      ensures BigramWellFormed(g.bigrams[i])
    {
      assert g.bigrams[i] == Bigram(Join(tokens[i], tokens[i + 1]), tokens[i + 2]);
      JoinIsHead(tokens[i], tokens[i + 1]);
    }
    RecordAllCounts(g.bigrams);
  }
}
