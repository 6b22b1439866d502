/** The corpus "The cat sat. The dog ran." worked through the model, stated
    for every corpus of the same shape `a b c a d e`: `a` capitalized and
    not terminal, `b` and `c` starting in lower case, `c` and `e` terminal. */
module Example {
  import opened Tokens
  import opened Dicts
  import opened Model
  import opened Generation

  function Corpus(a: string, b: string, c: string, d: string, e: string): seq<string> {
    [a, b, c, a, d, e]
  }

  /** The four pairs the corpus yields, in order. */
  function Pairs(a: string, b: string, c: string, d: string, e: string): seq<Bigram> {
    [Bigram(Join(a, b), c), Bigram(Join(b, c), a), Bigram(Join(c, a), d), Bigram(Join(a, d), e)]
  }

  /** The shape of the corpus: what the tokens of "The cat sat. The dog ran." satisfy. */
  predicate Shaped(a: string, b: string, c: string, d: string, e: string) {
    && IsToken(a) && IsToken(b) && IsToken(c) && IsToken(d) && IsToken(e)
    && 'A' <= a[0] <= 'Z' && !EndsWithPunctuation(a)
    && !('A' <= b[0] <= 'Z') && !('A' <= c[0] <= 'Z')
    && EndsWithPunctuation(c) && EndsWithPunctuation(e)
  }

  lemma LiteralCorpusShaped()
    ensures Shaped("The", "cat", "sat.", "dog", "ran.")
  {
    assert IsToken("The") && IsToken("cat") && IsToken("sat.") && IsToken("dog") && IsToken("ran.");
  }

  /** The windows of the corpus give exactly these four pairs. */
  lemma CorpusPairs(a: string, b: string, c: string, d: string, e: string)
    ensures |Trigrams(Corpus(a, b, c, d, e))| == 4
    ensures forall i :: 0 <= i < 4 ==>
      BigramOf(Trigrams(Corpus(a, b, c, d, e))[i]) == Pairs(a, b, c, d, e)[i]
  {
    var tokens := Corpus(a, b, c, d, e);
    var w := Trigrams(tokens);
    assert tokens[0] == a && tokens[1] == b && tokens[2] == c && tokens[3] == a && tokens[4] == d && tokens[5] == e;
    assert w[0] == Trigram(a, b, c) && w[1] == Trigram(b, c, a);
    assert w[2] == Trigram(c, a, d) && w[3] == Trigram(a, d, e);
  }

  /** Every head of the built table that passes the sentence-start test is
      `a b` or `a d`, and every tail it has ends a sentence. */
  lemma StartsAreDeadEnds(a: string, b: string, c: string, d: string, e: string)
    requires Shaped(a, b, c, d, e)
    ensures WellFormed(RecordAll(Empty(), Pairs(a, b, c, d, e)))
    ensures forall h :: h in RecordAll(Empty(), Pairs(a, b, c, d, e)).at && IsSentenceStart(h) ==>
      (h == Join(a, b) || h == Join(a, d)) && AllTerminal(RecordAll(Empty(), Pairs(a, b, c, d, e)).at[h])
  {
    var ps := Pairs(a, b, c, d, e);
    JoinIsHead(a, b);
    JoinIsHead(b, c);
    JoinIsHead(c, a);
    JoinIsHead(a, d);
    assert forall i :: 0 <= i < |ps| ==> BigramWellFormed(ps[i]);
    RecordAllCounts(ps);
    var t := RecordAll(Empty(), ps);
    forall h | h in t.at && IsSentenceStart(h)
      ensures (h == Join(a, b) || h == Join(a, d)) && AllTerminal(t.at[h])
    {
      var x0 := t.at[h].keys[0];
      assert Count(t, h, x0) > 0;
      assert Bigram(h, x0) in multiset(ps);
      forall x | x in t.at[h].at
        ensures (h == Join(a, b) || h == Join(a, d)) && EndsWithPunctuation(x)
      {
        assert Count(t, h, x) > 0;
        assert Bigram(h, x) in ps;
        StartOfPair(a, b, c, d, e, h, x);
      }
    }
  }

  /** A pair of the corpus whose head passes the sentence-start test ends in `c` or `e`. */
  lemma StartOfPair(a: string, b: string, c: string, d: string, e: string, h: string, x: string)
    requires Shaped(a, b, c, d, e)
    requires Bigram(h, x) in Pairs(a, b, c, d, e)
    requires IsHead(h) && IsSentenceStart(h)
    ensures (h == Join(a, b) || h == Join(a, d)) && (x == c || x == e)
  {
    if h == Join(b, c) {
      SentenceStartOfJoin(b, c);
    } else if h == Join(c, a) {
      SentenceStartOfJoin(c, a);
    }
  }

  /** The head selector can only return `a b` or `a d`, never `b c` or `c a`. */
  lemma HeadsOfCorpus(a: string, b: string, c: string, d: string, e: string, rng: seq<nat>)
    requires Shaped(a, b, c, d, e)
    ensures WellFormed(RecordAll(Empty(), Pairs(a, b, c, d, e)))
    ensures AppropriateHead(RecordAll(Empty(), Pairs(a, b, c, d, e)), rng).Success? ==>
      var h := AppropriateHead(RecordAll(Empty(), Pairs(a, b, c, d, e)), rng).value.value;
      h == Join(a, b) || h == Join(a, d)
  {
    StartsAreDeadEnds(a, b, c, d, e);
  }

  /** Hence the generator never finishes a sentence on this corpus, whatever
      the draws: every head it may seed with is followed only by a terminal
      tail while the line has two tokens, so every attempt restarts. */
  lemma NeverFinishes(a: string, b: string, c: string, d: string, e: string, rng: seq<nat>)
    requires Shaped(a, b, c, d, e)
    ensures WellFormed(RecordAll(Empty(), Pairs(a, b, c, d, e)))
    ensures Generate(RecordAll(Empty(), Pairs(a, b, c, d, e)), rng).Failure?
  {
    StartsAreDeadEnds(a, b, c, d, e);
    DeadStartsNeverFinish(RecordAll(Empty(), Pairs(a, b, c, d, e)), rng);
  }

  lemma LiteralCorpusNeverFinishes(rng: seq<nat>)
    ensures WellFormed(RecordAll(Empty(), Pairs("The", "cat", "sat.", "dog", "ran.")))
    ensures Generate(RecordAll(Empty(), Pairs("The", "cat", "sat.", "dog", "ran.")), rng).Failure?
  {
    LiteralCorpusShaped();
    NeverFinishes("The", "cat", "sat.", "dog", "ran.", rng);
  }

  // A corpus `a b c d e` without a terminator: the chain runs off its end.

  function RunOnPairs(a: string, b: string, c: string, d: string, e: string): seq<Bigram> {
    [Bigram(Join(a, b), c), Bigram(Join(b, c), d), Bigram(Join(c, d), e)]
  }

  predicate RunOnShaped(a: string, b: string, c: string, d: string, e: string) {
    && IsToken(a) && IsToken(b) && IsToken(c) && IsToken(d) && IsToken(e)
    && 'A' <= a[0] <= 'Z' && !EndsWithPunctuation(a)
    && !('A' <= b[0] <= 'Z') && !('A' <= c[0] <= 'Z') && !('A' <= d[0] <= 'Z')
    && !EndsWithPunctuation(c) && !EndsWithPunctuation(d) && !EndsWithPunctuation(e)
    && b != c && b != d && c != d
  }

  /** The run-on table is well formed, and holds a head and a tail exactly
      when they form one of its three pairs. */
  lemma RunOnTable(a: string, b: string, c: string, d: string, e: string, h: string, x: string)
    requires RunOnShaped(a, b, c, d, e)
    ensures WellFormed(RecordAll(Empty(), RunOnPairs(a, b, c, d, e)))
    ensures (h in RecordAll(Empty(), RunOnPairs(a, b, c, d, e)).at &&
             x in RecordAll(Empty(), RunOnPairs(a, b, c, d, e)).at[h].at) <==>
      (Bigram(h, x) == Bigram(Join(a, b), c) || Bigram(h, x) == Bigram(Join(b, c), d) ||
       Bigram(h, x) == Bigram(Join(c, d), e))
  {
    RunOnPairsWellFormed(a, b, c, d, e);
    TablePairs(RunOnPairs(a, b, c, d, e), h, x);
  }

  lemma RunOnPairsWellFormed(a: string, b: string, c: string, d: string, e: string)
    requires RunOnShaped(a, b, c, d, e)
    ensures forall i :: 0 <= i < |RunOnPairs(a, b, c, d, e)| ==> BigramWellFormed(RunOnPairs(a, b, c, d, e)[i])
  {
    JoinIsHead(a, b);
    JoinIsHead(b, c);
    JoinIsHead(c, d);
  }

  lemma DistinctHeads(a: string, b: string, c: string, d: string)
    requires IsToken(a) && IsToken(b) && IsToken(c) && IsToken(d)
    requires a != c || b != d
    ensures Join(a, b) != Join(c, d)
  {
    if Join(a, b) == Join(c, d) {
      JoinInjective(a, b, c, d);
    }
  }

  /** The three heads of the run-on corpus and the pair of its last two tokens differ. */
  lemma RunOnHeadsDiffer(a: string, b: string, c: string, d: string, e: string)
    requires RunOnShaped(a, b, c, d, e)
    ensures Join(a, b) != Join(b, c) && Join(a, b) != Join(c, d) && Join(b, c) != Join(c, d)
    ensures Join(d, e) != Join(a, b) && Join(d, e) != Join(b, c) && Join(d, e) != Join(c, d)
  {
    assert a != b && a != c && a != d;
    DistinctHeads(a, b, b, c);
    DistinctHeads(a, b, c, d);
    DistinctHeads(b, c, c, d);
    DistinctHeads(d, e, a, b);
    DistinctHeads(d, e, b, c);
    DistinctHeads(d, e, c, d);
  }

  /** `h` is a head of `t` whose only tail is `x`. */
  predicate OnlyTail(t: Table, h: string, x: string) {
    h in t.at && t.at[h].at.Keys == {x}
  }

  /** A head followed by a single tail hands that tail out on the first
      draw, when the tail does not end a sentence or the line is long enough. */
  lemma SingleTail(t: Table, lineLength: nat, h: string, x: string, rng: seq<nat>)
    requires WellFormed(t) && OnlyTail(t, h, x)
    requires IsToken(x) && (lineLength >= MinLength || !EndsWithPunctuation(x)) && rng != []
    ensures TailChoice(t, lineLength, h, rng) == Success(Tail(x, rng[1..]))
  {
    var d := t.at[h];
    assert d.keys[0] in d.at;
    if lineLength < MinLength {
      assert !AllTerminal(d);
    }
    assert ChooseTail(d, rng[0]) == x;
  }

  /** Each head of the run-on corpus has the next token as its only tail,
      and the pair of its last two tokens is no head at all. */
  lemma RunOnTails(a: string, b: string, c: string, d: string, e: string)
    requires RunOnShaped(a, b, c, d, e)
    ensures var t := RecordAll(Empty(), RunOnPairs(a, b, c, d, e));
      && OnlyTail(t, Join(a, b), c)
      && OnlyTail(t, Join(b, c), d)
      && OnlyTail(t, Join(c, d), e)
      && Join(d, e) !in t.at
  {
    var t := RecordAll(Empty(), RunOnPairs(a, b, c, d, e));
    RunOnOnlyTail(a, b, c, d, e, Join(a, b), c);
    RunOnOnlyTail(a, b, c, d, e, Join(b, c), d);
    RunOnOnlyTail(a, b, c, d, e, Join(c, d), e);
    if Join(d, e) in t.at {
      RunOnTable(a, b, c, d, e, "", "");
      var dt := t.at[Join(d, e)];
      assert dt.keys[0] in dt.at;
      RunOnHeadsDiffer(a, b, c, d, e);
      RunOnTable(a, b, c, d, e, Join(d, e), dt.keys[0]);
    }
  }

  /** A pair of the run-on corpus is the only one with its head. */
  lemma RunOnOnlyTail(a: string, b: string, c: string, d: string, e: string, h: string, x: string)
    requires RunOnShaped(a, b, c, d, e)
    requires Bigram(h, x) == Bigram(Join(a, b), c) || Bigram(h, x) == Bigram(Join(b, c), d) ||
             Bigram(h, x) == Bigram(Join(c, d), e)
    ensures OnlyTail(RecordAll(Empty(), RunOnPairs(a, b, c, d, e)), h, x)
  {
    RunOnPairsWellFormed(a, b, c, d, e);
    RunOnHeadsDiffer(a, b, c, d, e);
    OnlyTailOf(RunOnPairs(a, b, c, d, e), h, x);
  }

  /** The only head of the run-on table that passes the sentence-start test is `a b`. */
  lemma RunOnStart(a: string, b: string, c: string, d: string, e: string, k: string)
    requires RunOnShaped(a, b, c, d, e)
    requires k == Join(a, b) || k == Join(b, c) || k == Join(c, d)
    requires IsHead(k) && IsSentenceStart(k)
    ensures k == Join(a, b)
  {
    if k == Join(b, c) {
      SentenceStartOfJoin(b, c);
    } else if k == Join(c, d) {
      SentenceStartOfJoin(c, d);
    }
  }

  /** No line from the run-on table can ever finish: none of its tails ends a sentence. */
  lemma RunOnNeverFinishes(a: string, b: string, c: string, d: string, e: string, rng: seq<nat>)
    requires RunOnShaped(a, b, c, d, e)
    ensures WellFormed(RecordAll(Empty(), RunOnPairs(a, b, c, d, e)))
    ensures Generate(RecordAll(Empty(), RunOnPairs(a, b, c, d, e)), rng).Failure?
  {
    var t := RecordAll(Empty(), RunOnPairs(a, b, c, d, e));
    RunOnTable(a, b, c, d, e, "", "");
    forall h, x | h in t.at && x in t.at[h].at ensures !EndsWithPunctuation(x) {
      RunOnTable(a, b, c, d, e, h, x);
    }
    NoTerminalTailNeverFinishes(t, rng);
  }

  /** A chain `a b -> c -> d -> e` whose last pair `d e` is no head: seeded
      with `a b` and given three draws, generation stops with a `KeyError`. */
  lemma ChainRunsOff(t: Table, a: string, b: string, c: string, d: string, e: string, rest: seq<nat>)
    requires WellFormed(t) && IsToken(a) && IsToken(b)
    requires IsToken(c) && IsToken(d) && IsToken(e)
    requires !EndsWithPunctuation(c) && !EndsWithPunctuation(d) && !EndsWithPunctuation(e)
    requires OnlyTail(t, Join(a, b), c)
    requires OnlyTail(t, Join(b, c), d)
    requires OnlyTail(t, Join(c, d), e)
    requires Join(d, e) !in t.at
    requires |rest| >= 3
    ensures Extend(t, Join(a, b), [a, b], rest) == Failure(KeyError(Join(d, e)))
  {
    var l2 := [a, b];
    var l3 := l2 + [c];
    var l4 := l3 + [d];
    var l5 := l4 + [e];
    assert l2[|l2| - 1] == b && l3[|l3| - 1] == c && l4[|l4| - 1] == d;
    ChainStep(t, Join(a, b), l2, c, rest);
    ChainStep(t, Join(b, c), l3, d, rest[1..]);
    ChainStep(t, Join(c, d), l4, e, rest[1..][1..]);
    ExtendStops(t, Join(d, e), l5, rest[1..][1..][1..]);
  }

  /** One link of such a chain: the single tail is appended and its pair becomes the head. */
  lemma ChainStep(t: Table, head: string, line: seq<string>, x: string, rest: seq<nat>)
    requires WellFormed(t) && |line| >= 2 && OnlyTail(t, head, x)
    requires IsToken(x) && !EndsWithPunctuation(x) && rest != []
    ensures Extend(t, head, line, rest) == Extend(t, Join(line[|line| - 1], x), line + [x], rest[1..])
  {
    SingleTail(t, |line|, head, x, rest);
    ExtendAccepts(t, head, line, rest, x, rest[1..]);
  }

  /** Once the run-on generator has its head and three more draws, it stops
      with a `KeyError` on the pair of the last two tokens instead of restarting. */
  lemma RunOnRaisesKeyError(a: string, b: string, c: string, d: string, e: string, rng: seq<nat>)
    requires RunOnShaped(a, b, c, d, e)
    ensures WellFormed(RecordAll(Empty(), RunOnPairs(a, b, c, d, e)))
    ensures var t := RecordAll(Empty(), RunOnPairs(a, b, c, d, e));
      AppropriateHead(t, rng).Success? && |AppropriateHead(t, rng).value.rest| >= 3 ==>
        Generate(t, rng) == Failure(KeyError(Join(d, e)))
  {
    var t := RecordAll(Empty(), RunOnPairs(a, b, c, d, e));
    RunOnTable(a, b, c, d, e, "", "");
    var h := AppropriateHead(t, rng);
    if h.Success? && |h.value.rest| >= 3 {
      var k := h.value.value;
      assert k == Join(a, b) by {
        var dk := t.at[k];
        assert dk.keys[0] in dk.at;
        RunOnTable(a, b, c, d, e, k, dk.keys[0]);
        RunOnStart(a, b, c, d, e, k);
      }
      WordsOfJoin(a, b);
      RunOnTails(a, b, c, d, e);
      ChainRunsOff(t, a, b, c, d, e, h.value.rest);
    }
  }

  // A corpus `a b c d e f` whose last token ends a sentence: the chain of
  // single tails reaches it just as the line is long enough.

  function FinishPairs(a: string, b: string, c: string, d: string, e: string, f: string): seq<Bigram> {
    [Bigram(Join(a, b), c), Bigram(Join(b, c), d), Bigram(Join(c, d), e), Bigram(Join(d, e), f)]
  }

  predicate FinishShaped(a: string, b: string, c: string, d: string, e: string, f: string) {
    && IsToken(a) && IsToken(b) && IsToken(c) && IsToken(d) && IsToken(e) && IsToken(f)
    && 'A' <= a[0] <= 'Z' && !EndsWithPunctuation(a)
    && !EndsWithPunctuation(c) && !EndsWithPunctuation(d) && !EndsWithPunctuation(e)
    && EndsWithPunctuation(f)
    && b != c && b != d && b != e && c != d && c != e && d != e
  }

  lemma FinishPairsWellFormed(a: string, b: string, c: string, d: string, e: string, f: string)
    requires FinishShaped(a, b, c, d, e, f)
    ensures forall i :: 0 <= i < |FinishPairs(a, b, c, d, e, f)| ==> BigramWellFormed(FinishPairs(a, b, c, d, e, f)[i])
  {
    JoinIsHead(a, b);
    JoinIsHead(b, c);
    JoinIsHead(c, d);
    JoinIsHead(d, e);
  }

  /** A head all of whose pairs have the same tail has that tail only. */
  lemma OnlyTailOf(bs: seq<Bigram>, h: string, x: string)
    requires forall i :: 0 <= i < |bs| ==> BigramWellFormed(bs[i])
    requires Bigram(h, x) in bs
    requires forall i :: 0 <= i < |bs| && bs[i].head == h ==> bs[i].tail == x
    ensures WellFormed(RecordAll(Empty(), bs))
    ensures OnlyTail(RecordAll(Empty(), bs), h, x)
  {
    TablePairs(bs, h, x);
    var d := RecordAll(Empty(), bs).at[h].at;
    forall y | y in d ensures y == x {
      TailOfOnlyTail(bs, h, x, y);
    }
    SingleKey(d, x);
  }

  lemma SingleKey(m: map<string, nat>, x: string)
    requires x in m && forall y :: y in m ==> y == x
    ensures m.Keys == {x}
  {
  }

  /** Any tail the built table holds for such a head is that one tail. */
  lemma TailOfOnlyTail(bs: seq<Bigram>, h: string, x: string, y: string)
    requires forall i :: 0 <= i < |bs| ==> BigramWellFormed(bs[i])
    requires forall i :: 0 <= i < |bs| && bs[i].head == h ==> bs[i].tail == x
    requires h in RecordAll(Empty(), bs).at && y in RecordAll(Empty(), bs).at[h].at
    ensures y == x
  {
    TablePairs(bs, h, y);
    var i :| 0 <= i < |bs| && bs[i] == Bigram(h, y);
  }

  /** Each head of the finishing corpus has the next token as its only tail. */
  lemma FinishTails(a: string, b: string, c: string, d: string, e: string, f: string)
    requires FinishShaped(a, b, c, d, e, f)
    ensures var t := RecordAll(Empty(), FinishPairs(a, b, c, d, e, f));
      && WellFormed(t)
      && OnlyTail(t, Join(a, b), c)
      && OnlyTail(t, Join(b, c), d)
      && OnlyTail(t, Join(c, d), e)
      && OnlyTail(t, Join(d, e), f)
  {
    FinishOnlyTail(a, b, c, d, e, f, Join(a, b), c);
    FinishOnlyTail(a, b, c, d, e, f, Join(b, c), d);
    FinishOnlyTail(a, b, c, d, e, f, Join(c, d), e);
    FinishOnlyTail(a, b, c, d, e, f, Join(d, e), f);
  }

  /** A pair of the finishing corpus is the only one with its head. */
  lemma FinishOnlyTail(a: string, b: string, c: string, d: string, e: string, f: string, h: string, x: string)
    requires FinishShaped(a, b, c, d, e, f)
    requires Bigram(h, x) in FinishPairs(a, b, c, d, e, f)
    ensures WellFormed(RecordAll(Empty(), FinishPairs(a, b, c, d, e, f)))
    ensures OnlyTail(RecordAll(Empty(), FinishPairs(a, b, c, d, e, f)), h, x)
  {
    var ps := FinishPairs(a, b, c, d, e, f);
    FinishPairsWellFormed(a, b, c, d, e, f);
    FinishHeadsDiffer(a, b, c, d, e, f);
    OnlyTailOf(ps, h, x);
  }

  /** The four heads of the finishing corpus differ. */
  lemma FinishHeadsDiffer(a: string, b: string, c: string, d: string, e: string, f: string)
    requires FinishShaped(a, b, c, d, e, f)
    ensures Join(a, b) != Join(b, c) && Join(a, b) != Join(c, d) && Join(a, b) != Join(d, e)
    ensures Join(b, c) != Join(c, d) && Join(b, c) != Join(d, e) && Join(c, d) != Join(d, e)
  {
    DistinctHeads(a, b, b, c);
    DistinctHeads(a, b, c, d);
    DistinctHeads(a, b, d, e);
    DistinctHeads(b, c, c, d);
    DistinctHeads(b, c, d, e);
    DistinctHeads(c, d, d, e);
  }

  /** A chain `a b -> c -> d -> e -> f` of single tails with only `f`
      terminal: seeded with `a b` and given four draws, the line is finished
      as `a b c d e f`, `f` being accepted because the line then has 5 tokens. */
  lemma ChainFinishes(t: Table, a: string, b: string, c: string, d: string, e: string, f: string, rest: seq<nat>)
    requires WellFormed(t) && IsToken(a) && IsToken(b)
    requires IsToken(c) && IsToken(d) && IsToken(e) && IsToken(f)
    requires !EndsWithPunctuation(c) && !EndsWithPunctuation(d) && !EndsWithPunctuation(e)
    requires EndsWithPunctuation(f)
    requires OnlyTail(t, Join(a, b), c)
    requires OnlyTail(t, Join(b, c), d)
    requires OnlyTail(t, Join(c, d), e)
    requires OnlyTail(t, Join(d, e), f)
    requires |rest| >= 4
    ensures Extend(t, Join(a, b), [a, b], rest) == Success(Drawn([a, b, c, d, e, f], rest[4..]))
  {
    var l2 := [a, b];
    var l3 := l2 + [c];
    var l4 := l3 + [d];
    var l5 := l4 + [e];
    SixTokens(a, b, c, d, e, f);
    ChainStep(t, Join(a, b), l2, c, rest);
    ChainStep(t, Join(b, c), l3, d, rest[1..]);
    ChainStep(t, Join(c, d), l4, e, rest[1..][1..]);
    FinalStep(t, Join(d, e), l5, f, rest[1..][1..][1..]);
  }

  /** The lines of such a chain, one token at a time, and the draws left. */
  lemma SixTokens(a: string, b: string, c: string, d: string, e: string, f: string)
    ensures [a, b][1] == b && ([a, b] + [c])[2] == c && ([a, b] + [c] + [d])[3] == d
    ensures |[a, b] + [c] + [d] + [e]| == 5
    ensures [a, b] + [c] + [d] + [e] + [f] == [a, b, c, d, e, f]
    ensures forall rest: seq<nat> {:trigger rest[4..]} :: |rest| >= 4 ==> rest[1..][1..][1..][1..] == rest[4..]
  {
  }

  /** A single terminal tail ends a line of at least `MinLength` tokens. */
  lemma FinalStep(t: Table, head: string, line: seq<string>, x: string, rest: seq<nat>)
    requires WellFormed(t) && |line| >= MinLength && OnlyTail(t, head, x)
    requires IsToken(x) && EndsWithPunctuation(x) && rest != []
    ensures Extend(t, head, line, rest) == Success(Drawn(line + [x], rest[1..]))
  {
    SingleTail(t, |line|, head, x, rest);
    ExtendAccepts(t, head, line, rest, x, rest[1..]);
  }

  /** On the finishing corpus, a stream whose first draw picks the first head
      and which has four more draws yields the whole corpus as a sentence. */
  lemma FinishingSentence(a: string, b: string, c: string, d: string, e: string, f: string, rng: seq<nat>)
    requires FinishShaped(a, b, c, d, e, f)
    ensures WellFormed(RecordAll(Empty(), FinishPairs(a, b, c, d, e, f)))
    ensures |rng| >= 5 && rng[0] == 0 ==>
      Generate(RecordAll(Empty(), FinishPairs(a, b, c, d, e, f)), rng) ==
        Success(Drawn([a, b, c, d, e, f], rng[5..]))
  {
    var t := RecordAll(Empty(), FinishPairs(a, b, c, d, e, f));
    FinishTails(a, b, c, d, e, f);
    if |rng| >= 5 && rng[0] == 0 {
      RecordAllFirstKey(FinishPairs(a, b, c, d, e, f));
      SeededChainFinishes(t, a, b, c, d, e, f, rng);
    }
  }

  /** A table whose first key starts such a chain: the first draw `0` picks
      that key, and the chain finishes on the next four draws. */
  lemma SeededChainFinishes(t: Table, a: string, b: string, c: string, d: string, e: string, f: string, rng: seq<nat>)
    requires WellFormed(t) && FinishShaped(a, b, c, d, e, f)
    requires OnlyTail(t, Join(a, b), c)
    requires OnlyTail(t, Join(b, c), d)
    requires OnlyTail(t, Join(c, d), e)
    requires OnlyTail(t, Join(d, e), f)
    requires |t.keys| > 0 && t.keys[0] == Join(a, b)
    requires |rng| >= 5 && rng[0] == 0
    ensures Generate(t, rng) == Success(Drawn([a, b, c, d, e, f], rng[5..]))
  {
    FirstKeyHead(t, a, b, rng);
    WordsOfJoin(a, b);
    ChainFinishes(t, a, b, c, d, e, f, rng[1..]);
    assert rng[1..][4..] == rng[5..];
  }

  /** A draw of `0` picks the first key, and a first key made of a capitalized,
      non-terminal token and another token is accepted at once. */
  lemma FirstKeyHead(t: Table, a: string, b: string, rng: seq<nat>)
    requires WellFormed(t) && IsToken(a) && IsToken(b)
    requires 'A' <= a[0] <= 'Z' && !EndsWithPunctuation(a)
    requires |t.keys| > 0 && t.keys[0] == Join(a, b)
    requires rng != [] && rng[0] == 0
    ensures AppropriateHead(t, rng) == Success(Drawn(Join(a, b), rng[1..]))
  {
    SentenceStartOfJoin(a, b);
  }

  /** "The cat sat on the mat." yields itself on the draws `0, 0, 0, 0, 0`. */
  lemma LiteralCorpusFinishes()
    ensures WellFormed(RecordAll(Empty(), FinishPairs("The", "cat", "sat", "on", "the", "mat.")))
    ensures Generate(RecordAll(Empty(), FinishPairs("The", "cat", "sat", "on", "the", "mat.")), [0, 0, 0, 0, 0]) ==
      Success(Drawn(["The", "cat", "sat", "on", "the", "mat."], []))
  {
    LiteralFinishShaped();
    FinishingSentence("The", "cat", "sat", "on", "the", "mat.", [0, 0, 0, 0, 0]);
    assert [0, 0, 0, 0, 0][5..] == [];
  }

  /** The tokens of "The cat sat on the mat." have the shape above. */
  lemma LiteralFinishShaped()
    ensures FinishShaped("The", "cat", "sat", "on", "the", "mat.")
  {
    assert IsToken("The") && IsToken("cat") && IsToken("sat") && IsToken("on") && IsToken("the") && IsToken("mat.");
    assert "cat"[0] != "sat"[0] && "cat" != "on" && "cat"[0] != "the"[0];
    assert "sat" != "on" && "sat"[0] != "the"[0] && "on" != "the";
  }
}
