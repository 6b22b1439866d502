/** Model construction: the trigram windows over the token list, the
    head/tail pairs made from them, and the nested frequency table
    `head -> tail -> count` that `_set_heads_and_tails` accumulates. */
module Model {
  import opened Tokens
  import opened Dicts

  datatype Trigram = Trigram(first: string, second: string, third: string)

  /** A pair `[head, tail]`; the source stores each one as a two-element list. */
  datatype Bigram = Bigram(head: string, tail: string)

  /** The frequency table: an ordered dict of heads, each holding an ordered
      dict of tails with their counts. */
  type Table = Dict<Dict<nat>>

  /** The stride-1 windows of three tokens, in order (`nltk.util.trigrams`). */
  function Trigrams(tokens: seq<string>): (r: seq<Trigram>)
    ensures |r| == if |tokens| < 3 then 0 else |tokens| - 2
    ensures forall i :: 0 <= i < |r| ==> r[i] == Trigram(tokens[i], tokens[i + 1], tokens[i + 2])
  {
    if |tokens| < 3 then []
    else [Trigram(tokens[0], tokens[1], tokens[2])] + Trigrams(tokens[1..])
  }

  /** One window becomes `[t0 + ' ' + t1, t2]`. */
  function BigramOf(w: Trigram): Bigram {
    Bigram(Join(w.first, w.second), w.third)
  }

  predicate BigramWellFormed(b: Bigram) {
    IsHead(b.head) && IsToken(b.tail)
  }

  lemma BigramOfTokens(w: Trigram)
    requires IsToken(w.first) && IsToken(w.second) && IsToken(w.third)
    ensures BigramWellFormed(BigramOf(w))
  {
    JoinIsHead(w.first, w.second);
  }

  /** A tail dict as the table holds it: non-empty, its tails tokens, each
      counted at least once. */
  predicate TailsWellFormed(d: Dict<nat>) {
    && Valid(d)
    && |d.keys| > 0
    && forall x :: x in d.at ==> IsToken(x) && d.at[x] >= 1
  }

  /** The table invariant: every head is a proper head and maps to a
      well-formed tail dict. */
  predicate WellFormed(t: Table) {
    && Valid(t)
    && forall h :: h in t.at ==> IsHead(h) && TailsWellFormed(t.at[h])
  }

  /** One iteration of `_set_heads_and_tails`: `setdefault` the head with an
      empty dict, then `setdefault` the tail with 0 and add one. */
  function Record(t: Table, b: Bigram): Table {
    var t1 := SetDefault(t, b.head, Empty());
    Put(t1, b.head, Bump(t1.at[b.head], b.tail))
  }

  /** The table after folding the pairs in order into `t`. */
  function RecordAll(t: Table, bs: seq<Bigram>): Table
    decreases |bs|
  {
    if bs == [] then t else Record(RecordAll(t, bs[..|bs| - 1]), bs[|bs| - 1])
  }

  /** The count the table holds for a head and a tail, 0 where there is none. */
  function Count(t: Table, h: string, x: string): nat {
    if h in t.at && x in t.at[h].at then t.at[h].at[x] else 0
  }

  /** The sum of the counts held for a head, 0 for an absent head. */
  function HeadTotal(t: Table, h: string): nat {
    if h in t.at && Valid(t.at[h]) then Sum(Values(t.at[h])) else 0
  }

  /** How many pairs have head `h`: the independent reference for `HeadTotal`. */
  function HeadOccurrences(bs: seq<Bigram>, h: string): nat
    decreases |bs|
  {
    if bs == [] then 0
    else HeadOccurrences(bs[..|bs| - 1], h) + (if bs[|bs| - 1].head == h then 1 else 0)
  }

  /** The tail dict a head has before a step: its own, or a fresh empty one. */
  function Prior(t: Table, h: string): Dict<nat> {
    if h in t.at then t.at[h] else Empty()
  }

  lemma RecordUnfold(t: Table, b: Bigram)
    ensures Record(t, b).at == t.at[b.head := Bump(Prior(t, b.head), b.tail)]
    ensures Valid(t) ==> Valid(Record(t, b))
  {
  }

  /** One step keeps the table well formed and adds exactly its own head. */
  lemma RecordWellFormed(t: Table, b: Bigram)
    requires WellFormed(t) && BigramWellFormed(b)
    ensures WellFormed(Record(t, b))
    ensures forall h :: h in Record(t, b).at <==> h in t.at || h == b.head
  {
    RecordUnfold(t, b);
    var r := Record(t, b);
    BumpTailsWellFormed(Prior(t, b.head), b.tail);
    forall h | h in r.at
      ensures IsHead(h) && TailsWellFormed(r.at[h])
    {
      if h != b.head {
        assert h in t.at && r.at[h] == t.at[h];
      }
    }
  }

  /** Counting one more token tail keeps a tail dict well formed. */
  lemma BumpTailsWellFormed(d: Dict<nat>, x: string)
    requires d == Empty() || TailsWellFormed(d)
    requires IsToken(x)
    ensures TailsWellFormed(Bump(d, x))
  {
    var r := Bump(d, x);
    assert Valid(d);
    assert x in r.at && x in r.keys;
  }

  /** One step raises the count of its own pair by one and no other. */
  lemma RecordCount(t: Table, b: Bigram, h: string, x: string)
    ensures Count(Record(t, b), h, x) == Count(t, h, x) + (if Bigram(h, x) == b then 1 else 0)
  {
    RecordUnfold(t, b);
  }

  /** One step raises the total of its own head by one and no other. */
  lemma RecordHeadTotal(t: Table, b: Bigram, h: string)
    requires WellFormed(t)
    ensures HeadTotal(Record(t, b), h) == HeadTotal(t, h) + (if h == b.head then 1 else 0)
  {
    RecordUnfold(t, b);
    var r := Record(t, b);
    if h == b.head {
      PriorTotal(t, h);
      BumpSum(Prior(t, h), b.tail);
    } else if h in t.at {
      assert r.at[h] == t.at[h];
    } else {
      assert h !in r.at;
    }
  }

  /** The dict a head has before a step is valid and sums to the head's total. */
  lemma PriorTotal(t: Table, h: string)
    requires WellFormed(t)
    ensures Valid(Prior(t, h)) && HeadTotal(t, h) == Sum(Values(Prior(t, h)))
  {
    if h !in t.at {
      assert Values(Prior(t, h)) == [];
    }
  }

  /** One step keeps the order of the heads and appends its own head if it is new. */
  lemma RecordKeys(t: Table, b: Bigram)
    ensures Record(t, b).keys == if b.head in t.at then t.keys else t.keys + [b.head]
  {
  }

  /** Heads are keyed in the order they first occur, so the first pair's head
      is the first key that `random.choice` can pick. */
  lemma {:induction false} RecordAllFirstKey(bs: seq<Bigram>)
    requires bs != []
    ensures |RecordAll(Empty(), bs).keys| > 0 && RecordAll(Empty(), bs).keys[0] == bs[0].head
    decreases |bs|
  {
    var init := bs[..|bs| - 1];
    RecordKeys(RecordAll(Empty(), init), bs[|bs| - 1]);
    if init != [] {
      RecordAllFirstKey(init);
      assert init[0] == bs[0];
    }
  }

  /** The table built from the empty table: its shape and exactly what it counts. */
  lemma {:induction false} RecordAllCounts(bs: seq<Bigram>)
    requires forall i :: 0 <= i < |bs| ==> BigramWellFormed(bs[i])
    ensures WellFormed(RecordAll(Empty(), bs))
    ensures forall h :: h in RecordAll(Empty(), bs).at <==> HeadOccurrences(bs, h) > 0
    ensures forall h, x :: Count(RecordAll(Empty(), bs), h, x) == multiset(bs)[Bigram(h, x)]
    ensures forall h :: HeadTotal(RecordAll(Empty(), bs), h) == HeadOccurrences(bs, h)
    decreases |bs|
  {
    if bs != [] {
      var init := bs[..|bs| - 1];
      var last := bs[|bs| - 1];
      assert bs == init + [last];
      var t := RecordAll(Empty(), init);
      RecordAllCounts(init);
      RecordWellFormed(t, last);
      forall h, x ensures Count(Record(t, last), h, x) == multiset(bs)[Bigram(h, x)] {
        RecordCount(t, last, h, x);
      }
      forall h ensures HeadTotal(Record(t, last), h) == HeadOccurrences(bs, h) {
        RecordHeadTotal(t, last, h);
      }
    }
  }

  /** Every head of the built table maps to a non-empty dict of tails, each
      counted at least once, and no count is zero. */
  lemma TableShape(bs: seq<Bigram>, h: string, x: string)
    requires forall i :: 0 <= i < |bs| ==> BigramWellFormed(bs[i])
    requires h in RecordAll(Empty(), bs).at
    ensures |RecordAll(Empty(), bs).at[h].keys| > 0
    ensures x in RecordAll(Empty(), bs).at[h].at <==> Bigram(h, x) in multiset(bs)
    ensures x in RecordAll(Empty(), bs).at[h].at ==> RecordAll(Empty(), bs).at[h].at[x] >= 1
  {
    RecordAllCounts(bs);
    assert Count(RecordAll(Empty(), bs), h, x) == multiset(bs)[Bigram(h, x)];
  }

  /** A head holds a tail in the built table exactly when that pair occurs. */
  lemma TablePairs(bs: seq<Bigram>, h: string, x: string)
    requires forall i :: 0 <= i < |bs| ==> BigramWellFormed(bs[i])
    ensures WellFormed(RecordAll(Empty(), bs))
    ensures (h in RecordAll(Empty(), bs).at && x in RecordAll(Empty(), bs).at[h].at) <==> Bigram(h, x) in bs
  {
    RecordAllCounts(bs);
    assert Count(RecordAll(Empty(), bs), h, x) == multiset(bs)[Bigram(h, x)];
  }

  /** The counts depend only on which pairs occur how often, not on their order. */
  lemma CountsIgnoreOrder(bs: seq<Bigram>, cs: seq<Bigram>, h: string, x: string)
    requires forall i :: 0 <= i < |bs| ==> BigramWellFormed(bs[i])
    requires forall i :: 0 <= i < |cs| ==> BigramWellFormed(cs[i])
    requires multiset(bs) == multiset(cs)
    ensures Count(RecordAll(Empty(), bs), h, x) == Count(RecordAll(Empty(), cs), h, x)
  {
    RecordAllCounts(bs);
    RecordAllCounts(cs);
  }
}
