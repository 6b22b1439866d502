/** Generation against a built table: the head draw of `_appropriate_head`,
    the tail draw of `_appropriate_tail` and the sentence state machine of
    `_generate_sentence`, as functions of the table and of the random draws.

    The random source is a stream of naturals. `random.choice(keys)` takes the
    next natural modulo the number of keys; `random.choices(tails, weights)`
    takes the next natural modulo the total weight and picks the first tail
    whose cumulative weight exceeds it, as CPython's bisection on the
    cumulative weights does. Every draw consumes one natural, and every
    iteration of the source's unbounded loops draws once, so the length of
    the stream bounds all of them; an exhausted stream is the explicit
    failure `OutOfDraws`. */
module Generation {
  import opened Tokens
  import opened Dicts
  import opened Model

  datatype Error =
    | KeyError(key: string)   // `self.heads_and_tails[head]` on a missing head
    | EmptyTable              // `random.choice` on an empty list of heads
    | OutOfDraws              // the random stream ran out before an answer

  datatype Result<T> = Success(value: T) | Failure(error: Error)

  /** A drawn value and what is left of the random stream. */
  datatype Drawn<T> = Drawn(value: T, rest: seq<nat>)

  /** What `_appropriate_tail` returns: a tail, or the `'restart sentence'`
      signal (see `Tokens.SentinelIsNotAToken` for why a constructor of its
      own loses nothing). */
  datatype TailDraw = Tail(token: string, rest: seq<nat>) | Restart(rest: seq<nat>)

  /** Below this many tokens a line may not be finished. */
  const MinLength: nat := 5

  /** `rest` is what remains of `rng` after at least one draw. */
  predicate Consumed(rest: seq<nat>, rng: seq<nat>) {
    |rest| < |rng| && rest == rng[|rng| - |rest|..]
  }

  lemma ConsumedTrans(a: seq<nat>, b: seq<nat>, c: seq<nat>)
    requires Consumed(a, b) && Consumed(b, c)
    ensures Consumed(a, c)
  {
    assert c[|c| - |b|..][|b| - |a|..] == c[|c| - |a|..];
  }

  /** The bisection step of `random.choices`: the index whose cumulative
      weight interval holds `x`. */
  function WeightedIndex(w: seq<nat>, x: nat): (i: nat)
    requires x < Sum(w)
    ensures i < |w| && w[i] > 0
    ensures Sum(w[..i]) <= x < Sum(w[..i + 1])
  {
    if x < w[0] then
      assert w[..1][1..] == [];
      0
    else
      var j := WeightedIndex(w[1..], x - w[0]);
      assert w[..1 + j][1..] == w[1..][..j];
      assert w[..2 + j][1..] == w[1..][..j + 1];
      1 + j
  }

  /** The interval property pins the index down: no other index satisfies it. */
  lemma WeightedIndexUnique(w: seq<nat>, x: nat, j: nat)
    requires x < Sum(w) && j < |w|
    requires Sum(w[..j]) <= x < Sum(w[..j + 1])
    ensures WeightedIndex(w, x) == j
  {
    var i := WeightedIndex(w, x);
    if j < i {
      PrefixSumMonotone(w, j + 1, i);
    } else if i < j {
      PrefixSumMonotone(w, i + 1, j);
    }
  }

  /** The draws `a`, ..., `b - 1`. */
  function Range(a: nat, b: nat): (r: set<nat>)
    requires a <= b
    ensures forall x :: x in r <==> a <= x < b
    ensures |r| == b - a
    decreases b - a
  {
    if a == b then {} else Range(a, b - 1) + {b - 1}
  }

  /** The draws below the total weight that land on index `k`. */
  function Hits(w: seq<nat>, k: nat): set<nat> {
    set x: nat | x < Sum(w) && WeightedIndex(w, x) == k
  }

  /** Of the `Sum(w)` possible draws, exactly `w[k]` land on index `k`: the
      weighted choice picks each index in proportion to its weight. */
  lemma WeightedIndexFrequency(w: seq<nat>, k: nat)
    requires k < |w|
    ensures |Hits(w, k)| == w[k]
  {
    var lo, hi := Sum(w[..k]), Sum(w[..k + 1]);
    assert w[..k + 1] == w[..k] + [w[k]];
    SumAppend(w[..k], w[k]);
    PrefixSumMonotone(w, k + 1, |w|);
    assert w[..|w|] == w;
    forall x | x in Range(lo, hi) ensures x in Hits(w, k) {
      WeightedIndexUnique(w, x, k);
    }
    assert Hits(w, k) == Range(lo, hi);
  }

  /** `random.choices(tails, weights=weights)[0]` on one draw. */
  function ChooseTail(d: Dict<nat>, draw: nat): (r: string)
    requires TailsWellFormed(d)
    ensures r in d.at
  {
    var w := Values(d);
    assert Sum(w) >= w[0] >= 1;
    d.keys[WeightedIndex(w, draw % Sum(w))]
  }

  /** Of the draws below the total count, exactly as many select a tail as
      the table counts for it: `random.choices` picks tails in proportion to
      their frequencies. */
  lemma ChooseTailFrequency(d: Dict<nat>, k: nat)
    requires TailsWellFormed(d) && k < |d.keys|
    ensures |TailHits(d, d.keys[k])| == d.at[d.keys[k]]
  {
    var w := Values(d);
    forall x | x in TailHits(d, d.keys[k]) ensures x in Hits(w, k) {
      ChooseTailAt(d, k, x);
    }
    forall x | x in Hits(w, k) ensures x in TailHits(d, d.keys[k]) {
      ChooseTailAt(d, k, x);
    }
    assert TailHits(d, d.keys[k]) == Hits(w, k);
    WeightedIndexFrequency(w, k);
  }

  lemma ChooseTailAt(d: Dict<nat>, k: nat, x: nat)
    requires TailsWellFormed(d) && k < |d.keys| && x < Sum(Values(d))
    ensures ChooseTail(d, x) == d.keys[k] <==> WeightedIndex(Values(d), x) == k
  {
    var w := Values(d);
    assert x % Sum(w) == x;
    var i := WeightedIndex(w, x);
    assert ChooseTail(d, x) == d.keys[i];
    if i < k {
      assert d.keys[i] != d.keys[k];
    } else if k < i {
      assert d.keys[k] != d.keys[i];
    }
  }

  /** The draws below the total count that select `tail`. */
  function TailHits(d: Dict<nat>, tail: string): set<nat>
    requires TailsWellFormed(d)
  {
    set x: nat | x < Sum(Values(d)) && ChooseTail(d, x) == tail
  }

  /** `all(...)`: every candidate tail ends a sentence. */
  predicate AllTerminal(d: Dict<nat>)
    requires TailsWellFormed(d)
  {
    forall i :: 0 <= i < |d.keys| ==> EndsWithPunctuation(d.keys[i])
  }

  /** The redraw loop of `_appropriate_tail`: draw, give up on a short line
      whose candidates all end a sentence, reject a terminal tail while the
      line is short, otherwise accept. */
  function Redraw(d: Dict<nat>, lineLength: nat, rng: seq<nat>): (r: Result<TailDraw>)
    requires TailsWellFormed(d)
    ensures r.Failure? ==> r.error == OutOfDraws
    ensures r.Success? ==> Consumed(r.value.rest, rng)
    ensures r.Success? && r.value.Tail? ==>
      r.value.token in d.at && (lineLength < MinLength ==> !EndsWithPunctuation(r.value.token))
    ensures (r.Success? && r.value.Restart?) <==> rng != [] && lineLength < MinLength && AllTerminal(d)
    decreases |rng|
  {
    if rng == [] then Failure(OutOfDraws)
    else
      var tail := ChooseTail(d, rng[0]);
      if lineLength < MinLength && AllTerminal(d) then Success(Restart(rng[1..]))
      else if lineLength < MinLength && EndsWithPunctuation(tail) then
        var r := Redraw(d, lineLength, rng[1..]);
        assert r.Success? ==> rng[1..][|rng| - 1 - |r.value.rest|..] == rng[|rng| - |r.value.rest|..];
        r
      else Success(Tail(tail, rng[1..]))
  }

  /** Once the line is long enough, the first draw is accepted whatever it is. */
  lemma LongLineTakesFirstDraw(d: Dict<nat>, lineLength: nat, rng: seq<nat>)
    requires TailsWellFormed(d)
    requires lineLength >= MinLength && rng != []
    ensures Redraw(d, lineLength, rng) == Success(Tail(ChooseTail(d, rng[0]), rng[1..]))
  {
  }

  /** On a short line with a non-terminal candidate, a non-terminal draw is
      accepted at once. */
  lemma ShortLineAcceptsDraw(d: Dict<nat>, lineLength: nat, rng: seq<nat>)
    requires TailsWellFormed(d)
    requires lineLength < MinLength && !AllTerminal(d) && rng != []
    requires !EndsWithPunctuation(ChooseTail(d, rng[0]))
    ensures Redraw(d, lineLength, rng) == Success(Tail(ChooseTail(d, rng[0]), rng[1..]))
  {
  }

  /** On a short line with a non-terminal candidate, a terminal draw is
      dropped and the loop goes on with the next draw. */
  lemma ShortLineRedraws(d: Dict<nat>, lineLength: nat, rng: seq<nat>)
    requires TailsWellFormed(d)
    requires lineLength < MinLength && !AllTerminal(d) && rng != []
    requires EndsWithPunctuation(ChooseTail(d, rng[0]))
    ensures Redraw(d, lineLength, rng) == Redraw(d, lineLength, rng[1..])
  {
  }

  /** `_appropriate_tail(line_length, head)`. */
  function TailChoice(t: Table, lineLength: nat, head: string, rng: seq<nat>): (r: Result<TailDraw>)
    requires WellFormed(t)
    ensures r == Failure(KeyError(head)) <==> head !in t.at
    ensures r.Success? ==> head in t.at && Consumed(r.value.rest, rng)
    ensures r.Success? && r.value.Tail? ==>
      r.value.token in t.at[head].at && (lineLength < MinLength ==> !EndsWithPunctuation(r.value.token))
    ensures (r.Success? && r.value.Restart?) <==>
      head in t.at && rng != [] && lineLength < MinLength && AllTerminal(t.at[head])
  {
    if head !in t.at then Failure(KeyError(head))
    else Redraw(t.at[head], lineLength, rng)
  }

  /** `_appropriate_head`: draw heads uniformly until one passes the
      sentence-start test. */
  function AppropriateHead(t: Table, rng: seq<nat>): (r: Result<Drawn<string>>)
    requires WellFormed(t)
    ensures r == Failure(EmptyTable) <==> t.keys == []
    ensures r.Failure? ==> r.error == EmptyTable || r.error == OutOfDraws
    ensures r.Success? ==>
      && r.value.value in t.at
      && Consumed(r.value.rest, rng)
      && IsSentenceStart(r.value.value)
      && Capitalize(r.value.value[0]) == r.value.value[0]
      && IsAlpha(r.value.value[0])
      && !EndsWithPunctuation(Words(r.value.value)[0])
    decreases |rng|
  {
    if t.keys == [] then Failure(EmptyTable)
    else if rng == [] then Failure(OutOfDraws)
    else
      var head := t.keys[rng[0] % |t.keys|];
      if IsSentenceStart(head) then Success(Drawn(head, rng[1..]))
      else
        var r := AppropriateHead(t, rng[1..]);
        assert r.Success? ==> rng[1..][|rng| - 1 - |r.value.rest|..] == rng[|rng| - |r.value.rest|..];
        r
  }

  /** `_generate_sentence`: seed the line with the two tokens of a drawn head
      and extend it. */
  function Generate(t: Table, rng: seq<nat>): Result<Drawn<seq<string>>>
    requires WellFormed(t)
    decreases |rng|
  {
    match AppropriateHead(t, rng)
    case Failure(e) => Failure(e)
    case Success(Drawn(head, rest)) => Extend(t, head, Words(head), rest)
  }

  /** The `while True` loop of `_generate_sentence`: append tails until one
      ends the sentence; on the restart signal drop the line and start again
      from a new head with the draws that remain. The next head, made of the
      last two tokens once the tail is appended, is the old last token joined
      with the tail (`AppendLastTwo`). */
  function Extend(t: Table, head: string, line: seq<string>, rng: seq<nat>): Result<Drawn<seq<string>>>
    requires WellFormed(t)
    requires |line| >= 2
    decreases |rng|
  {
    match TailChoice(t, |line|, head, rng)
    case Failure(e) => Failure(e)
    case Success(Restart(rest)) => Generate(t, rest)
    case Success(Tail(tail, rest)) =>
      if EndsWithPunctuation(tail) then Success(Drawn(line + [tail], rest))
      else Extend(t, Join(line[|line| - 1], tail), line + [tail], rest)
  }

  /** Tokens `i`, `i + 1` and `i + 2` of the line are a transition of the table. */
  predicate Transition(t: Table, line: seq<string>, i: nat)
    requires i + 2 < |line|
  {
    var h := Join(line[i], line[i + 1]);
    h in t.at && line[i + 2] in t.at[h].at
  }

  /** The line opens with the two tokens of a head that passes the sentence-start test. */
  predicate OpensWithStart(t: Table, line: seq<string>)
    requires |line| >= 2
  {
    var h := Join(line[0], line[1]);
    h in t.at && IsHead(h) && IsSentenceStart(h)
  }

  /** What holds of a line while it is being extended, with `head` its last two tokens. */
  predicate Partial(t: Table, head: string, line: seq<string>) {
    && |line| >= 2
    && (forall i :: 0 <= i < |line| ==> IsToken(line[i]))
    && OpensWithStart(t, line)
    && (forall i :: 0 <= i < |line| - 2 ==> Transition(t, line, i))
    && (forall i :: 2 <= i < |line| ==> !EndsWithPunctuation(line[i]))
    && head == Join(line[|line| - 2], line[|line| - 1])
  }

  /** What holds of every line the generator returns. */
  predicate Finished(t: Table, line: seq<string>) {
    && |line| > MinLength
    && (forall i :: 0 <= i < |line| ==> IsToken(line[i]))
    && OpensWithStart(t, line)
    && (forall i :: 0 <= i < |line| - 2 ==> Transition(t, line, i))
    && (forall i :: 2 <= i < |line| - 1 ==> !EndsWithPunctuation(line[i]))
    && EndsWithPunctuation(line[|line| - 1])
  }

  /** Every sentence returned opens with a sentence-start head, follows the
      table at every step, ends with a terminator, and has more than
      `MinLength` tokens. No token after the opening head ends a sentence
      except the last; the head's own second token may. */
  lemma {:induction false} GenerateSound(t: Table, rng: seq<nat>)
    requires WellFormed(t)
    ensures Generate(t, rng).Success? ==>
      Finished(t, Generate(t, rng).value.value) && Consumed(Generate(t, rng).value.rest, rng)
    decreases |rng|, 1
  {
    var h := AppropriateHead(t, rng);
    if h.Success? {
      var head, rest := h.value.value, h.value.rest;
      var line := Words(head);
      assert |line| == 2 && head == Join(line[0], line[1]);
      assert Partial(t, head, line);
      ExtendSound(t, head, line, rest);
      if Generate(t, rng).Success? {
        ConsumedTrans(Generate(t, rng).value.rest, rest, rng);
      }
    }
  }

  lemma {:induction false} ExtendSound(t: Table, head: string, line: seq<string>, rng: seq<nat>)
    requires WellFormed(t)
    requires Partial(t, head, line)
    ensures Extend(t, head, line, rng).Success? ==>
      Finished(t, Extend(t, head, line, rng).value.value) && Consumed(Extend(t, head, line, rng).value.rest, rng)
    decreases |rng|, 0
  {
    var e := Extend(t, head, line, rng);
    var c := TailChoice(t, |line|, head, rng);
    ExtendStops(t, head, line, rng);
    if c.Success? && c.value.Restart? {
      var rest := c.value.rest;
      GenerateSound(t, rest);
      if e.Success? {
        ConsumedTrans(e.value.rest, rest, rng);
      }
    } else if c.Success? {
      var tail, rest := c.value.token, c.value.rest;
      var next := line + [tail];
      ExtendAccepts(t, head, line, rng, tail, rest);
      AppendStep(t, head, line, tail);
      if !EndsWithPunctuation(tail) {
        ExtendSound(t, Join(line[|line| - 1], tail), next, rest);
        if e.Success? {
          ConsumedTrans(e.value.rest, rest, rng);
        }
      }
    }
  }

  /** One turn of the loop of `Extend` that ends it: a failure, a restart or
      a tail that ends the sentence. */
  lemma ExtendStops(t: Table, head: string, line: seq<string>, rng: seq<nat>)
    requires WellFormed(t) && |line| >= 2
    ensures var c := TailChoice(t, |line|, head, rng);
      && (c.Failure? ==> Extend(t, head, line, rng) == Failure(c.error))
      && (c.Success? && c.value.Restart? ==> Extend(t, head, line, rng) == Generate(t, c.value.rest))
      && (c.Success? && c.value.Tail? && EndsWithPunctuation(c.value.token) ==>
            Extend(t, head, line, rng) == Success(Drawn(line + [c.value.token], c.value.rest)))
  {
  }


  /** One turn of the loop of `Extend` on an accepted tail: the tail is a
      token, draws were consumed, and the line either ends with it or goes on
      from the head made of its last two tokens, the old last one and the tail. */
  lemma ExtendAccepts(t: Table, head: string, line: seq<string>, rng: seq<nat>, tail: string, rest: seq<nat>)
    requires WellFormed(t) && |line| >= 2
    requires TailChoice(t, |line|, head, rng) == Success(Tail(tail, rest))
    ensures IsToken(tail) && Consumed(rest, rng)
    ensures EndsWithPunctuation(tail) ==> Extend(t, head, line, rng) == Success(Drawn(line + [tail], rest))
    ensures !EndsWithPunctuation(tail) ==>
      Extend(t, head, line, rng) == Extend(t, Join(line[|line| - 1], tail), line + [tail], rest)
  {
    assert tail in t.at[head].at;
  }

  /** The last two tokens after appending one: the old last token and the new one. */
  lemma AppendLastTwo(line: seq<string>, tail: string)
    requires |line| >= 1
    ensures var next := line + [tail];
      |next| == |line| + 1 && next[|next| - 2] == line[|line| - 1] && next[|next| - 1] == tail
  {
  }

  /** Appending an accepted tail keeps a partial line partial, or finishes it. */
  lemma AppendStep(t: Table, head: string, line: seq<string>, tail: string)
    requires Partial(t, head, line)
    requires head in t.at && tail in t.at[head].at && IsToken(tail)
    requires |line| < MinLength ==> !EndsWithPunctuation(tail)
    ensures !EndsWithPunctuation(tail) ==> Partial(t, Join(line[|line| - 1], tail), line + [tail])
    ensures EndsWithPunctuation(tail) ==> Finished(t, line + [tail])
  {
    var next := line + [tail];
    assert Transition(t, next, |line| - 2);
    forall i | 0 <= i < |line| - 2 ensures Transition(t, next, i) {
      assert Transition(t, line, i);
    }
    assert OpensWithStart(t, next) by {
      assert OpensWithStart(t, line);
    }
  }

  /** A restart drops the partial line entirely: once the tail draw signals a
      restart, what the line held makes no difference to the outcome. */
  lemma RestartForgetsLine(t: Table, head: string, line: seq<string>, other: seq<string>, rng: seq<nat>)
    requires WellFormed(t)
    requires |line| >= 2 && |other| == |line|
    requires TailChoice(t, |line|, head, rng).Success? && TailChoice(t, |line|, head, rng).value.Restart?
    ensures Extend(t, head, line, rng) == Extend(t, head, other, rng)
    ensures Extend(t, head, line, rng) == Generate(t, TailChoice(t, |line|, head, rng).value.rest)
  {
  }

  /** When every sentence-start head has only terminal tails, no sentence can
      reach the minimum length: every draw restarts, until the draws run out. */
  lemma {:induction false} DeadStartsNeverFinish(t: Table, rng: seq<nat>)
    requires WellFormed(t)
    requires forall h :: h in t.at && IsSentenceStart(h) ==> AllTerminal(t.at[h])
    ensures Generate(t, rng).Failure?
    decreases |rng|
  {
    var h := AppropriateHead(t, rng);
    if h.Success? {
      var head, rest := h.value.value, h.value.rest;
      var c := TailChoice(t, 2, head, rest);
      if rest != [] {
        assert c.Success? && c.value.Restart?;
        DeadStartsNeverFinish(t, c.value.rest);
      }
    }
  }

  /** A table none of whose tails ends with punctuation never yields a sentence. */
  lemma NoTerminalTailNeverFinishes(t: Table, rng: seq<nat>)
    requires WellFormed(t)
    requires forall h, x :: h in t.at && x in t.at[h].at ==> !EndsWithPunctuation(x)
    ensures Generate(t, rng).Failure?
  {
    GenerateSound(t, rng);
    if Generate(t, rng).Success? {
      FinishedEndsOnTail(t, Generate(t, rng).value.value);
    }
  }

  /** The last token of a finished line is a tail the table holds for the two before it. */
  lemma FinishedEndsOnTail(t: Table, line: seq<string>)
    requires Finished(t, line)
    ensures var h := Join(line[|line| - 3], line[|line| - 2]);
      h in t.at && line[|line| - 1] in t.at[h].at
  {
    assert Transition(t, line, |line| - 3);
  }
}
