# Second-order Markov text generator

The project models the core of `text_generator.py`, a small second-order
Markov chain sentence generator. The generator works in three steps:

1. **Building the model.** It slides a window of three tokens over the token
   list. Each window `t0 t1 t2` becomes a pair: the *head* `t0 + ' ' + t1` and
   the *tail* `t2` (`_set_bigrams`). It then folds the pairs into a nested
   frequency table `head -> tail -> count` (`_set_heads_and_tails`).
2. **Drawing heads and tails.**
   - `_appropriate_head` draws a head uniformly from the table. It draws again
     until the head starts a sentence: the first character is alphabetic and
     already capitalized, and the first token does not end with `.`, `!` or `?`.
   - `_appropriate_tail` draws a tail of the current head, weighted by its
     count. While the line has fewer than 5 tokens, it rejects tails that end a
     sentence. If every candidate ends a sentence, it returns the
     `'restart sentence'` signal instead.
3. **Generating a sentence.** `_generate_sentence` seeds the line with the two
   tokens of a head. It then appends tails until one ends the sentence. On the
   restart signal it starts over from a new head.

Modules:

- **`Tokens`, `tokens.dfy`:** tokens, heads and `_ends_with_punctuation`.
  Also the sentence-start test and the ASCII models of `str.split`, `isalpha`
  and `capitalize`.
- **`Dicts`, `dicts.dfy`:** Python's insertion-ordered `dict` as a value. The
  keys are kept in insertion order, because the generator draws from
  `list(d.keys())`.
- **`Model`, `model.dfy`:** the trigram windows, the pairs and the table fold.
  The fold is proved against an independent count: a multiset of the pairs.
- **`Generation`, `generation.dfy`:** the head draw, the tail draw and the
  sentence state machine, written as functions of the table and of a stream of
  random draws. It also proves what every generated sentence satisfies.
- **`TextGeneration`, `text_generator.dfy`:** the `TextGenerator` class. Its
  fields are the stages the methods assign, and its loops are proved equal to
  the functions above.
- **`Example`, `example.dfy`:** three small corpora worked through the model,
  stated for every corpus of the same shape.

### Randomness

Randomness is a stream of naturals, `rng: seq<nat>`. Each draw consumes one
natural.

- `random.choice(keys)` takes `rng[0] % |keys|`.
- `random.choices(tails, weights)` takes `x = rng[0] % total`. It picks the
  first tail whose cumulative weight exceeds `x`, as CPython's bisection over
  the cumulative weights does.

Every iteration of the source's unbounded loops and recursions draws once, so
the length of the stream bounds all of them; a stream that runs out gives the
explicit error `OutOfDraws`. All properties hold for every stream.

### Errors

The lookup `self.heads_and_tails[head]` at line 91 raises `KeyError` when the
last two tokens of the line form no head. In the model this is the error
result `KeyError(head)`. `Example.RunOnRaisesKeyError` shows it is reachable:
a corpus whose last window has no terminator reaches it once the head and
three more draws are made.

### Where the code is followed

On the corpus "The cat sat. The dog ran.", one might expect a line seeded
with "The cat" to give `["The", "cat", "sat."]`. The code restarts instead. At two tokens
the line is shorter than 5, and every tail of "The cat" and of "The dog" ends
a sentence. So `_appropriate_tail` returns the restart signal every time, and
`_generate_sentence` recurses without end.

The model follows the code. `Example.LiteralCorpusNeverFinishes` proves that
no stream of draws yields a sentence on this corpus. Every finished sentence
has more than 5 tokens (`Generation.GenerateSound`). Sentences do get
finished: on "The cat sat on the mat." every stream of at least five draws that
starts with 0 yields that whole sentence (`Example.FinishingSentence`,
`Example.LiteralCorpusFinishes`).

## Model

| member | source | states |
|---|---|---|
| Tokens.EndsWithPunctuation | text_generator.py:115-120 | holds exactly when the last character of the non-empty token is `.`, `!` or `?` |
| Tokens.EndsWithPunctuationSuffix | text_generator.py:115-120 | only the last character matters: a prefix never changes the verdict |
| Tokens.Words | text_generator.py:73 | `str.split()` yields only non-empty, whitespace-free tokens |
| Tokens.WordsOfJoin | text_generator.py:73 | splitting a head built from two tokens gives back exactly those two tokens |
| Tokens.JoinInjective | text_generator.py:45 | distinct token pairs give distinct heads, so the string key loses nothing |
| Tokens.JoinIsHead | text_generator.py:45 | two tokens joined by a space form a head |
| Tokens.SentinelIsNotAToken | text_generator.py:97-100 | the `'restart sentence'` string contains a space, so no tail can be mistaken for it |
| Tokens.Capitalize | text_generator.py:110 | a lower-case letter becomes a different upper-case letter; every other character is unchanged |
| Tokens.SentenceStartOfJoin | text_generator.py:110 | a head passes the sentence-start test exactly when its first token begins with an upper-case letter and does not end a sentence |
| Dicts.Empty | text_generator.py:11-16 | the empty dict is valid, with no keys |
| Dicts.SetDefault | text_generator.py:56-57 | an absent key is appended with the default; a present key keeps its value and position; validity is kept |
| Dicts.Put | text_generator.py:58 | updating a present key changes its value only, and keeps the key order |
| Dicts.Values | text_generator.py:92 | the weights are the counts of the tails, in key order |
| Dicts.Bump | text_generator.py:57-58 | the key's count rises by one from 0 or its old value; every other count is unchanged and no other key appears |
| Dicts.BumpSum | text_generator.py:57-58 | counting one more occurrence raises the sum of the counts by exactly one |
| Model.Trigrams | text_generator.py:41 | `max(0, n - 2)` windows for `n` tokens; window `i` is tokens `i`, `i + 1`, `i + 2` |
| Model.BigramOfTokens | text_generator.py:45-47 | a window of tokens gives a pair whose head is a head and whose tail is a token |
| Model.RecordUnfold | text_generator.py:56-58 | one fold step replaces exactly its own head's tail dict, bumped, and keeps validity |
| Model.BumpTailsWellFormed | text_generator.py:57-58 | bumping a token tail into an empty or well-formed tail dict gives a well-formed one |
| Model.RecordWellFormed | text_generator.py:55-58 | one step keeps the table well formed and adds exactly its own head |
| Model.RecordCount | text_generator.py:55-58 | one step raises the count of its own pair by one and no other |
| Model.RecordHeadTotal | text_generator.py:55-58 | one step raises the total of its own head by one and no other |
| Model.PriorTotal | text_generator.py:56 | the tail dict a head has before a step sums to that head's total, 0 when absent |
| Model.RecordKeys | text_generator.py:56 | a step appends its head to the key order exactly when the head is new |
| Model.RecordAllFirstKey | text_generator.py:56 | the first key of the built table is the head of the first pair |
| Model.RecordAllCounts | text_generator.py:53-60 | the built table is well formed; a head is present iff it occurs; each count equals the pair's multiplicity; each head's counts sum to its occurrences |
| Model.TableShape | text_generator.py:55-58 | every head maps to a non-empty tail dict; a tail is present iff its pair occurs, and then with a count of at least 1 |
| Model.TablePairs | text_generator.py:55-58 | a head holds a tail in the built table exactly when that pair occurs |
| Model.CountsIgnoreOrder | text_generator.py:55-58 | permuting the pairs changes no count |
| Generation.WeightedIndex | text_generator.py:95 | the index returned is the one whose cumulative weight interval holds the draw, with a positive weight |
| Generation.WeightedIndexUnique | text_generator.py:95 | that index is the only one whose interval holds the draw |
| Generation.WeightedIndexFrequency | text_generator.py:95 | exactly `w[k]` draws below the total weight select index `k` |
| Generation.ChooseTail | text_generator.py:95 | the drawn tail is a key of the head's tail dict |
| Generation.ChooseTailAt | text_generator.py:92-95 | a draw selects the `k`-th tail exactly when the bisection picks index `k` |
| Generation.ChooseTailFrequency | text_generator.py:92-95 | each tail is selected by exactly as many draws as its count: draws follow the frequencies |
| Generation.Redraw | text_generator.py:94-105 | it fails only when draws run out; otherwise it consumes draws; an accepted tail is a candidate and not terminal on a short line; it restarts iff the line is short and every candidate is terminal |
| Generation.LongLineTakesFirstDraw | text_generator.py:102-105 | from 5 tokens on, the first draw is accepted whatever it is |
| Generation.ShortLineAcceptsDraw | text_generator.py:102-105 | on a short line with some non-terminal candidate, a non-terminal draw is accepted at once, consuming one draw |
| Generation.ShortLineRedraws | text_generator.py:102-103 | on such a line a terminal draw is discarded and the loop goes on with the next draw |
| Generation.TailChoice | text_generator.py:89-105 | a `KeyError` iff the head is absent; otherwise the redraw loop's guarantees on the head's tails |
| Generation.AppropriateHead | text_generator.py:107-113 | `EmptyTable` iff there are no heads; a returned head is a key, consumed draws, and has an alphabetic, already capitalized first character and a non-terminal first token |
| Generation.GenerateSound | text_generator.py:70-87 | every returned line has more than 5 tokens, opens with a sentence-start head, follows the table at every step, and ends with a terminator; no token after the opening head ends a sentence except the last (the head's second token may) |
| Generation.ExtendSound | text_generator.py:74-87 | extending a partial line only ever returns a finished line |
| Generation.ExtendStops | text_generator.py:76-85 | a failed tail draw fails the line; a restart is a fresh generation on the remaining draws; a terminal tail returns the line with it appended |
| Generation.ExtendAccepts | text_generator.py:81-87 | an accepted tail is a token and consumes draws; a terminal one ends the line, any other continues from the head of the last two tokens |
| Generation.AppendLastTwo | text_generator.py:81-87 | after the append, `line[-2] + ' ' + line[-1]` is the old last token joined with the tail |
| Generation.AppendStep | text_generator.py:81-87 | appending an accepted tail keeps a partial line partial, or finishes it when the tail is terminal |
| Generation.RestartForgetsLine | text_generator.py:77-78 | after a restart the old line makes no difference: the result is a fresh generation |
| Generation.DeadStartsNeverFinish | text_generator.py:70-100 | if every sentence-start head has only terminal tails, no stream of draws yields a sentence |
| Generation.NoTerminalTailNeverFinishes | text_generator.py:84-85 | a table none of whose tails is terminal never yields a sentence |
| Generation.FinishedEndsOnTail | text_generator.py:84-85 | the last token of a finished line is a tail of the head of the two tokens before it |
| TextGeneration.TextGenerator.constructor | text_generator.py:7-16 | every stage starts empty |
| TextGeneration.TextGenerator.SetTokenizedContent | text_generator.py:33-37 | stores the tokenizer's output and changes no other stage |
| TextGeneration.TextGenerator.SetBigrams | text_generator.py:39-51 | stores `max(0, n - 2)` pairs, pair `i` being `[tok[i] + ' ' + tok[i + 1], tok[i + 2]]`, and changes no other stage |
| TextGeneration.TextGenerator.SetHeadsAndTails | text_generator.py:53-60 | the loop leaves the table equal to the fold of the pairs over the old table |
| TextGeneration.TextGenerator.AppropriateTail | text_generator.py:89-105 | the redraw loop returns exactly the value of `Generation.TailChoice` |
| TextGeneration.TextGenerator.GenerateSentence | text_generator.py:70-87 | the loop, with its recursion on restart, returns exactly the value of `Generation.Generate` |
| TextGeneration.Build | text_generator.py:18-22 | a fresh generator keeping the tokens; its pairs are exactly the trigram windows of the tokens, in order; its table is the fold of those pairs, well formed, and counts every pair and head exactly as the pair list does |
| Example.LiteralCorpusShaped | text_generator.py:110-120 | the tokens of "The cat sat. The dog ran." have the shape the example lemmas assume |
| Example.CorpusPairs | text_generator.py:41-50 | the corpus `a b c a d e` yields exactly four pairs, in order |
| Example.StartsAreDeadEnds | text_generator.py:53-60 | on that corpus the only sentence-start heads are `a b` and `a d`, and all their tails are terminal |
| Example.StartOfPair | text_generator.py:110 | a starting pair of that corpus has head `a b` or `a d` and tail `c` or `e` |
| Example.HeadsOfCorpus | text_generator.py:107-113 | the head draw returns only `a b` or `a d`, never `b c` or `c a` |
| Example.NeverFinishes | text_generator.py:70-100 | no stream of draws yields a sentence on a corpus of that shape |
| Example.LiteralCorpusNeverFinishes | text_generator.py:70-100 | no stream of draws yields a sentence on "The cat sat. The dog ran." |
| Example.RunOnTable | text_generator.py:53-60 | the run-on table `a b c d e` is well formed, and holds a head and a tail exactly for its three pairs |
| Example.RunOnPairsWellFormed | text_generator.py:45-47 | the run-on pairs are well formed |
| Example.DistinctHeads | text_generator.py:45 | different token pairs give different heads |
| Example.RunOnHeadsDiffer | text_generator.py:87 | the three run-on heads and the head of the last two tokens all differ |
| Example.SingleTail | text_generator.py:89-105 | a head with one tail hands that tail out on the first draw, unless the line is short and the tail terminal |
| Example.RunOnTails | text_generator.py:55-58 | each run-on head has the next token as its only tail, and `d e` is no head |
| Example.RunOnOnlyTail | text_generator.py:55-58 | a run-on pair is the only one with its head |
| Example.RunOnStart | text_generator.py:110 | the only run-on head that passes the sentence-start test is `a b` |
| Example.RunOnNeverFinishes | text_generator.py:84-85 | no line from the run-on table ever finishes |
| Example.ChainRunsOff | text_generator.py:74-91 | a chain of single tails ending on a pair that is no head stops with `KeyError` on that pair |
| Example.ChainStep | text_generator.py:81-87 | one link of such a chain appends its tail and moves to the next head |
| Example.RunOnRaisesKeyError | text_generator.py:91 | on the run-on corpus the generator, given enough draws, stops with `KeyError` on the head `d e` |
| Example.FinishPairsWellFormed | text_generator.py:45-47 | the pairs of a six-token corpus `a b c d e f` are well formed |
| Example.OnlyTailOf | text_generator.py:55-58 | a head all of whose pairs share one tail has that tail as its only one in the built table |
| Example.FinishHeadsDiffer | text_generator.py:45 | the four heads of the six-token corpus all differ |
| Example.FinishOnlyTail | text_generator.py:55-58 | each pair of the six-token corpus is the only one with its head |
| Example.FinishTails | text_generator.py:53-60 | the six-token table is well formed and each of its heads has the next token as its only tail |
| Example.FinalStep | text_generator.py:84-85 | on a line of at least 5 tokens a single terminal tail is accepted and returns the line |
| Example.ChainFinishes | text_generator.py:74-87 | from the head `a b`, a chain of single tails with a terminal last one returns `a b c d e f` after four draws |
| Example.FirstKeyHead | text_generator.py:107-111 | a sentence-start head that is the first key is returned by the draw 0 |
| Example.SeededChainFinishes | text_generator.py:70-87 | on such a table the draws `0` and four more yield the whole sentence `a b c d e f` |
| Example.FinishingSentence | text_generator.py:70-87 | on any six-token corpus of that shape, every stream of at least five draws starting with 0 yields the whole corpus as a sentence |
| Example.LiteralFinishShaped | text_generator.py:110-120 | the tokens of "The cat sat on the mat." have the shape the finishing lemmas assume |
| Example.LiteralCorpusFinishes | text_generator.py:70-87 | on "The cat sat on the mat." the draws `[0, 0, 0, 0, 0]` yield that sentence and use every draw |

## Left out

- `_set_file_content` (text_generator.py:25-31): the file name prompt and the file read are interactive I/O. The `file_content` field exists only for it and is not modelled.
- `_set_tokenized_content` (text_generator.py:33-37): NLTK's whitespace tokenizer is a foreign library. `SetTokenizedContent` takes its output instead: a list of non-empty tokens without whitespace.
- `_generate_sentences` (text_generator.py:62-68): a loop that prints joined sentences; printing is I/O. `Build` stops where `main_call` (text_generator.py:18-23) would start printing 10 sentences.
- The module-level `stage = TextGenerator(); stage.main_call()` (text_generator.py:123-124) is program start-up.
- Generation.WeightedIndex: `random.choices` bisects over integer cumulative weights, but its draw `random() * total` is a float. The model draws an exact natural below the total, so float rounding of the draw is not modelled. `ChooseTailFrequency` states the exact proportions the natural model gives.
- Generation.AppropriateHead: `random.choice` draws through `random()`/`_randbelow`; modelled as the next natural modulo the number of heads. The uniform distribution itself is not stated.
- Tokens.Capitalize: `str.isalpha` and `str.capitalize` are modelled for ASCII letters only; Unicode letters and case mappings are not.
- Tokens.Words: `str.split()` separators are the ten ASCII ones; Unicode separators such as U+0085 and U+00A0 are not modelled.
- Stack depth: the recursion of `_generate_sentence` and `_appropriate_head` (text_generator.py:78, 113) has no stack limit in the model. Python would raise `RecursionError` after about 1000 restarts; the model instead runs until the stream of draws is spent and then returns `OutOfDraws`.
- The restart signal: the `'restart sentence'` string is a constructor of its own, not a string. `Tokens.SentinelIsNotAToken` shows no tail can equal that string, so nothing is lost.
- `random.choices` returns a one-element list (text_generator.py:95, 105); the model returns the element.
