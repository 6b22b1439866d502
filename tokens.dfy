/** Tokens, heads and the character-level tests the generator applies to them.
    A token is what a whitespace tokenizer yields: a non-empty string with no
    whitespace in it. A head is two tokens joined by one space. */
module Tokens {

  /** The ten ASCII characters Python's argument-less `str.split` treats as
      separators: space, tab, line feed, carriage return, vertical tab, form
      feed and the four information separators U+001C to U+001F. */
  predicate IsSpace(c: char) {
    c == ' ' || c == '\t' || c == '\n' || c == '\r' || c == '\U{000B}' || c == '\U{000C}'
    || c == '\U{001C}' || c == '\U{001D}' || c == '\U{001E}' || c == '\U{001F}'
  }

  predicate NoSpace(s: string) {
    forall i :: 0 <= i < |s| ==> !IsSpace(s[i])
  }

  predicate IsToken(t: string) {
    |t| > 0 && NoSpace(t)
  }

  /** The marks that end a sentence. */
  const Terminators: seq<char> := ['.', '!', '?']

  /** `_ends_with_punctuation`: the last character of the token is one of the marks. */
  function EndsWithPunctuation(token: string): (r: bool)
    requires |token| > 0
    ensures r <==> (token[|token| - 1] == '.' || token[|token| - 1] == '!' || token[|token| - 1] == '?')
  {
    token[|token| - 1] in Terminators
  }

  /** Only the last character matters: whatever precedes a non-empty suffix is irrelevant. */
  lemma EndsWithPunctuationSuffix(prefix: string, suffix: string)
    requires |suffix| > 0
    ensures EndsWithPunctuation(prefix + suffix) == EndsWithPunctuation(suffix)
  {
    assert (prefix + suffix)[|prefix + suffix| - 1] == suffix[|suffix| - 1];
  }

  /** The head that stands for two consecutive tokens (`t0 + ' ' + t1`). */
  function Join(a: string, b: string): string {
    a + " " + b
  }

  /** Python's `str.split()` with no argument: maximal runs of non-whitespace,
      with leading, trailing and repeated separators dropped. */
  function Words(s: string): (r: seq<string>)
    ensures forall i :: 0 <= i < |r| ==> IsToken(r[i])
  {
    WordsFrom(s, [])
  }

  /** Splits `s`, where `word` is the part of a word already read. */
  function WordsFrom(s: string, word: string): (r: seq<string>)
    requires NoSpace(word)
    ensures forall i :: 0 <= i < |r| ==> IsToken(r[i])
    decreases |s|
  {
    if s == [] then
      (if word == [] then [] else [word])
    else if IsSpace(s[0]) then
      (if word == [] then [] else [word]) + WordsFrom(s[1..], [])
    else
      WordsFrom(s[1..], word + [s[0]])
  }

  /** Reading a run of non-whitespace characters only extends the current word. */
  lemma {:induction false} WordsFromRun(t: string, rest: string, word: string)
    requires NoSpace(t) && NoSpace(word)
    ensures NoSpace(word + t)
    ensures WordsFrom(t + rest, word) == WordsFrom(rest, word + t)
  {
    assert forall i :: 0 <= i < |word + t| ==>
      (word + t)[i] == if i < |word| then word[i] else t[i - |word|];
    if t == [] {
      assert t + rest == rest;
      assert word + t == word;
    } else {
      assert (t + rest)[0] == t[0];
      assert (t + rest)[1..] == t[1..] + rest;
      assert NoSpace(word + [t[0]]) by {
        assert forall i :: 0 <= i < |word + [t[0]]| ==>
          (word + [t[0]])[i] == if i < |word| then word[i] else t[0];
      }
      WordsFromRun(t[1..], rest, word + [t[0]]);
      assert word + [t[0]] + t[1..] == word + t;
    }
  }

  /** Splitting a head gives back the two tokens it was made of. */
  lemma WordsOfJoin(a: string, b: string)
    requires IsToken(a) && IsToken(b)
    ensures Words(Join(a, b)) == [a, b]
  {
    var h := Join(a, b);
    assert h == a + (" " + b);
    WordsFromRun(a, " " + b, []);
    assert [] + a == a;
    assert (" " + b)[0] == ' ' && (" " + b)[1..] == b;
    assert WordsFrom(" " + b, a) == [a] + WordsFrom(b, []);
    WordsFromRun(b, [], []);
    assert b + [] == b;
    assert [] + b == b;
  }

  /** Distinct token pairs give distinct heads, so keying the table by the
      joined string loses nothing. */
  lemma JoinInjective(a: string, b: string, c: string, d: string)
    requires IsToken(a) && IsToken(b) && IsToken(c) && IsToken(d)
    requires Join(a, b) == Join(c, d)
    ensures a == c && b == d
  {
    WordsOfJoin(a, b);
    WordsOfJoin(c, d);
  }

  /** A head is a string that splits into exactly two tokens and is their join. */
  predicate IsHead(h: string) {
    var w := Words(h);
    |w| == 2 && h == Join(w[0], w[1])
  }

  lemma JoinIsHead(a: string, b: string)
    requires IsToken(a) && IsToken(b)
    ensures IsHead(Join(a, b))
  {
    WordsOfJoin(a, b);
  }

  /** The value `_appropriate_tail` returns when no continuation is acceptable. */
  const RestartSentinel: string := "restart sentence"

  /** The sentinel contains a space, so no token, and hence no tail, can equal it. */
  lemma SentinelIsNotAToken()
    ensures !IsToken(RestartSentinel)
  {
    assert IsSpace(RestartSentinel[7]);
  }

  // ASCII model of `str.isalpha` and of `str.capitalize` on one character.

  predicate IsAlpha(c: char) {
    ('a' <= c <= 'z') || ('A' <= c <= 'Z')
  }

  function Capitalize(c: char): (r: char)
    ensures 'a' <= c <= 'z' ==> 'A' <= r <= 'Z' && r != c
    ensures !('a' <= c <= 'z') ==> r == c
  {
    if 'a' <= c <= 'z' then (c as int - 32) as char else c
  }

  /** The sentence-start test of `_appropriate_head`: the first character is
      already capitalized and alphabetic, and the first token does not end a
      sentence. */
  predicate IsSentenceStart(head: string)
    requires IsHead(head)
  {
    head[0] == Capitalize(head[0]) && !EndsWithPunctuation(Words(head)[0]) && IsAlpha(head[0])
  }

  /** For a head built from tokens `a` and `b`, the test reads: `a` begins with
      an upper-case letter and does not end with a terminator; `b` is not looked at. */
  lemma SentenceStartOfJoin(a: string, b: string)
    requires IsToken(a) && IsToken(b)
    ensures IsHead(Join(a, b))
    ensures IsSentenceStart(Join(a, b)) <==> 'A' <= a[0] <= 'Z' && !EndsWithPunctuation(a)
  {
    WordsOfJoin(a, b);
    assert Join(a, b)[0] == a[0];
  }
}
