/**
 * The splitting of an option argument into tokens at any of the delimiter
 * characters `,` and ` `. Runs of delimiters separate tokens and never yield
 * an empty token, as with C's `strtok`.
 */
module Tokenizer {

  predicate IsDelimiter(c: char)
  {
    c == ',' || c == ' '
  }

  /** A non-empty word free of delimiters: what the tokenizer can deliver. */
  predicate IsToken(t: string)
  {
    t != [] && forall i :: 0 <= i < |t| ==> !IsDelimiter(t[i])
  }

  /** The length of the longest delimiter-free prefix of `s`. */
  function TokenLength(s: string): (n: nat)
    ensures n <= |s|
    ensures forall i :: 0 <= i < n ==> !IsDelimiter(s[i])
    ensures n < |s| ==> IsDelimiter(s[n])
  {
    if s == [] || IsDelimiter(s[0]) then 0 else 1 + TokenLength(s[1..])
  }

  /** The tokens `Tokenizer tok(s, ", ")` delivers, in order: every one is a
      non-empty, delimiter-free word. */
  function Tokenize(s: string): (tokens: seq<string>)
    ensures forall k :: 0 <= k < |tokens| ==> IsToken(tokens[k])
    decreases |s|
  {
    if s == [] then []
    else if IsDelimiter(s[0]) then Tokenize(s[1..])
    else
      var n := TokenLength(s);
      [s[..n]] + Tokenize(s[n..])
  }

  /** The characters of `s` that are not delimiters, in order. */
  function NonDelimiters(s: string): string
  {
    if s == [] then []
    else (if IsDelimiter(s[0]) then [] else [s[0]]) + NonDelimiters(s[1..])
  }

  function Concat(tokens: seq<string>): string
  {
    if tokens == [] then [] else tokens[0] + Concat(tokens[1..])
  }

  /** A run of delimiters, possibly empty. */
  predicate AllDelimiters(d: string)
  {
    forall i :: 0 <= i < |d| ==> IsDelimiter(d[i])
  }

  /** A non-empty run of delimiters, such as `,`, ` ` or `, `. */
  predicate IsSeparator(d: string)
  {
    d != [] && AllDelimiters(d)
  }

  /** The tokens written one after another, `separators[k]` between token
      `k` and token `k + 1`. */
  function Join(tokens: seq<string>, separators: seq<string>): string
    requires |separators| == if tokens == [] then 0 else |tokens| - 1
  {
    if tokens == [] then []
    else if |tokens| == 1 then tokens[0]
    else tokens[0] + separators[0] + Join(tokens[1..], separators[1..])
  }

  lemma {:induction false} NonDelimitersAppend(a: string, b: string)
    ensures NonDelimiters(a + b) == NonDelimiters(a) + NonDelimiters(b)
  {
    if a == [] {
      assert a + b == b;
    } else {
      assert (a + b)[1..] == a[1..] + b;
      NonDelimitersAppend(a[1..], b);
    }
  }

  lemma {:induction false} NonDelimitersOfWord(t: string)
    requires forall i :: 0 <= i < |t| ==> !IsDelimiter(t[i])
    ensures NonDelimiters(t) == t
  {
    if t != [] {
      NonDelimitersOfWord(t[1..]);
    }
  }

  /** No character other than a delimiter is lost, added or reordered. */
  lemma {:induction false} TokenizeKeepsText(s: string)
    ensures Concat(Tokenize(s)) == NonDelimiters(s)
    decreases |s|
  {
    if s == [] {
    } else if IsDelimiter(s[0]) {
      TokenizeKeepsText(s[1..]);
    } else {
      var n := TokenLength(s);
      TokenizeKeepsText(s[n..]);
      assert s == s[..n] + s[n..];
      NonDelimitersAppend(s[..n], s[n..]);
      NonDelimitersOfWord(s[..n]);
      var ts := Tokenize(s);
      assert ts == [s[..n]] + Tokenize(s[n..]);
      assert ts[1..] == Tokenize(s[n..]);
    }
  }

  /** An argument yields no token at all exactly when it is all delimiters. */
  lemma {:induction false} TokenizeEmpty(s: string)
    ensures Tokenize(s) == [] <==> forall i :: 0 <= i < |s| ==> IsDelimiter(s[i])
    decreases |s|
  {
    if s != [] {
      if IsDelimiter(s[0]) {
        TokenizeEmpty(s[1..]);
        assert forall i :: 1 <= i < |s| ==> s[i] == s[1..][i - 1];
      }
    }
  }

  lemma {:induction false} TokenLengthOfWord(t: string, rest: string)
    requires IsToken(t)
    requires rest == [] || IsDelimiter(rest[0])
    ensures TokenLength(t + rest) == |t|
  {
    var s := t + rest;
    assert forall i :: 0 <= i < |t| ==> s[i] == t[i];
    assert rest != [] ==> s[|t|] == rest[0];
  }

  /** Delimiters in front of the text are skipped. */
  lemma {:induction false} SkipDelimiters(d: string, s: string)
    requires AllDelimiters(d)
    ensures Tokenize(d + s) == Tokenize(s)
  {
    if d != [] {
      assert (d + s)[1..] == d[1..] + s;
      SkipDelimiters(d[1..], s);
    } else {
      assert d + s == s;
    }
  }

  /** Joined tokens followed by a run of delimiters split back into the tokens. */
  lemma {:induction false} TokenizeJoinTrail(tokens: seq<string>, separators: seq<string>, trail: string)
    requires |separators| == if tokens == [] then 0 else |tokens| - 1
    requires forall k :: 0 <= k < |tokens| ==> IsToken(tokens[k])
    requires forall k :: 0 <= k < |separators| ==> IsSeparator(separators[k])
    requires AllDelimiters(trail)
    ensures Tokenize(Join(tokens, separators) + trail) == tokens
  {
    TokenizeEmpty(trail);
    if tokens == [] {
      assert Join(tokens, separators) + trail == trail;
    } else if |tokens| == 1 {
      var t := tokens[0];
      var s := t + trail;
      assert Join(tokens, separators) + trail == s;
      TokenLengthOfWord(t, trail);
      assert s[..|t|] == t && s[|t|..] == trail;
    } else {
      var t := tokens[0];
      var d := separators[0];
      var tail := Join(tokens[1..], separators[1..]) + trail;
      var rest: string := d + tail;
      var s := Join(tokens, separators) + trail;
      assert s == t + rest;
      assert rest[0] == d[0];
      TokenLengthOfWord(t, rest);
      assert s[..|t|] == t;
      assert s[|t|..] == rest;
      SkipDelimiters(d, tail);
      TokenizeJoinTrail(tokens[1..], separators[1..], trail);
      assert Tokenize(s) == [t] + Tokenize(rest);
    }
  }

  /** Splitting tokens joined by any runs of delimiters, with any delimiters
      before and after, gives the very same tokens back: token boundaries lie
      exactly at the separators. */
  lemma TokenizeJoin(lead: string, tokens: seq<string>, separators: seq<string>, trail: string)
    requires |separators| == if tokens == [] then 0 else |tokens| - 1
    requires forall k :: 0 <= k < |tokens| ==> IsToken(tokens[k])
    requires forall k :: 0 <= k < |separators| ==> IsSeparator(separators[k])
    requires AllDelimiters(lead) && AllDelimiters(trail)
    ensures Tokenize(lead + Join(tokens, separators) + trail) == tokens
  {
    assert lead + Join(tokens, separators) + trail == lead + (Join(tokens, separators) + trail);
    SkipDelimiters(lead, Join(tokens, separators) + trail);
    TokenizeJoinTrail(tokens, separators, trail);
  }
}
