/**
 * The philosophy paragraph's markup.  The raw text marks highlighted
 * phrases with `|`.  It is split on `|` into segments, odd-numbered
 * segments being highlighted; each segment is split into maximal runs of
 * whitespace, single em dashes and the words between them; every token
 * becomes one element with the next key.
 */
module Positioning {

  const Bar: char := '|'
  const EmDash: char := '\U{2014}'

  /** The characters a regular-expression `\s` matches (and `trim` removes):
      the ECMAScript white space and line terminator characters. */
  predicate IsSpace(c: char) {
    c == '\t' || c == '\n' || c == '\U{000B}' || c == '\U{000C}' || c == '\r' || c == ' '
    || c == '\U{00A0}' || c == '\U{1680}' || ('\U{2000}' <= c <= '\U{200A}')
    || c == '\U{2028}' || c == '\U{2029}' || c == '\U{202F}' || c == '\U{205F}'
    || c == '\U{3000}' || c == '\U{FEFF}'
  }

  predicate IsWordChar(c: char) {
    !IsSpace(c) && c != EmDash
  }

  predicate AllSpace(s: string) {
    forall i :: 0 <= i < |s| ==> IsSpace(s[i])
  }

  predicate AllWord(s: string) {
    forall i :: 0 <= i < |s| ==> IsWordChar(s[i])
  }

  // ----- splitting on the bar -----

  /** `split('|')`: the pieces between bars, so n bars give n + 1 pieces,
      some of them possibly empty. */
  function SplitBars(s: string): (segs: seq<string>)
    ensures |segs| >= 1
    ensures forall k :: 0 <= k < |segs| ==> Bar !in segs[k]
    decreases |s|
  {
    if s == [] then [[]]
    else
      var rest := SplitBars(s[1..]);
      if s[0] == Bar then [[]] + rest
      else [[s[0]] + rest[0]] + rest[1..]
  }

  /** The pieces glued back together with a bar between neighbours. */
  function JoinBars(segs: seq<string>): string
    requires |segs| >= 1
    decreases |segs|
  {
    if |segs| == 1 then segs[0] else segs[0] + [Bar] + JoinBars(segs[1..])
  }

  function Concat(ss: seq<string>): string
    decreases |ss|
  {
    if ss == [] then [] else ss[0] + Concat(ss[1..])
  }

  /** The text with every bar taken out. */
  function RemoveBars(s: string): (r: string)
    ensures Bar !in r
    decreases |s|
  {
    if s == [] then []
    else (if s[0] == Bar then [] else [s[0]]) + RemoveBars(s[1..])
  }

  function CountBars(s: string): nat
    decreases |s|
  {
    if s == [] then 0 else (if s[0] == Bar then 1 else 0) + CountBars(s[1..])
  }

  /** Splitting loses nothing but the bars: joining with bars gives the text
      back, there is one piece more than there are bars, and the pieces
      alone spell the text without its bars. */
  lemma {:induction false} SplitBarsRoundTrip(s: string)
    ensures JoinBars(SplitBars(s)) == s
    ensures |SplitBars(s)| == CountBars(s) + 1
    ensures Concat(SplitBars(s)) == RemoveBars(s)
    decreases |s|
  {
    if s != [] {
      var rest := SplitBars(s[1..]);
      SplitBarsRoundTrip(s[1..]);
      if s[0] == Bar {
        assert SplitBars(s) == [[]] + rest;
        assert ([[]] + rest)[1..] == rest;
        assert s == [Bar] + s[1..];
      } else {
        var segs := SplitBars(s);
        assert segs == [[s[0]] + rest[0]] + rest[1..];
        assert segs[1..] == rest[1..];
        if |rest| == 1 {
          assert JoinBars(segs) == [s[0]] + rest[0];
        } else {
          assert JoinBars(rest) == rest[0] + [Bar] + JoinBars(rest[1..]);
          assert JoinBars(segs) == [s[0]] + rest[0] + [Bar] + JoinBars(rest[1..]);
        }
        assert s == [s[0]] + s[1..];
        assert Concat(rest) == rest[0] + Concat(rest[1..]);
        assert Concat(segs) == [s[0]] + rest[0] + Concat(rest[1..]);
      }
    }
  }

  // ----- splitting a segment into tokens -----

  /** The length of the longest prefix of whitespace. */
  function SpaceRun(s: string): (n: nat)
    ensures n <= |s| && AllSpace(s[..n])
    ensures n < |s| ==> !IsSpace(s[n])
    decreases |s|
  {
    if s == [] || !IsSpace(s[0]) then 0
    else
      var m := SpaceRun(s[1..]);
      assert s[1..][..m] == s[1..m + 1];
      1 + m
  }

  /** The length of the longest prefix of word characters. */
  function WordRun(s: string): (n: nat)
    ensures n <= |s| && AllWord(s[..n])
    ensures n < |s| ==> !IsWordChar(s[n])
    decreases |s|
  {
    if s == [] || !IsWordChar(s[0]) then 0
    else
      var m := WordRun(s[1..]);
      assert s[1..][..m] == s[1..m + 1];
      1 + m
  }

  /** splitting on the pattern "whitespace run or em dash" with the separators kept, then dropping empty pieces: maximal whitespace runs and single
      em dashes kept as tokens, the non-empty pieces between them as words. */
  function Tokens(seg: string): seq<string>
    decreases |seg|
  {
    if seg == [] then []
    else if IsSpace(seg[0]) then
      var n := SpaceRun(seg);
      [seg[..n]] + Tokens(seg[n..])
    else if seg[0] == EmDash then
      [[EmDash]] + Tokens(seg[1..])
    else
      var n := WordRun(seg);
      [seg[..n]] + Tokens(seg[n..])
  }

  /** The length of the first token: it is the segment's first |n| characters
      and the remaining tokens are those of the rest. */
  function TokenLength(seg: string): (n: nat)
    requires seg != []
    ensures 0 < n <= |seg|
    ensures Tokens(seg) == [seg[..n]] + Tokens(seg[n..])
  {
    if IsSpace(seg[0]) then SpaceRun(seg)
    else if seg[0] == EmDash then assert seg[..1] == [EmDash]; 1
    else WordRun(seg)
  }

  predicate SpaceToken(t: string) { |t| > 0 && AllSpace(t) }
  predicate DashToken(t: string) { t == [EmDash] }
  predicate WordToken(t: string) { |t| > 0 && AllWord(t) }

  /** The tokens spell the segment again, in order. */
  lemma {:induction false} TokensRoundTrip(seg: string)
    ensures Concat(Tokens(seg)) == seg
    decreases |seg|
  {
    if seg != [] {
      var n := TokenLength(seg);
      TokensRoundTrip(seg[n..]);
      assert seg == seg[..n] + seg[n..];
    }
  }

  /** The first token starts with the segment's first character. */
  lemma TokensHead(seg: string)
    requires seg != []
    ensures |Tokens(seg)| > 0 && |Tokens(seg)[0]| > 0 && Tokens(seg)[0][0] == seg[0]
  {
  }

  /** Every token is a non-empty whitespace run, an em dash or a non-empty
      word, and no two whitespace runs or two words are neighbours. */
  lemma {:induction false} TokensWellFormed(seg: string)
    ensures forall k :: 0 <= k < |Tokens(seg)| ==>
      SpaceToken(Tokens(seg)[k]) || DashToken(Tokens(seg)[k]) || WordToken(Tokens(seg)[k])
    ensures forall k :: 0 <= k < |Tokens(seg)| - 1 ==>
      !(SpaceToken(Tokens(seg)[k]) && SpaceToken(Tokens(seg)[k + 1]))
      && !(WordToken(Tokens(seg)[k]) && WordToken(Tokens(seg)[k + 1]))
    decreases |seg|
  {
    if seg != [] {
      var ts := Tokens(seg);
      var n := TokenLength(seg);
      var rest := Tokens(seg[n..]);
      TokensWellFormed(seg[n..]);
      assert SpaceToken(ts[0]) || DashToken(ts[0]) || WordToken(ts[0]);
      if |rest| > 0 {
        TokensHead(seg[n..]);
        assert rest[0][0] == seg[n];
        if IsSpace(seg[0]) {
          assert !IsSpace(rest[0][0]);
        } else if seg[0] != EmDash {
          assert !IsWordChar(rest[0][0]);
        }
      }
      forall k | 0 <= k < |ts| ensures SpaceToken(ts[k]) || DashToken(ts[k]) || WordToken(ts[k]) {
        if k > 0 {
          assert ts[k] == rest[k - 1];
        }
      }
      forall k | 0 <= k < |ts| - 1
        ensures !(SpaceToken(ts[k]) && SpaceToken(ts[k + 1])) && !(WordToken(ts[k]) && WordToken(ts[k + 1]))
      {
        if k > 0 {
          assert ts[k] == rest[k - 1] && ts[k + 1] == rest[k];
        }
      }
    }
  }

  /** A token of one kind is of no other. */
  lemma KindsDisjoint(t: string)
    ensures !(AllSpace(t) && DashToken(t))
    ensures !(AllSpace(t) && WordToken(t))
    ensures !(DashToken(t) && WordToken(t))
  {
    if |t| > 0 {
      assert IsSpace(t[0]) ==> !IsWordChar(t[0]);
      assert t == [EmDash] ==> !IsSpace(t[0]) && !IsWordChar(t[0]);
    }
  }

  // ----- classification -----

  /** One rendered span: its key and what it shows. */
  datatype Element =
    | Plain(key: nat, text: string)                     // whitespace, shown as is
    | Dash(key: nat)                                    // the em dash, never highlighted
    | Word(key: nat, text: string, highlighted: bool)   // an animated word

  function TextOf(e: Element): string {
    match e
    case Plain(_, t) => t
    case Dash(_) => [EmDash]
    case Word(_, t, _) => t
  }

  /** A token together with whether its segment is highlighted. */
  datatype Token = Token(text: string, highlighted: bool)

  /** A token as an element: whitespace-only text is plain, the em dash is
      a dash, anything else a word carrying its segment's highlight. */
  function Classify(t: Token, key: nat): (e: Element)
    ensures e.key == key && TextOf(e) == t.text
  {
    if AllSpace(t.text) then Plain(key, t.text)
    else if t.text == [EmDash] then Dash(key)
    else Word(key, t.text, t.highlighted)
  }

  /** Each kind of token becomes its own kind of element; only words carry
      the highlight, and the dash never does. */
  lemma ClassifyKinds(t: Token, key: nat)
    ensures SpaceToken(t.text) ==> Classify(t, key) == Plain(key, t.text)
    ensures DashToken(t.text) ==> Classify(t, key) == Dash(key)
    ensures WordToken(t.text) ==> Classify(t, key) == Word(key, t.text, t.highlighted)
  {
    KindsDisjoint(t.text);
  }

  function Tag(words: seq<string>, highlighted: bool): (ts: seq<Token>)
    ensures |ts| == |words|
    ensures forall k :: 0 <= k < |ts| ==> ts[k] == Token(words[k], highlighted)
    decreases |words|
  {
    if words == [] then [] else [Token(words[0], highlighted)] + Tag(words[1..], highlighted)
  }

  /** Every token of the segments in order, segment i highlighted iff i is odd. */
  function Tagged(segs: seq<string>): seq<Token>
    decreases |segs|
  {
    if segs == [] then []
    else Tagged(segs[..|segs| - 1]) + Tag(Tokens(segs[|segs| - 1]), (|segs| - 1) % 2 == 1)
  }

  function TokenTexts(ts: seq<Token>): string
    decreases |ts|
  {
    if ts == [] then [] else ts[0].text + TokenTexts(ts[1..])
  }

  function Texts(es: seq<Element>): string
    decreases |es|
  {
    if es == [] then [] else TextOf(es[0]) + Texts(es[1..])
  }

  lemma {:induction false} TokenTextsAppend(a: seq<Token>, b: seq<Token>)
    ensures TokenTexts(a + b) == TokenTexts(a) + TokenTexts(b)
    decreases |a|
  {
    if a != [] {
      assert (a + b)[0] == a[0] && (a + b)[1..] == a[1..] + b;
      TokenTextsAppend(a[1..], b);
      calc {
        TokenTexts(a + b);
        a[0].text + TokenTexts(a[1..] + b);
        a[0].text + (TokenTexts(a[1..]) + TokenTexts(b));
        (a[0].text + TokenTexts(a[1..])) + TokenTexts(b);
      }
    } else {
      assert a + b == b;
    }
  }

  lemma {:induction false} TagTexts(words: seq<string>, highlighted: bool)
    ensures TokenTexts(Tag(words, highlighted)) == Concat(words)
    decreases |words|
  {
    if words != [] {
      TagTexts(words[1..], highlighted);
    }
  }

  lemma {:induction false} ConcatAppend(a: seq<string>, b: seq<string>)
    ensures Concat(a + b) == Concat(a) + Concat(b)
    decreases |a|
  {
    if a != [] {
      assert (a + b)[0] == a[0] && (a + b)[1..] == a[1..] + b;
      ConcatAppend(a[1..], b);
      calc {
        Concat(a + b);
        a[0] + Concat(a[1..] + b);
        a[0] + (Concat(a[1..]) + Concat(b));
        (a[0] + Concat(a[1..])) + Concat(b);
      }
    } else {
      assert a + b == b;
    }
  }

  /** The tagged tokens spell the segments one after another. */
  lemma {:induction false} TaggedTexts(segs: seq<string>)
    ensures TokenTexts(Tagged(segs)) == Concat(segs)
    decreases |segs|
  {
    if segs != [] {
      var init := segs[..|segs| - 1];
      var last := segs[|segs| - 1];
      TaggedTexts(init);
      TokenTextsAppend(Tagged(init), Tag(Tokens(last), (|segs| - 1) % 2 == 1));
      TagTexts(Tokens(last), (|segs| - 1) % 2 == 1);
      TokensRoundTrip(last);
      assert segs == init + [last];
      ConcatAppend(init, [last]);
      assert Concat([last]) == last + Concat([]);
    }
  }

  /** Elements made from tokens one by one spell what the tokens spell. */
  lemma {:induction false} ClassifiedTexts(es: seq<Element>, ts: seq<Token>)
    requires |es| == |ts|
    requires forall k :: 0 <= k < |es| ==> TextOf(es[k]) == ts[k].text
    ensures Texts(es) == TokenTexts(ts)
    decreases |es|
  {
    if es != [] {
      ClassifiedTexts(es[1..], ts[1..]);
    }
  }

  /** Elements classified from the tagged tokens of a text spell the text
      without its bars. */
  lemma ElementsSpellText(es: seq<Element>, rawText: string)
    requires |es| == |Tagged(SplitBars(rawText))|
    requires forall k :: 0 <= k < |es| ==> es[k] == Classify(Tagged(SplitBars(rawText))[k], k)
    ensures Texts(es) == RemoveBars(rawText)
  {
    var segments := SplitBars(rawText);
    ClassifiedTexts(es, Tagged(segments));
    TaggedTexts(segments);
    SplitBarsRoundTrip(rawText);
  }

  /** Tagging the first i + 1 segments adds the tokens of segment i. */
  lemma TaggedStep(segs: seq<string>, i: nat)
    requires i < |segs|
    ensures Tagged(segs[..i + 1]) == Tagged(segs[..i]) + Tag(Tokens(segs[i]), i % 2 == 1)
  {
    assert segs[..i + 1][..i] == segs[..i];
  }

  /** The inner pass: one element per token of a segment, keys continuing
      from `keyCount`. */
  method PushTokens(elements: seq<Element>, keyCount: nat, words: seq<string>, isHighlight: bool)
    returns (out: seq<Element>, nextKey: nat)
    requires keyCount == |elements|
    ensures nextKey == |out| == |elements| + |words|
    ensures out[..|elements|] == elements
    ensures forall m :: 0 <= m < |words| ==>
      out[|elements| + m] == Classify(Token(words[m], isHighlight), |elements| + m)
  {
    out, nextKey := elements, keyCount;
    var j := 0;
    while j < |words|
      invariant 0 <= j <= |words|
      invariant nextKey == |out| == |elements| + j
      invariant out[..|elements|] == elements
      invariant forall m :: 0 <= m < j ==>
        out[|elements| + m] == Classify(Token(words[m], isHighlight), |elements| + m)
    {
      out := out + [Classify(Token(words[j], isHighlight), nextKey)];
      nextKey := nextKey + 1;
      j := j + 1;
    }
  }

  /** Element k is the classified k-th token, for every k. */
  predicate ClassifiedFrom(es: seq<Element>, ts: seq<Token>) {
    |es| == |ts| && forall k :: 0 <= k < |es| ==> es[k] == Classify(ts[k], k)
  }

  /** One inner pass keeps the elements classified from the tokens so far. */
  lemma ExtendClassified(before: seq<Element>, ts: seq<Token>, out: seq<Element>,
                         words: seq<string>, isHighlight: bool)
    requires ClassifiedFrom(before, ts)
    requires |out| == |before| + |words| && out[..|before|] == before
    requires forall m :: 0 <= m < |words| ==>
      out[|before| + m] == Classify(Token(words[m], isHighlight), |before| + m)
    ensures ClassifiedFrom(out, ts + Tag(words, isHighlight))
  {
    var tagged := ts + Tag(words, isHighlight);
    forall k | 0 <= k < |out| ensures out[k] == Classify(tagged[k], k) {
      if k < |before| {
        assert out[k] == out[..|before|][k];
      } else {
        assert out[k] == out[|before| + (k - |before|)];
      }
    }
  }

  /** The element list the section renders, built as the section builds it:
      one pass over the segments, an inner pass over each segment's tokens,
      one element per token with the running key. */
  method BuildElements(rawText: string) returns (elements: seq<Element>)
    ensures |elements| == |Tagged(SplitBars(rawText))|
    ensures forall k :: 0 <= k < |elements| ==>
      elements[k] == Classify(Tagged(SplitBars(rawText))[k], k)
    ensures forall k :: 0 <= k < |elements| ==> elements[k].key == k
    ensures Texts(elements) == RemoveBars(rawText)
  {
    var segments := SplitBars(rawText);
    elements := [];
    var keyCount := 0;
    var i := 0;
    while i < |segments|
      invariant 0 <= i <= |segments|
      invariant keyCount == |elements|
      invariant ClassifiedFrom(elements, Tagged(segments[..i]))
    {
      var isHighlight := i % 2 == 1;
      var words := Tokens(segments[i]);
      ghost var before := elements;
      elements, keyCount := PushTokens(elements, keyCount, words, isHighlight);
      ExtendClassified(before, Tagged(segments[..i]), elements, words, isHighlight);
      TaggedStep(segments, i);
      i := i + 1;
    }
    assert segments[..i] == segments;
    ElementsSpellText(elements, rawText);
  }
}
