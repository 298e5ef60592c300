/** The two string rewrites the renderers apply to list entries: removing every
    double quote from an `items` entry, and turning `**bold**` pairs of a
    `points` entry into emphasis (the global, lazy regular expression
    `\*\*(.*?)\*\*`), here as typed spans rather than injected markup.
 */
module Markup {
  import opened Js

  /** A run of displayed text, plain or emphasised. */
  datatype Span = Plain(t: string) | Strong(t: string)

  // ---------------------------------------------------------------------------
  // Quote stripping: every match of `"` replaced by the empty string
  // ---------------------------------------------------------------------------

  /** Every `"` removed; every other character kept, as often as it occurs. */
  function StripQuotes(s: string): (r: string)
    ensures '"' !in r
    ensures forall c :: c != '"' ==> multiset(r)[c] == multiset(s)[c]
  {
    if s == [] then []
    else
      assert s == [s[0]] + s[1..];
      (if s[0] == '"' then [] else [s[0]]) + StripQuotes(s[1..])
  }

  /** Stripping is a homomorphism on concatenation, so the kept characters stay
      in their original order. */
  lemma {:induction false} StripQuotesConcat(a: string, b: string)
    ensures StripQuotes(a + b) == StripQuotes(a) + StripQuotes(b)
    decreases |a|
  {
    if a == [] {
      assert a + b == b;
    } else {
      var head := if a[0] == '"' then [] else [a[0]];
      assert (a + b)[0] == a[0];
      assert (a + b)[1..] == a[1..] + b;
      assert StripQuotes(a + b) == head + StripQuotes(a[1..] + b);
      assert StripQuotes(a) == head + StripQuotes(a[1..]);
      StripQuotesConcat(a[1..], b);
    }
  }

  /** A string without quotes is displayed as it is. */
  lemma {:induction false} StripQuotesFixpoint(s: string)
    requires '"' !in s
    ensures StripQuotes(s) == s
    decreases |s|
  {
    if s != [] {
      assert s[0] in s;
      assert forall c :: c in s[1..] ==> c in s;
      StripQuotesFixpoint(s[1..]);
    }
  }

  lemma StripQuotesIdempotent(s: string)
    ensures StripQuotes(StripQuotes(s)) == StripQuotes(s)
  {
    StripQuotesFixpoint(StripQuotes(s));
  }

  // ---------------------------------------------------------------------------
  // Emphasis: every match of `\*\*(.*?)\*\*` replaced by a strong element
  // ---------------------------------------------------------------------------

  /** The characters `.` does not match in a JavaScript regular expression. */
  predicate IsLineTerminator(c: char) {
    c == '\n' || c == '\r' || c == '\U{2028}' || c == '\U{2029}'
  }

  predicate StarPairAt(s: string, i: int) {
    0 <= i && i + 1 < |s| && s[i] == '*' && s[i + 1] == '*'
  }

  predicate NoStarPair(s: string) {
    forall i :: 0 <= i < |s| ==> !StarPairAt(s, i)
  }

  /** What the lazy group `(.*?)` can capture: no line terminator, no `**`, and no
      final `*` (that `*` with the closing delimiter would have been an earlier
      `**`). */
  predicate LazyCapture(t: string) {
    forall i :: 0 <= i < |t| ==>
      !IsLineTerminator(t[i]) && !(t[i] == '*' && (i + 1 == |t| || t[i + 1] == '*'))
  }

  /** The lazy search for the closing `**` from position `k`: the first `**` at or
      after `k` that is not preceded by a line terminator. */
  function CloseFrom(s: string, k: nat): (r: Option<nat>)
    requires k <= |s|
    ensures r.Some? ==> k <= r.value && StarPairAt(s, r.value)
    ensures r.Some? ==> forall i :: k <= i < r.value ==> !IsLineTerminator(s[i]) && !StarPairAt(s, i)
    ensures NoStarPair(s) ==> r.None?
    decreases |s| - k
  {
    if k + 2 > |s| then None
    else if s[k] == '*' && s[k + 1] == '*' then
      assert StarPairAt(s, k);
      Some(k)
    else if IsLineTerminator(s[k]) then None
    else CloseFrom(s, k + 1)
  }

  /** The source text a span stands for: emphasis is written back with its
      delimiters. */
  function SpanSource(sp: Span): string {
    match sp
    case Plain(t) => t
    case Strong(t) => "**" + t + "**"
  }

  function Flatten(r: seq<Span>): string {
    if r == [] then [] else SpanSource(r[0]) + Flatten(r[1..])
  }

  /** Prepends one plain character, joining it to a leading plain span. */
  function PushPlain(c: char, r: seq<Span>): (r': seq<Span>)
    requires forall sp :: sp in r && sp.Plain? ==> sp.t != []
    ensures Flatten(r') == [c] + Flatten(r)
    ensures |r'| > 0 && r'[0].Plain?
    ensures forall sp :: sp in r' && sp.Strong? ==> sp in r
    ensures forall sp :: sp in r' && sp.Plain? ==> sp.t != []
  {
    if |r| > 0 && r[0].Plain? then
      assert Flatten(r) == r[0].t + Flatten(r[1..]);
      [Plain([c] + r[0].t)] + r[1..]
    else
      [Plain([c])] + r
  }

  lemma FlattenCons(sp: Span, r: seq<Span>)
    ensures Flatten([sp] + r) == SpanSource(sp) + Flatten(r)
  {
    assert ([sp] + r)[1..] == r;
  }

  /** What lies between an opening `**` and the `**` the lazy search finds is a
      possible lazy capture, and the string splits around it. */
  lemma CaptureIsLazy(s: string, j: nat)
    requires StarPairAt(s, 0) && CloseFrom(s, 2) == Some(j)
    ensures 2 <= j && j + 2 <= |s|
    ensures LazyCapture(s[2..j])
  {
    var t := s[2..j];
    forall i | 0 <= i < |t|
      ensures !IsLineTerminator(t[i]) && !(t[i] == '*' && (i + 1 == |t| || t[i + 1] == '*'))
    {
      assert t[i] == s[i + 2];
      assert !IsLineTerminator(s[i + 2]) && !StarPairAt(s, i + 2);
      if i + 1 < |t| {
        assert t[i + 1] == s[i + 3];
      } else {
        assert s[i + 3] == '*';
      }
    }
  }

  /** A string split around an opening and a closing `**`. */
  lemma SplitAround(s: string, j: nat)
    requires 2 <= j && StarPairAt(s, 0) && StarPairAt(s, j)
    ensures s == "**" + s[2..j] + "**" + s[j + 2..]
  {
    assert s[..2] == "**" && s[j..j + 2] == "**";
    assert s == s[..2] + s[2..j] + s[j..j + 2] + s[j + 2..];
  }

  /** The global, leftmost, non-greedy rewrite of `**…**` pairs. Scanning from the
      left, a `**` with a lazy match for its closing `**` becomes one emphasised
      span; any other character stays plain. Written back, the spans give the
      original text; every emphasised span holds a possible lazy capture. */
  function Emphasis(s: string): (r: seq<Span>)
    ensures Flatten(r) == s
    ensures forall sp :: sp in r && sp.Strong? ==> LazyCapture(sp.t)
    ensures forall sp :: sp in r && sp.Plain? ==> sp.t != []
    decreases |s|
  {
    if s == [] then []
    else if StarPairAt(s, 0) && CloseFrom(s, 2).Some? then
      var j := CloseFrom(s, 2).value;
      var rest := Emphasis(s[j + 2..]);
      CaptureIsLazy(s, j);
      SplitAround(s, j);
      FlattenCons(Strong(s[2..j]), rest);
      [Strong(s[2..j])] + rest
    else
      assert s == [s[0]] + s[1..];
      PushPlain(s[0], Emphasis(s[1..]))
  }

  /** A point without any `**` is displayed as one plain span, unchanged. */
  lemma {:induction false} EmphasisWithoutPairs(s: string)
    requires s != [] && NoStarPair(s)
    ensures Emphasis(s) == [Plain(s)]
    decreases |s|
  {
    assert !StarPairAt(s, 0);
    if |s| == 1 {
      assert s == [s[0]];
    } else {
      assert NoStarPair(s[1..]) by {
        forall i | 0 <= i < |s[1..]| ensures !StarPairAt(s[1..], i) {
          assert !StarPairAt(s, i + 1);
        }
      }
      EmphasisWithoutPairs(s[1..]);
      assert [s[0]] + s[1..] == s;
    }
  }

  /** The lazy search started inside a possible capture stops at the first `**`
      after it. */
  lemma {:induction false} CloseFromLazy(t: string, rest: string, k: nat)
    requires LazyCapture(t) && 2 <= k <= |t| + 2
    ensures CloseFrom("**" + t + "**" + rest, k) == Some(|t| + 2)
    decreases |t| + 2 - k
  {
    var s := "**" + t + "**" + rest;
    assert |s| == |t| + 4 + |rest|;
    if k == |t| + 2 {
      assert s[k] == '*' && s[k + 1] == '*';
    } else {
      var i := k - 2;
      assert s[k] == t[i];
      assert !IsLineTerminator(t[i]) && !(t[i] == '*' && (i + 1 == |t| || t[i + 1] == '*'));
      if i + 1 < |t| {
        assert s[k + 1] == t[i + 1];
      } else {
        assert s[k + 1] == '*';
      }
      assert !(s[k] == '*' && s[k + 1] == '*');
      assert CloseFrom(s, k) == CloseFrom(s, k + 1);
      CloseFromLazy(t, rest, k + 1);
    }
  }

  /** A `**` followed by a possible lazy capture and a closing `**` becomes one
      emphasised span holding exactly that capture: the match is the shortest
      one, and scanning resumes after it. */
  lemma EmphasisLazyMatch(t: string, rest: string)
    requires LazyCapture(t)
    ensures Emphasis("**" + t + "**" + rest) == [Strong(t)] + Emphasis(rest)
  {
    var s := "**" + t + "**" + rest;
    CloseFromLazy(t, rest, 2);
    assert StarPairAt(s, 0);
    assert s[2..|t| + 2] == t;
    assert s[|t| + 4..] == rest;
  }

  /** Plain text without `*` in front of a point whose rewrite opens with an
      emphasised span stays one plain span before it. */
  lemma {:induction false} EmphasisPlainPrefix(p: string, x: string)
    requires p != [] && '*' !in p
    requires Emphasis(x) != [] && Emphasis(x)[0].Strong?
    ensures Emphasis(p + x) == [Plain(p)] + Emphasis(x)
    decreases |p|
  {
    var s := p + x;
    assert s[0] == p[0] && s[1..] == p[1..] + x;
    assert !StarPairAt(s, 0);
    if |p| == 1 {
      assert s[1..] == x && [p[0]] == p;
    } else {
      assert '*' !in p[1..];
      EmphasisPlainPrefix(p[1..], x);
      assert [p[0]] + p[1..] == p;
    }
  }

  /** A pair after plain text is matched too: the text before it stays plain,
      the shortest capture becomes one emphasised span, and the scan resumes
      after it. */
  lemma EmphasisAfterPlain(p: string, t: string, rest: string)
    requires p != [] && '*' !in p && LazyCapture(t)
    ensures Emphasis(p + ("**" + t + "**" + rest)) == [Plain(p), Strong(t)] + Emphasis(rest)
  {
    EmphasisLazyMatch(t, rest);
    EmphasisPlainPrefix(p, "**" + t + "**" + rest);
  }
}
