/**
 * What a subscription pattern means, said without a matcher: a pattern is a
 * sequence of terms spelled out, and a name fits it if it can be cut into pieces
 * one of which each term covers.
 */
module PatternLanguage {
  import opened Options
  import opened Glob
  import opened Paths

  /** An end of a range in a class, with or without a backslash before it. */
  datatype End = End(c: char, escaped: bool)

  datatype Range = Single(e: End) | Span(lo: End, hi: End)

  datatype Term = Plain(c: char, escaped: bool) | AnyOne | AnyMany | OneOf(negated: bool, ranges: seq<Range>)

  // ------------------------------------------------------------------ spelling

  function SpelledEnd(e: End): string { if e.escaped then ['\\', e.c] else [e.c] }

  function SpelledRange(r: Range): string {
    match r
    case Single(e) => SpelledEnd(e)
    case Span(lo, hi) => SpelledEnd(lo) + "-" + SpelledEnd(hi)
  }

  function SpelledRanges(rs: seq<Range>): string {
    if rs == [] then "" else SpelledRange(rs[0]) + SpelledRanges(rs[1..])
  }

  function SpelledTerm(t: Term): string {
    match t
    case Plain(c, escaped) => if escaped then ['\\', c] else [c]
    case AnyOne => "?"
    case AnyMany => "*"
    case OneOf(negated, rs) => (if negated then "[^" else "[") + SpelledRanges(rs) + "]"
  }

  function Spelled(ts: seq<Term>): string {
    if ts == [] then "" else SpelledTerm(ts[0]) + Spelled(ts[1..])
  }

  /** Without a backslash, an end is not one of the characters that delimit ranges. */
  predicate GoodEnd(e: End) { !e.escaped ==> e.c != '-' && e.c != ']' && e.c != '\\' }

  predicate GoodRange(r: Range) {
    match r
    case Single(e) => GoodEnd(e)
    case Span(lo, hi) => GoodEnd(lo) && GoodEnd(hi)
  }

  ghost predicate GoodRanges(rs: seq<Range>) { forall i :: 0 <= i < |rs| ==> GoodRange(rs[i]) }

  /** Ordinary characters have no backslash missing; a class has a range, and does not seem negated when it is not. */
  ghost predicate GoodTerm(t: Term) {
    match t
    case Plain(c, escaped) => !escaped ==> c != '*' && c != '?' && c != '[' && c != '\\'
    case OneOf(negated, rs) => rs != [] && GoodRanges(rs) && (!negated ==> SpelledRanges(rs)[..1] != "^")
    case _ => true
  }

  ghost predicate GoodTerms(ts: seq<Term>) { forall i :: 0 <= i < |ts| ==> GoodTerm(ts[i]) }

  // ------------------------------------------------------------------- meaning

  predicate Holds(r: Range, c: char) {
    match r
    case Single(e) => e.c == c
    case Span(lo, hi) => lo.c <= c <= hi.c
  }

  ghost predicate SomeHolds(rs: seq<Range>, c: char) { exists i :: 0 <= i < |rs| && Holds(rs[i], c) }

  /** `*` covers any characters but slashes, `?` one that is no slash, a class one that it does or does not hold. */
  ghost predicate Covers(t: Term, piece: string) {
    match t
    case Plain(c, _) => piece == [c]
    case AnyOne => |piece| == 1 && piece[0] != '/'
    case AnyMany => '/' !in piece
    case OneOf(negated, rs) => |piece| == 1 && SomeHolds(rs, piece[0]) == !negated
  }

  function Concat(pieces: seq<string>): string {
    if pieces == [] then "" else pieces[0] + Concat(pieces[1..])
  }

  ghost predicate CutsTo(ts: seq<Term>, n: string, pieces: seq<string>) {
    |pieces| == |ts| && n == Concat(pieces) && forall i :: 0 <= i < |ts| ==> Covers(ts[i], pieces[i])
  }

  ghost predicate Fits(ts: seq<Term>, n: string) {
    exists pieces :: CutsTo(ts, n, pieces)
  }

  // --------------------------------------------------------------- one by one

  lemma FitsNone(n: string)
    ensures Fits([], n) <==> n == ""
  {
    if n == "" {
      assert CutsTo([], n, []);
    }
  }

  /** The first term covers the first `k` characters, and the other terms fit the rest. */
  ghost predicate FirstTakes(ts: seq<Term>, n: string, k: nat) {
    ts != [] && k <= |n| && Covers(ts[0], n[..k]) && Fits(ts[1..], n[k..])
  }

  lemma FitsFirst(ts: seq<Term>, n: string)
    requires ts != []
    ensures Fits(ts, n) <==> exists k: nat :: FirstTakes(ts, n, k)
  {
    if Fits(ts, n) {
      var pieces :| CutsTo(ts, n, pieces);
      var k := |pieces[0]|;
      assert n[..k] == pieces[0] && n[k..] == Concat(pieces[1..]);
      assert CutsTo(ts[1..], n[k..], pieces[1..]);
      assert FirstTakes(ts, n, k);
    }
    if k: nat :| FirstTakes(ts, n, k) {
      var rest :| CutsTo(ts[1..], n[k..], rest);
      var pieces := [n[..k]] + rest;
      assert pieces[1..] == rest && n == n[..k] + n[k..];
      forall i | 0 <= i < |ts|
        ensures Covers(ts[i], pieces[i])
      {
        if i > 0 {
          assert ts[1..][i - 1] == ts[i];
        }
      }
      assert CutsTo(ts, n, pieces);
    }
  }

  /** A term that covers single characters takes the first one. */
  lemma FitsOne(ts: seq<Term>, n: string)
    requires ts != [] && !ts[0].AnyMany?
    ensures Fits(ts, n) <==> n != "" && Covers(ts[0], n[..1]) && Fits(ts[1..], n[1..])
  {
    FitsFirst(ts, n);
    if k: nat :| FirstTakes(ts, n, k) {
      assert |n[..k]| == 1;
    }
    if n != "" && Covers(ts[0], n[..1]) && Fits(ts[1..], n[1..]) {
      assert FirstTakes(ts, n, 1);
    }
  }

  /** A star takes nothing, or one character more. */
  lemma FitsMany(ts: seq<Term>, n: string)
    requires ts != [] && ts[0].AnyMany?
    ensures Fits(ts, n) <==> Fits(ts[1..], n) || (n != "" && n[0] != '/' && Fits(ts, n[1..]))
  {
    FitsFirst(ts, n);
    assert n[0..] == n;
    if k: nat :| FirstTakes(ts, n, k) {
      if k > 0 {
        assert n[..k][0] == n[0] && forall c :: c in n[1..][..k - 1] ==> c in n[..k];
        assert n[1..][k - 1..] == n[k..];
        assert FirstTakes(ts, n[1..], k - 1);
        FitsFirst(ts, n[1..]);
      }
    }
    if Fits(ts[1..], n) {
      assert FirstTakes(ts, n, 0);
    }
    if n != "" && n[0] != '/' && Fits(ts, n[1..]) {
      FitsFirst(ts, n[1..]);
      var k: nat :| FirstTakes(ts, n[1..], k);
      assert n[..k + 1] == [n[0]] + n[1..][..k] && n[k + 1..] == n[1..][k..];
      assert FirstTakes(ts, n, k + 1);
    }
  }

  // ------------------------------------------------------------------- classes

  lemma EndIs(e: End, rest: string)
    requires GoodEnd(e) && rest != ""
    ensures ClassChar(SpelledEnd(e) + rest) == Some((e.c, rest))
    ensures (SpelledEnd(e) + rest)[0] != ']' && (SpelledEnd(e) + rest)[0] != '-'
  {
    var p := SpelledEnd(e) + rest;
    if e.escaped {
      assert p[2..] == rest;
    } else {
      assert p[1..] == rest;
    }
  }

  lemma SomeHoldsFirst(rs: seq<Range>, c: char)
    requires rs != []
    ensures SomeHolds(rs, c) <==> Holds(rs[0], c) || SomeHolds(rs[1..], c)
  {
    if i :| 0 <= i < |rs| && Holds(rs[i], c) {
      assert i > 0 ==> rs[1..][i - 1] == rs[i];
    }
    if i :| 0 <= i < |rs[1..]| && Holds(rs[1..][i], c) {
      assert rs[i + 1] == rs[1..][i];
    }
  }

  /** What follows a spelled range in a class is neither nothing nor a hyphen. */
  lemma RangesStart(rs: seq<Range>, rest: string)
    requires GoodRanges(rs)
    ensures var p := SpelledRanges(rs) + "]" + rest; p != "" && p[0] != '-' && (p[0] == ']' <==> rs == [])
  {
    if rs != [] {
      assert GoodRange(rs[0]);
    }
  }

  lemma SingleStep(e: End, tail: string, first: bool, c: char, hit: bool)
    requires GoodEnd(e) && tail != "" && tail[0] != '-'
    ensures ClassRanges(SpelledEnd(e) + tail, first, c, hit) == ClassRanges(tail, false, c, hit || e.c == c)
  {
    EndIs(e, tail);
  }

  lemma SpanStep(lo: End, hi: End, tail: string, first: bool, c: char, hit: bool)
    requires GoodEnd(lo) && GoodEnd(hi) && tail != ""
    ensures ClassRanges(SpelledEnd(lo) + "-" + SpelledEnd(hi) + tail, first, c, hit) ==
            ClassRanges(tail, false, c, hit || lo.c <= c <= hi.c)
  {
    var mid := "-" + (SpelledEnd(hi) + tail);
    assert SpelledEnd(lo) + "-" + SpelledEnd(hi) + tail == SpelledEnd(lo) + mid;
    assert mid[0] == '-' && mid[1..] == SpelledEnd(hi) + tail;
    EndIs(lo, mid);
    EndIs(hi, tail);
  }

  lemma RangeStep(r: Range, tail: string, first: bool, c: char, hit: bool)
    requires GoodRange(r) && tail != "" && tail[0] != '-'
    ensures ClassRanges(SpelledRange(r) + tail, first, c, hit) == ClassRanges(tail, false, c, hit || Holds(r, c))
  {
    match r
    case Single(e) => SingleStep(e, tail, first, c, hit);
    case Span(lo, hi) => SpanStep(lo, hi, tail, first, c, hit);
  }

  lemma ClassEnd(rest: string, c: char, hit: bool)
    ensures ClassRanges("]" + rest, false, c, hit) == Some((hit, rest))
  {
    var p := "]" + rest;
    assert p[0] == ']' && p[1..] == rest;
  }

  lemma {:induction false} RangesAre(rs: seq<Range>, rest: string, first: bool, c: char, hit: bool)
    requires GoodRanges(rs) && (first ==> rs != [])
    ensures ClassRanges(SpelledRanges(rs) + "]" + rest, first, c, hit) == Some((hit || SomeHolds(rs, c), rest))
    decreases |rs|
  {
    if rs == [] {
      assert SpelledRanges(rs) + "]" + rest == "]" + rest;
      ClassEnd(rest, c, hit);
    } else {
      var tail := SpelledRanges(rs[1..]) + "]" + rest;
      assert GoodRange(rs[0]);
      RangesStart(rs[1..], rest);
      SomeHoldsFirst(rs, c);
      assert SpelledRanges(rs) + "]" + rest == SpelledRange(rs[0]) + tail;
      RangeStep(rs[0], tail, first, c, hit);
      RangesAre(rs[1..], rest, false, c, hit || Holds(rs[0], c));
    }
  }

  lemma Negated(body: string, c: char)
    requires ClassRanges(body, true, c, false).Some?
    ensures Class("^" + body, c) ==
            Some((!ClassRanges(body, true, c, false).value.0, ClassRanges(body, true, c, false).value.1))
  {
    assert ("^" + body)[0] == '^' && ("^" + body)[1..] == body;
  }

  lemma NotNegated(body: string, c: char)
    requires body != "" && body[0] != '^'
    ensures Class(body, c) == ClassRanges(body, true, c, false)
  {
  }

  lemma SpelledClass(negated: bool, rs: seq<Range>, rest: string)
    ensures var body := SpelledRanges(rs) + "]" + rest;
            (SpelledTerm(OneOf(negated, rs)) + rest)[1..] == if negated then "^" + body else body
  {
  }

  lemma ClassStart(rs: seq<Range>, rest: string)
    requires rs != [] && SpelledRanges(rs)[..1] != "^"
    ensures var body := SpelledRanges(rs) + "]" + rest; body != "" && body[0] != '^'
  {
    SpelledNonempty(rs);
    assert SpelledRanges(rs)[..1] == [SpelledRanges(rs)[0]];
  }

  lemma ClassIs(negated: bool, rs: seq<Range>, rest: string, c: char)
    requires GoodTerm(OneOf(negated, rs))
    ensures var t := OneOf(negated, rs);
            Class((SpelledTerm(t) + rest)[1..], c) == Some((SomeHolds(rs, c) == !negated, rest))
  {
    var body := SpelledRanges(rs) + "]" + rest;
    RangesAre(rs, rest, true, c, false);
    SpelledClass(negated, rs, rest);
    if negated {
      Negated(body, c);
    } else {
      ClassStart(rs, rest);
      NotNegated(body, c);
    }
  }

  lemma SpelledNonempty(rs: seq<Range>)
    requires rs != []
    ensures SpelledRanges(rs) != ""
  {
  }

  // ----------------------------------------------------- the matcher, both ways

  lemma SpelledTail(ts: seq<Term>)
    requires ts != [] && GoodTerms(ts)
    ensures GoodTerm(ts[0]) && GoodTerms(ts[1..]) && Spelled(ts) == SpelledTerm(ts[0]) + Spelled(ts[1..])
    ensures |Spelled(ts[1..])| < |Spelled(ts)|
    ensures Spelled(ts)[0] == '*' <==> ts[0].AnyMany?
  {
    assert forall i :: 0 <= i < |ts[1..]| ==> ts[1..][i] == ts[i + 1];
  }

  lemma MatchClass(negated: bool, rs: seq<Range>, q: string, n: string)
    requires GoodTerm(OneOf(negated, rs)) && n != ""
    ensures Match(SpelledTerm(OneOf(negated, rs)) + q, n) <==> SomeHolds(rs, n[0]) == !negated && Match(q, n[1..])
  {
    var p := SpelledTerm(OneOf(negated, rs)) + q;
    ClassIs(negated, rs, q, n[0]);
    assert p[0] == '[';
  }

  /** For a term other than a star: it takes the first character or the match fails. */
  lemma MatchOne(t: Term, q: string, n: string)
    requires GoodTerm(t) && !t.AnyMany?
    ensures Match(SpelledTerm(t) + q, n) <==> n != "" && Covers(t, n[..1]) && Match(q, n[1..])
  {
    var p := SpelledTerm(t) + q;
    if n != "" {
      assert n[..1] == [n[0]];
      match t
      case Plain(c, escaped) =>
        if escaped {
          assert p[0] == '\\' && p[1] == c && p[2..] == q;
        } else {
          assert p[0] == c && p[1..] == q;
        }
      case AnyOne => assert p[0] == '?' && p[1..] == q;
      case OneOf(negated, rs) => MatchClass(negated, rs, q, n);
    } else {
      assert p != "" && p[0] != '*';
    }
  }

  /** A spelled pattern matches exactly the names that its terms fit. */
  lemma {:induction false} SpelledMatches(ts: seq<Term>, n: string)
    requires GoodTerms(ts)
    ensures Match(Spelled(ts), n) <==> Fits(ts, n)
    decreases |ts|, |n|
  {
    if ts == [] {
      FitsNone(n);
    } else {
      SpelledTail(ts);
      if ts[0].AnyMany? {
        assert Spelled(ts)[1..] == Spelled(ts[1..]);
        FitsMany(ts, n);
        SpelledMatches(ts[1..], n);
        if n != "" {
          SpelledMatches(ts, n[1..]);
        }
      } else {
        FitsOne(ts, n);
        MatchOne(ts[0], Spelled(ts[1..]), n);
        if n != "" {
          SpelledMatches(ts[1..], n[1..]);
        }
      }
    }
  }

  // Whatever matches something is a spelled pattern.

  lemma EndOf(p: string) returns (e: End)
    requires ClassChar(p).Some?
    ensures GoodEnd(e) && e.c == ClassChar(p).value.0 && p == SpelledEnd(e) + ClassChar(p).value.1
  {
    if p[0] == '\\' {
      e := End(p[1], true);
      assert p == [p[0], p[1]] + p[2..];
    } else {
      e := End(p[0], false);
      assert p == [p[0]] + p[1..];
    }
  }

  lemma SingleFirst(p: string, first: bool, c: char, hit: bool)
    requires first || p == "" || p[0] != ']'
    requires ClassChar(p).Some? && ClassChar(p).value.1[0] != '-'
    ensures var (lo, p1) := ClassChar(p).value;
            ClassRanges(p, first, c, hit) == ClassRanges(p1, false, c, hit || lo == c)
  {
  }

  lemma SpanFirst(p: string, first: bool, c: char, hit: bool)
    requires first || p == "" || p[0] != ']'
    requires ClassChar(p).Some? && ClassChar(p).value.1[0] == '-' && ClassChar(ClassChar(p).value.1[1..]).Some?
    ensures var (lo, p1) := ClassChar(p).value;
            var (hi, p2) := ClassChar(p1[1..]).value;
            ClassRanges(p, first, c, hit) == ClassRanges(p2, false, c, hit || lo <= c <= hi)
  {
  }

  lemma FirstOf(p: string, first: bool, c: char, hit: bool)
    requires ClassRanges(p, first, c, hit).Some? && (first || p == "" || p[0] != ']')
    ensures ClassChar(p).Some?
    ensures ClassChar(p).value.1[0] == '-' ==> ClassChar(ClassChar(p).value.1[1..]).Some?
  {
  }

  lemma SpelledSpan(lo: End, hi: End, q: string)
    ensures SpelledRange(Span(lo, hi)) + q == SpelledEnd(lo) + ("-" + (SpelledEnd(hi) + q))
  {
  }

  lemma SpanOf(p: string) returns (r: Range, q: string)
    requires ClassChar(p).Some? && ClassChar(p).value.1[0] == '-' && ClassChar(ClassChar(p).value.1[1..]).Some?
    ensures GoodRange(r) && p == SpelledRange(r) + q && q == ClassChar(ClassChar(p).value.1[1..]).value.1
    ensures r.Span? && r.lo.c == ClassChar(p).value.0 && r.hi.c == ClassChar(ClassChar(p).value.1[1..]).value.0
  {
    var p1 := ClassChar(p).value.1;
    var lo := EndOf(p);
    var hi := EndOf(p1[1..]);
    r, q := Span(lo, hi), ClassChar(p1[1..]).value.1;
    assert p1 == "-" + p1[1..];
    SpelledSpan(lo, hi, q);
  }

  /** The first range of a class, and what is left. */
  lemma RangeOf(p: string, first: bool, c: char, hit: bool) returns (r: Range, q: string)
    requires ClassRanges(p, first, c, hit).Some? && (first || p == "" || p[0] != ']')
    ensures GoodRange(r) && p == SpelledRange(r) + q && |q| < |p|
    ensures ClassRanges(p, first, c, hit) == ClassRanges(q, false, c, hit || Holds(r, c))
  {
    FirstOf(p, first, c, hit);
    if ClassChar(p).value.1[0] == '-' {
      SpanFirst(p, first, c, hit);
      r, q := SpanOf(p);
    } else {
      SingleFirst(p, first, c, hit);
      var lo := EndOf(p);
      r, q := Single(lo), ClassChar(p).value.1;
    }
  }

  lemma SpelledMore(r: Range, more: seq<Range>, rest: string)
    ensures SpelledRanges([r] + more) + "]" + rest == SpelledRange(r) + (SpelledRanges(more) + "]" + rest)
  {
    assert ([r] + more)[1..] == more;
  }

  lemma {:induction false} RangesOf(p: string, first: bool, c: char, hit: bool, rest: string) returns (rs: seq<Range>)
    requires ClassRanges(p, first, c, hit).Some? && ClassRanges(p, first, c, hit).value.1 == rest
    ensures GoodRanges(rs) && (first ==> rs != []) && p == SpelledRanges(rs) + "]" + rest
    decreases |p|
  {
    if !first && p != "" && p[0] == ']' {
      rs := [];
      assert p == [p[0]] + p[1..];
    } else {
      var r, q := RangeOf(p, first, c, hit);
      var more := RangesOf(q, false, c, hit || Holds(r, c), rest);
      rs := [r] + more;
      SpelledMore(r, more, rest);
    }
  }

  lemma NegatedOf(p: string, c: char) returns (rs: seq<Range>)
    requires Class(p, c).Some? && p[0] == '^'
    ensures GoodTerm(OneOf(true, rs)) && p == "^" + (SpelledRanges(rs) + "]" + Class(p, c).value.1)
  {
    rs := RangesOf(p[1..], true, c, false, Class(p, c).value.1);
    assert p == "^" + p[1..];
  }

  lemma NotNegatedOf(p: string, c: char) returns (rs: seq<Range>)
    requires Class(p, c).Some? && p[0] != '^'
    ensures GoodTerm(OneOf(false, rs)) && p == SpelledRanges(rs) + "]" + Class(p, c).value.1
  {
    rs := RangesOf(p, true, c, false, Class(p, c).value.1);
    SpelledNonempty(rs);
    assert SpelledRanges(rs)[..1] == [p[0]];
  }

  lemma ClassOf(p: string, c: char) returns (t: Term)
    requires Class(p, c).Some?
    ensures GoodTerm(t) && t.OneOf? && "[" + p == SpelledTerm(t) + Class(p, c).value.1
  {
    var rest := Class(p, c).value.1;
    var rs: seq<Range>;
    if p[0] == '^' {
      rs := NegatedOf(p, c);
    } else {
      rs := NotNegatedOf(p, c);
    }
    t := OneOf(p[0] == '^', rs);
    SpelledWhole(p[0] == '^', rs, rest);
  }

  lemma SpelledWhole(negated: bool, rs: seq<Range>, rest: string)
    ensures var body := SpelledRanges(rs) + "]" + rest;
            SpelledTerm(OneOf(negated, rs)) + rest == "[" + if negated then "^" + body else body
  {
  }

  /** The first term of a pattern that matches, and what is left of the pattern. */
  lemma TermOf(p: string, n: string) returns (t: Term, q: string)
    requires p != "" && Match(p, n) && p[0] != '*'
    ensures GoodTerm(t) && !t.AnyMany? && p == SpelledTerm(t) + q && n != "" && Match(q, n[1..]) && |q| < |p|
  {
    if p[0] == '?' {
      t, q := AnyOne, p[1..];
    } else if p[0] == '\\' {
      t, q := Plain(p[1], true), p[2..];
    } else if p[0] == '[' {
      t := ClassOf(p[1..], n[0]);
      q := Class(p[1..], n[0]).value.1;
      assert p == "[" + p[1..];
    } else {
      t, q := Plain(p[0], false), p[1..];
    }
  }

  lemma {:induction false} TermsOf(p: string, n: string) returns (ts: seq<Term>)
    requires Match(p, n)
    ensures GoodTerms(ts) && Spelled(ts) == p
    decreases |p|, |n|
  {
    if p == "" {
      ts := [];
    } else if p[0] == '*' {
      if Match(p[1..], n) {
        var rest := TermsOf(p[1..], n);
        ts := [AnyMany] + rest;
        assert ts[1..] == rest && p == "*" + p[1..];
      } else {
        ts := TermsOf(p, n[1..]);
      }
    } else {
      var t, q := TermOf(p, n);
      var rest := TermsOf(q, n[1..]);
      ts := [t] + rest;
      assert ts[1..] == rest;
    }
  }

  /** The pattern can be spelled in terms that fit the name. */
  ghost predicate Means(p: string, n: string) {
    exists ts :: GoodTerms(ts) && Spelled(ts) == p && Fits(ts, n)
  }

  /** The matcher and the meaning of patterns agree on every pattern and every name. */
  lemma MatchExactly(p: string, n: string)
    ensures Match(p, n) <==> Means(p, n)
  {
    if Match(p, n) {
      var ts := TermsOf(p, n);
      SpelledMatches(ts, n);
    }
    if ts :| GoodTerms(ts) && Spelled(ts) == p && Fits(ts, n) {
      SpelledMatches(ts, n);
    }
  }

  // ----------------------------------------------------------- names and stars

  /** Pieces with a gap between each two. */
  function Woven(pieces: seq<string>, gaps: seq<string>): string
    requires |pieces| == |gaps| + 1
  {
    if gaps == [] then pieces[0] else pieces[0] + gaps[0] + Woven(pieces[1..], gaps[1..])
  }

  /** `n` is the pieces in order, with gaps free of slashes between them. */
  ghost predicate Spans(pieces: seq<string>, n: string) {
    exists gaps: seq<string> :: GapsIn(pieces, n, gaps)
  }

  ghost predicate GapsIn(pieces: seq<string>, n: string, gaps: seq<string>) {
    |pieces| == |gaps| + 1 && (forall i :: 0 <= i < |gaps| ==> '/' !in gaps[i]) && n == Woven(pieces, gaps)
  }

  lemma {:induction false} LiteralThen(a: string, q: string, n: string)
    requires Literal(a)
    ensures Match(a + q, n) <==> a <= n && Match(q, n[|a|..])
    decreases |a|
  {
    if a == "" {
      assert a + q == q && n[0..] == n;
    } else {
      assert a[0] in a && forall c :: c in a[1..] ==> c in a;
      assert (a + q)[0] == a[0] && (a + q)[1..] == a[1..] + q;
      if n != "" && a[0] == n[0] {
        LiteralThen(a[1..], q, n[1..]);
        assert a <= n <==> a[1..] <= n[1..];
        assert a[1..] <= n[1..] ==> n[1..][|a| - 1..] == n[|a|..];
      }
    }
  }

  ghost predicate GapOf(q: string, n: string, k: nat) {
    k <= |n| && '/' !in n[..k] && Match(q, n[k..])
  }

  lemma {:induction false} StarThen(q: string, n: string)
    ensures Match("*" + q, n) <==> exists k: nat :: GapOf(q, n, k)
    decreases |n|
  {
    var p := "*" + q;
    assert p[0] == '*' && p[1..] == q && n[0..] == n;
    if n != "" {
      StarThen(q, n[1..]);
    }
    if k: nat :| GapOf(q, n, k) {
      if k > 0 {
        assert n[..k][0] == n[0] && forall c :: c in n[1..][..k - 1] ==> c in n[..k];
        assert n[1..][k - 1..] == n[k..];
        assert GapOf(q, n[1..], k - 1);
      }
    }
    if Match(p, n) {
      if Match(q, n) {
        assert GapOf(q, n, 0);
      } else {
        var k: nat :| GapOf(q, n[1..], k);
        assert n[..k + 1] == [n[0]] + n[1..][..k] && n[k + 1..] == n[1..][k..];
        assert GapOf(q, n, k + 1);
      }
    }
  }

  ghost predicate AllLiteral(pieces: seq<string>) { forall i :: 0 <= i < |pieces| ==> Literal(pieces[i]) }

  lemma SpansRest(pieces: seq<string>, n: string, k: nat)
    requires |pieces| > 1 && pieces[0] <= n && k <= |n| - |pieces[0]|
    requires '/' !in n[|pieces[0]|..][..k] && Spans(pieces[1..], n[|pieces[0]|..][k..])
    ensures Spans(pieces, n)
  {
    var m := n[|pieces[0]|..];
    var rest :| GapsIn(pieces[1..], m[k..], rest);
    var gaps := [m[..k]] + rest;
    assert gaps[1..] == rest && n == pieces[0] + m[..k] + m[k..];
    assert GapsIn(pieces, n, gaps);
  }

  lemma SpansSplit(pieces: seq<string>, n: string) returns (k: nat)
    requires |pieces| > 1 && Spans(pieces, n)
    ensures pieces[0] <= n && k <= |n| - |pieces[0]|
    ensures '/' !in n[|pieces[0]|..][..k] && Spans(pieces[1..], n[|pieces[0]|..][k..])
  {
    var gaps :| GapsIn(pieces, n, gaps);
    k := |gaps[0]|;
    var m := n[|pieces[0]|..];
    assert n == pieces[0] + (gaps[0] + Woven(pieces[1..], gaps[1..]));
    assert m[..k] == gaps[0] && m[k..] == Woven(pieces[1..], gaps[1..]);
    assert GapsIn(pieces[1..], m[k..], gaps[1..]);
  }

  lemma {:induction false} JoinedAreGaps(pieces: seq<string>, n: string)
    requires pieces != [] && AllLiteral(pieces)
    ensures Match(Join(pieces, '*'), n) <==> Spans(pieces, n)
    decreases |pieces|
  {
    var a := pieces[0];
    if |pieces| == 1 {
      LiteralMatchesItself(a, n);
      if a == n {
        assert GapsIn(pieces, n, []);
      }
      if gaps :| GapsIn(pieces, n, gaps) {
        assert gaps == [];
      }
    } else {
      var q := Join(pieces[1..], '*');
      assert Join(pieces, '*') == a + ("*" + q);
      LiteralThen(a, "*" + q, n);
      if a <= n {
        var m := n[|a|..];
        StarThen(q, m);
        if k: nat :| GapOf(q, m, k) {
          JoinedAreGaps(pieces[1..], m[k..]);
          SpansRest(pieces, n, k);
        }
      }
      if Spans(pieces, n) {
        var k := SpansSplit(pieces, n);
        JoinedAreGaps(pieces[1..], n[|a|..][k..]);
        assert GapOf(q, n[|a|..], k);
      }
    }
  }

  lemma {:induction false} JoinHas(pieces: seq<string>, sep: char, i: nat, c: char)
    requires i < |pieces| && c in pieces[i]
    ensures c in Join(pieces, sep)
    decreases |pieces|
  {
    if i > 0 {
      JoinHas(pieces[1..], sep, i - 1, c);
    }
  }

  lemma PiecesAreLiteral(p: string)
    requires '?' !in p && '[' !in p && '\\' !in p
    ensures AllLiteral(Split(p, '*'))
  {
    var pieces := Split(p, '*');
    SplitJoins(p, '*');
    forall i, c | 0 <= i < |pieces| && c in pieces[i]
      ensures c in p
    {
      JoinHas(pieces, '*', i, c);
    }
  }

  /**
   * A pattern of ordinary characters and stars matches a name if and only if the
   * name is the pieces between the stars, in order, with gaps free of slashes.
   */
  lemma StarsAreGaps(p: string, n: string)
    requires '?' !in p && '[' !in p && '\\' !in p
    ensures Match(p, n) <==> Spans(Split(p, '*'), n)
  {
    PiecesAreLiteral(p);
    SplitJoins(p, '*');
    JoinedAreGaps(Split(p, '*'), n);
  }
}
