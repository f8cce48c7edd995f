/**
 * Subscription patterns. `Match` is the pattern language the project documents
 * for subscribes (filepath.Match); `IndexMatch` is what the broker's two
 * subscriber maps do with a pattern.
 */
module Glob {
  import opened Options

  predicate IsSuffix(t: string, p: string) {
    |t| <= |p| && t == p[|p| - |t|..]
  }

  lemma SuffixOfSuffix(r: string, t: string, p: string)
    requires IsSuffix(r, t) && IsSuffix(t, p)
    ensures IsSuffix(r, p)
  {
  }

  /** One possibly escaped character of a class; a class may not end here. */
  function ClassChar(p: string): (r: Option<(char, string)>)
    ensures r.Some? ==> 0 < |r.value.1| < |p| && IsSuffix(r.value.1, p)
  {
    if p == "" || p[0] == '-' || p[0] == ']' then None
    else if p[0] == '\\' then
      if |p| <= 2 then None else Some((p[1], p[2..]))
    else
      if |p| == 1 then None else Some((p[0], p[1..]))
  }

  /** The ranges of a class, up to and including its `]`: whether one holds `c`, and the rest. */
  function ClassRanges(p: string, first: bool, c: char, hit: bool): (r: Option<(bool, string)>)
    ensures r.Some? ==> |r.value.1| + (if first then 2 else 1) <= |p| && IsSuffix(r.value.1, p)
    decreases |p|
  {
    if !first && p != "" && p[0] == ']' then Some((hit, p[1..]))
    else
      match ClassChar(p)
      case None => None
      case Some((lo, p1)) =>
        if p1[0] == '-' then
          match ClassChar(p1[1..])
          case None => None
          case Some((hi, p2)) =>
            SuffixOfSuffix(p2, p1[1..], p);
            var r := ClassRanges(p2, false, c, hit || lo <= c <= hi);
            if r.Some? then (SuffixOfSuffix(r.value.1, p2, p); r) else None
        else
          var r := ClassRanges(p1, false, c, hit || lo == c);
          if r.Some? then (SuffixOfSuffix(r.value.1, p1, p); r) else None
  }

  /** A class, `p` starting after its `[`: whether it accepts `c`, and the rest of the pattern. */
  function Class(p: string, c: char): (r: Option<(bool, string)>)
    ensures r.Some? ==> |r.value.1| + 1 < |p| && IsSuffix(r.value.1, p)
  {
    if p != "" && p[0] == '^' then
      match ClassRanges(p[1..], true, c, false)
      case None => None
      case Some((hit, rest)) => Some((!hit, rest))
    else ClassRanges(p, true, c, false)
  }

  /** Whether all of `n` matches `p`; a malformed pattern matches nothing. */
  predicate Match(p: string, n: string)
    decreases |p|, |n|
  {
    if p == "" then n == ""
    else if p[0] == '*' then Match(p[1..], n) || (n != "" && n[0] != '/' && Match(p, n[1..]))
    else if n == "" then false
    else if p[0] == '?' then n[0] != '/' && Match(p[1..], n[1..])
    else if p[0] == '\\' then |p| >= 2 && p[1] == n[0] && Match(p[2..], n[1..])
    else if p[0] == '[' then
      match Class(p[1..], n[0])
      case None => false
      case Some((hit, rest)) => hit && Match(rest, n[1..])
    else p[0] == n[0] && Match(p[1..], n[1..])
  }

  predicate HasStar(p: string) { '*' in p }

  /** A pattern of ordinary characters only. */
  predicate Literal(p: string) { '*' !in p && '?' !in p && '[' !in p && '\\' !in p }

  /** A pattern with a star is matched; any other is a key looked up by the event's name. */
  predicate IndexMatch(p: string, n: string) {
    if HasStar(p) then Match(p, n) else p == n
  }

  lemma {:induction false} LiteralMatchesItself(p: string, n: string)
    requires Literal(p)
    ensures Match(p, n) <==> p == n
    decreases |p|
  {
    if p != "" && n != "" {
      assert p[0] in p && forall c :: c in p[1..] ==> c in p;
      LiteralMatchesItself(p[1..], n[1..]);
      assert p == [p[0]] + p[1..] && n == [n[0]] + n[1..];
    }
  }

  /** Without stars each term takes one character, and classes and escapes are longer than that. */
  lemma {:induction false} MatchedLength(p: string, n: string)
    requires '*' !in p && Match(p, n)
    ensures |n| <= |p|
    ensures '[' in p || '\\' in p ==> |n| < |p|
    decreases |p|
  {
    if p != "" {
      var rest :=
        if p[0] == '\\' then p[2..]
        else if p[0] == '[' then Class(p[1..], n[0]).value.1
        else p[1..];
      assert p[0] in p && forall c :: c in rest ==> c in p;
      assert p == [p[0]] + p[1..];
      MatchedLength(rest, n[1..]);
    }
  }

  /** The pattern with a letter in place of each `?`. */
  function Fill(p: string): string {
    seq(|p|, i requires 0 <= i < |p| => if p[i] == '?' then 'x' else p[i])
  }

  lemma {:induction false} FillMatches(p: string)
    requires '*' !in p && '[' !in p && '\\' !in p
    ensures Match(p, Fill(p))
  {
    if p != "" {
      assert p[0] in p && forall c :: c in p[1..] ==> c in p;
      FillMatches(p[1..]);
      assert Fill(p)[1..] == Fill(p[1..]);
    }
  }

  /**
   * The indexes honour the documented pattern language for every event exactly
   * when the pattern has a star or is a plain name: `?`, classes and escapes
   * are taken literally in a pattern without a star.
   */
  lemma IndexHonoursPattern(p: string)
    ensures (forall n :: IndexMatch(p, n) <==> Match(p, n)) <==> '*' in p || Literal(p)
  {
    if HasStar(p) {
    } else if Literal(p) {
      forall n
        ensures IndexMatch(p, n) <==> Match(p, n)
      {
        LiteralMatchesItself(p, n);
      }
    } else if '[' in p || '\\' in p {
      if Match(p, p) {
        MatchedLength(p, p);
      }
      assert IndexMatch(p, p) && !Match(p, p);
    } else {
      FillMatches(p);
      var i :| 0 <= i < |p| && p[i] == '?';
      assert Fill(p)[i] != p[i];
      assert !IndexMatch(p, Fill(p)) && Match(p, Fill(p));
    }
  }

  /** Topics without a `/` are all matched by a prefix followed by a star. */
  lemma {:induction false} StarTail(n: string)
    requires '/' !in n
    ensures Match("*", n)
    decreases |n|
  {
    assert "*"[1..] == "";
    if n != "" {
      assert n[0] in n && forall c :: c in n[1..] ==> c in n;
      StarTail(n[1..]);
    }
  }

  lemma {:induction false} PrefixStar(prefix: string, n: string)
    requires Literal(prefix) && '/' !in n
    ensures Match(prefix + "*", prefix + n)
    decreases |prefix|
  {
    if prefix == "" {
      StarTail(n);
      assert prefix + "*" == "*" && prefix + n == n;
    } else {
      assert prefix[0] in prefix && forall c :: c in prefix[1..] ==> c in prefix;
      PrefixStar(prefix[1..], n);
      assert (prefix + "*")[1..] == prefix[1..] + "*" && (prefix + n)[1..] == prefix[1..] + n;
    }
  }
}
