/** Service paths: `service.method` and `service/identification.method`. */
module Paths {

  /** `strings.Split` on one separator. */
  function Split(s: string, sep: char): (pieces: seq<string>)
    ensures pieces != []
    ensures sep !in pieces[0]
  {
    if s == "" then [""]
    else
      var rest := Split(s[1..], sep);
      if s[0] == sep then [""] + rest else [[s[0]] + rest[0]] + rest[1..]
  }

  function Join(pieces: seq<string>, sep: char): string
    requires pieces != []
  {
    if |pieces| == 1 then pieces[0] else pieces[0] + [sep] + Join(pieces[1..], sep)
  }

  /** How many separators there are. */
  function Count(s: string, c: char): nat {
    if s == "" then 0 else (if s[0] == c then 1 else 0) + Count(s[1..], c)
  }

  function ParseServicePath(path: string): (r: (string, string)) {
    var service := Split(path, '.')[0];
    var parts := Split(service, '/');
    if |parts| == 2 then (parts[0], parts[1]) else (service, "")
  }

  /** Splitting is the one way to write `s` as pieces without separators, joined. */
  lemma {:induction false} SplitJoins(s: string, sep: char)
    ensures Join(Split(s, sep), sep) == s
    ensures |Split(s, sep)| == Count(s, sep) + 1
    ensures forall i :: 0 <= i < |Split(s, sep)| ==> sep !in Split(s, sep)[i]
  {
    if s != "" {
      SplitJoins(s[1..], sep);
      var rest := Split(s[1..], sep);
      assert s == [s[0]] + s[1..];
      if s[0] != sep {
        var first := [s[0]] + rest[0];
        assert Split(s, sep)[1..] == rest[1..];
        if |rest| > 1 {
          assert first + [sep] + Join(rest[1..], sep) == [s[0]] + (rest[0] + [sep] + Join(rest[1..], sep));
        }
      } else {
        assert Split(s, sep)[1..] == rest;
      }
    }
  }

  lemma {:induction false} SplitAtFirst(a: string, sep: char, b: string)
    requires sep !in a
    ensures Split(a + [sep] + b, sep) == [a] + Split(b, sep)
  {
    var s := a + [sep] + b;
    if a == "" {
      assert s[1..] == b;
    } else {
      assert s[1..] == a[1..] + [sep] + b;
      SplitAtFirst(a[1..], sep, b);
      assert [a[0]] + a[1..] == a;
    }
  }

  lemma {:induction false} SplitNone(s: string, sep: char)
    requires sep !in s
    ensures Split(s, sep) == [s]
  {
    if s != "" {
      SplitNone(s[1..], sep);
      assert s == [s[0]] + s[1..];
    }
  }

  lemma {:induction false} CountZero(s: string, c: char)
    ensures Count(s, c) == 0 <==> c !in s
  {
    if s != "" {
      CountZero(s[1..], c);
      assert s == [s[0]] + s[1..];
    }
  }

  lemma {:induction false} CountConcat(a: string, b: string, c: char)
    ensures Count(a + b, c) == Count(a, c) + Count(b, c)
  {
    if a == "" {
      assert a + b == b;
    } else {
      assert (a + b)[1..] == a[1..] + b;
      CountConcat(a[1..], b, c);
    }
  }

  /** What comes back never has a dot in it. */
  lemma ParsedHasNoDot(path: string)
    ensures '.' !in ParseServicePath(path).0 && '.' !in ParseServicePath(path).1
  {
    var service := Split(path, '.')[0];
    var parts := Split(service, '/');
    SplitJoins(service, '/');
    if |parts| == 2 {
      assert service == parts[0] + ['/'] + Join(parts[1..], '/');
      assert forall c :: c in parts[0] || c in parts[1] ==> c in service;
    }
  }

  /** The part of a path before its first dot decides; what follows the dot does not matter. */
  lemma MethodIgnored(service: string, call: string)
    requires '.' !in service
    ensures ParseServicePath(service + "." + call) == ParseServicePath(service)
  {
    SplitAtFirst(service, '.', call);
    SplitNone(service, '.');
  }

  /** A bare name is read back, with no identification, unless it has a dot or exactly one slash. */
  lemma NameRoundTrip(name: string)
    ensures ParseServicePath(name) == (name, "") <==> '.' !in name && Count(name, '/') != 1
  {
    ParsedHasNoDot(name);
    if '.' !in name {
      SplitNone(name, '.');
      SplitJoins(name, '/');
      if Count(name, '/') == 1 {
        var parts := Split(name, '/');
        assert name == parts[0] + ['/'] + Join(parts[1..], '/');
      }
    }
  }

  /** `name.method` */
  lemma MethodPathRoundTrip(name: string, call: string)
    ensures ParseServicePath(name + "." + call) == (name, "") <==> '.' !in name && Count(name, '/') != 1
  {
    ParsedHasNoDot(name + "." + call);
    if '.' !in name {
      MethodIgnored(name, call);
      NameRoundTrip(name);
    }
  }

  /** `name/identification`, as services are listed. */
  lemma PairRoundTrip(name: string, ident: string)
    ensures ParseServicePath(name + "/" + ident) == (name, ident) <==>
            '.' !in name && '.' !in ident && '/' !in name && '/' !in ident
  {
    var service := name + "/" + ident;
    ParsedHasNoDot(service);
    if '.' !in name && '.' !in ident {
      assert '.' !in service;
      SplitNone(service, '.');
      SplitJoins(service, '/');
      CountConcat(name + "/", ident, '/');
      CountConcat(name, "/", '/');
      CountZero(name, '/');
      CountZero(ident, '/');
      if '/' !in name && '/' !in ident {
        SplitAtFirst(name, '/', ident);
        SplitNone(ident, '/');
      }
    }
  }

  /**
   * `name/identification.method`, and the form requests are printed in, which
   * goes on with a parenthesis: read back exactly for names and identifications
   * free of dots and slashes, whatever comes after the dot.
   */
  lemma RequestPathRoundTrip(name: string, ident: string, rest: string)
    ensures ParseServicePath(name + "/" + ident + "." + rest) == (name, ident) <==>
            '.' !in name && '.' !in ident && '/' !in name && '/' !in ident
  {
    ParsedHasNoDot(name + "/" + ident + "." + rest);
    if '.' !in name && '.' !in ident {
      assert '.' !in name + "/" + ident;
      MethodIgnored(name + "/" + ident, rest);
      PairRoundTrip(name, ident);
    }
  }
}
