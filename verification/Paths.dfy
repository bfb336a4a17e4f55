/** Slash-separated paths as strings and as segments. */
module Paths {

  predicate StartsWith(s: string, prefix: string) {
    |prefix| <= |s| && s[..|prefix|] == prefix
  }

  predicate EndsWith(s: string, suffix: string) {
    |suffix| <= |s| && s[|s| - |suffix|..] == suffix
  }

  function Split(s: string, c: char): (r: seq<string>)
    ensures |r| >= 1
  {
    if s == "" then [""]
    else
      var rest := Split(s[1..], c);
      if s[0] == c then [""] + rest else [[s[0]] + rest[0]] + rest[1..]
  }

  function Join(ss: seq<string>, c: char): string {
    if ss == [] then ""
    else if |ss| == 1 then ss[0]
    else ss[0] + [c] + Join(ss[1..], c)
  }

  lemma {:induction false} JoinSplit(s: string, c: char)
    ensures Join(Split(s, c), c) == s
  {
    if s != "" {
      JoinSplit(s[1..], c);
      var rest := Split(s[1..], c);
      if s[0] == c {
        assert ([""] + rest)[1..] == rest;
        assert s == [c] + s[1..];
      } else {
        var r := [[s[0]] + rest[0]] + rest[1..];
        assert r[1..] == rest[1..];
        assert s == [s[0]] + s[1..];
      }
    }
  }

  lemma SplitStep(h: char, t: string, c: char)
    ensures Split([h] + t, c) ==
            if h == c then [""] + Split(t, c) else [[h] + Split(t, c)[0]] + Split(t, c)[1..]
  {
    assert ([h] + t)[1..] == t;
  }

  lemma HeadApart(head: string, x: seq<string>, y: seq<string>)
    requires x != []
    ensures [head + (x + y)[0]] + (x + y)[1..] == ([head + x[0]] + x[1..]) + y
  {
    assert (x + y)[1..] == x[1..] + y;
  }

  lemma PartsApart(x: seq<string>, y: seq<string>)
    ensures [""] + (x + y) == ([""] + x) + y
  {
  }

  lemma SplitCons(h: char, t: string, u: string, c: char, x: seq<string>, y: seq<string>)
    requires x != [] && Split(t, c) == x && Split(u, c) == x + y
    ensures Split([h] + u, c) == Split([h] + t, c) + y
  {
    SplitStep(h, t, c);
    SplitStep(h, u, c);
    PartsApart(x, y);
    HeadApart([h], x, y);
  }

  lemma {:induction false} SplitAppend(a: string, b: string, c: char)
    ensures Split(a + [c] + b, c) == Split(a, c) + Split(b, c)
  {
    if a == "" {
      SplitStep(c, b, c);
      assert a + [c] + b == [c] + b;
    } else {
      assert a == [a[0]] + a[1..] && a + [c] + b == [a[0]] + (a[1..] + [c] + b);
      SplitAppend(a[1..], b, c);
      SplitCons(a[0], a[1..], a[1..] + [c] + b, c, Split(a[1..], c), Split(b, c));
    }
  }

  lemma {:induction false} SplitNone(s: string, c: char)
    requires c !in s
    ensures Split(s, c) == [s]
  {
    if s != "" {
      SplitNone(s[1..], c);
      assert s == [s[0]] + s[1..];
    }
  }

  // A path without backslash, NUL, or a segment that is empty, "." or "..".
  predicate PortableText(s: string) {
    && s != "" && '\\' !in s && '\0' !in s
    && forall segment :: segment in Split(s, '/') ==> segment != "" && segment != "." && segment != ".."
  }

  lemma {:induction false} JoinAppend(x: seq<string>, y: seq<string>, c: char)
    requires x != [] && y != []
    ensures Join(x + y, c) == Join(x, c) + [c] + Join(y, c)
  {
    if |x| == 1 {
      assert (x + y)[1..] == y;
    } else {
      assert (x + y)[1..] == x[1..] + y;
      JoinAppend(x[1..], y, c);
    }
  }

  lemma WithinGivesPrefix(a: string, b: string)
    requires StartsWith(b, a + "/")
    ensures Split(a, '/') <= Split(b, '/')
  {
    var rest := b[|a| + 1..];
    assert b == a + ['/'] + rest;
    SplitAppend(a, rest, '/');
  }

  lemma PrefixGivesWithin(a: string, b: string, z: seq<string>)
    requires z != [] && Split(b, '/') == Split(a, '/') + z
    ensures StartsWith(b, a + "/")
  {
    JoinSplit(a, '/');
    JoinSplit(b, '/');
    JoinAppend(Split(a, '/'), z, '/');
    assert b == a + ['/'] + Join(z, '/');
  }

  // String containment is exactly segment-prefix containment.
  lemma WithinIsPrefix(a: string, b: string)
    ensures Split(a, '/') <= Split(b, '/') <==> a == b || StartsWith(b, a + "/")
  {
    var x, y := Split(a, '/'), Split(b, '/');
    if StartsWith(b, a + "/") { WithinGivesPrefix(a, b); }
    if x == y {
      JoinSplit(a, '/');
      JoinSplit(b, '/');
    } else if x <= y {
      PrefixGivesWithin(a, b, y[|x|..]);
    }
  }

  // Two prefixes of one path are comparable.
  lemma PrefixesComparable(x: seq<string>, y: seq<string>, whole: seq<string>)
    requires x <= whole && y <= whole
    ensures x <= y || y <= x
  {
    if |x| <= |y| { assert x == y[..|x|]; } else { assert y == x[..|y|]; }
  }

  // Neither path equals, contains or lies inside the other.
  predicate Apart(p: string, q: string) {
    !(Split(p, '/') <= Split(q, '/')) && !(Split(q, '/') <= Split(p, '/'))
  }

  // Everything inside an area is apart from whatever the area is apart from.
  lemma ApartFromInside(p: string, area: string, q: string)
    requires Apart(p, area) && Split(area, '/') <= Split(q, '/')
    ensures Apart(p, q)
  {
    var sp, sa, sq := Split(p, '/'), Split(area, '/'), Split(q, '/');
    if sp <= sq { PrefixesComparable(sp, sa, sq); }
  }

  // Code-unit order of strings.
  predicate Less(s: string, t: string) {
    t != "" && (s == "" || s[0] < t[0] || (s[0] == t[0] && Less(s[1..], t[1..])))
  }

  lemma {:induction false} LessIrreflexive(s: string)
    ensures !Less(s, s)
  {
    if s != "" { LessIrreflexive(s[1..]); }
  }

  lemma {:induction false} LessTotal(s: string, t: string)
    ensures s == t || Less(s, t) || Less(t, s)
  {
    if s != "" && t != "" && s[0] == t[0] {
      LessTotal(s[1..], t[1..]);
      if s[1..] == t[1..] { assert s == [s[0]] + s[1..] && t == [t[0]] + t[1..]; }
    }
  }

  lemma {:induction false} LessTransitive(s: string, t: string, u: string)
    requires Less(s, t) && Less(t, u)
    ensures Less(s, u)
  {
    if s != "" && s[0] == t[0] == u[0] { LessTransitive(s[1..], t[1..], u[1..]); }
  }

}
