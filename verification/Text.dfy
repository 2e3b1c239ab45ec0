/** Strings as the operator uses them: Go's `<`, and splitting into lines. */
module Text {

  // ---------------------------------------------------------------- order

  /** Go's `a < b` on strings: lexicographic, a proper prefix first. */
  predicate Less(a: string, b: string) {
    b != "" && (a == "" || a[0] < b[0] || (a[0] == b[0] && Less(a[1..], b[1..])))
  }

  lemma LessTotal(a: string, b: string)
    ensures Less(a, b) || a == b || Less(b, a)
  {
    if a != "" && b != "" && a[0] == b[0] {
      LessTotal(a[1..], b[1..]);
      assert a == [a[0]] + a[1..] && b == [b[0]] + b[1..];
    }
  }

  lemma LessAsymmetric(a: string, b: string)
    ensures !(Less(a, b) && Less(b, a))
    ensures !Less(a, a)
  {
  }

  lemma LessTransitive(a: string, b: string, c: string)
    requires Less(a, b) && Less(b, c)
    ensures Less(a, c)
  {
    if a != "" && a[0] == b[0] == c[0] {
      LessTransitive(a[1..], b[1..], c[1..]);
    }
  }

  // ---------------------------------------------------------------- lines

  predicate OneLine(s: string) {
    '\n' !in s
  }

  /** strings.Split(s, "\n"). */
  function Split(s: string): (ls: seq<string>)
    ensures |ls| >= 1 && forall i :: 0 <= i < |ls| ==> OneLine(ls[i])
  {
    if s == "" then [""]
    else
      var rest := Split(s[1..]);
      if s[0] == '\n' then [""] + rest else [[s[0]] + rest[0]] + rest[1..]
  }

  /** strings.Join(ls, "\n"). */
  function Join(ls: seq<string>): string
    requires ls != []
  {
    if |ls| == 1 then ls[0] else ls[0] + "\n" + Join(ls[1..])
  }

  /** Each line followed by a newline, the way the renderers write. */
  function Lines(ls: seq<string>): string {
    if ls == [] then "" else ls[0] + "\n" + Lines(ls[1..])
  }

  lemma {:induction false} JoinSplit(s: string)
    ensures Join(Split(s)) == s
  {
    if s != "" {
      JoinSplit(s[1..]);
      var rest := Split(s[1..]);
      if s[0] == '\n' {
        assert ([""] + rest)[1..] == rest;
      } else {
        assert ([[s[0]] + rest[0]] + rest[1..])[1..] == rest[1..];
        if |rest| > 1 {
          assert Join(rest) == rest[0] + "\n" + Join(rest[1..]);
        }
      }
    }
  }

  /** The lines of `c` followed by a text with lines `ls`. */
  function Prepended(c: char, ls: seq<string>): seq<string>
    requires ls != []
  {
    if c == '\n' then [""] + ls else [[c] + ls[0]] + ls[1..]
  }

  lemma SplitCons(c: char, s: string)
    ensures Split([c] + s) == Prepended(c, Split(s))
  {
    assert ([c] + s)[1..] == s;
  }

  lemma PrependedConcat(c: char, a: seq<string>, b: seq<string>)
    requires a != []
    ensures Prepended(c, a + b) == Prepended(c, a) + b
  {
    assert (a + b)[1..] == a[1..] + b;
  }

  lemma {:induction false} SplitConcat(a: string, s: string)
    ensures Split(a + "\n" + s) == Split(a) + Split(s)
  {
    if a == "" {
      assert a + "\n" + s == ['\n'] + s;
      SplitCons('\n', s);
    } else {
      var c, rest := a[0], a[1..];
      assert a == [c] + rest;
      calc {
        Split(a + "\n" + s);
        { assert a + "\n" + s == [c] + (rest + "\n" + s); SplitCons(c, rest + "\n" + s); }
        Prepended(c, Split(rest + "\n" + s));
        { SplitConcat(rest, s); }
        Prepended(c, Split(rest) + Split(s));
        { PrependedConcat(c, Split(rest), Split(s)); }
        Prepended(c, Split(rest)) + Split(s);
        { SplitCons(c, rest); }
        Split(a) + Split(s);
      }
    }
  }

  lemma {:induction false} SplitOneLine(a: string)
    requires OneLine(a)
    ensures Split(a) == [a]
  {
    if a != "" {
      SplitOneLine(a[1..]);
      assert a == [a[0]] + a[1..];
    }
  }

  /** Text made of newline-free lines splits back into exactly those lines. */
  lemma {:induction false} SplitLines(ls: seq<string>)
    requires forall i :: 0 <= i < |ls| ==> OneLine(ls[i])
    ensures Split(Lines(ls)) == ls + [""]
  {
    if ls != [] {
      SplitLines(ls[1..]);
      SplitConcat(ls[0], Lines(ls[1..]));
      SplitOneLine(ls[0]);
      assert ls + [""] == [ls[0]] + (ls[1..] + [""]);
    }
  }

  lemma {:induction false} SplitPre(a: string, s: string)
    requires OneLine(a)
    ensures Split(a + s) == [a + Split(s)[0]] + Split(s)[1..]
  {
    if a == "" {
      assert a + s == s && a + Split(s)[0] == Split(s)[0];
    } else {
      SplitPre(a[1..], s);
      assert a + s == [a[0]] + (a[1..] + s);
      SplitCons(a[0], a[1..] + s);
      assert [a[0]] + (a[1..] + Split(s)[0]) == a + Split(s)[0];
    }
  }

  lemma {:induction false} SplitPost(s: string, b: string)
    requires OneLine(b)
    ensures
      var n := |Split(s)| - 1;
      Split(s + b) == Split(s)[..n] + [Split(s)[n] + b]
  {
    if s == "" {
      assert s + b == b;
      SplitOneLine(b);
    } else {
      var c, rest := s[0], s[1..];
      assert s + b == [c] + (rest + b) && s == [c] + rest;
      calc {
        Split(s + b);
        { SplitCons(c, rest + b); }
        Prepended(c, Split(rest + b));
        { SplitPost(rest, b); }
        Prepended(c, Split(rest)[..|Split(rest)| - 1] + [Split(rest)[|Split(rest)| - 1] + b]);
        { PrependedPost(c, Split(rest), b); }
        Prepended(c, Split(rest))[..|Prepended(c, Split(rest))| - 1]
          + [Prepended(c, Split(rest))[|Prepended(c, Split(rest))| - 1] + b];
        { SplitCons(c, rest); }
        Split(s)[..|Split(s)| - 1] + [Split(s)[|Split(s)| - 1] + b];
      }
    }
  }

  lemma PrependedPost(c: char, ls: seq<string>, b: string)
    requires ls != []
    ensures
      var n, ps := |ls| - 1, Prepended(c, ls);
      Prepended(c, ls[..n] + [ls[n] + b]) == ps[..|ps| - 1] + [ps[|ps| - 1] + b]
  {
    if |ls| == 1 && c != '\n' {
      assert [c] + (ls[0] + b) == ([c] + ls[0]) + b;
    }
  }

  /** The lines after the first. */
  function Later(s: string): seq<string> {
    Split(s)[1..]
  }

  /** The lines that are neither first nor last. */
  function Inner(s: string): seq<string> {
    var ls := Split(s);
    if |ls| < 2 then [] else ls[1..|ls| - 1]
  }

  /** A line that does not start like `a` comes only from the later lines of what follows. */
  lemma LineAfter(a: string, s: string, x: string, i: nat)
    requires OneLine(a) && i < |a| && i < |x| && a[i] != x[i]
    ensures x in Split(a + s) <==> x in Later(s)
  {
    SplitPre(a, s);
    assert (a + Split(s)[0])[i] == a[i];
  }

  /** A line that neither starts like `a` nor ends like `b` comes only from the inner lines between. */
  lemma LineBetween(a: string, s: string, b: string, x: string, i: nat)
    requires OneLine(a) && i < |a| && i < |x| && a[i] != x[i]
    requires OneLine(b) && b != "" && b[|b| - 1] != x[|x| - 1]
    ensures x in Split(a + (s + b)) <==> x in Inner(s)
  {
    LineAfter(a, s + b, x, i);
    LineBefore(s, b, x);
  }

  lemma LineBefore(s: string, b: string, x: string)
    requires OneLine(b) && b != "" && x != "" && b[|b| - 1] != x[|x| - 1]
    ensures x in Later(s + b) <==> x in Inner(s)
  {
    SplitPost(s, b);
    var ls := Split(s);
    var n := |ls| - 1;
    EndsDiffer(ls[n], b, x);
    InnerOf(ls, ls[n] + b);
  }

  lemma EndsDiffer(a: string, b: string, x: string)
    requires b != "" && x != "" && b[|b| - 1] != x[|x| - 1]
    ensures a + b != x
  {
    assert (a + b)[|a + b| - 1] == b[|b| - 1];
  }

  lemma InnerOf(ls: seq<string>, last: string)
    requires ls != []
    ensures (ls[..|ls| - 1] + [last])[1..] == if |ls| < 2 then [] else ls[1..|ls| - 1] + [last]
  {
  }

  lemma OneLineInner(s: string)
    requires OneLine(s)
    ensures Later(s) == [] && Inner(s) == []
  {
    SplitOneLine(s);
  }

  /** The non-blank lines of a text are those of the pieces it was made of. */
  lemma {:induction false} LineComesFrom(ls: seq<string>, x: string)
    requires x != ""
    ensures x in Split(Lines(ls)) <==> exists i :: 0 <= i < |ls| && x in Split(ls[i])
  {
    if ls != [] {
      SplitConcat(ls[0], Lines(ls[1..]));
      LineComesFrom(ls[1..], x);
      if i :| 0 <= i < |ls[1..]| && x in Split(ls[1..][i]) {
        assert x in Split(ls[i + 1]);
      }
      if i :| 0 <= i < |ls| && x in Split(ls[i]) {
        assert i > 0 ==> x in Split(ls[1..][i - 1]);
      }
    }
  }

  lemma {:induction false} LinesAppend(a: seq<string>, b: seq<string>)
    ensures Lines(a + b) == Lines(a) + Lines(b)
  {
    if a == [] {
      assert a + b == b;
    } else {
      LinesAppend(a[1..], b);
      assert (a + b)[1..] == a[1..] + b;
    }
  }
}
