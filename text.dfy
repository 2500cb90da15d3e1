/**
 * The few string operations of Rust's standard library that the core relies on:
 * `str::contains`, `str::find`, `str::split('\n')` and `{}` formatting of an
 * unsigned integer. Strings are sequences of characters, so indices count
 * characters where Rust counts UTF-8 bytes; every index used by the core is
 * produced by `find` on the same string, so the two agree on what is cut out.
 */
module Text {
  import opened Common

  /** `sub` occurs in `s` starting at index `i`. */
  predicate OccursAt(s: string, sub: string, i: nat) {
    i + |sub| <= |s| && s[i..i + |sub|] == sub
  }

  /** `str::contains`. */
  predicate Contains(s: string, sub: string) {
    exists i: nat | i <= |s| :: OccursAt(s, sub, i)
  }

  /** `sub` occurs nowhere before index `k` (the part of `s` a search has passed). */
  predicate AbsentBefore(s: string, sub: string, k: nat) {
    forall j: nat :: j < k ==> !OccursAt(s, sub, j)
  }

  /** `str::find`: the first index at which `sub` occurs, if any. */
  function Find(s: string, sub: string): (r: Option<nat>)
    ensures r.Some? ==> OccursAt(s, sub, r.value) && AbsentBefore(s, sub, r.value)
    ensures r.None? <==> !Contains(s, sub)
  {
    FindFrom(s, sub, 0)
  }

  /** The search of `Find`, resumed at index `k`. */
  function FindFrom(s: string, sub: string, k: nat): (r: Option<nat>)
    ensures r.Some? ==> k <= r.value && OccursAt(s, sub, r.value)
    ensures r.Some? ==> forall j: nat :: k <= j < r.value ==> !OccursAt(s, sub, j)
    ensures r.None? ==> forall j: nat :: k <= j ==> !OccursAt(s, sub, j)
    decreases |s| + 1 - k
  {
    if k + |sub| > |s| then None
    else if s[k..k + |sub|] == sub then Some(k)
    else FindFrom(s, sub, k + 1)
  }

  /** An occurrence in a suffix is an occurrence in the whole string, shifted. */
  lemma OccursInSuffix(s: string, sub: string, m: nat, j: nat)
    requires m <= |s|
    ensures OccursAt(s[m..], sub, j) <==> OccursAt(s, sub, m + j)
  {
    if j + |sub| <= |s| - m {
      assert s[m..][j..j + |sub|] == s[m + j..m + j + |sub|];
    }
  }

  /** A search of a suffix that finds nothing rules out every occurrence from the suffix's start on. */
  lemma NoneInSuffix(s: string, sub: string, m: nat)
    requires m <= |s| && Find(s[m..], sub).None?
    ensures forall j: nat :: m <= j ==> !OccursAt(s, sub, j)
  {
    forall j: nat | m <= j
      ensures !OccursAt(s, sub, j)
    {
      OccursInSuffix(s, sub, m, j - m);
    }
  }

  /** A search of a suffix that finds `e` finds the first occurrence from the suffix's start on, at `m + e`. */
  lemma FirstInSuffix(s: string, sub: string, m: nat, e: nat)
    requires m <= |s| && Find(s[m..], sub) == Some(e)
    ensures OccursAt(s, sub, m + e)
    ensures forall j: nat :: m <= j < m + e ==> !OccursAt(s, sub, j)
  {
    OccursInSuffix(s, sub, m, e);
    forall j: nat | m <= j < m + e
      ensures !OccursAt(s, sub, j)
    {
      OccursInSuffix(s, sub, m, j - m);
    }
  }

  /** An occurrence with none before it is what `Find` returns. */
  lemma FindIsFirst(s: string, sub: string, e: nat)
    requires OccursAt(s, sub, e) && AbsentBefore(s, sub, e)
    ensures Find(s, sub) == Some(e)
  {
    assert Contains(s, sub);
    var w := Find(s, sub).value;
    assert OccursAt(s, sub, w);
    assert !(w < e);
    assert !(e < w);
  }

  /** A search that starts after some prefix finds what a search of the whole string finds, shifted. */
  lemma FindInSuffix(s: string, sub: string, m: nat)
    requires m <= |s|
    requires AbsentBefore(s, sub, m)
    ensures Find(s, sub).None? ==> Find(s[m..], sub).None?
    ensures Find(s, sub).Some? ==> Find(s[m..], sub) == Some(Find(s, sub).value - m)
  {
    var part := Find(s[m..], sub);
    if part.Some? {
      var k := part.value;
      FirstInSuffix(s, sub, m, k);
      forall j: nat | j < m + k
        ensures !OccursAt(s, sub, j)
      {
        if j < m {
          assert !OccursAt(s, sub, j);
        }
      }
      FindIsFirst(s, sub, m + k);
    } else {
      NoneInSuffix(s, sub, m);
      forall j: nat | j <= |s|
        ensures !OccursAt(s, sub, j)
      {
        if j < m {
          assert !OccursAt(s, sub, j);
        }
      }
    }
  }

  /** Containment is transitive: what occurs in a part occurs in the whole. */
  lemma ContainsTransitive(whole: string, part: string, sub: string)
    requires Contains(whole, part) && Contains(part, sub)
    ensures Contains(whole, sub)
  {
    var i: nat :| i <= |whole| && OccursAt(whole, part, i);
    var j: nat :| j <= |part| && OccursAt(part, sub, j);
    forall t | 0 <= t < |sub|
      ensures whole[i + j + t] == sub[t]
    {
      assert sub[t] == part[j..j + |sub|][t] == part[j + t];
      assert part[j + t] == whole[i..i + |part|][j + t];
    }
    assert whole[i + j..i + j + |sub|] == sub;
    assert OccursAt(whole, sub, i + j);
  }

  /** A string lacking a character of `sub` cannot contain `sub`. */
  lemma MissingCharacter(s: string, sub: string, c: char)
    requires c in sub && c !in s
    ensures !Contains(s, sub)
  {
    var d :| 0 <= d < |sub| && sub[d] == c;
    forall i: nat | i <= |s|
      ensures !OccursAt(s, sub, i)
    {
      if i + |sub| <= |s| {
        assert s[i..i + |sub|][d] == s[i + d];
      }
    }
  }

  /** `s.split('\n')`: the pieces between newlines, empty pieces included. */
  function SplitLines(s: string): (lines: seq<string>)
    ensures |lines| >= 1
    decreases |s|
  {
    if |s| == 0 then [""]
    else
      var rest := SplitLines(s[1..]);
      if s[0] == '\n' then [""] + rest
      else [[s[0]] + rest[0]] + rest[1..]
  }

  /** Text without a newline is a single piece. */
  lemma {:induction false} SplitLinesSingle(s: string)
    requires '\n' !in s
    ensures SplitLines(s) == [s]
    decreases |s|
  {
    if |s| > 0 {
      assert '\n' !in s[1..];
      SplitLinesSingle(s[1..]);
      assert [s[0]] + s[1..] == s;
    }
  }

  /** No piece holds a newline. */
  lemma {:induction false} SplitLinesNoNewline(s: string)
    ensures forall i :: 0 <= i < |SplitLines(s)| ==> '\n' !in SplitLines(s)[i]
    decreases |s|
  {
    if |s| > 0 {
      SplitLinesNoNewline(s[1..]);
      var rest := SplitLines(s[1..]);
      if s[0] != '\n' {
        assert '\n' !in [s[0]] + rest[0];
      }
    }
  }

  /** Splitting after one more leading character: a newline opens a new piece, any other character joins the first. */
  lemma SplitLinesCons(c: char, t: string)
    ensures SplitLines([c] + t) ==
      if c == '\n' then [""] + SplitLines(t)
      else [[c] + SplitLines(t)[0]] + SplitLines(t)[1..]
  {
    assert ([c] + t)[1..] == t;
  }

  /** Splitting text joined at a newline splits each side separately. */
  lemma {:induction false} SplitLinesConcat(a: string, b: string)
    ensures SplitLines(a + "\n" + b) == SplitLines(a) + SplitLines(b)
    decreases |a|
  {
    if |a| == 0 {
      calc {
        SplitLines(a + "\n" + b);
      == { assert a + "\n" + b == ['\n'] + b; }
        SplitLines(['\n'] + b);
      == { SplitLinesCons('\n', b); }
        [""] + SplitLines(b);
      }
    } else {
      var c, t := a[0], a[1..];
      var first, second := SplitLines(t), SplitLines(b);
      assert a == [c] + t;
      calc {
        SplitLines(a + "\n" + b);
      == { AppendAssoc([c], t, "\n"); AppendAssoc([c], t + "\n", b); }
        SplitLines([c] + (t + "\n" + b));
      == { SplitLinesCons(c, t + "\n" + b); SplitLinesConcat(t, b); }
        if c == '\n' then [""] + (first + second)
        else [[c] + (first + second)[0]] + (first + second)[1..];
      == { HeadOfAppend(first, second); }
        if c == '\n' then [""] + (first + second)
        else [[c] + first[0]] + (first[1..] + second);
      == { AppendAssoc([""], first, second); AppendAssoc([[c] + first[0]], first[1..], second); }
        (if c == '\n' then [""] + first else [[c] + first[0]] + first[1..]) + second;
      == { SplitLinesCons(c, t); }
        SplitLines(a) + second;
      }
    }
  }

  /** The pieces put back together, a newline between each two. */
  function JoinLines(lines: seq<string>): string {
    if |lines| == 0 then ""
    else if |lines| == 1 then lines[0]
    else lines[0] + "\n" + JoinLines(lines[1..])
  }

  /** Joining a piece in front of at least one more puts a newline after it. */
  lemma JoinLinesCons(head: string, tail: seq<string>)
    requires |tail| >= 1
    ensures JoinLines([head] + tail) == head + "\n" + JoinLines(tail)
  {
    assert ([head] + tail)[1..] == tail;
  }

  /** Joining after growing the first piece by one character grows the text by that character. */
  lemma JoinLinesExtendFirst(c: char, lines: seq<string>)
    requires |lines| >= 1
    ensures JoinLines([[c] + lines[0]] + lines[1..]) == [c] + JoinLines(lines)
  {
    if |lines| > 1 {
      var head, rest := lines[0], lines[1..];
      assert lines == [head] + rest;
      JoinLinesExtendHead(c, head, rest);
    }
  }

  /** `JoinLinesExtendFirst` with the first piece and the rest named apart. */
  lemma JoinLinesExtendHead(c: char, head: string, rest: seq<string>)
    requires |rest| >= 1
    ensures JoinLines([[c] + head] + rest) == [c] + JoinLines([head] + rest)
  {
    var tail := JoinLines(rest);
    calc {
      JoinLines([[c] + head] + rest);
    == { JoinLinesCons([c] + head, rest); }
      ([c] + head) + "\n" + tail;
    == { AppendAssoc([c] + head, "\n", tail); AppendAssoc([c], head, "\n" + tail); }
      [c] + (head + ("\n" + tail));
    == { AppendAssoc(head, "\n", tail); }
      [c] + (head + "\n" + tail);
    == { JoinLinesCons(head, rest); }
      [c] + JoinLines([head] + rest);
    }
  }

  /** Splitting loses nothing: joining the pieces gives the text back. */
  lemma {:induction false} JoinSplitLines(s: string)
    ensures JoinLines(SplitLines(s)) == s
    decreases |s|
  {
    if |s| > 0 {
      var rest := SplitLines(s[1..]);
      JoinSplitLines(s[1..]);
      if s[0] == '\n' {
        JoinLinesCons("", rest);
      } else {
        JoinLinesExtendFirst(s[0], rest);
      }
      assert s == [s[0]] + s[1..];
    }
  }

  /** Splitting a join of newline-free pieces gives the pieces back. */
  lemma {:induction false} SplitJoinLines(lines: seq<string>)
    requires |lines| >= 1
    requires forall i :: 0 <= i < |lines| ==> '\n' !in lines[i]
    ensures SplitLines(JoinLines(lines)) == lines
  {
    SplitLinesSingle(lines[0]);
    if |lines| > 1 {
      var rest := JoinLines(lines[1..]);
      calc {
        SplitLines(JoinLines(lines));
      == { assert lines == [lines[0]] + lines[1..]; JoinLinesCons(lines[0], lines[1..]); }
        SplitLines(lines[0] + "\n" + rest);
      == { SplitLinesConcat(lines[0], rest); }
        SplitLines(lines[0]) + SplitLines(rest);
      == { SplitJoinLines(lines[1..]); }
        [lines[0]] + lines[1..];
      }
    }
  }

  /** The character of a decimal digit. */
  function DigitChar(d: nat): (c: char)
    requires d < 10
    ensures '0' <= c <= '9'
  {
    (('0' as int) + d) as char
  }

  /** A non-empty run of decimal digits. */
  predicate IsDigits(s: string) {
    |s| >= 1 && forall i :: 0 <= i < |s| ==> '0' <= s[i] <= '9'
  }

  /** `{}` formatting of an unsigned integer: decimal digits, no leading zero. */
  function DecimalString(n: nat): (r: string)
    ensures IsDigits(r)
    ensures |r| > 1 ==> r[0] != '0'
  {
    if n < 10 then [DigitChar(n)]
    else DecimalString(n / 10) + [DigitChar(n % 10)]
  }

  /** The value of a run of decimal digits. */
  function ParseDecimal(s: string): nat
    requires forall i :: 0 <= i < |s| ==> '0' <= s[i] <= '9'
  {
    if |s| == 0 then 0
    else 10 * ParseDecimal(s[..|s| - 1]) + ((s[|s| - 1] as int) - ('0' as int))
  }

  /** The decimal form of a number reads back as that number, so distinct numbers print differently. */
  lemma {:induction false} ParseDecimalString(n: nat)
    ensures ParseDecimal(DecimalString(n)) == n
  {
    var r := DecimalString(n);
    if n >= 10 {
      ParseDecimalString(n / 10);
      assert r[..|r| - 1] == DecimalString(n / 10);
    }
  }

  /** Distinct numbers print differently. */
  lemma DecimalStringInjective(m: nat, n: nat)
    requires DecimalString(m) == DecimalString(n)
    ensures m == n
  {
    ParseDecimalString(m);
    ParseDecimalString(n);
  }

  /** The length of the run of decimal digits at the start of `s`. */
  function DigitRun(s: string): (n: nat)
    ensures n <= |s|
  {
    if |s| > 0 && '0' <= s[0] <= '9' then 1 + DigitRun(s[1..]) else 0
  }

  /** A run of digits ended by a colon is measured exactly. */
  lemma {:induction false} DigitRunBeforeColon(d: string, e: string)
    requires forall i :: 0 <= i < |d| ==> '0' <= d[i] <= '9'
    ensures DigitRun(d + ":" + e) == |d|
    decreases |d|
  {
    var s := d + ":" + e;
    if |d| == 0 {
      assert s[0] == ':';
    } else {
      assert s[0] == d[0];
      assert s[1..] == d[1..] + ":" + e;
      DigitRunBeforeColon(d[1..], e);
    }
  }

  /** Splitting at the colon after a run of digits recovers both parts. */
  lemma ColonSeparated(d1: string, e1: string, d2: string, e2: string)
    requires forall i :: 0 <= i < |d1| ==> '0' <= d1[i] <= '9'
    requires forall i :: 0 <= i < |d2| ==> '0' <= d2[i] <= '9'
    requires d1 + ":" + e1 == d2 + ":" + e2
    ensures d1 == d2 && e1 == e2
  {
    DigitRunBeforeColon(d1, e1);
    DigitRunBeforeColon(d2, e2);
    var t := d1 + ":" + e1;
    assert d1 == t[..|d1|] && e1 == t[|d1| + 1..];
    assert d2 == (d2 + ":" + e2)[..|d2|] && e2 == (d2 + ":" + e2)[|d2| + 1..];
  }
}
