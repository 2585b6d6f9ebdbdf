/** The JavaScript string operations the core relies on, restricted to
    ASCII: `String.prototype.trim`, `toLowerCase`, the regular expression
    `\s+` used with `replace`, and the decimal rendering of integers. */
module Text {

  /** The ASCII characters that JavaScript's `\s` and `trim` treat as
      white space: space, tab, line feed, vertical tab, form feed and
      carriage return. */
  predicate IsSpace(c: char)
  {
    c == ' ' || c == '\t' || c == '\n' || c == '\U{B}' || c == '\U{C}' || c == '\r'
  }

  predicate NoSpace(s: string)
  {
    forall i :: 0 <= i < |s| ==> !IsSpace(s[i])
  }

  /** Drops leading white space. */
  function TrimStart(s: string): (r: string)
    ensures |r| <= |s| && r == s[|s| - |r|..]
    ensures r == [] || !IsSpace(r[0])
    ensures forall i :: 0 <= i < |s| - |r| ==> IsSpace(s[i])
  {
    if s != [] && IsSpace(s[0]) then TrimStart(s[1..]) else s
  }

  /** Drops trailing white space. */
  function TrimEnd(s: string): (r: string)
    ensures |r| <= |s| && r == s[..|r|]
    ensures r == [] || !IsSpace(r[|r| - 1])
    ensures forall i :: |r| <= i < |s| ==> IsSpace(s[i])
  {
    if s != [] && IsSpace(s[|s| - 1]) then TrimEnd(s[..|s| - 1]) else s
  }

  /** `s.trim()` */
  function Trim(s: string): string
  {
    TrimEnd(TrimStart(s))
  }

  /** A string that `trim` leaves as it is. */
  predicate Trimmed(s: string)
  {
    s == [] || (!IsSpace(s[0]) && !IsSpace(s[|s| - 1]))
  }

  lemma TrimIsTrimmed(s: string)
    ensures Trimmed(Trim(s))
    ensures Trim(s) == [] <==> (forall i :: 0 <= i < |s| ==> IsSpace(s[i]))
  {
    var t := TrimStart(s);
    var r := TrimEnd(t);
    if r != [] {
      assert r[0] == t[0];
    }
  }

  /** Trimming a trimmed string changes nothing, so `trim` is idempotent. */
  lemma TrimOfTrimmed(s: string)
    requires Trimmed(s)
    ensures Trim(s) == s
  {
  }

  lemma TrimIdempotent(s: string)
    ensures Trim(Trim(s)) == Trim(s)
  {
    TrimIsTrimmed(s);
    TrimOfTrimmed(Trim(s));
  }

  /** `c.toLowerCase()` for an ASCII character. */
  function LowerChar(c: char): (r: char)
    ensures 'A' <= c <= 'Z' ==> 'a' <= r <= 'z'
    ensures !('A' <= c <= 'Z') ==> r == c
  {
    if 'A' <= c <= 'Z' then (c as int - 'A' as int + 'a' as int) as char else c
  }

  /** `s.toLowerCase()`, on ASCII letters. */
  function ToLower(s: string): (r: string)
    ensures |r| == |s|
    ensures forall i :: 0 <= i < |s| ==> r[i] == LowerChar(s[i])
  {
    if s == [] then [] else [LowerChar(s[0])] + ToLower(s[1..])
  }

  /** Lower-casing works character by character, so it distributes over
      concatenation. */
  lemma {:induction false} ToLowerAppend(a: string, b: string)
    ensures ToLower(a + b) == ToLower(a) + ToLower(b)
  {
    if a == [] {
      assert a + b == b;
    } else {
      assert (a + b)[1..] == a[1..] + b;
      ToLowerAppend(a[1..], b);
    }
  }

  /** The leading run of white space removed. */
  function SkipSpace(s: string): (r: string)
    ensures |r| <= |s| && r == s[|s| - |r|..]
    ensures r == [] || !IsSpace(r[0])
  {
    if s != [] && IsSpace(s[0]) then SkipSpace(s[1..]) else s
  }

  /** `s.replace(/\s+/g, '_')`: every maximal run of white space becomes
      one underscore. */
  function CollapseSpace(s: string): (r: string)
    decreases |s|
  {
    if s == [] then []
    else if IsSpace(s[0]) then "_" + CollapseSpace(SkipSpace(s[1..]))
    else [s[0]] + CollapseSpace(s[1..])
  }

  /** The replacement leaves no white space behind. */
  lemma {:induction false} CollapseSpaceNoSpace(s: string)
    ensures NoSpace(CollapseSpace(s))
    decreases |s|
  {
    if s == [] {
    } else if IsSpace(s[0]) {
      CollapseSpaceNoSpace(SkipSpace(s[1..]));
    } else {
      CollapseSpaceNoSpace(s[1..]);
    }
  }

  /** A string without white space is not changed by the replacement. */
  lemma {:induction false} CollapseSpaceIdentity(s: string)
    requires NoSpace(s)
    ensures CollapseSpace(s) == s
    decreases |s|
  {
    if s != [] {
      assert !IsSpace(s[0]);
      CollapseSpaceIdentity(s[1..]);
    }
  }

  /** A run of white space followed by text that does not start with white
      space is skipped whole. */
  lemma {:induction false} SkipRun(gap: string, b: string)
    requires (b == [] || !IsSpace(b[0])) && forall i :: 0 <= i < |gap| ==> IsSpace(gap[i])
    ensures SkipSpace(gap + b) == b
    decreases |gap|
  {
    if gap != [] {
      assert (gap + b)[1..] == gap[1..] + b;
      SkipRun(gap[1..], b);
    } else {
      assert gap + b == b;
    }
  }

  /** A run of white space after a word becomes one underscore, and the
      replacement carries on with what follows the run. */
  lemma {:induction false} CollapseJoin(a: string, gap: string, b: string)
    requires NoSpace(a) && IsGap(gap) && (b == [] || !IsSpace(b[0]))
    ensures CollapseSpace(a + gap + b) == a + "_" + CollapseSpace(b)
    decreases |a|
  {
    var s := a + gap + b;
    if a == [] {
      assert s == gap + b;
      CollapseLead(gap, b);
    } else {
      assert s[0] == a[0];
      assert s[1..] == a[1..] + gap + b;
      CollapseJoin(a[1..], gap, b);
      assert CollapseSpace(s) == [a[0]] + CollapseSpace(s[1..]);
      assert [a[0]] + (a[1..] + "_" + CollapseSpace(b)) == a + "_" + CollapseSpace(b);
    }
  }

  /** A non-empty run of white space. */
  predicate IsGap(g: string)
  {
    g != [] && forall i :: 0 <= i < |g| ==> IsSpace(g[i])
  }

  /** A non-empty run of other characters. */
  predicate IsWord(w: string)
  {
    w != [] && NoSpace(w)
  }

  /** The words `w`, `rest[0].1`, `rest[1].1`, ... with the gap `rest[i].0`
      in front of word `rest[i].1`. */
  function Spaced(w: string, rest: seq<(string, string)>): string
    decreases |rest|
  {
    if rest == [] then w else w + rest[0].0 + Spaced(rest[0].1, rest[1..])
  }

  /** The same words with one underscore between each two. */
  function Underscored(w: string, rest: seq<(string, string)>): string
    decreases |rest|
  {
    if rest == [] then w else w + "_" + Underscored(rest[0].1, rest[1..])
  }

  /** The underscore a run of white space becomes, or nothing for no run. */
  function Under(g: string): string
  {
    if g == [] then "" else "_"
  }

  predicate WordsAndGaps(w: string, rest: seq<(string, string)>)
  {
    IsWord(w) && forall i :: 0 <= i < |rest| ==> IsGap(rest[i].0) && IsWord(rest[i].1)
  }

  /** The replacement turns every gap between words into one underscore,
      and a trailing gap into a trailing underscore. */
  lemma {:induction false} CollapseSpaced(w: string, rest: seq<(string, string)>, trail: string)
    requires WordsAndGaps(w, rest)
    requires trail == [] || IsGap(trail)
    ensures CollapseSpace(Spaced(w, rest) + trail) == Underscored(w, rest) + Under(trail)
    decreases |rest|
  {
    if rest == [] {
      if trail == [] {
        assert w + trail == w;
        CollapseSpaceIdentity(w);
      } else {
        CollapseJoin(w, trail, "");
        assert w + trail + "" == w + trail;
      }
    } else {
      var tail := Spaced(rest[0].1, rest[1..]) + trail;
      assert WordsAndGaps(rest[0].1, rest[1..]) by {
        forall i | 0 <= i < |rest[1..]|
          ensures IsGap(rest[1..][i].0) && IsWord(rest[1..][i].1)
        {
          assert rest[1..][i] == rest[i + 1];
        }
      }
      SpacedStartsWithWord(rest[0].1, rest[1..]);
      assert tail[0] == rest[0].1[0];
      CollapseJoin(w, rest[0].0, tail);
      assert Spaced(w, rest) + trail == w + rest[0].0 + tail;
      CollapseSpaced(rest[0].1, rest[1..], trail);
    }
  }

  /** Words and gaps, with an optional run in front and after: each run,
      wherever it is, becomes one underscore. */
  lemma CollapseWords(lead: string, w: string, rest: seq<(string, string)>, trail: string)
    requires lead == [] || IsGap(lead)
    requires WordsAndGaps(w, rest)
    requires trail == [] || IsGap(trail)
    ensures CollapseSpace(lead + Spaced(w, rest) + trail) == Under(lead) + Underscored(w, rest) + Under(trail)
  {
    var x := Spaced(w, rest) + trail;
    CollapseSpaced(w, rest, trail);
    SpacedStartsWithWord(w, rest);
    assert x[0] == w[0];
    CollapseAfter(lead, x);
    assert lead + Spaced(w, rest) + trail == lead + x;
  }

  /** An optional leading run of white space becomes at most one underscore. */
  lemma CollapseAfter(lead: string, x: string)
    requires lead == [] || IsGap(lead)
    requires x == [] || !IsSpace(x[0])
    ensures CollapseSpace(lead + x) == Under(lead) + CollapseSpace(x)
  {
    if lead != [] {
      CollapseLead(lead, x);
    } else {
      assert lead + x == x;
    }
  }

  /** A leading run of white space becomes one underscore. */
  lemma CollapseLead(gap: string, b: string)
    requires IsGap(gap) && (b == [] || !IsSpace(b[0]))
    ensures CollapseSpace(gap + b) == "_" + CollapseSpace(b)
  {
    var s := gap + b;
    assert s[0] == gap[0];
    assert s[1..] == gap[1..] + b;
    assert forall i :: 0 <= i < |gap[1..]| ==> IsSpace(gap[1..][i]) by {
      forall i | 0 <= i < |gap[1..]|
        ensures IsSpace(gap[1..][i])
      {
        assert gap[1..][i] == gap[i + 1];
      }
    }
    SkipRun(gap[1..], b);
  }

  lemma SpacedStartsWithWord(w: string, rest: seq<(string, string)>)
    requires w != []
    ensures |Spaced(w, rest)| > 0 && Spaced(w, rest)[0] == w[0]
  {
  }

  /** The replacement never lengthens the string: a run of one or more
      characters becomes one. */
  lemma {:induction false} CollapseSpaceShorter(s: string)
    ensures |CollapseSpace(s)| <= |s|
    decreases |s|
  {
    if s == [] {
    } else if IsSpace(s[0]) {
      CollapseSpaceShorter(SkipSpace(s[1..]));
    } else {
      CollapseSpaceShorter(s[1..]);
    }
  }

  /** Applying the replacement twice is applying it once. */
  lemma CollapseSpaceIdempotent(s: string)
    ensures CollapseSpace(CollapseSpace(s)) == CollapseSpace(s)
  {
    CollapseSpaceNoSpace(s);
    CollapseSpaceIdentity(CollapseSpace(s));
  }

  function DigitChar(d: nat): char
    requires d < 10
  {
    ('0' as int + d) as char
  }

  /** The decimal digits of `n`, as JavaScript prints a non-negative
      integer. */
  function NatToDecimal(n: nat): (r: string)
    ensures |r| >= 1
    ensures forall i :: 0 <= i < |r| ==> '0' <= r[i] <= '9'
    ensures r[0] == '0' ==> n == 0
  {
    if n < 10 then [DigitChar(n)] else NatToDecimal(n / 10) + [DigitChar(n % 10)]
  }

  /** The decimal rendering of any integer, with a leading minus sign
      when it is negative. */
  function IntToDecimal(n: int): (r: string)
    ensures |r| >= 1
    ensures (r[0] == '-') <==> n < 0
  {
    if n < 0 then "-" + NatToDecimal(-n) else NatToDecimal(n)
  }

  /** The number a decimal string denotes. */
  function DecimalValue(s: string): nat
    requires forall i :: 0 <= i < |s| ==> '0' <= s[i] <= '9'
  {
    if s == [] then 0 else DecimalValue(s[..|s| - 1]) * 10 + (s[|s| - 1] as int - '0' as int)
  }

  /** Reading the digits back gives the number. */
  lemma {:induction false} NatToDecimalRoundTrip(n: nat)
    ensures DecimalValue(NatToDecimal(n)) == n
  {
    var r := NatToDecimal(n);
    if n >= 10 {
      NatToDecimalRoundTrip(n / 10);
      assert r[..|r| - 1] == NatToDecimal(n / 10);
    }
  }

  /** `xs.join('')` */
  function Concat(xs: seq<string>): (r: string)
    ensures xs == [] ==> r == []
  {
    if xs == [] then [] else xs[0] + Concat(xs[1..])
  }

  /** Joining distributes over concatenation of the lists. */
  lemma {:induction false} ConcatAppend(xs: seq<string>, ys: seq<string>)
    ensures Concat(xs + ys) == Concat(xs) + Concat(ys)
  {
    if xs == [] {
      assert xs + ys == ys;
    } else {
      assert (xs + ys)[1..] == xs[1..] + ys;
      ConcatAppend(xs[1..], ys);
    }
  }

  /** Regrouping a concatenation; stated once so that proofs over long
      literal strings need not search for it. */
  lemma Regroup(a: string, b: string, c: string, d: string)
    ensures (a + b + c) + d == a + (b + c + d)
  {
  }

  /** `i` is where `part` starts inside `s`. */
  predicate OccursAt(part: string, s: string, i: int)
  {
    0 <= i && i + |part| <= |s| && s[i..i + |part|] == part
  }

  /** `part` occurs somewhere in `s`. */
  ghost predicate Contains(s: string, part: string)
  {
    exists i :: OccursAt(part, s, i)
  }

  lemma ContainsConcat(a: string, part: string, b: string)
    ensures Contains(a + part + b, part)
  {
    var s := a + part + b;
    assert s[|a|..|a| + |part|] == part;
    assert OccursAt(part, s, |a|);
  }

  lemma ContainsGrow(s: string, part: string, pre: string, post: string)
    requires Contains(s, part)
    ensures Contains(pre + s + post, part)
  {
    var i :| OccursAt(part, s, i);
    var t := pre + s + post;
    assert t[|pre| + i..|pre| + i + |part|] == s[i..i + |part|];
    assert OccursAt(part, t, |pre| + i);
  }
}
