/** String operations the generator borrows from the Swift standard library and
    Foundation: substring search (`contains`), ASCII lower-casing (`lowercased`),
    `joined(separator:)`, decimal interpolation of an `Int`, and the splitting of
    a text into its lines, which the layout lemmas use to read the generated file. */
module Strings {

  /** `p` is a prefix of `s`. */
  predicate StartsWith(s: string, p: string) {
    |p| <= |s| && s[..|p|] == p
  }

  /** `t` occurs in `s` at position `i`. */
  ghost predicate OccursAt(s: string, t: string, i: int) {
    0 <= i && i + |t| <= |s| && s[i..i + |t|] == t
  }

  /** Substring search, trying each start position from the left. */
  predicate Contains(s: string, t: string)
    decreases |s|
  {
    StartsWith(s, t) || (|s| > 0 && Contains(s[1..], t))
  }

  /** The search finds `t` exactly when `t` occurs somewhere in `s`. */
  lemma {:induction false} ContainsIff(s: string, t: string)
    ensures Contains(s, t) <==> exists i :: OccursAt(s, t, i)
    decreases |s|
  {
    if StartsWith(s, t) {
      assert OccursAt(s, t, 0);
    } else if |s| > 0 {
      ContainsIff(s[1..], t);
      forall i | 0 <= i < |s|
        ensures OccursAt(s[1..], t, i) <==> OccursAt(s, t, i + 1)
      {
        if i + 1 + |t| <= |s| {
          assert s[1..][i..i + |t|] == s[i + 1..i + 1 + |t|];
        }
      }
      assert !OccursAt(s, t, 0);
      forall i | OccursAt(s, t, i)
        ensures exists j :: OccursAt(s[1..], t, j)
      {
        assert OccursAt(s[1..], t, i - 1);
      }
    }
  }

  /** ASCII case folding of one character; every other character is kept. */
  function LowerChar(c: char): char {
    if 'A' <= c <= 'Z' then (c as int - 'A' as int + 'a' as int) as char else c
  }

  /** `lowercased()`, restricted to ASCII letters. */
  function Lower(s: string): (r: string)
    ensures |r| == |s|
    ensures forall i :: 0 <= i < |s| ==> r[i] == LowerChar(s[i])
    ensures forall i :: 0 <= i < |r| ==> !('A' <= r[i] <= 'Z')
  {
    seq(|s|, i requires 0 <= i < |s| => LowerChar(s[i]))
  }

  /** Lower-casing commutes with concatenation. */
  lemma LowerAppend(a: string, b: string)
    ensures Lower(a + b) == Lower(a) + Lower(b)
  {
    assert forall i :: 0 <= i < |a + b| ==> Lower(a + b)[i] == (Lower(a) + Lower(b))[i];
  }

  /** The concatenation of `parts`, in order. */
  function Concat(parts: seq<string>): string {
    if |parts| == 0 then "" else parts[0] + Concat(parts[1..])
  }

  /** Appending one more part to the list appends its text at the end. */
  lemma {:induction false} ConcatSnoc(parts: seq<string>, x: string)
    ensures Concat(parts + [x]) == Concat(parts) + x
  {
    if |parts| == 0 {
      assert parts + [x] == [x];
      assert [x][1..] == [];
    } else {
      assert (parts + [x])[1..] == parts[1..] + [x];
      ConcatSnoc(parts[1..], x);
    }
  }

  /** Concatenation is a homomorphism from lists of parts to strings. */
  lemma {:induction false} ConcatAppend(xs: seq<string>, ys: seq<string>)
    ensures Concat(xs + ys) == Concat(xs) + Concat(ys)
  {
    if |xs| == 0 {
      assert xs + ys == ys;
    } else {
      assert (xs + ys)[1..] == xs[1..] + ys;
      ConcatAppend(xs[1..], ys);
    }
  }

  // Regrouping of concatenations. Each is proved here once, on variables, so
  // that a lemma about a particular text can use it without the solver taking
  // that text apart.

  /** Concatenation is associative. */
  lemma Assoc<X>(a: seq<X>, b: seq<X>, c: seq<X>)
    ensures a + b + c == a + (b + c)
  {
  }

  lemma Nest2<X>(a: X, b: X, r: seq<X>)
    ensures [a, b] + r == [a] + ([b] + r)
  {
  }

  lemma Nest3<X>(a: X, b: X, c: X, r: seq<X>)
    ensures [a, b, c] + r == [a] + ([b] + ([c] + r))
  {
  }

  lemma Nest7<X>(a: X, b: X, c: X, d: X, e: X, f: X, g: X, r: seq<X>)
    ensures [a, b, c, d, e, f, g] + r == [a] + ([b] + ([c] + ([d] + ([e] + ([f] + ([g] + r))))))
  {
  }

  lemma Nest9<X>(a: X, b: X, c: X, d: X, e: X, f: X, g: X, h: X, i: X, r: seq<X>)
    ensures [a, b, c, d, e, f, g, h, i] + r
         == [a] + ([b] + ([c] + ([d] + ([e] + ([f] + ([g] + ([h] + ([i] + r))))))))
  {
  }

  lemma Nest9Closed<X>(a: X, b: X, c: X, d: X, e: X, f: X, g: X, h: X, i: X)
    ensures [a, b, c, d, e, f, g, h, i]
         == [a] + ([b] + ([c] + ([d] + ([e] + ([f] + ([g] + ([h] + [i])))))))
  {
  }

  lemma NestAround<X>(a: X, b: X, m: seq<X>, c: X, r: seq<X>)
    ensures [a, b] + m + [c] + r == [a] + ([b] + (m + ([c] + r)))
  {
  }

  lemma NestPair<X>(p: seq<X>, q: seq<X>, a: X, b: X, r: seq<X>)
    ensures p + q + [a, b] + r == p + (q + ([a] + ([b] + r)))
  {
  }

  lemma Flatten4<X>(a: seq<X>, b: seq<X>, c: seq<X>, d: seq<X>, r: seq<X>)
    ensures a + (b + (c + (d + r))) == a + b + c + d + r
  {
  }

  /** A slice of the right operand of a concatenation. */
  lemma SliceRight<X>(a: seq<X>, b: seq<X>, lo: nat, hi: nat)
    requires lo <= hi <= |b|
    ensures (a + b)[|a| + lo..|a| + hi] == b[lo..hi]
  {
  }

  /** The left operand of a concatenation is its prefix. */
  lemma PrefixLeft<X>(a: seq<X>, b: seq<X>)
    ensures (a + b)[..|a|] == a
  {
  }

  /** Extending a prefix of a sequence by one element. */
  lemma TakeSnoc<X>(s: seq<X>, k: nat)
    requires k < |s|
    ensures s[..k + 1] == s[..k] + [s[k]]
  {
  }

  /** One line of text followed by its newline character. */
  function Line(text: string): string {
    text + "\n"
  }

  /** Each line followed by a newline character. */
  function Terminated(ls: seq<string>): (r: seq<string>) {
    seq(|ls|, i requires 0 <= i < |ls| => Line(ls[i]))
  }

  /** Text made of `ls` with a newline after each entry, then `x` and its newline. */
  lemma ConcatTerminatedSnoc(ls: seq<string>, x: string)
    ensures Concat(Terminated(ls + [x])) == Concat(Terminated(ls)) + Line(x)
  {
    assert Terminated(ls + [x]) == Terminated(ls) + [Line(x)];
    ConcatSnoc(Terminated(ls), Line(x));
  }

  /** Swift's `joined(separator:)`. */
  function Join(xs: seq<string>, sep: string): string {
    if |xs| == 0 then ""
    else if |xs| == 1 then xs[0]
    else xs[0] + sep + Join(xs[1..], sep)
  }

  /** Each entry of `xs` except the last followed by `suffix`. */
  function Suffixed(xs: seq<string>, suffix: string): (r: seq<string>) {
    seq(|xs|, i requires 0 <= i < |xs| => if i < |xs| - 1 then xs[i] + suffix else xs[i])
  }

  /** The lines of `s`: the maximal newline-free pieces between newline
      characters. A text with `n` newlines has `n + 1` lines, the last one
      empty when the text ends in a newline. */
  function Lines(s: string): (r: seq<string>)
    ensures |r| >= 1
    decreases |s|
  {
    if |s| == 0 then [""]
    else if s[0] == '\n' then [""] + Lines(s[1..])
    else
      var rest := Lines(s[1..]);
      [[s[0]] + rest[0]] + rest[1..]
  }

  /** Splitting is inverse to joining with a newline. */
  lemma {:induction false} JoinLinesRoundTrip(s: string)
    ensures Join(Lines(s), "\n") == s
    decreases |s|
  {
    if |s| > 0 {
      var rest := Lines(s[1..]);
      JoinLinesRoundTrip(s[1..]);
      if s[0] == '\n' {
        assert ([""] + rest)[1..] == rest;
      } else {
        var ls := [[s[0]] + rest[0]] + rest[1..];
        assert ls[1..] == rest[1..];
        if |rest| > 1 {
          assert Join(rest, "\n") == rest[0] + "\n" + Join(rest[1..], "\n");
        }
      }
    }
  }

  /** A newline splits a text into the lines before it and the lines after it. */
  lemma {:induction false} LinesJoin(a: string, b: string)
    ensures Lines(a + "\n" + b) == Lines(a) + Lines(b)
    decreases |a|
  {
    var s := a + "\n" + b;
    if |a| == 0 {
      assert s[1..] == b;
    } else {
      assert s[0] == a[0];
      assert s[1..] == a[1..] + "\n" + b;
      LinesJoin(a[1..], b);
      if a[0] != '\n' {
        var rest := Lines(a[1..]);
        assert (rest + Lines(b))[1..] == rest[1..] + Lines(b);
      }
    }
  }

  /** A text without a newline is a single line. */
  lemma {:induction false} LinesNoNewline(s: string)
    requires '\n' !in s
    ensures Lines(s) == [s]
    decreases |s|
  {
    if |s| > 0 {
      assert '\n' !in s[1..] by {
        assert forall i :: 0 <= i < |s[1..]| ==> s[1..][i] == s[i + 1];
      }
      LinesNoNewline(s[1..]);
      assert [s[0]] + s[1..] == s;
    }
  }

  /** A newline-free line followed by a newline contributes exactly that line. */
  lemma LinesPrefix(x: string, rest: string)
    requires '\n' !in x
    ensures Lines(x + "\n" + rest) == [x] + Lines(rest)
  {
    LinesJoin(x, rest);
    LinesNoNewline(x);
  }

  /** A newline-free line with its newline contributes exactly that line. */
  lemma LinesOfLine(x: string, rest: string)
    requires '\n' !in x
    ensures Lines(Line(x) + rest) == [x] + Lines(rest)
  {
    LinesPrefix(x, rest);
  }

  /** Newline-free lines, each terminated, read back as those lines. */
  lemma {:induction false} LinesOfTerminated(ls: seq<string>, rest: string)
    requires forall i :: 0 <= i < |ls| ==> '\n' !in ls[i]
    ensures Lines(Concat(Terminated(ls)) + rest) == ls + Lines(rest)
  {
    if |ls| > 0 {
      assert Terminated(ls)[1..] == Terminated(ls[1..]);
      var tail := Concat(Terminated(ls[1..])) + rest;
      Assoc(Line(ls[0]), Concat(Terminated(ls[1..])), rest);
      LinesOfLine(ls[0], tail);
      assert forall i :: 0 <= i < |ls[1..]| ==> ls[1..][i] == ls[i + 1];
      LinesOfTerminated(ls[1..], rest);
      assert [ls[0]] + ls[1..] == ls;
      Assoc([ls[0]], ls[1..], Lines(rest));
    } else {
      assert Terminated(ls) == [];
      assert Concat(Terminated(ls)) + rest == rest;
    }
  }

  /** Joining newline-free entries with `suffix + "\n"` gives one line per
      entry, every line but the last ending in `suffix`. */
  lemma {:induction false} LinesOfJoin(xs: seq<string>, suffix: string)
    requires |xs| > 0
    requires '\n' !in suffix
    requires forall i :: 0 <= i < |xs| ==> '\n' !in xs[i]
    ensures Lines(Join(xs, suffix + "\n")) == Suffixed(xs, suffix)
  {
    if |xs| == 1 {
      LinesNoNewline(xs[0]);
    } else {
      var tail := Join(xs[1..], suffix + "\n");
      assert Join(xs, suffix + "\n") == (xs[0] + suffix) + "\n" + tail;
      LinesPrefix(xs[0] + suffix, tail);
      LinesOfJoin(xs[1..], suffix);
      assert Suffixed(xs, suffix) == [xs[0] + suffix] + Suffixed(xs[1..], suffix);
    }
  }

  /** The character of a decimal digit. */
  function DigitChar(d: nat): (c: char)
    requires d < 10
    ensures '0' <= c <= '9'
  {
    ('0' as int + d) as char
  }

  predicate IsDecimal(s: string) {
    forall i :: 0 <= i < |s| ==> '0' <= s[i] <= '9'
  }

  /** Decimal rendering of a natural number, as string interpolation of a
      non-negative `Int` gives it. */
  function NatToString(n: nat): (r: string)
    ensures |r| >= 1 && IsDecimal(r)
    ensures r[0] == '0' ==> n == 0
  {
    if n < 10 then [DigitChar(n)] else NatToString(n / 10) + [DigitChar(n % 10)]
  }

  /** The value of a decimal numeral. */
  function ParseNat(s: string): nat
    requires IsDecimal(s)
  {
    if |s| == 0 then 0 else ParseNat(s[..|s| - 1]) * 10 + (s[|s| - 1] as int - '0' as int)
  }

  /** Reading back a rendered number gives the number. */
  lemma {:induction false} NatToStringRoundTrip(n: nat)
    ensures ParseNat(NatToString(n)) == n
  {
    if n >= 10 {
      var s := NatToString(n);
      assert s[..|s| - 1] == NatToString(n / 10);
      NatToStringRoundTrip(n / 10);
    }
  }

  /** Distinct numbers render as distinct numerals. */
  lemma NatToStringInjective(m: nat, n: nat)
    ensures NatToString(m) == NatToString(n) ==> m == n
  {
    NatToStringRoundTrip(m);
    NatToStringRoundTrip(n);
  }
}
