/** Where each part of the generated file sits, counted in lines, and the
    pieces of each part. `SourceLineFacts` combines these into statements
    about single lines of the file. */
module SourcePositions {
  import opened Strings
  import opened Languages
  import opened Specs
  import opened TestGenerator
  import opened SourceLayout

  /** The number of lines of the header comment. */
  function HeaderLength<T>(spec: TestSpec<T>): nat {
    8 + |spec.testLines|
  }

  /** The line declaring the Input struct. */
  function InputAt<T>(spec: TestSpec<T>): nat {
    HeaderLength(spec) + 2
  }

  /** The line declaring the Output struct. */
  function OutputAt<T>(spec: TestSpec<T>): nat {
    InputAt(spec) + |spec.inputVars| + 3
  }

  /** The line declaring the Runnable protocol. */
  function RunnableAt<T>(spec: TestSpec<T>): nat {
    OutputAt(spec) + |spec.outputVars| + 3
  }

  /** The line declaring the test class. */
  function ClassAt<T>(spec: TestSpec<T>): nat {
    RunnableAt(spec) + 3
  }

  /** The first line of the first test method. */
  function MethodsAt<T>(spec: TestSpec<T>): nat {
    ClassAt(spec) + 9
  }

  /** The line closing the test class. */
  function ClosingAt<T>(spec: TestSpec<T>): nat {
    MethodsAt(spec) + 7 * |spec.tests|
  }

  /** The line declaring `==`. */
  function EqualityAt<T>(spec: TestSpec<T>): nat {
    ClosingAt(spec) + 2
  }

  /** The first line of the runner stub. */
  function StubAt<T>(spec: TestSpec<T>): nat {
    EqualityAt(spec) + 3 + |CheckLines(spec.outputVars)|
  }

  // ---------------------------------------------------------------------------
  // The reference description, part by part

  lemma {:induction false} MethodLinesFromLength<T>(spec: TestSpec<T>, language: Language, from: nat)
    requires from <= |spec.tests|
    ensures |MethodLinesFrom(spec, language, from)| == 7 * (|spec.tests| - from)
    decreases |spec.tests| - from
  {
    if from < |spec.tests| {
      MethodLinesFromLength(spec, language, from + 1);
    }
  }

  /** The test method of case `i` occupies seven lines, at `7 * (i - from)`. */
  lemma {:induction false} MethodLinesFromAt<T>(spec: TestSpec<T>, language: Language, from: nat, i: nat)
    requires from <= i < |spec.tests|
    ensures 7 * (i - from) + 7 <= |MethodLinesFrom(spec, language, from)|
    ensures MethodLinesFrom(spec, language, from)[7 * (i - from)..7 * (i - from) + 7]
         == MethodLines(spec, language, i, spec.tests[i])
    decreases |spec.tests| - from
  {
    MethodLinesFromLength(spec, language, from);
    var here := MethodLines(spec, language, from, spec.tests[from]);
    var later := MethodLinesFrom(spec, language, from + 1);
    if from < i {
      MethodLinesFromAt(spec, language, from + 1, i);
      SliceRight(here, later, 7 * (i - from - 1), 7 * (i - from - 1) + 7);
    } else {
      PrefixLeft(here, later);
    }
  }

  /** The number of lines of each of the four parts of `SourceLines`. */
  lemma PartLengths<T>(spec: TestSpec<T>, language: Language)
    ensures |HeaderLines(spec)| == HeaderLength(spec)
    ensures |DeclarationLines(spec)| == ClassAt(spec) - HeaderLength(spec)
    ensures |ClassLines(spec, language)| == EqualityAt(spec) - ClassAt(spec)
    ensures |ClosingLines(spec)| == StubAt(spec) + 9 - EqualityAt(spec)
  {
    HeaderLinesLength(spec);
    DeclarationLinesLength(spec);
    ClassLinesLength(spec, language);
    ClosingLinesLength(spec);
  }

  lemma HeaderLinesLength<T>(spec: TestSpec<T>)
    ensures |HeaderLines(spec)| == HeaderLength(spec)
  {
  }

  lemma DeclarationLinesLength<T>(spec: TestSpec<T>)
    ensures |DeclarationLines(spec)| == ClassAt(spec) - HeaderLength(spec)
  {
  }

  lemma ClassLinesLength<T>(spec: TestSpec<T>, language: Language)
    ensures |ClassLines(spec, language)| == EqualityAt(spec) - ClassAt(spec)
  {
    MethodLinesFromLength(spec, language, 0);
  }

  lemma ClosingLinesLength<T>(spec: TestSpec<T>)
    ensures |ClosingLines(spec)| == StubAt(spec) + 9 - EqualityAt(spec)
  {
  }

  /** The four parts of `SourceLines` and where they begin. */
  lemma SourceLinesParts<T>(spec: TestSpec<T>, language: Language)
    ensures |SourceLines(spec, language)| == StubAt(spec) + 9
    ensures SourceLines(spec, language)[..HeaderLength(spec)] == HeaderLines(spec)
    ensures SourceLines(spec, language)[HeaderLength(spec)..ClassAt(spec)] == DeclarationLines(spec)
    ensures SourceLines(spec, language)[ClassAt(spec)..EqualityAt(spec)] == ClassLines(spec, language)
    ensures SourceLines(spec, language)[EqualityAt(spec)..] == ClosingLines(spec)
  {
    PartLengths(spec, language);
    var header, declarations := HeaderLines(spec), DeclarationLines(spec);
    var testClass, closing := ClassLines(spec, language), ClosingLines(spec);
    var a := header + declarations;
    var b := a + testClass;
    PrefixLeft(b, closing);
    PrefixLeft(a, testClass);
    PrefixLeft(header, declarations);
    SliceRight(header, declarations, 0, |declarations|);
    SliceRight(a, testClass, 0, |testClass|);
    SliceRight(b, closing, 0, |closing|);
  }

  /** The header in the file. */
  lemma HeaderLinesIn<T>(spec: TestSpec<T>, language: Language)
    ensures HeaderLength(spec) <= |SourceLines(spec, language)|
    ensures SourceLines(spec, language)[0..HeaderLength(spec)] == HeaderLines(spec)
  {
    SourceLinesParts(spec, language);
  }

  /** The declarations in the file. */
  lemma DeclarationLinesIn<T>(spec: TestSpec<T>, language: Language)
    ensures HeaderLength(spec) <= ClassAt(spec) <= |SourceLines(spec, language)|
    ensures SourceLines(spec, language)[HeaderLength(spec)..ClassAt(spec)] == DeclarationLines(spec)
  {
    SourceLinesParts(spec, language);
  }

  /** The test class in the file. */
  lemma ClassLinesIn<T>(spec: TestSpec<T>, language: Language)
    ensures ClassAt(spec) <= EqualityAt(spec) <= |SourceLines(spec, language)|
    ensures SourceLines(spec, language)[ClassAt(spec)..EqualityAt(spec)] == ClassLines(spec, language)
  {
    SourceLinesParts(spec, language);
  }

  /** The closing part in the file. */
  lemma ClosingLinesIn<T>(spec: TestSpec<T>, language: Language)
    ensures |SourceLines(spec, language)| == StubAt(spec) + 9
    ensures SourceLines(spec, language)[EqualityAt(spec)..] == ClosingLines(spec)
  {
    SourceLinesParts(spec, language);
  }

  /** A slice of a slice is a slice of the sequence it was cut from. */
  lemma SliceOfSlice<X>(s: seq<X>, lo: nat, hi: nat, p: seq<X>, a: nat, b: nat, r: seq<X>, from: nat, to: nat)
    requires lo <= hi <= |s| && s[lo..hi] == p
    requires a <= b <= |p| && p[a..b] == r
    requires from == lo + a && to == lo + b
    ensures to <= |s| && s[from..to] == r
  {
    forall k | 0 <= k < b - a
      ensures s[from..to][k] == r[k]
    {
      assert s[lo..hi][a + k] == p[a + k];
    }
  }

  /** An entry of a slice, read in the sequence it was cut from. */
  lemma SliceIndex<X>(s: seq<X>, lo: nat, hi: nat, p: seq<X>, j: nat, k: nat)
    requires lo <= hi <= |s| && s[lo..hi] == p
    requires j < |p| && k == lo + j
    ensures k < |s| && s[k] == p[j]
  {
    assert s[lo..hi][j] == p[j];
  }

  /** The field lines of a struct cut out of `s` at `lo`, read in `s`. */
  lemma FieldLinesIn(s: seq<string>, lo: nat, hi: nat, st: seq<string>, vars: seq<Variable>, at: nat)
    requires lo <= hi <= |s| && s[lo..hi] == st
    requires |st| == |vars| + 3
    requires forall i :: 0 <= i < |vars| ==> st[1 + i] == "\tlet " + vars[i].name + ": " + vars[i].typeRaw
    requires at == lo + 1
    ensures forall i :: 0 <= i < |vars| ==> s[at + i] == "\tlet " + vars[i].name + ": " + vars[i].typeRaw
  {
    forall i | 0 <= i < |vars|
      ensures s[at + i] == "\tlet " + vars[i].name + ": " + vars[i].typeRaw
    {
      SliceIndex(s, lo, hi, st, 1 + i, at + i);
    }
  }

  // ---------------------------------------------------------------------------
  // Inside the parts

  /** The pieces of the header. */
  lemma HeaderPieces<T>(spec: TestSpec<T>)
    ensures |HeaderLines(spec)| == HeaderLength(spec)
    ensures forall i :: 0 <= i < |spec.testLines| ==> HeaderLines(spec)[7 + i] == " * " + spec.testLines[i]
    ensures HeaderLines(spec)[7 + |spec.testLines|] == " */"
  {
  }

  /** A struct's lines: its declaration, one field line per variable in
      declaration order, and the closing brace. */
  lemma StructLinesAt(declaration: string, vars: seq<Variable>)
    ensures |StructLines(declaration, vars)| == |vars| + 3
    ensures StructLines(declaration, vars)[0] == declaration
    ensures forall i :: 0 <= i < |vars| ==>
              StructLines(declaration, vars)[1 + i] == "\tlet " + vars[i].name + ": " + vars[i].typeRaw
    ensures StructLines(declaration, vars)[1 + |vars|] == "}"
  {
  }

  /** The four pieces of the declarations and where they begin. */
  lemma DeclarationParts<T>(spec: TestSpec<T>)
    ensures |DeclarationLines(spec)| == |spec.inputVars| + |spec.outputVars| + 11
    ensures DeclarationLines(spec)[0] == "import XCTest"
    ensures DeclarationLines(spec)[2..|spec.inputVars| + 5]
         == StructLines("struct " + InputStructName(spec) + " {", spec.inputVars)
    ensures DeclarationLines(spec)[|spec.inputVars| + 5..|spec.inputVars| + |spec.outputVars| + 8]
         == StructLines("struct " + OutputStructName(spec) + ": Equatable {", spec.outputVars)
    ensures DeclarationLines(spec)[|spec.inputVars| + |spec.outputVars| + 8..] == RunnableLines(spec)
  {
    var input := StructLines("struct " + InputStructName(spec) + " {", spec.inputVars);
    var output := StructLines("struct " + OutputStructName(spec) + ": Equatable {", spec.outputVars);
    var runnable := RunnableLines(spec);
    var a := IMPORT_LINES + input;
    var b := a + output;
    assert |input| == |spec.inputVars| + 3 && |output| == |spec.outputVars| + 3;
    SliceRight(IMPORT_LINES, input, 0, |input|);
    PrefixLeft(a, output);
    PrefixLeft(b, runnable);
    SliceRight(a, output, 0, |output|);
    SliceRight(b, runnable, 0, |runnable|);
  }

  /** The opening and the closing brace of the test class. */
  lemma ClassFrameParts<T>(spec: TestSpec<T>, language: Language)
    ensures |ClassLines(spec, language)| == 7 * |spec.tests| + 11
    ensures ClassLines(spec, language)[..9] == ClassOpeningLines(spec)
    ensures ClassLines(spec, language)[7 * |spec.tests| + 9] == "}"
  {
    MethodLinesFromLength(spec, language, 0);
    var opening := ClassOpeningLines(spec);
    var methods := MethodLinesFrom(spec, language, 0);
    PrefixLeft(opening + methods, ["}", ""]);
    PrefixLeft(opening, methods);
  }

  /** The test methods inside the test class. */
  lemma ClassMethodsPart<T>(spec: TestSpec<T>, language: Language)
    ensures |ClassLines(spec, language)| == 7 * |spec.tests| + 11
    ensures ClassLines(spec, language)[9..7 * |spec.tests| + 9] == MethodLinesFrom(spec, language, 0)
  {
    MethodLinesFromLength(spec, language, 0);
    var opening := ClassOpeningLines(spec);
    var methods := MethodLinesFrom(spec, language, 0);
    PrefixLeft(opening + methods, ["}", ""]);
    SliceRight(opening, methods, 0, |methods|);
  }

  /** The equality operator within the closing part. */
  lemma EqualityParts<T>(spec: TestSpec<T>)
    ensures |ClosingLines(spec)| == |CheckLines(spec.outputVars)| + 12
    ensures ClosingLines(spec)[0]
         == "func == (lhs: " + OutputStructName(spec) + ", rhs: " + OutputStructName(spec) + ") -> Bool {"
    ensures ClosingLines(spec)[1] == "\treturn"
    ensures ClosingLines(spec)[2..|CheckLines(spec.outputVars)| + 2] == CheckLines(spec.outputVars)
    ensures ClosingLines(spec)[|CheckLines(spec.outputVars)| + 2] == "}"
  {
    var first := "func == (lhs: " + OutputStructName(spec) + ", rhs: " + OutputStructName(spec) + ") -> Bool {";
    var checks := CheckLines(spec.outputVars);
    var equality := EqualityLines(spec);
    var stub := StubLines(spec);
    assert equality == [first, "\treturn"] + checks + ["}"];
    PrefixLeft([first, "\treturn"] + checks, ["}"]);
    SliceRight([first, "\treturn"], checks, 0, |checks|);
    PrefixLeft(equality, stub);
  }

  /** The runner stub within the closing part. */
  lemma StubPart<T>(spec: TestSpec<T>)
    ensures |ClosingLines(spec)| == |CheckLines(spec.outputVars)| + 12
    ensures ClosingLines(spec)[|CheckLines(spec.outputVars)| + 3..] == StubLines(spec)
  {
    var equality := EqualityLines(spec);
    var stub := StubLines(spec);
    SliceRight(equality, stub, 0, |stub|);
  }

  // ---------------------------------------------------------------------------
  // Dialects

  /** `xs` and `ys` have the same length and the same line everywhere except
      possibly at every seventh line from `lo` (offset 3) below `hi`: the
      run-call lines of the test methods. */
  ghost predicate AgreeBesideRunCalls(xs: seq<string>, ys: seq<string>, lo: int, hi: int) {
    && |xs| == |ys|
    && forall k :: 0 <= k < |xs| && !(lo <= k < hi && (k - lo) % 7 == 3) ==> xs[k] == ys[k]
  }

  /** Agreement survives surrounding both sides with the same lines. */
  lemma AgreeSurrounded(p: seq<string>, xs: seq<string>, ys: seq<string>, q: seq<string>, lo: int, hi: int,
                        lo': int, hi': int)
    requires AgreeBesideRunCalls(xs, ys, lo, hi)
    requires lo' == |p| + lo && hi' == |p| + hi
    ensures AgreeBesideRunCalls(p + xs + q, p + ys + q, lo', hi')
  {
    forall k | 0 <= k < |p + xs + q| && !(|p| + lo <= k < |p| + hi && (k - (|p| + lo)) % 7 == 3)
      ensures (p + xs + q)[k] == (p + ys + q)[k]
    {
      if |p| <= k < |p| + |xs| {
        assert (p + xs + q)[k] == xs[k - |p|] && (p + ys + q)[k] == ys[k - |p|];
      }
    }
  }

  /** One more test method in front keeps the agreement, shifted by seven. */
  lemma AgreeCons(a: seq<string>, b: seq<string>, xs: seq<string>, ys: seq<string>, m: int)
    requires |a| == |b| == 7 && m >= 0
    requires forall k :: 0 <= k < 7 && k != 3 ==> a[k] == b[k]
    requires AgreeBesideRunCalls(xs, ys, 0, m)
    ensures AgreeBesideRunCalls(a + xs, b + ys, 0, 7 + m)
  {
    forall k | 0 <= k < |a + xs| && !(0 <= k < 7 + m && k % 7 == 3)
      ensures (a + xs)[k] == (b + ys)[k]
    {
      if k >= 7 {
        assert (k - 7) % 7 == k % 7;
        assert (a + xs)[k] == xs[k - 7] && (b + ys)[k] == ys[k - 7];
      }
    }
  }

  lemma {:induction false} MethodLinesFromAgree<T>(spec: TestSpec<T>, from: nat)
    requires from <= |spec.tests|
    ensures AgreeBesideRunCalls(MethodLinesFrom(spec, Swift3, from), MethodLinesFrom(spec, Swift2, from),
                                0, 7 * (|spec.tests| - from))
    decreases |spec.tests| - from
  {
    if from < |spec.tests| {
      MethodLinesFromAgree(spec, from + 1);
      AgreeCons(MethodLines(spec, Swift3, from, spec.tests[from]), MethodLines(spec, Swift2, from, spec.tests[from]),
                MethodLinesFrom(spec, Swift3, from + 1), MethodLinesFrom(spec, Swift2, from + 1),
                7 * (|spec.tests| - from - 1));
    }
  }
}
