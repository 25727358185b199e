/** What the generated file holds, line by line. `SourceLines` is the four
    parts placed one after the other (`SourcePositions.SourceLinesParts` says
    where each begins); the lemmas below say what each part holds, and with
    `SourceLayout.LinesOfSource` each statement carries over to the lines of
    `Source(spec, language)` whenever `SingleLine(spec)` holds; the last two
    lemmas make that step for the line count and the dialect comparison. */
module SourceLineFacts {
  import opened Strings
  import opened Languages
  import opened Specs
  import opened TestGenerator
  import opened SourceLayout
  import opened SourcePositions

  /** The file has a fixed number of lines plus one per documentation line,
      one per field, seven per test case and one per comparison (or a single
      empty one when there is no output variable). */
  lemma LineCount<T>(spec: TestSpec<T>, language: Language)
    ensures |SourceLines(spec, language)|
         == 42 + |spec.testLines| + |spec.inputVars| + |spec.outputVars| + 7 * |spec.tests|
            + (if |spec.outputVars| == 0 then 1 else |spec.outputVars|)
  {
    ClosingLinesIn(spec, language);
  }

  /** The header: fixed provenance lines naming both files, one comment line
      per documentation line in order, and the closing of the comment. */
  lemma HeaderLinesAt<T>(spec: TestSpec<T>)
    ensures |HeaderLines(spec)| == |spec.testLines| + 8
    ensures HeaderLines(spec)[..7]
         == ["/*",
             " * File Auto-Generated" + " by AcceptanceMark - DO NOT EDIT",
             " * input file: " + spec.fileName,
             " * generated file: " + spec.sourceFileName,
             " *",
             " * -- Test Specification -- ",
             " *"]
    ensures forall i :: 0 <= i < |spec.testLines| ==> HeaderLines(spec)[7 + i] == " * " + spec.testLines[i]
    ensures HeaderLines(spec)[7 + |spec.testLines|] == " */"
  {
    HeaderPieces(spec);
  }

  /** The declarations: the import, the Input struct with one field line per
      input variable in declaration order, the Output struct likewise for the
      output variables, and the Runnable protocol. */
  lemma DeclarationLinesAt<T>(spec: TestSpec<T>)
    ensures |DeclarationLines(spec)| == |spec.inputVars| + |spec.outputVars| + 11
    ensures DeclarationLines(spec)[0] == "import XCTest"
    ensures DeclarationLines(spec)[2] == "struct " + InputStructName(spec) + " {"
    ensures forall i :: 0 <= i < |spec.inputVars| ==>
              DeclarationLines(spec)[3 + i] == "\tlet " + spec.inputVars[i].name + ": " + spec.inputVars[i].typeRaw
    ensures DeclarationLines(spec)[3 + |spec.inputVars|] == "}"
    ensures DeclarationLines(spec)[|spec.inputVars| + 5] == "struct " + OutputStructName(spec) + ": Equatable {"
    ensures forall i :: 0 <= i < |spec.outputVars| ==>
              DeclarationLines(spec)[|spec.inputVars| + 6 + i]
              == "\tlet " + spec.outputVars[i].name + ": " + spec.outputVars[i].typeRaw
    ensures DeclarationLines(spec)[|spec.inputVars| + 6 + |spec.outputVars|] == "}"
    ensures DeclarationLines(spec)[|spec.inputVars| + |spec.outputVars| + 8..] == RunnableLines(spec)
  {
    var declarations := DeclarationLines(spec);
    var input := StructLines("struct " + InputStructName(spec) + " {", spec.inputVars);
    var output := StructLines("struct " + OutputStructName(spec) + ": Equatable {", spec.outputVars);
    var iv, ov := |spec.inputVars|, |spec.outputVars|;
    DeclarationParts(spec);
    StructLinesAt("struct " + InputStructName(spec) + " {", spec.inputVars);
    StructLinesAt("struct " + OutputStructName(spec) + ": Equatable {", spec.outputVars);
    SliceIndex(declarations, 2, iv + 5, input, 0, 2);
    FieldLinesIn(declarations, 2, iv + 5, input, spec.inputVars, 3);
    SliceIndex(declarations, 2, iv + 5, input, 1 + iv, 3 + iv);
    SliceIndex(declarations, iv + 5, iv + ov + 8, output, 0, iv + 5);
    FieldLinesIn(declarations, iv + 5, iv + ov + 8, output, spec.outputVars, iv + 6);
    SliceIndex(declarations, iv + 5, iv + ov + 8, output, 1 + ov, iv + 6 + ov);
  }

  /** The test class: its opening with the runner declaration and `setUp`,
      then for each case `i`, in the order of the cases, the seven lines of
      its test method, then the closing brace. */
  lemma ClassLinesAt<T>(spec: TestSpec<T>, language: Language)
    ensures |ClassLines(spec, language)| == 7 * |spec.tests| + 11
    ensures ClassLines(spec, language)[..9] == ClassOpeningLines(spec)
    ensures forall i :: 0 <= i < |spec.tests| ==>
              ClassLines(spec, language)[9 + 7 * i..9 + 7 * i + 7] == MethodLines(spec, language, i, spec.tests[i])
    ensures ClassLines(spec, language)[9 + 7 * |spec.tests|] == "}"
  {
    var testClass := ClassLines(spec, language);
    var methods := MethodLinesFrom(spec, language, 0);
    ClassFrameParts(spec, language);
    ClassMethodsPart(spec, language);
    forall i | 0 <= i < |spec.tests|
      ensures testClass[9 + 7 * i..9 + 7 * i + 7] == MethodLines(spec, language, i, spec.tests[i])
    {
      MethodLinesFromAt(spec, language, 0, i);
      SliceOfSlice(testClass, 9, 7 * |spec.tests| + 9, methods, 7 * (i - 0), 7 * (i - 0) + 7,
                   MethodLines(spec, language, i, spec.tests[i]), 9 + 7 * i, 9 + 7 * i + 7);
    }
  }

  /** The closing part: `==` comparing the output fields, then the
      commented-out sample runner, whose last line is "//". */
  lemma ClosingLinesAt<T>(spec: TestSpec<T>)
    ensures |ClosingLines(spec)| == |CheckLines(spec.outputVars)| + 12
    ensures ClosingLines(spec)[0]
         == "func == (lhs: " + OutputStructName(spec) + ", rhs: " + OutputStructName(spec) + ") -> Bool {"
    ensures ClosingLines(spec)[1] == "\treturn"
    ensures ClosingLines(spec)[2..|CheckLines(spec.outputVars)| + 2] == CheckLines(spec.outputVars)
    ensures ClosingLines(spec)[|CheckLines(spec.outputVars)| + 2] == "}"
    ensures ClosingLines(spec)[|CheckLines(spec.outputVars)| + 3..] == StubLines(spec)
    ensures ClosingLines(spec)[|ClosingLines(spec)| - 1] == "//"
  {
    EqualityParts(spec);
    StubPart(spec);
    var closing := ClosingLines(spec);
    assert closing[|closing| - 1] == closing[|CheckLines(spec.outputVars)| + 3..][8];
  }

  /** Distinct cases get distinct test method names, so the generated class
      never declares a method twice. */
  lemma MethodNamesDistinct(testName: string, i: nat, j: nat)
    ensures MethodName(testName, i) == MethodName(testName, j) ==> i == j
  {
    var prefix := "test" + testName + "_";
    if MethodName(testName, i) == MethodName(testName, j) {
      assert (prefix + NatToString(i))[|prefix|..] == NatToString(i);
      assert (prefix + NatToString(j))[|prefix|..] == NatToString(j);
      NatToStringInjective(i, j);
    }
  }

  // ---------------------------------------------------------------------------
  // Dialects


  /** The line of the file that holds a run call. */
  predicate IsRunCallLine<T>(spec: TestSpec<T>, k: int) {
    MethodsAt(spec) <= k < ClosingAt(spec) && (k - MethodsAt(spec)) % 7 == 3
  }

  /** The two dialects emit different run calls. */
  lemma RunCallsDiffer()
    ensures RunCallText(Swift3) != RunCallText(Swift2)
  {
    assert |RunCallText(Swift3)| != |RunCallText(Swift2)|;
  }

  /** Within a test method, only the run call depends on the dialect. */
  lemma MethodLinesDialects<T>(spec: TestSpec<T>, index: nat, test: T)
    ensures forall k :: 0 <= k < 7 && k != 3 ==>
              MethodLines(spec, Swift3, index, test)[k] == MethodLines(spec, Swift2, index, test)[k]
    ensures MethodLines(spec, Swift3, index, test)[3] == RunCallText(Swift3)
    ensures MethodLines(spec, Swift2, index, test)[3] == RunCallText(Swift2)
  {
  }

  /** Line by line, the two dialects agree everywhere but at the run calls. */
  lemma SourceLinesAgree<T>(spec: TestSpec<T>)
    ensures AgreeBesideRunCalls(SourceLines(spec, Swift3), SourceLines(spec, Swift2), MethodsAt(spec), ClosingAt(spec))
  {
    MethodLinesFromAgree(spec, 0);
    AgreeSurrounded(ClassOpeningLines(spec), MethodLinesFrom(spec, Swift3, 0), MethodLinesFrom(spec, Swift2, 0),
                    ["}", ""], 0, 7 * (|spec.tests| - 0), 9, 9 + 7 * |spec.tests|);
    PartLengths(spec, Swift3);
    AgreeSurrounded(HeaderLines(spec) + DeclarationLines(spec), ClassLines(spec, Swift3), ClassLines(spec, Swift2),
                    ClosingLines(spec), 9, 9 + 7 * |spec.tests|, MethodsAt(spec), ClosingAt(spec));
  }

  /** The Swift 3 and the Swift 2 file have the same number of lines and the
      same line everywhere except possibly at the run call of each test
      method, which carries the argument label in Swift 3 only. */
  lemma DialectsDifferInRunCallsOnly<T>(spec: TestSpec<T>)
    ensures |SourceLines(spec, Swift3)| == |SourceLines(spec, Swift2)|
    ensures forall k :: 0 <= k < |SourceLines(spec, Swift3)| && !IsRunCallLine(spec, k) ==>
              SourceLines(spec, Swift3)[k] == SourceLines(spec, Swift2)[k]
  {
    SourceLinesAgree(spec);
  }

  // ---------------------------------------------------------------------------
  // On the emitted text

  /** The line count of the emitted text itself. */
  lemma EmittedLineCount<T>(spec: TestSpec<T>, language: Language)
    requires SingleLine(spec)
    ensures |Lines(Source(spec, language))|
         == 42 + |spec.testLines| + |spec.inputVars| + |spec.outputVars| + 7 * |spec.tests|
            + (if |spec.outputVars| == 0 then 1 else |spec.outputVars|)
  {
    LinesOfSource(spec, language);
    LineCount(spec, language);
  }

  /** The Swift 3 and the Swift 2 text have the same number of lines and the
      same line everywhere except possibly at the run calls. */
  lemma EmittedDialectsDifferInRunCallsOnly<T>(spec: TestSpec<T>)
    requires SingleLine(spec)
    ensures |Lines(Source(spec, Swift3))| == |Lines(Source(spec, Swift2))|
    ensures forall k :: 0 <= k < |Lines(Source(spec, Swift3))| && !IsRunCallLine(spec, k) ==>
              Lines(Source(spec, Swift3))[k] == Lines(Source(spec, Swift2))[k]
  {
    LinesOfSource(spec, Swift3);
    LinesOfSource(spec, Swift2);
    DialectsDifferInRunCallsOnly(spec);
  }
}
