/** The generated file read line by line. `SourceLines` describes, independently
    of the append-based construction, which line the file has where; the main
    theorem says that splitting `Source(spec, language)` at its newlines gives
    exactly these lines whenever no string taken from the specification holds a
    newline. The remaining lemmas read the counts, orders and dialect
    differences off this description. */
module SourceLayout {
  import opened Strings
  import opened Languages
  import opened Specs
  import opened TestGenerator

  function HeaderLines<T>(spec: TestSpec<T>): seq<string> {
    ["/*",
     " * File Auto-Generated" + " by AcceptanceMark - DO NOT EDIT",
     " * input file: " + spec.fileName,
     " * generated file: " + spec.sourceFileName,
     " *",
     " * -- Test Specification -- ",
     " *"]
    + CommentTexts(spec.testLines)
    + [" */"]
  }

  const IMPORT_LINES: seq<string> := ["import XCTest", ""]

  /** A struct: its declaration line, one line per field, the closing brace
      and a blank line. */
  function StructLines(declaration: string, vars: seq<Variable>): seq<string> {
    [declaration] + FieldTexts(vars) + ["}", ""]
  }

  function RunnableLines<T>(spec: TestSpec<T>): seq<string> {
    ["protocol " + ClassIdentifier(spec) + "Runnable {",
     "\tfunc run(input: " + InputStructName(spec) + ") throws -> " + OutputStructName(spec),
     "}"]
  }

  function ClassOpeningLines<T>(spec: TestSpec<T>): seq<string> {
    ["class " + ClassIdentifier(spec) + "Tests: XCTestCase {",
     "",
     "\tvar testRunner: " + ClassIdentifier(spec) + "Runnable!",
     "",
     "\toverride func setUp() {",
     "\t\t// MARK: Implement the " + ClassIdentifier(spec) + "TestRunner() class!",
     "\t\ttestRunner = " + ClassIdentifier(spec) + "Runner()",
     "\t}",
     ""]
  }

  /** The name of the test method for the case at zero-based `index`. */
  function MethodName(testName: string, index: nat): string {
    "test" + testName + "_" + NatToString(index)
  }

  /** The line that invokes the runner. */
  function RunCallText(language: Language): string {
    "\t\tlet result = try! testRunner.run(" + RunLabel(language) + "input)"
  }

  /** The seven lines of one test method, the last one blank. */
  function MethodLines<T>(spec: TestSpec<T>, language: Language, index: nat, test: T): seq<string> {
    ["\tfunc " + MethodName(spec.testName, index) + "() {",
     "\t\tlet input = " + InputStructName(spec) + "(" + spec.inputParametersList(test) + ")",
     "\t\tlet expected = " + OutputStructName(spec) + "(" + spec.outputParametersList(test) + ")",
     RunCallText(language),
     "\t\tXCTAssertEqual(expected, result)",
     "\t}",
     ""]
  }

  /** The lines of the test methods for the cases from `from` on. */
  function MethodLinesFrom<T>(spec: TestSpec<T>, language: Language, from: nat): seq<string>
    decreases |spec.tests| - from
  {
    if from >= |spec.tests| then []
    else MethodLines(spec, language, from, spec.tests[from]) + MethodLinesFrom(spec, language, from + 1)
  }

  /** The comparison lines of `==`: one per output variable, all but the last
      ending in " &&"; a single empty line when there is no output variable. */
  function CheckLines(outputVars: seq<Variable>): seq<string> {
    if |outputVars| == 0 then [""] else Suffixed(Comparisons(outputVars), " &&")
  }

  function EqualityLines<T>(spec: TestSpec<T>): seq<string> {
    ["func == (lhs: " + OutputStructName(spec) + ", rhs: " + OutputStructName(spec) + ") -> Bool {",
     "\treturn"]
    + CheckLines(spec.outputVars)
    + ["}"]
  }

  function StubLines<T>(spec: TestSpec<T>): seq<string> {
    ["//",
     "//// You need to create" + " a test runner. Sample runner: ",
     "//class " + ClassIdentifier(spec) + "Runner : " + ClassIdentifier(spec) + "Runnable {",
     "//",
     "//\tfunc run(input: " + InputStructName(spec) + ") throws -> " + OutputStructName(spec) + " {",
     "//\t\t//return <" + OutputStructName(spec) + ">",
     "//\t}",
     "//}",
     "//"]
  }

  /** The import and the declarations before the test class. */
  function DeclarationLines<T>(spec: TestSpec<T>): seq<string> {
    IMPORT_LINES
    + StructLines("struct " + InputStructName(spec) + " {", spec.inputVars)
    + StructLines("struct " + OutputStructName(spec) + ": Equatable {", spec.outputVars)
    + RunnableLines(spec)
  }

  /** The test class: its opening, the test methods and its closing brace. */
  function ClassLines<T>(spec: TestSpec<T>, language: Language): seq<string> {
    ClassOpeningLines(spec) + MethodLinesFrom(spec, language, 0) + ["}", ""]
  }

  /** The equality operator and the runner stub, which end the file. */
  function ClosingLines<T>(spec: TestSpec<T>): seq<string> {
    EqualityLines(spec) + StubLines(spec)
  }

  /** The generated file, line by line. */
  function SourceLines<T>(spec: TestSpec<T>, language: Language): seq<string> {
    HeaderLines(spec) + DeclarationLines(spec) + ClassLines(spec, language) + ClosingLines(spec)
  }

  // ---------------------------------------------------------------------------
  // Fragment by fragment

  /** The synthesized names are single lines when their parts are. */
  lemma NamesSingleLine<T>(spec: TestSpec<T>)
    requires '\n' !in spec.namespace && '\n' !in spec.testName
    ensures '\n' !in ClassIdentifier(spec)
    ensures '\n' !in InputStructName(spec) && '\n' !in OutputStructName(spec)
  {
  }

  lemma HeaderLiteralsSingleLine()
    ensures '\n' !in "/*" && '\n' !in " *" && '\n' !in " * -- Test Specification -- "
    ensures '\n' !in " * input file: " && '\n' !in " * generated file: "
  {
  }

  lemma NoticeSingleLine()
    ensures '\n' !in " * File Auto-Generated" && '\n' !in " by AcceptanceMark - DO NOT EDIT"
  {
  }

  /** The opening of the header regrouped line by line. */
  lemma HeaderOpeningSplit(fileName: string, sourceFileName: string, rest: string)
    ensures HeaderOpening(fileName, sourceFileName) + rest
         == Line("/*") + (Line(" * File Auto-Generated" + " by AcceptanceMark - DO NOT EDIT") +
            (Line(" * input file: " + fileName) + (Line(" * generated file: " + sourceFileName) +
            (Line(" *") + (Line(" * -- Test Specification -- ") + (Line(" *") + rest))))))
  {
    var a1, a2 := Line("/*"), Line(" * File Auto-Generated" + " by AcceptanceMark - DO NOT EDIT");
    var a3, a4 := Line(" * input file: " + fileName), Line(" * generated file: " + sourceFileName);
    var a5, a6, a7 := Line(" *"), Line(" * -- Test Specification -- "), Line(" *");
    Assoc(a1 + a2 + a3 + a4 + a5 + a6, a7, rest);
    Assoc(a1 + a2 + a3 + a4 + a5, a6, (a7 + rest));
    Assoc(a1 + a2 + a3 + a4, a5, (a6 + (a7 + rest)));
    Assoc(a1 + a2 + a3, a4, (a5 + (a6 + (a7 + rest))));
    Assoc(a1 + a2, a3, (a4 + (a5 + (a6 + (a7 + rest)))));
    Assoc(a1, a2, (a3 + (a4 + (a5 + (a6 + (a7 + rest))))));
  }

  lemma HeaderOpeningLines(fileName: string, sourceFileName: string, rest: string)
    requires '\n' !in fileName && '\n' !in sourceFileName
    ensures Lines(HeaderOpening(fileName, sourceFileName) + rest)
         == ["/*",
             " * File Auto-Generated" + " by AcceptanceMark - DO NOT EDIT",
             " * input file: " + fileName,
             " * generated file: " + sourceFileName,
             " *",
             " * -- Test Specification -- ",
             " *"] + Lines(rest)
  {
    var l1, l2, l3, l4, l5, l6, l7 :=
      "/*", " * File Auto-Generated" + " by AcceptanceMark - DO NOT EDIT", " * input file: " + fileName,
      " * generated file: " + sourceFileName, " *", " * -- Test Specification -- ", " *";
    HeaderLiteralsSingleLine();
    NoticeSingleLine();
    HeaderOpeningSplit(fileName, sourceFileName, rest);
    var r7 := Line(l7) + rest;
    var r6 := Line(l6) + r7;
    var r5 := Line(l5) + r6;
    var r4 := Line(l4) + r5;
    var r3 := Line(l3) + r4;
    var r2 := Line(l2) + r3;
    LinesOfLine(l7, rest);
    LinesOfLine(l6, r7);
    LinesOfLine(l5, r6);
    LinesOfLine(l4, r5);
    LinesOfLine(l3, r4);
    LinesOfLine(l2, r3);
    LinesOfLine(l1, r2);
    Nest7(l1, l2, l3, l4, l5, l6, l7, Lines(rest));
  }

  lemma CommentTextsSingleLine(lines: seq<string>)
    requires forall i :: 0 <= i < |lines| ==> '\n' !in lines[i]
    ensures forall i :: 0 <= i < |CommentTexts(lines)| ==> '\n' !in CommentTexts(lines)[i]
  {
  }

  lemma HeaderLinesOf<T>(spec: TestSpec<T>, rest: string)
    requires SingleLine(spec)
    ensures Lines(HeaderOpening(spec.fileName, spec.sourceFileName) +
                  Concat(Terminated(CommentTexts(spec.testLines))) +
                  HEADER_CLOSING + rest)
         == HeaderLines(spec) + Lines(rest)
  {
    var comments := Concat(Terminated(CommentTexts(spec.testLines)));
    Assoc(HeaderOpening(spec.fileName, spec.sourceFileName) + comments, HEADER_CLOSING, rest);
    Assoc(HeaderOpening(spec.fileName, spec.sourceFileName), comments, HEADER_CLOSING + rest);
    HeaderOpeningLines(spec.fileName, spec.sourceFileName, comments + (Line(" */") + rest));
    CommentTextsSingleLine(spec.testLines);
    LinesOfTerminated(CommentTexts(spec.testLines), Line(" */") + rest);
    LinesOfLine(" */", rest);
    var opening := HeaderLines(spec)[..7];
    assert HeaderLines(spec) == opening + CommentTexts(spec.testLines) + [" */"];
    Assoc(opening, CommentTexts(spec.testLines), [" */"] + Lines(rest));
    Assoc(opening + CommentTexts(spec.testLines), [" */"], Lines(rest));
  }

  lemma ImportLinesOf(rest: string)
    ensures Lines(IMPORTS + rest) == IMPORT_LINES + Lines(rest)
  {
    Assoc(Line("import XCTest"), Line(""), rest);
    LinesOfLine("", rest);
    LinesOfLine("import XCTest", Line("") + rest);
    Nest2("import XCTest", "", Lines(rest));
  }

  lemma FieldTextsSingleLine(vars: seq<Variable>)
    requires SingleLineVars(vars)
    ensures forall i :: 0 <= i < |FieldTexts(vars)| ==> '\n' !in FieldTexts(vars)[i]
  {
  }

  /** The fields and the closing brace of a struct. */
  lemma StructBodyLines(vars: seq<Variable>, rest: string)
    requires SingleLineVars(vars)
    ensures Lines(Fields(vars) + (Line("}") + (Line("") + rest))) == FieldTexts(vars) + ["}", ""] + Lines(rest)
  {
    FieldTextsSingleLine(vars);
    LinesOfTerminated(FieldTexts(vars), Line("}") + (Line("") + rest));
    LinesOfLine("", rest);
    LinesOfLine("}", Line("") + rest);
    Nest2("}", "", Lines(rest));
    Assoc(FieldTexts(vars), ["}", ""], Lines(rest));
  }

  lemma InputStructLines(name: string, vars: seq<Variable>, rest: string)
    requires '\n' !in name && SingleLineVars(vars)
    ensures Lines(InputStruct(name, Fields(vars)) + rest) == StructLines("struct " + name + " {", vars) + Lines(rest)
  {
    var body := Fields(vars) + (Line("}") + (Line("") + rest));
    var l1 := Line("struct " + name + " {");
    Assoc(l1 + Fields(vars) + Line("}"), Line(""), rest);
    Assoc(l1 + Fields(vars), Line("}"), Line("") + rest);
    Assoc(l1, Fields(vars), Line("}") + (Line("") + rest));
    LinesOfLine("struct " + name + " {", body);
    StructBodyLines(vars, rest);
    Assoc(FieldTexts(vars), ["}", ""], Lines(rest));
    Assoc(["struct " + name + " {"], FieldTexts(vars), ["}", ""] + Lines(rest));
    Assoc(["struct " + name + " {"] + FieldTexts(vars), ["}", ""], Lines(rest));
  }

  lemma OutputStructLines(name: string, vars: seq<Variable>, rest: string)
    requires '\n' !in name && SingleLineVars(vars)
    ensures Lines(OutputStruct(name, Fields(vars)) + rest)
         == StructLines("struct " + name + ": Equatable {", vars) + Lines(rest)
  {
    var body := Fields(vars) + (Line("}") + (Line("") + rest));
    var l1 := Line("struct " + name + ": Equatable {");
    Assoc(l1 + Fields(vars) + Line("}"), Line(""), rest);
    Assoc(l1 + Fields(vars), Line("}"), Line("") + rest);
    Assoc(l1, Fields(vars), Line("}") + (Line("") + rest));
    LinesOfLine("struct " + name + ": Equatable {", body);
    StructBodyLines(vars, rest);
    Assoc(FieldTexts(vars), ["}", ""], Lines(rest));
    Assoc(["struct " + name + ": Equatable {"], FieldTexts(vars), ["}", ""] + Lines(rest));
    Assoc(["struct " + name + ": Equatable {"] + FieldTexts(vars), ["}", ""], Lines(rest));
  }

  lemma RunnableLinesOf<T>(spec: TestSpec<T>, rest: string)
    requires SingleLine(spec)
    ensures Lines(RunnableProtocol(ClassIdentifier(spec), InputStructName(spec), OutputStructName(spec)) + rest)
         == RunnableLines(spec) + Lines(rest)
  {
    NamesSingleLine(spec);
    var l1 := "protocol " + ClassIdentifier(spec) + "Runnable {";
    var l2 := "\tfunc run(input: " + InputStructName(spec) + ") throws -> " + OutputStructName(spec);
    var r3 := Line("}") + rest;
    var r2 := Line(l2) + r3;
    Assoc(Line(l1) + Line(l2), Line("}"), rest);
    Assoc(Line(l1), Line(l2), r3);
    LinesOfLine("}", rest);
    LinesOfLine(l2, r3);
    LinesOfLine(l1, r2);
    Nest3(l1, l2, "}", Lines(rest));
  }

  lemma ClassLiteralsSingleLine()
    ensures '\n' !in "class " && '\n' !in "Tests: XCTestCase {" && '\n' !in "\t}"
    ensures '\n' !in "\tvar testRunner: " && '\n' !in "Runnable!"
  {
  }

  lemma SetUpLiteralsSingleLine()
    ensures '\n' !in "\toverride func setUp() {" && '\n' !in "\t\ttestRunner = " && '\n' !in "Runner()"
  {
  }

  lemma MarkLiteralsSingleLine()
    ensures '\n' !in "\t\t// MARK: Implement the " && '\n' !in "TestRunner() class!"
  {
  }

  /** The opening of the test class regrouped line by line. */
  lemma ClassOpeningSplit(classIdentifier: string, tests: string, rest: string)
    ensures TestCaseClass(classIdentifier, tests) + rest
         == Line("class " + classIdentifier + "Tests: XCTestCase {") + (Line("") +
            (Line("\tvar testRunner: " + classIdentifier + "Runnable!") + (Line("") +
            (Line("\toverride func setUp() {") +
            (Line("\t\t// MARK: Implement the " + classIdentifier + "TestRunner() class!") +
            (Line("\t\ttestRunner = " + classIdentifier + "Runner()") + (Line("\t}") + (Line("") +
            (tests + (Line("}") + (Line("") + rest)))))))))))
  {
    var l1, l2, l3, l4 := Line("class " + classIdentifier + "Tests: XCTestCase {"), Line(""),
      Line("\tvar testRunner: " + classIdentifier + "Runnable!"), Line("");
    var l5, l6 := Line("\toverride func setUp() {"), Line("\t\t// MARK: Implement the " + classIdentifier + "TestRunner() class!");
    var l7, l8, l9 := Line("\t\ttestRunner = " + classIdentifier + "Runner()"), Line("\t}"), Line("");
    var l10, l11 := Line("}"), Line("");
    Assoc(l1 + l2 + l3 + l4 + l5 + l6 + l7 + l8 + l9 + tests + l10, l11, rest);
    Assoc(l1 + l2 + l3 + l4 + l5 + l6 + l7 + l8 + l9 + tests, l10, (l11 + rest));
    Assoc(l1 + l2 + l3 + l4 + l5 + l6 + l7 + l8 + l9, tests, (l10 + (l11 + rest)));
    Assoc(l1 + l2 + l3 + l4 + l5 + l6 + l7 + l8, l9, (tests + (l10 + (l11 + rest))));
    Assoc(l1 + l2 + l3 + l4 + l5 + l6 + l7, l8, (l9 + (tests + (l10 + (l11 + rest)))));
    Assoc(l1 + l2 + l3 + l4 + l5 + l6, l7, (l8 + (l9 + (tests + (l10 + (l11 + rest))))));
    Assoc(l1 + l2 + l3 + l4 + l5, l6, (l7 + (l8 + (l9 + (tests + (l10 + (l11 + rest)))))));
    Assoc(l1 + l2 + l3 + l4, l5, (l6 + (l7 + (l8 + (l9 + (tests + (l10 + (l11 + rest))))))));
    Assoc(l1 + l2 + l3, l4, (l5 + (l6 + (l7 + (l8 + (l9 + (tests + (l10 + (l11 + rest)))))))));
    Assoc(l1 + l2, l3, (l4 + (l5 + (l6 + (l7 + (l8 + (l9 + (tests + (l10 + (l11 + rest))))))))));
    Assoc(l1, l2, (l3 + (l4 + (l5 + (l6 + (l7 + (l8 + (l9 + (tests + (l10 + (l11 + rest)))))))))));
  }

  lemma ClassOpeningLinesOf<T>(spec: TestSpec<T>, tests: string, rest: string)
    requires SingleLine(spec)
    ensures Lines(TestCaseClass(ClassIdentifier(spec), tests) + rest)
         == ClassOpeningLines(spec) + Lines(tests + (Line("}") + (Line("") + rest)))
  {
    var p := ClassIdentifier(spec);
    NamesSingleLine(spec);
    ClassLiteralsSingleLine();
    SetUpLiteralsSingleLine();
    MarkLiteralsSingleLine();
    ClassOpeningSplit(p, tests, rest);
    var l1, l3 := "class " + p + "Tests: XCTestCase {", "\tvar testRunner: " + p + "Runnable!";
    var l6, l7 := "\t\t// MARK: Implement the " + p + "TestRunner() class!", "\t\ttestRunner = " + p + "Runner()";
    var r9 := Line("") + (tests + (Line("}") + (Line("") + rest)));
    var r8 := Line("\t}") + r9;
    var r7 := Line(l7) + r8;
    var r6 := Line(l6) + r7;
    var r5 := Line("\toverride func setUp() {") + r6;
    var r4 := Line("") + r5;
    var r3 := Line(l3) + r4;
    var r2 := Line("") + r3;
    LinesOfLine("", tests + (Line("}") + (Line("") + rest)));
    LinesOfLine("\t}", r9);
    LinesOfLine(l7, r8);
    LinesOfLine(l6, r7);
    LinesOfLine("\toverride func setUp() {", r6);
    LinesOfLine("", r5);
    LinesOfLine(l3, r4);
    LinesOfLine("", r3);
    LinesOfLine(l1, r2);
    Nest9(l1, "", l3, "", "\toverride func setUp() {", l6, l7, "\t}", "", Lines(tests + (Line("}") + (Line("") + rest))));
  }

  lemma MethodLiteralsSingleLine()
    ensures '\n' !in "\tfunc test" && '\n' !in "_" && '\n' !in "() {" && '\n' !in "(" && '\n' !in ")"
    ensures '\n' !in "\t\tlet input = " && '\n' !in "\t\tlet expected = " && '\n' !in "\t}"
  {
  }

  lemma AssertLiteralSingleLine()
    ensures '\n' !in "\t\tXCTAssertEqual(expected, result)"
  {
  }

  /** The opening line of a test method carries the method's name. */
  lemma MethodHeadLine(testName: string, index: nat)
    ensures "\tfunc test" + testName + "_" + NatToString(index) + "() {"
         == "\tfunc " + MethodName(testName, index) + "() {"
  {
    assert "\tfunc test" == "\tfunc " + "test";
  }

  lemma RunCallLiteralsSingleLine()
    ensures '\n' !in "\t\tlet result = try! testRunner.run(" && '\n' !in "input: " && '\n' !in "input)"
  {
  }

  lemma RunCallSingleLine(language: Language)
    ensures '\n' !in RunCallText(language)
  {
    RunCallLiteralsSingleLine();
    var argumentLabel := RunLabel(language);
    assert '\n' !in argumentLabel;
    assert RunCallText(language) == "\t\tlet result = try! testRunner.run(" + argumentLabel + "input)";
  }

  /** One test method regrouped line by line. */
  lemma MethodSplit<T>(spec: TestSpec<T>, language: Language, index: nat, test: T, rest: string)
    ensures TestMethod(spec, language, index, test) + rest
         == Line("\tfunc test" + spec.testName + "_" + NatToString(index) + "() {") +
            (Line("\t\tlet input = " + InputStructName(spec) + "(" + spec.inputParametersList(test) + ")") +
            (Line("\t\tlet expected = " + OutputStructName(spec) + "(" + spec.outputParametersList(test) + ")") +
            (Line(RunCallText(language)) + (Line("\t\tXCTAssertEqual(expected, result)") +
            (Line("\t}") + (Line("") + rest))))))
  {
    var m1 := Line("\tfunc test" + spec.testName + "_" + NatToString(index) + "() {");
    var m2 := Line("\t\tlet input = " + InputStructName(spec) + "(" + spec.inputParametersList(test) + ")");
    var m3 := Line("\t\tlet expected = " + OutputStructName(spec) + "(" + spec.outputParametersList(test) + ")");
    var m4, m5, m6, m7 := Line(RunCallText(language)), Line("\t\tXCTAssertEqual(expected, result)"), Line("\t}"), Line("");
    Assoc(m1 + m2 + m3 + m4 + m5 + m6, m7, rest);
    Assoc(m1 + m2 + m3 + m4 + m5, m6, (m7 + rest));
    Assoc(m1 + m2 + m3 + m4, m5, (m6 + (m7 + rest)));
    Assoc(m1 + m2 + m3, m4, (m5 + (m6 + (m7 + rest))));
    Assoc(m1 + m2, m3, (m4 + (m5 + (m6 + (m7 + rest)))));
    Assoc(m1, m2, (m3 + (m4 + (m5 + (m6 + (m7 + rest))))));
  }

  lemma MethodLinesOf<T>(spec: TestSpec<T>, language: Language, index: nat, test: T, rest: string)
    requires '\n' !in spec.namespace && '\n' !in spec.testName
    requires '\n' !in spec.inputParametersList(test) && '\n' !in spec.outputParametersList(test)
    ensures Lines(TestMethod(spec, language, index, test) + rest)
         == MethodLines(spec, language, index, test) + Lines(rest)
  {
    NamesSingleLine(spec);
    MethodLiteralsSingleLine();
    AssertLiteralSingleLine();
    RunCallSingleLine(language);
    MethodHeadLine(spec.testName, index);
    MethodSplit(spec, language, index, test, rest);
    assert '\n' !in NatToString(index);
    var l1 := "\tfunc test" + spec.testName + "_" + NatToString(index) + "() {";
    var l2 := "\t\tlet input = " + InputStructName(spec) + "(" + spec.inputParametersList(test) + ")";
    var l3 := "\t\tlet expected = " + OutputStructName(spec) + "(" + spec.outputParametersList(test) + ")";
    var r7 := Line("") + rest;
    var r6 := Line("\t}") + r7;
    var r5 := Line("\t\tXCTAssertEqual(expected, result)") + r6;
    var r4 := Line(RunCallText(language)) + r5;
    var r3 := Line(l3) + r4;
    var r2 := Line(l2) + r3;
    LinesOfLine("", rest);
    LinesOfLine("\t}", r7);
    LinesOfLine("\t\tXCTAssertEqual(expected, result)", r6);
    LinesOfLine(RunCallText(language), r5);
    LinesOfLine(l3, r4);
    LinesOfLine(l2, r3);
    LinesOfLine(l1, r2);
    Nest7("\tfunc " + MethodName(spec.testName, index) + "() {", l2, l3, RunCallText(language),
          "\t\tXCTAssertEqual(expected, result)", "\t}", "", Lines(rest));
  }

  /** The test methods from case `from` on, followed by `rest`. */
  lemma {:induction false} MethodLinesFromOf<T>(spec: TestSpec<T>, language: Language, from: nat, rest: string)
    requires SingleLine(spec)
    requires from <= |spec.tests|
    ensures Lines(Concat(TestMethods(spec, language)[from..]) + rest)
         == MethodLinesFrom(spec, language, from) + Lines(rest)
    decreases |spec.tests| - from
  {
    var methods := TestMethods(spec, language);
    if from == |spec.tests| {
      assert methods[from..] == [];
      assert Concat(methods[from..]) + rest == rest;
    } else {
      assert methods[from..][1..] == methods[from + 1..];
      var tail := Concat(methods[from + 1..]) + rest;
      Assoc(methods[from], Concat(methods[from + 1..]), rest);
      MethodLinesOf(spec, language, from, spec.tests[from], tail);
      MethodLinesFromOf(spec, language, from + 1, rest);
      Assoc(MethodLines(spec, language, from, spec.tests[from]), MethodLinesFrom(spec, language, from + 1), Lines(rest));
    }
  }

  lemma ComparisonsSingleLine(vars: seq<Variable>)
    requires SingleLineVars(vars)
    ensures forall i :: 0 <= i < |Comparisons(vars)| ==> '\n' !in Comparisons(vars)[i]
  {
  }

  /** The comparisons of `==`: with output variables, one line per variable
      in declaration order, each but the last followed by " &&"; without
      them, a single empty line. */
  lemma CheckLinesAt(outputVars: seq<Variable>)
    ensures |CheckLines(outputVars)| == if |outputVars| == 0 then 1 else |outputVars|
    ensures |outputVars| == 0 ==> CheckLines(outputVars) == [""]
    ensures forall i :: 0 <= i < |outputVars| - 1 ==>
              CheckLines(outputVars)[i]
              == "\t\tlhs." + outputVars[i].name + " == rhs." + outputVars[i].name + " &&"
    ensures |outputVars| > 0 ==>
              CheckLines(outputVars)[|outputVars| - 1]
              == "\t\tlhs." + outputVars[|outputVars| - 1].name + " == rhs." + outputVars[|outputVars| - 1].name
  {
  }

  /** The body of `==` has one line per output variable, in declaration
      order, each but the last ending in " &&". */
  lemma EqualityCheckLines(outputVars: seq<Variable>)
    requires SingleLineVars(outputVars)
    ensures Lines(EqualityChecks(outputVars)) == CheckLines(outputVars)
    ensures |Lines(EqualityChecks(outputVars))| == if |outputVars| == 0 then 1 else |outputVars|
    ensures |outputVars| == 0 ==> Lines(EqualityChecks(outputVars)) == [""]
    ensures forall i :: 0 <= i < |outputVars| - 1 ==>
              Lines(EqualityChecks(outputVars))[i]
              == "\t\tlhs." + outputVars[i].name + " == rhs." + outputVars[i].name + " &&"
    ensures |outputVars| > 0 ==>
              Lines(EqualityChecks(outputVars))[|outputVars| - 1]
              == "\t\tlhs." + outputVars[|outputVars| - 1].name + " == rhs." + outputVars[|outputVars| - 1].name
  {
    CheckLinesAt(outputVars);
    if |outputVars| > 0 {
      ComparisonsSingleLine(outputVars);
      LinesOfJoin(Comparisons(outputVars), " &&");
    }
  }

  lemma EqualityLiteralsSingleLine()
    ensures '\n' !in "func == (lhs: " && '\n' !in ", rhs: " && '\n' !in ") -> Bool {" && '\n' !in "\treturn"
  {
  }

  lemma EqualityLinesOf<T>(spec: TestSpec<T>, rest: string)
    requires SingleLine(spec)
    ensures Lines(EqualityOperator(OutputStructName(spec), EqualityChecks(spec.outputVars)) + rest)
         == EqualityLines(spec) + Lines(rest)
  {
    NamesSingleLine(spec);
    EqualityLiteralsSingleLine();
    var first := "func == (lhs: " + OutputStructName(spec) + ", rhs: " + OutputStructName(spec) + ") -> Bool {";
    var checks := EqualityChecks(spec.outputVars);
    var r4 := Line("}") + rest;
    var r3 := checks + "\n" + r4;
    var r2 := Line("\treturn") + r3;
    Assoc(Line(first) + Line("\treturn") + Line(checks), Line("}"), rest);
    Assoc(Line(first) + Line("\treturn"), Line(checks), r4);
    Assoc(Line(first), Line("\treturn"), r3);
    LinesOfLine("}", rest);
    LinesJoin(checks, r4);
    EqualityCheckLines(spec.outputVars);
    LinesOfLine("\treturn", r3);
    LinesOfLine(first, r2);
    NestAround(first, "\treturn", CheckLines(spec.outputVars), "}", Lines(rest));
  }

  lemma StubLiteralsSingleLine()
    ensures '\n' !in "//" && '\n' !in "//class " && '\n' !in "Runner : " && '\n' !in "Runnable {"
    ensures '\n' !in "//\tfunc run(input: " && '\n' !in ") throws -> " && '\n' !in " {"
    ensures '\n' !in "//\t\t//return <" && '\n' !in ">" && '\n' !in "//\t}" && '\n' !in "//}"
  {
  }

  lemma StubNoticeSingleLine()
    ensures '\n' !in "//// You need to create" && '\n' !in " a test runner. Sample runner: "
  {
  }

  /** The runner stub regrouped line by line. */
  lemma StubSplit(classIdentifier: string, inputStructName: string, outputStructName: string)
    ensures RunnerStub(classIdentifier, inputStructName, outputStructName)
         == Line("//") + (Line("//// You need to create" + " a test runner. Sample runner: ") +
            (Line("//class " + classIdentifier + "Runner : " + classIdentifier + "Runnable {") + (Line("//") +
            (Line("//\tfunc run(input: " + inputStructName + ") throws -> " + outputStructName + " {") +
            (Line("//\t\t//return <" + outputStructName + ">") + (Line("//\t}") + (Line("//}") + "//")))))))
  {
    var s1, s2 := Line("//"), Line("//// You need to create" + " a test runner. Sample runner: ");
    var s3 := Line("//class " + classIdentifier + "Runner : " + classIdentifier + "Runnable {");
    var s4, s5 := Line("//"), Line("//\tfunc run(input: " + inputStructName + ") throws -> " + outputStructName + " {");
    var s6, s7, s8 := Line("//\t\t//return <" + outputStructName + ">"), Line("//\t}"), Line("//}");
    Assoc(s1 + s2 + s3 + s4 + s5 + s6 + s7, s8, "//");
    Assoc(s1 + s2 + s3 + s4 + s5 + s6, s7, (s8 + "//"));
    Assoc(s1 + s2 + s3 + s4 + s5, s6, (s7 + (s8 + "//")));
    Assoc(s1 + s2 + s3 + s4, s5, (s6 + (s7 + (s8 + "//"))));
    Assoc(s1 + s2 + s3, s4, (s5 + (s6 + (s7 + (s8 + "//")))));
    Assoc(s1 + s2, s3, (s4 + (s5 + (s6 + (s7 + (s8 + "//"))))));
    Assoc(s1, s2, (s3 + (s4 + (s5 + (s6 + (s7 + (s8 + "//")))))));
  }

  lemma StubLinesOf<T>(spec: TestSpec<T>)
    requires SingleLine(spec)
    ensures Lines(RunnerStub(ClassIdentifier(spec), InputStructName(spec), OutputStructName(spec))) == StubLines(spec)
  {
    NamesSingleLine(spec);
    StubLiteralsSingleLine();
    StubNoticeSingleLine();
    StubSplit(ClassIdentifier(spec), InputStructName(spec), OutputStructName(spec));
    var l2 := "//// You need to create" + " a test runner. Sample runner: ";
    var l3 := "//class " + ClassIdentifier(spec) + "Runner : " + ClassIdentifier(spec) + "Runnable {";
    var l5 := "//\tfunc run(input: " + InputStructName(spec) + ") throws -> " + OutputStructName(spec) + " {";
    var l6 := "//\t\t//return <" + OutputStructName(spec) + ">";
    var r8 := Line("//}") + "//";
    var r7 := Line("//\t}") + r8;
    var r6 := Line(l6) + r7;
    var r5 := Line(l5) + r6;
    var r4 := Line("//") + r5;
    var r3 := Line(l3) + r4;
    var r2 := Line(l2) + r3;
    LinesNoNewline("//");
    LinesOfLine("//}", "//");
    LinesOfLine("//\t}", r8);
    LinesOfLine(l6, r7);
    LinesOfLine(l5, r6);
    LinesOfLine("//", r5);
    LinesOfLine(l3, r4);
    LinesOfLine(l2, r3);
    LinesOfLine("//", r2);
    Nest9Closed("//", l2, l3, "//", l5, l6, "//\t}", "//}", "//");
  }

  // ---------------------------------------------------------------------------
  // The whole file

  /** The import line and the declarations before the test class. */
  lemma DeclarationLinesOf<T>(spec: TestSpec<T>, rest: string)
    requires SingleLine(spec)
    ensures Lines(IMPORTS + InputStruct(InputStructName(spec), Fields(spec.inputVars)) +
                  OutputStruct(OutputStructName(spec), Fields(spec.outputVars)) +
                  RunnableProtocol(ClassIdentifier(spec), InputStructName(spec), OutputStructName(spec)) + rest)
         == DeclarationLines(spec) + Lines(rest)
  {
    NamesSingleLine(spec);
    var input := InputStruct(InputStructName(spec), Fields(spec.inputVars));
    var output := OutputStruct(OutputStructName(spec), Fields(spec.outputVars));
    var runnable := RunnableProtocol(ClassIdentifier(spec), InputStructName(spec), OutputStructName(spec));
    Assoc(IMPORTS + input + output, runnable, rest);
    Assoc(IMPORTS + input, output, runnable + rest);
    Assoc(IMPORTS, input, output + (runnable + rest));
    RunnableLinesOf(spec, rest);
    OutputStructLines(OutputStructName(spec), spec.outputVars, runnable + rest);
    InputStructLines(InputStructName(spec), spec.inputVars, output + (runnable + rest));
    ImportLinesOf(input + (output + (runnable + rest)));
    Flatten4(IMPORT_LINES, StructLines("struct " + InputStructName(spec) + " {", spec.inputVars),
             StructLines("struct " + OutputStructName(spec) + ": Equatable {", spec.outputVars),
             RunnableLines(spec), Lines(rest));
  }

  /** The test class with its methods, then `rest`. */
  lemma ClassLinesOf<T>(spec: TestSpec<T>, language: Language, rest: string)
    requires SingleLine(spec)
    ensures Lines(TestCaseClass(ClassIdentifier(spec), Concat(TestMethods(spec, language))) + rest)
         == ClassLines(spec, language) + Lines(rest)
  {
    var tests := Concat(TestMethods(spec, language));
    ClassOpeningLinesOf(spec, tests, rest);
    assert TestMethods(spec, language)[0..] == TestMethods(spec, language);
    MethodLinesFromOf(spec, language, 0, Line("}") + (Line("") + rest));
    LinesOfLine("", rest);
    LinesOfLine("}", Line("") + rest);
    NestPair(ClassOpeningLines(spec), MethodLinesFrom(spec, language, 0), "}", "", Lines(rest));
  }

  /** The equality operator and the runner stub, which end the file. */
  lemma ClosingLinesOf<T>(spec: TestSpec<T>)
    requires SingleLine(spec)
    ensures Lines(EqualityOperator(OutputStructName(spec), EqualityChecks(spec.outputVars)) +
                  RunnerStub(ClassIdentifier(spec), InputStructName(spec), OutputStructName(spec)))
         == ClosingLines(spec)
  {
    StubLinesOf(spec);
    EqualityLinesOf(spec, RunnerStub(ClassIdentifier(spec), InputStructName(spec), OutputStructName(spec)));
  }

  /** The regrouping of the whole file's text that the lemmas above need. */
  lemma TextRegroup<X>(opening: seq<X>, comments: seq<X>, closingComment: seq<X>, imports: seq<X>,
                       input: seq<X>, output: seq<X>, runnable: seq<X>, testClass: seq<X>,
                       equality: seq<X>, stub: seq<X>)
    ensures opening + comments + closingComment + imports + input + output + runnable + testClass + equality + stub
         == opening + comments + closingComment + (imports + input + output + runnable + (testClass + (equality + stub)))
  {
  }

  /** Splitting the generated file at its newlines gives `SourceLines`. */
  lemma LinesOfSource<T>(spec: TestSpec<T>, language: Language)
    requires SingleLine(spec)
    ensures Lines(Source(spec, language)) == SourceLines(spec, language)
  {
    var opening := HeaderOpening(spec.fileName, spec.sourceFileName);
    var comments := Concat(Terminated(CommentTexts(spec.testLines)));
    var input := InputStruct(InputStructName(spec), Fields(spec.inputVars));
    var output := OutputStruct(OutputStructName(spec), Fields(spec.outputVars));
    var runnable := RunnableProtocol(ClassIdentifier(spec), InputStructName(spec), OutputStructName(spec));
    var testClass := TestCaseClass(ClassIdentifier(spec), Concat(TestMethods(spec, language)));
    var equality := EqualityOperator(OutputStructName(spec), EqualityChecks(spec.outputVars));
    var stub := RunnerStub(ClassIdentifier(spec), InputStructName(spec), OutputStructName(spec));
    var closing := equality + stub;
    var fromClass := testClass + closing;
    var fromImports := IMPORTS + input + output + runnable + fromClass;
    TextRegroup(opening, comments, HEADER_CLOSING, IMPORTS, input, output, runnable, testClass, equality, stub);

    ClosingLinesOf(spec);
    ClassLinesOf(spec, language, closing);
    DeclarationLinesOf(spec, fromClass);
    HeaderLinesOf(spec, fromImports);
    Assoc(HeaderLines(spec) + DeclarationLines(spec), ClassLines(spec, language), ClosingLines(spec));
    Assoc(HeaderLines(spec), DeclarationLines(spec), ClassLines(spec, language) + ClosingLines(spec));
  }
}
