/** Source emission: `TestGenerator.generateTestsSource(testSpec:language:)`.
    The functions below describe the generated text fragment by fragment; the
    method builds it the way the source does, by successive appends and loops
    over the declared variables and test cases, and is proved to produce
    exactly `Source(spec, language)`. */
module TestGenerator {
  import opened Strings
  import opened Languages
  import opened Specs

  /** The prefix of every synthesized symbol: namespace, underscore, test name. */
  function ClassIdentifier<T>(spec: TestSpec<T>): string {
    spec.namespace + "_" + spec.testName
  }

  function InputStructName<T>(spec: TestSpec<T>): string {
    ClassIdentifier(spec) + "Input"
  }

  function OutputStructName<T>(spec: TestSpec<T>): string {
    ClassIdentifier(spec) + "Output"
  }

  /** The fixed provenance lines that open the header comment. The longest
      fixed line is written as two literals; the text is the same. */
  function HeaderOpening(fileName: string, sourceFileName: string): string {
    Line("/*") +
    Line(" * File Auto-Generated" + " by AcceptanceMark - DO NOT EDIT") +
    Line(" * input file: " + fileName) +
    Line(" * generated file: " + sourceFileName) +
    Line(" *") +
    Line(" * -- Test Specification -- ") +
    Line(" *")
  }

  /** Each documentation line as a comment line (without its newline). */
  function CommentTexts(lines: seq<string>): seq<string> {
    seq(|lines|, i requires 0 <= i < |lines| => " * " + lines[i])
  }

  const HEADER_CLOSING := Line(" */")

  const IMPORTS := Line("import XCTest") + Line("")

  /** One `let` declaration per variable (without its newline). */
  function FieldTexts(vars: seq<Variable>): seq<string> {
    seq(|vars|, i requires 0 <= i < |vars| => "\tlet " + vars[i].name + ": " + vars[i].typeRaw)
  }

  function Fields(vars: seq<Variable>): string {
    Concat(Terminated(FieldTexts(vars)))
  }

  function InputStruct(inputStructName: string, testInputs: string): string {
    Line("struct " + inputStructName + " {") +
    testInputs +
    Line("}") +
    Line("")
  }

  function OutputStruct(outputStructName: string, testOutputs: string): string {
    Line("struct " + outputStructName + ": Equatable {") +
    testOutputs +
    Line("}") +
    Line("")
  }

  function RunnableProtocol(classIdentifier: string, inputStructName: string, outputStructName: string): string {
    Line("protocol " + classIdentifier + "Runnable {") +
    Line("\tfunc run(input: " + inputStructName + ") throws -> " + outputStructName) +
    Line("}")
  }

  /** The call-site argument label: required by Swift 3, absent in Swift 2. */
  function RunLabel(language: Language): string {
    if language == Swift3 then "input: " else ""
  }

  /** The test method for the case `test` at zero-based `index`. */
  function TestMethod<T>(spec: TestSpec<T>, language: Language, index: nat, test: T): string {
    Line("\tfunc test" + spec.testName + "_" + NatToString(index) + "() {") +
    Line("\t\tlet input = " + InputStructName(spec) + "(" + spec.inputParametersList(test) + ")") +
    Line("\t\tlet expected = " + OutputStructName(spec) + "(" + spec.outputParametersList(test) + ")") +
    Line("\t\tlet result = try! testRunner.run(" + RunLabel(language) + "input)") +
    Line("\t\tXCTAssertEqual(expected, result)") +
    Line("\t}") +
    Line("")
  }

  /** The test methods, one per test case, in the order of the cases. */
  function TestMethods<T>(spec: TestSpec<T>, language: Language): seq<string> {
    seq(|spec.tests|, i requires 0 <= i < |spec.tests| => TestMethod(spec, language, i, spec.tests[i]))
  }

  function TestCaseClass(classIdentifier: string, tests: string): string {
    Line("class " + classIdentifier + "Tests: XCTestCase {") +
    Line("") +
    Line("\tvar testRunner: " + classIdentifier + "Runnable!") +
    Line("") +
    Line("\toverride func setUp() {") +
    Line("\t\t// MARK: Implement the " + classIdentifier + "TestRunner() class!") +
    Line("\t\ttestRunner = " + classIdentifier + "Runner()") +
    Line("\t}") +
    Line("") +
    tests +
    Line("}") +
    Line("")
  }

  /** One field comparison per output variable. */
  function Comparisons(outputVars: seq<Variable>): seq<string> {
    seq(|outputVars|, i requires 0 <= i < |outputVars| =>
      "\t\tlhs." + outputVars[i].name + " == rhs." + outputVars[i].name)
  }

  /** The body of `==`: the comparisons joined by `" &&\n"` (the source's
      `map` followed by `joined(separator:)`). */
  function EqualityChecks(outputVars: seq<Variable>): string {
    Join(Comparisons(outputVars), Line(" &&"))
  }

  function EqualityOperator(outputStructName: string, equalityChecksString: string): string {
    Line("func == (lhs: " + outputStructName + ", rhs: " + outputStructName + ") -> Bool {") +
    Line("\treturn") +
    Line(equalityChecksString) +
    Line("}")
  }

  /** The commented-out sample runner; it does not end in a newline. The
      longest fixed line is written as two literals; the text is the same. */
  function RunnerStub(classIdentifier: string, inputStructName: string, outputStructName: string): string {
    Line("//") +
    Line("//// You need to create" + " a test runner. Sample runner: ") +
    Line("//class " + classIdentifier + "Runner : " + classIdentifier + "Runnable {") +
    Line("//") +
    Line("//\tfunc run(input: " + inputStructName + ") throws -> " + outputStructName + " {") +
    Line("//\t\t//return <" + outputStructName + ">") +
    Line("//\t}") +
    Line("//}") +
    "//"
  }

  /** The whole generated file, fragment by fragment in the source's order. */
  function Source<T>(spec: TestSpec<T>, language: Language): string {
    HeaderOpening(spec.fileName, spec.sourceFileName) +
    Concat(Terminated(CommentTexts(spec.testLines))) +
    HEADER_CLOSING +
    IMPORTS +
    InputStruct(InputStructName(spec), Fields(spec.inputVars)) +
    OutputStruct(OutputStructName(spec), Fields(spec.outputVars)) +
    RunnableProtocol(ClassIdentifier(spec), InputStructName(spec), OutputStructName(spec)) +
    TestCaseClass(ClassIdentifier(spec), Concat(TestMethods(spec, language))) +
    EqualityOperator(OutputStructName(spec), EqualityChecks(spec.outputVars)) +
    RunnerStub(ClassIdentifier(spec), InputStructName(spec), OutputStructName(spec))
  }

  /** Appending one more declaration to a field list appends its line. */
  lemma FieldsSnoc(vars: seq<Variable>, k: nat)
    requires k < |vars|
    ensures Fields(vars[..k + 1]) == Fields(vars[..k]) + Line("\tlet " + vars[k].name + ": " + vars[k].typeRaw)
  {
    assert FieldTexts(vars[..k + 1]) == FieldTexts(vars[..k]) + ["\tlet " + vars[k].name + ": " + vars[k].typeRaw];
    ConcatTerminatedSnoc(FieldTexts(vars[..k]), "\tlet " + vars[k].name + ": " + vars[k].typeRaw);
  }

  /** Appending one more documentation line appends its comment line. */
  lemma CommentsSnoc(lines: seq<string>, k: nat)
    requires k < |lines|
    ensures Concat(Terminated(CommentTexts(lines[..k + 1]))) == Concat(Terminated(CommentTexts(lines[..k]))) + Line(" * " + lines[k])
  {
    assert CommentTexts(lines[..k + 1]) == CommentTexts(lines[..k]) + [" * " + lines[k]];
    ConcatTerminatedSnoc(CommentTexts(lines[..k]), " * " + lines[k]);
  }

  /** One more test case appends its test method. */
  lemma TestMethodsSnoc<T>(spec: TestSpec<T>, language: Language, k: nat)
    requires k < |spec.tests|
    ensures Concat(TestMethods(spec, language)[..k + 1])
         == Concat(TestMethods(spec, language)[..k]) + TestMethod(spec, language, k, spec.tests[k])
  {
    TakeSnoc(TestMethods(spec, language), k);
    ConcatSnoc(TestMethods(spec, language)[..k], TestMethod(spec, language, k, spec.tests[k]));
  }

  /** Field lists of concatenated declarations concatenate: the emitted
      declarations follow the declaration order. */
  lemma FieldsAppend(a: seq<Variable>, b: seq<Variable>)
    ensures Fields(a + b) == Fields(a) + Fields(b)
  {
    assert FieldTexts(a + b) == FieldTexts(a) + FieldTexts(b);
    assert Terminated(FieldTexts(a) + FieldTexts(b)) == Terminated(FieldTexts(a)) + Terminated(FieldTexts(b));
    ConcatAppend(Terminated(FieldTexts(a)), Terminated(FieldTexts(b)));
  }

  /** The `let` declarations of a struct, built as the source's loops over
      `inputVars` and `outputVars` build them. */
  method FieldDeclarations(vars: seq<Variable>) returns (text: string)
    ensures text == Fields(vars)
  {
    text := "";
    for k := 0 to |vars|
      invariant text == Fields(vars[..k])
    {
      var v := vars[k];
      FieldsSnoc(vars, k);
      text := text + Line("\tlet " + v.name + ": " + v.typeRaw);
    }
    assert vars[..|vars|] == vars;
  }

  /** The body of the source's loop over `tests` for one case: its test
      method, numbered `testIndex`. */
  method TestMethodText<T>(spec: TestSpec<T>, language: Language, inputStructName: string, outputStructName: string,
                           testIndex: nat, test: T)
    returns (testMethod: string)
    requires inputStructName == InputStructName(spec) && outputStructName == OutputStructName(spec)
    ensures testMethod == TestMethod(spec, language, testIndex, test)
  {
    var inputParametersList := spec.inputParametersList(test);
    var outputParametersList := spec.outputParametersList(test);
    var testRunnerInputParameter := RunLabel(language);
    testMethod := Line("\tfunc test" + spec.testName + "_" + NatToString(testIndex) + "() {") +
                  Line("\t\tlet input = " + inputStructName + "(" + inputParametersList + ")") +
                  Line("\t\tlet expected = " + outputStructName + "(" + outputParametersList + ")") +
                  Line("\t\tlet result = try! testRunner.run(" + testRunnerInputParameter + "input)") +
                  Line("\t\tXCTAssertEqual(expected, result)") +
                  Line("\t}") +
                  Line("");
  }

  /** The test methods, built as the source's loop over `tests` builds them,
      numbering the cases with `testIndex`. */
  method TestMethodsText<T>(spec: TestSpec<T>, language: Language, inputStructName: string, outputStructName: string)
    returns (tests: string)
    requires inputStructName == InputStructName(spec) && outputStructName == OutputStructName(spec)
    ensures tests == Concat(TestMethods(spec, language))
  {
    tests := "";
    var testIndex := 0;
    for k := 0 to |spec.tests|
      invariant testIndex == k
      invariant tests == Concat(TestMethods(spec, language)[..k])
    {
      var testMethod := TestMethodText(spec, language, inputStructName, outputStructName, testIndex, spec.tests[k]);
      TestMethodsSnoc(spec, language, k);
      tests := tests + testMethod;
      testIndex := testIndex + 1;
    }
    assert TestMethods(spec, language)[..|TestMethods(spec, language)|] == TestMethods(spec, language);
  }

  /** Builds the test source as `generateTestsSource` does. */
  method GenerateTestsSource<T>(spec: TestSpec<T>, language: Language) returns (source: string)
    ensures source == Source(spec, language)
  {
    // Header
    source := "";
    source := source + HeaderOpening(spec.fileName, spec.sourceFileName);
    for k := 0 to |spec.testLines|
      invariant source == HeaderOpening(spec.fileName, spec.sourceFileName)
                          + Concat(Terminated(CommentTexts(spec.testLines[..k])))
    {
      var line := spec.testLines[k];
      CommentsSnoc(spec.testLines, k);
      source := source + Line(" * " + line);
    }
    assert spec.testLines[..|spec.testLines|] == spec.testLines;
    source := source + HEADER_CLOSING;

    // Imports
    source := source + IMPORTS;

    // Input struct
    var testInputs := FieldDeclarations(spec.inputVars);
    var testClassIdentifier := spec.namespace + "_" + spec.testName;
    var inputStructName := testClassIdentifier + "Input";
    source := source + InputStruct(inputStructName, testInputs);

    // Output struct
    var testOutputs := FieldDeclarations(spec.outputVars);
    var outputStructName := testClassIdentifier + "Output";
    source := source + OutputStruct(outputStructName, testOutputs);

    // Runnable protocol
    source := source + RunnableProtocol(testClassIdentifier, inputStructName, outputStructName);

    // All tests
    var tests := TestMethodsText(spec, language, inputStructName, outputStructName);

    // XCTestCase class
    source := source + TestCaseClass(testClassIdentifier, tests);

    // Equality operator
    var equalityChecksString := EqualityChecks(spec.outputVars);
    source := source + EqualityOperator(outputStructName, equalityChecksString);

    // Sample runner code
    source := source + RunnerStub(testClassIdentifier, inputStructName, outputStructName);
  }
}
