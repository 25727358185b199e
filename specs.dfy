/** The test specification the generator reads. It is produced by the
    markdown parser, which is not part of this model. */
module Specs {

  /** A declared input or output variable; `typeRaw` is the raw value of its
      type, copied verbatim into the generated declarations. */
  datatype Variable = Variable(name: string, typeRaw: string)

  /** One specification, generic over the representation `T` of a test case.
      `inputParametersList` and `outputParametersList` render a case as the
      argument list of the Input and Output initialisers; their definitions
      are not part of this model, so they are carried as given functions. */
  datatype TestSpec<!T> = TestSpec(
    namespace: string,
    testName: string,
    fileName: string,
    sourceFileName: string,
    testLines: seq<string>,
    inputVars: seq<Variable>,
    outputVars: seq<Variable>,
    tests: seq<T>,
    inputParametersList: T -> string,
    outputParametersList: T -> string)

  /** No newline in any declared name or type. */
  predicate SingleLineVars(vars: seq<Variable>) {
    forall i :: 0 <= i < |vars| ==> '\n' !in vars[i].name && '\n' !in vars[i].typeRaw
  }

  /** No string the generator copies into its output holds a newline, so
      every emitted line comes from exactly one fragment. */
  predicate SingleLine<T>(spec: TestSpec<T>) {
    && '\n' !in spec.namespace
    && '\n' !in spec.testName
    && '\n' !in spec.fileName
    && '\n' !in spec.sourceFileName
    && (forall i :: 0 <= i < |spec.testLines| ==> '\n' !in spec.testLines[i])
    && SingleLineVars(spec.inputVars)
    && SingleLineVars(spec.outputVars)
    && (forall i :: 0 <= i < |spec.tests| ==>
          '\n' !in spec.inputParametersList(spec.tests[i]) &&
          '\n' !in spec.outputParametersList(spec.tests[i]))
  }
}
