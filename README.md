# AcceptanceMark test generator in Dafny

AcceptanceMark turns markdown test tables into XCTest source files. This
project models the generator at the heart of `amtool`:

- **Dialect resolution** (`Language.init(value:)`): a free-form version string
  is lower-cased and searched for `"swift2"`, then `"swift3"`. When neither is
  found the result is Swift 3 with a notice.
- **Source emission** (`TestGenerator.generateTestsSource(testSpec:language:)`):
  one test specification becomes one Swift source text. The text holds, in
  this order: a comment header, the `XCTest` import, an Input struct, an
  Output struct, a Runnable protocol, an `XCTestCase` class with one test
  method per case, an `==` operator and a commented-out sample runner.

Modules:

- `Strings`: the library operations the generator relies on. These are
  substring search, ASCII lower-casing, `joined(separator:)`, decimal
  rendering of the test index, and a `Lines` function that splits a text
  at its newlines.
- `Languages`: `Language`, and `Resolve`, the model of `Language.init(value:)`.
- `Specs`: `TestSpec`, generic over the type of a test case.
- `TestGenerator`: the emitted text, fragment by fragment. `Source` is the
  whole text. `GenerateTestsSource` is an imperative method that builds the
  text with the source's appends and its three loops (documentation lines,
  fields, test cases), and it is proved equal to `Source`.
- `SourceLayout`: a separate description of the file line by line,
  `SourceLines`, in four parts: header, declarations, test class, closing.
  `LinesOfSource` proves that splitting `Source` at its newlines gives
  `SourceLines` whenever no string taken from the specification contains a
  newline.
- `SourcePositions`: the line offset at which each part and each piece of a
  part begins.
- `SourceLineFacts`: what each part holds line by line, the line count, the
  numbering of the test methods, and the fact that the two dialects differ
  only in the run-call lines.

What the generated text itself does (whether the Swift compiles, what
`try!` does) is not modelled. The `setUp` comment asks the user to implement
`<P>TestRunner`, but `setUp` constructs `<P>Runner()`. The model emits both
exactly as the code writes them. Here `<P>` is `namespace + "_" + testName`.

## Model

| member | source | states |
|---|---|---|
| Languages.Resolve | amtool/TestGenerator.swift:15-27 | the result is Swift 2 exactly when the lower-cased value contains "swift2"; otherwise it is Swift 3; the notice is due exactly when neither "swift2" nor "swift3" occurs |
| Languages.Swift2InAnyCase | amtool/TestGenerator.swift:16-19 | a "swift2" marker in any mix of cases, anywhere in the value, selects Swift 2 without the notice |
| Languages.Swift2TakesPrecedence | amtool/TestGenerator.swift:17-22 | a value containing both markers selects Swift 2 even when "swift3" comes first, because "swift2" is checked first |
| Languages.Swift3InAnyCase | amtool/TestGenerator.swift:20-22 | a "swift3" marker in any case, with no "swift2", selects Swift 3 without the notice |
| Languages.ShortStringsDefault | amtool/TestGenerator.swift:23-26 | every value shorter than a marker, including the empty string, falls back to Swift 3 with the notice |
| Languages.SpacedVersionDefaults | amtool/TestGenerator.swift:16-26 | "Swift 2.3" is not recognised: it falls back to Swift 3 with the notice |
| Strings.ContainsIff | amtool/TestGenerator.swift:17-20 | the left-to-right substring search succeeds exactly when the needle occurs at some position |
| Strings.NatToStringRoundTrip | amtool/TestGenerator.swift:111 | the decimal rendering of the test index reads back as that index |
| Strings.NatToStringInjective | amtool/TestGenerator.swift:111 | distinct indices render as distinct numerals |
| Strings.LinesOfJoin | amtool/TestGenerator.swift:137 | joining newline-free entries with `suffix + "\n"` yields one line per entry, each but the last ending in `suffix` |
| TestGenerator.FieldDeclarations | amtool/TestGenerator.swift:72-75 | the loop over the variables yields one `\tlet name: type` line per variable, in declaration order |
| TestGenerator.FieldsAppend | amtool/TestGenerator.swift:73-75 | the declarations of a concatenated variable list are the declarations of its parts, in order |
| TestGenerator.TestMethodsText | amtool/TestGenerator.swift:103-119 | the loop over the cases, with `testIndex` counting from 0, yields the test methods of all cases, in the order of the cases |
| TestGenerator.GenerateTestsSource | amtool/TestGenerator.swift:47-159 | the successive appends produce exactly `Source(spec, language)`: header, import, structs, protocol, test class, operator and stub in that order |
| SourceLayout.EqualityCheckLines | amtool/TestGenerator.swift:136-141 | the body of `==` splits into exactly one line per output variable, in declaration order: `\t\tlhs.n == rhs.n &&` for every variable but the last, the last without " &&", and a single empty line when there is no output variable |
| SourceLayout.LinesOfSource | amtool/TestGenerator.swift:47-159 | when no specification string contains a newline, the lines of the emitted text are exactly `SourceLines`, the separate line-by-line description |
| SourceLineFacts.LineCount | amtool/TestGenerator.swift:47-159 | `SourceLines` has 42 fixed lines, plus one per documentation line, one per field, seven per test case and one per comparison (or one empty line when there is no output variable) |
| SourceLineFacts.HeaderLinesAt | amtool/TestGenerator.swift:51-64 | the header part of `SourceLines` is the seven provenance lines naming the input and generated file, then ` * line` for each documentation line in order, then ` */` |
| SourceLineFacts.DeclarationLinesAt | amtool/TestGenerator.swift:66-100 | the declaration part of `SourceLines`: the import; `struct <P>Input {`, one field line per input variable in order, `}`; `struct <P>Output: Equatable {`, one field line per output variable in order, `}`; then the Runnable protocol |
| SourceLineFacts.ClassLinesAt | amtool/TestGenerator.swift:102-134 | the test-class part of `SourceLines` is its opening, then for each case `i` in order the seven lines of method `test<testName>_<i>` built from that case's parameter lists, then `}` |
| SourceLineFacts.ClosingLinesAt | amtool/TestGenerator.swift:136-156 | the closing part of `SourceLines`: the `==` header on `<P>Output`, `\treturn`, the comparison lines, `}`, then the nine stub lines, the last being `//` |
| SourceLineFacts.MethodNamesDistinct | amtool/TestGenerator.swift:111 | two test methods have the same name only if they have the same index |
| SourceLineFacts.RunCallsDiffer | amtool/TestGenerator.swift:109-114 | the Swift 3 run call differs from the Swift 2 run call |
| SourceLineFacts.MethodLinesDialects | amtool/TestGenerator.swift:109-117 | within a test method every line but the run call is the same in both dialects; the run call carries `input: ` in Swift 3 only |
| SourceLineFacts.DialectsDifferInRunCallsOnly | amtool/TestGenerator.swift:103-119 | `SourceLines` for Swift 3 and for Swift 2 have the same length and the same line at every position that is not a run call |
| SourceLineFacts.EmittedLineCount | amtool/TestGenerator.swift:47-159 | when no specification string contains a newline, the emitted text itself has 42 fixed lines, plus one per documentation line, one per field, seven per test case and one per comparison (or one empty line when there is no output variable) |
| SourceLineFacts.EmittedDialectsDifferInRunCallsOnly | amtool/TestGenerator.swift:103-119 | when no specification string contains a newline, the Swift 3 and Swift 2 texts have the same number of lines and the same line at every position that is not a run call |

## Left out

- `TestGenerator.generateTests` (amtool/TestGenerator.swift:32-45) is not modelled: it builds file paths, writes files and reports write errors, which is file-system I/O.
- The `print` calls are left out. On the default branch of `Language.init(value:)`, `Resolution.usedDefault` records that the notice is due.
- Strings.Lower: folds ASCII letters only. Swift's `lowercased()` applies full Unicode case mapping.
- Strings.Contains: with an empty needle it is true, while Foundation's `contains("")` is false. The generator only searches for the two fixed, non-empty markers, so this never matters here.
- `inputParametersList(for:)` and `outputParametersList(for:)` are defined outside this file. They are carried as given functions inside `TestSpec`. The type's `rawValue` is carried as the string `typeRaw`.
- Whether a test case binds every declared variable is not checked, and malformed specifications are not rejected: the code does none of this, and the model follows the code.
- Colliding `namespace`/`testName` prefixes across a batch are not detected, as in the code.
- `testIndex` is an unbounded natural number. The overflow of a Swift `Int` past its maximum is not modelled.
- The unchecked `try!` in the emitted tests is emitted text only. Its run-time effect in the generated Swift is not modelled.
- TestGenerator.TestMethodsText: the loop body that builds one test method is a separate method, `TestMethodText`; the text appended per iteration and the `testIndex` counter are those of the source.
- TestGenerator.HeaderOpening and TestGenerator.RunnerStub write their longest fixed line as two adjacent literals. The text is the same.
- SourceLineFacts.HeaderLinesAt, DeclarationLinesAt, ClassLinesAt and ClosingLinesAt state positions within each part of `SourceLines`, not within the emitted text. `SourcePositions.HeaderLinesIn`, `DeclarationLinesIn`, `ClassLinesIn` and `ClosingLinesIn` place each part at its offset in `SourceLines`, and `SourceLayout.LinesOfSource` equates `SourceLines` with the lines of the text. Only the line count and the dialect comparison are also restated directly on the emitted text (`EmittedLineCount`, `EmittedDialectsDifferInRunCallsOnly`).
- SourceLayout.LinesOfSource: the line-by-line reading requires that no specification string contains a newline. Without that condition the text is still given exactly by `Source`, but lines are not counted.
- Determinism of emission has no lemma: a Dafny function is deterministic by construction.
