# TypedPrompt template validation, in Dafny

TypedPrompt checks Handlebars-style prompt templates against the TypeScript
type of their input data when the program is compiled. The checking is done
in `src/types.ts` by conditional and template-literal types. This project
restates those types as ordinary recursive Dafny functions and proves what
they compute.

- **Input types** are `Shapes.Shape` values:
  - `Primitive`: strings, numbers and booleans;
  - `Record(fields)`: an object type;
  - `Array(element)`: an array type, whose only member is `length`, a `Primitive`.
- **Paths** (`PathExists`, `GetTypeAtPath`) are split at their first `.` and
  followed one member at a time. `PathExists` can only step through object-like
  members, meaning records and arrays.
- **Template-literal matching** is `Literal.MatchPattern`. A pattern
  `${string}D1${infer X}D2...` is matched by finding each delimiter at its
  first occurrence after the previous one. `Literal.MatchAffix` handles the
  start-and-end-only patterns of `ExtractSingleVariable`.
- **Templates** (`Templates`):
  - `ExtractSingleVariable` classifies one `{{...}}` as `each`, `if`, close or
    variable, in that order.
  - `ExtractAllExpressions` and `ExtractVariables` collect the descriptors and
    their paths.
  - `ProcessTemplate`, `ProcessTemplateBody` and `ValidateTemplate` find the
    first invalid path and build the message
    `Error: Variable "<path>" does not exist in input type`.
- **The model follows the code as written**:
  - The `each` branch is tried first, against the whole text. Any text before
    the first `{{#each ` is skipped unchecked, and the same holds for `{{#if `.
  - A block's body ends at the first matching close.
  - Inside an `each` body, expressions starting with `#` or `/` are skipped.
    The other body expressions are checked against the element type.
  - Block paths are checked against the input type. Only plain variables are
    checked against the current context.
  - `{{this}}` is not special.
  - There is no stack of contexts.
  - A block whose condition and body are valid ends validation. The reason is
    that `BodyErrors extends never` distributes over the `infer`-bound
    `BodyErrors`, so an empty body result gives `never` (see Findings).
- **Where the comments and the runtime tests suggest more**, the model follows
  the type rules of `src/types.ts`.
  - The comment at src/types.ts:44 says that processing tracks context
    changes. The rules switch the context only for the body of an `each`
    block; there is no stack of contexts.
  - tests/runtime.test.ts:98-144 compiles templates that use `{{this}}`. The
    type rules have no case for `this` and look it up as an ordinary path.
    So `Tags: {{#each tags}}{{this}} {{/each}}` over `{ tags: string[] }` is
    rejected for `this` (`TypeTests.TagsScenario`). The runtime tests only
    exercise the Handlebars run time, which serves `this`.
  - An unmatched close has no error of its own. When it reaches the
    plain-variable branch, it is looked up as the path after `{{` (`/if` for
    `{{/if}}`) and rejected (`TypeTests.StrayClose`). Before the first block
    it is skipped unchecked like all text there
    (`TypeTests.StrayCloseSkipped`), and after a valid block it is never
    reached. Not every expression of a
    template is checked: in `{{user.name}}: {{#each items}}...{{/each}}`,
    `user.name` is never looked at (`TypeTests.ShopScenario`).

Modules:
- `Wrappers` and `Literal` (literal.dfy): string matching.
- `Shapes` (shape.dfy): types and paths.
- `Templates` (templates.dfy): the validator.
- `TemplateLemmas` (template_lemmas.dfy): its general properties.
- `Pieces` (pieces.dfy): verdicts for templates written out around their markers.
- `TypeTests` (type_tests.dfy): the type-level tests, the doc examples and further scenarios.
- `Findings` (findings.dfy): the same validator, except that validation continues after a block.

## Model

| member | source | states |
|---|---|---|
| `Literal.IndexOf` | src/types.ts:38 | the first occurrence of a literal, or None exactly when it does not occur; the search behind every `${string}LIT` pattern |
| `Literal.MatchPattern` | src/types.ts:50 | captures that rebuild the text around the delimiters in order, each delimiter cut at its first occurrence after the previous one (`CutsAtFirst`), so no capture holds the delimiter that ends it |
| `Literal.MatchPatternDetermined` | src/types.ts:50 | the contract of `MatchPattern` pins its result: captures that rebuild the text with every delimiter at its first occurrence are exactly the match |
| `Literal.MatchPatternComplete` | src/types.ts:50 | whenever the text can be cut around the delimiters in order, the match succeeds: first-occurrence matching misses no match |
| `Literal.MatchAffix` | src/types.ts:24 | `P${X}S` matches iff the text is long enough and starts with P and ends with S; X is what lies between |
| `Shapes.SplitKey` | src/types.ts:7 | `${infer Key}.${infer Rest}`: a split is found iff the path has a `.`, the key has no `.`, and key, dot and rest rebuild the path |
| `Shapes.SplitKeyJoin` | src/types.ts:110 | the split of `key.rest` with a dot-free key is exactly `(key, rest)`, whatever dots `rest` holds |
| `Shapes.Keys` | src/types.ts:8 | `keyof T`: a record's member names, `length` for an array, none for a primitive; no contract of its own, characterised by `Shapes.LookupBySegments` and `Shapes.PrimitiveHasNoPath` |
| `Shapes.Member` | src/types.ts:9 | `T[Key]`: the member's type, a number for an array's `length`; no contract of its own, characterised by `Shapes.LookupBySegments` |
| `Shapes.IsObject` | src/types.ts:112 | `T[Key] extends object`: records and arrays; no contract of its own, characterised by `Shapes.PrimitiveHasNoPath` |
| `Shapes.PathExists` | src/types.ts:107-118 | the first-dot descent through object members to a final key; no contract of its own, characterised by `Shapes.PathExistsIffTyped`, `Shapes.LookupBySegments`, `Shapes.PrimitiveHasNoPath` and `TypeTests.PathExistsDocExamples` |
| `Shapes.GetTypeAtPath` | src/types.ts:4-13 | the type reached by the first-dot descent, None for `never`; no contract of its own, characterised by `Shapes.PathExistsIffTyped` and `Shapes.LookupBySegments` |
| `Shapes.PathExistsIffTyped` | src/types.ts:107-118 | `PathExists` holds iff `GetTypeAtPath` is not `never`, both descending by the same first-dot split. The source promises only the direction from `PathExists`: in TypeScript `GetTypeAtPath<{name: string}, "name.length">` is `number` while `PathExists` is `false`. The converse holds here because a primitive has no members in this model |
| `Shapes.LookupBySegments` | src/types.ts:4-13 | for dot-free segments, `GetTypeAtPath` of the joined path is the member-by-member descent, and `PathExists` holds iff that descent reaches a member through objects |
| `Shapes.PrimitiveHasNoPath` | src/types.ts:111-114 | a path that descends through a primitive member does not exist |
| `Templates.Placeholder` | src/types.ts:38 | the first `{{...}}`: text before, inner text and rest rebuild the template; the `{{` is the first one of the template and the `}}` the first one after it |
| `TemplateLemmas.PlaceholderDetermined` | src/types.ts:38 | the contract of `Placeholder` pins its result: a span that rebuilds the text with the first `{{` and the first `}}` after it is `Placeholder`'s |
| `Templates.MatchBlock` | src/types.ts:50 | the first block: the pieces rebuild the template; the open marker, the `}}` after the path and the close marker after the body are each the first one (so the body holds no close marker: no nesting) |
| `TemplateLemmas.MatchBlockDetermined` | src/types.ts:50 | the contract of `MatchBlock` pins its result: a block that rebuilds the text with each marker at its first occurrence is `MatchBlock`'s |
| `Templates.EachBlock` | src/types.ts:50 | `MatchBlock` with the `each` markers; no contract of its own, characterised by `TemplateLemmas.EachBlockChecks` and `Pieces.EachVerdict` |
| `Templates.IfBlock` | src/types.ts:60 | `MatchBlock` with the `if` markers; no contract of its own, characterised by `TemplateLemmas.IfBlockChecks` and `Pieces.IfVerdict` |
| `Templates.ExtractSingleVariable` | src/types.ts:23-32 | the classification of one `{{...}}` text; no contract of its own, characterised by `TemplateLemmas.ClassificationPriority` |
| `Templates.Expressions` | src/types.ts:38 | the texts of the `{{...}}` expressions in the order of the left-to-right scan `${string}{{${infer X}}}${infer After}`, which src/types.ts:68 and src/types.ts:81 repeat; no contract of its own, the reference against which `TemplateLemmas.FlatTemplate`, `TemplateLemmas.ExtractAllExpressionsScan`, `TemplateLemmas.BodyChecksPlainVariables` and `TemplateLemmas.ValidateFlat` are stated |
| `Templates.ExtractAllExpressions` | src/types.ts:37-40 | the union of the classifications; no contract of its own, characterised by `TemplateLemmas.ExtractAllExpressionsScan` and `TemplateLemmas.ClosePathless` |
| `Templates.ExtractVariables` | src/types.ts:92-99 | the paths of the classified expressions; no contract of its own, characterised by `TemplateLemmas.ExtractVariablesExact` |
| `Templates.ProcessTemplateBody` | src/types.ts:77-87 | the first error of an `each` body; no contract of its own, characterised by `TemplateLemmas.BodyChecksPlainVariables` |
| `Templates.ProcessTemplate` | src/types.ts:46-72 | the first invalid path of a template, `each` before `if` before a variable; no contract of its own, characterised by `TemplateLemmas.EachBlockChecks`, `TemplateLemmas.IfBlockChecks`, `TemplateLemmas.FlatTemplate` and `Findings.AsWrittenIgnoresAfterIf` |
| `Templates.ErrorMessage` | src/types.ts:131 | the message naming the invalid path; no contract of its own, characterised by `TemplateLemmas.ErrorMessageNamesPath` |
| `TemplateLemmas.ErrorMessageNamesPath` | src/types.ts:131 | two messages are equal iff they name the same path, so a message identifies its path |
| `Templates.Report` | src/types.ts:127-133 | `true` for no error, the message otherwise; no contract of its own, characterised by `TemplateLemmas.ValidateFlat` and `TemplateLemmas.FirstExpressionMissing` |
| `Templates.ValidateTemplate` | src/types.ts:124-133 | `ProcessTemplate` from the input as context, reported; no contract of its own, characterised by `TemplateLemmas.ValidateFlat`, `TemplateLemmas.NoExpressionsValid` and the `Pieces` verdict lemmas |
| `TemplateLemmas.ClassificationPriority` | src/types.ts:23-32 | `{{e}}` is classified `each` with the rest of `e` after `#each `, else `if` after `#if `, else close if `e` starts with `/`, else a variable whose path is `e` |
| `TemplateLemmas.ClosePathless` | src/types.ts:28-29 | every close descriptor comes from an expression starting with `/`, and carries no path |
| `TemplateLemmas.ExtractAllExpressionsScan` | src/types.ts:37-40 | `ExtractAllExpressions` is exactly the set of classifications of the expressions found scanning left to right |
| `TemplateLemmas.ExtractVariablesExact` | src/types.ts:92-99 | a path is in `ExtractVariables` iff some scanned expression is classified `each`, `if` or variable with that path |
| `TemplateLemmas.PlainVariables` | src/types.ts:82 | the expressions not starting with `#` or `/`, and only those |
| `TemplateLemmas.FirstMissing` | src/types.ts:69-71 | the first path that the context lacks when all paths before it exist, and None iff every path exists |
| `TemplateLemmas.FlatTemplate` | src/types.ts:68-72 | without blocks, `ProcessTemplate` reports the first scanned expression that is not a path of the context |
| `TemplateLemmas.BodyChecksPlainVariables` | src/types.ts:77-87 | an `each` body reports its first expression not starting with `#` or `/` that is not a path of the element type |
| `TemplateLemmas.EachBlockChecks` | src/types.ts:50-59 | a missing `each` path, or one that is not an array, is itself the error; otherwise the result is the body's check against the element type, wherever the context is |
| `TemplateLemmas.IfBlockChecks` | src/types.ts:60-67 | an `if` condition is checked against the input, not the context; once it exists, the result is the body's, validated in the unchanged context |
| `TemplateLemmas.NoExpressionsValid` | src/types.ts:124-128 | a template without `{{...}}` is valid for every input type |
| `TemplateLemmas.ValidateFlat` | src/types.ts:124-133 | a template without blocks is valid iff every expression is a path of the input; otherwise the message names the first one that is not |
| `TemplateLemmas.FirstExpressionMissing` | src/types.ts:129-131 | without blocks, a missing first expression is reported with exactly that path in the message |
| `Pieces.FlatVerdict` | src/types.ts:124-133 | a template without `#` is judged by its scanned expressions, in order |
| `Pieces.EachVerdict` | src/types.ts:50-59 | a template whose first `each` block is known is judged by that block alone: the path must be an array, and then the body's plain expressions are checked against its element |
| `Pieces.IfVerdict` | src/types.ts:60-67 | a template without `each` whose first `if` block is known is judged by the condition, then by the body's expressions; nothing else is examined |
| `Pieces.IfPlain` | src/types.ts:60-67 | an `if` block without expressions in its body decides the verdict by its condition alone, whatever surrounds it |
| `Pieces.StaticText` | src/types.ts:68-72 | a template without `{` is valid for every input type |
| `TypeTests.PathExistsDocExamples` | src/types.ts:103-105 | `user.name` exists and `user.email` does not in `{ user: { name: string } }` |
| `TypeTests.DocNameTemplate` | src/index.ts:16 | `Hi, my name is {{name}}` is valid for exactly the input types that have `name` |
| `TypeTests.DocAgeTemplate` | src/index.ts:20 | `Hi, my age is {{age}}` is rejected for `age` by every input type without `age` |
| `TypeTests.TypedPromptDocExample` | src/index.ts:15-20 | over `{name: string}` the `name` template is valid and the `age` template is rejected with the message naming `age` |
| `TypeTests.BasicTemplate` | tests/types/index.test-d.ts:8 | `Hello, {{name}}!` is valid for exactly the input types that have `name` |
| `TypeTests.BasicVariable` | tests/types/index.test-d.ts:4-9 | Test 1 is valid |
| `TypeTests.AgeTemplate` | tests/types/index.test-d.ts:16 | `My age is {{age}}` is rejected for `age` by every input type without `age` |
| `TypeTests.AgeOnlyTemplate` | tests/types/index.test-d.ts:16 | a variant of Test 2 with the bare template `{{age}}`: is rejected for `age` by every input type without `age` |
| `TypeTests.UndefinedVariable` | tests/types/index.test-d.ts:11-16 | Test 2 is rejected with the message naming `age` |
| `TypeTests.NestedTemplate` | tests/types/index.test-d.ts:27-29 | the nested template reports `user.name`, then `user.profile.age`, whichever is first missing |
| `TypeTests.NestedPaths` | tests/types/index.test-d.ts:19-26 | both nested paths exist in Test 3's input |
| `TypeTests.NestedAccess` | tests/types/index.test-d.ts:18-30 | Test 3 is valid |
| `TypeTests.EmailTemplate` | tests/types/index.test-d.ts:39 | `Email: {{user.email}}` is rejected exactly when `user.email` is missing |
| `TypeTests.UndefinedNested` | tests/types/index.test-d.ts:32-39 | Test 4 is rejected with the message naming the whole path `user.email` |
| `TypeTests.ConditionalTemplate` | tests/types/index.test-d.ts:46-48 | the conditional reports its condition first, then the body's `userName` |
| `TypeTests.Conditional` | tests/types/index.test-d.ts:41-49 | Test 5 is valid |
| `TypeTests.LoopTemplate` | tests/types/index.test-d.ts:55-57 | the loop is valid iff `items` is an array of the input |
| `TypeTests.LoopPath` | tests/types/index.test-d.ts:52-54 | `items` of Test 6's input is the array of records |
| `TypeTests.Loop` | tests/types/index.test-d.ts:51-58 | Test 6 is valid |
| `TypeTests.ComplexTemplateVerdict` | tests/types/index.test-d.ts:70-71 | as written, Test 7's template is valid iff `user.isAdmin` exists: the names before the first block and the second line are not examined |
| `TypeTests.ComplexPath` | tests/types/index.test-d.ts:61-66 | `user.isAdmin` exists in Test 7's input |
| `TypeTests.Complex` | tests/types/index.test-d.ts:60-73 | Test 7 is valid |
| `TypeTests.StaticTemplates` | tests/types/index.test-d.ts:75-85 | Tests 8 and 9 are valid for the empty input type and for an unrelated one |
| `TypeTests.ShopTemplateVerdict` | src/types.ts:50-59 | `{{user.name}}: {{#each items}}{{name}} ${{price}} {{/each}}` is judged by `items`, then `name`, then `price` in its element; `user.name` is not examined |
| `TypeTests.ShopCostTemplateVerdict` | src/types.ts:50-59 | the same template with `{{cost}}` reports `cost` when the element lacks it |
| `TypeTests.ShopPaths` | src/types.ts:4-13 | resolves `items` to the array of `{ name, price }` |
| `TypeTests.ShopScenario` | src/types.ts:77-87 | valid with `{{price}}`, rejected for `cost` with `{{cost}}` |
| `TypeTests.TagsTemplate` | tests/runtime.test.ts:103-105 | `Tags: {{#each tags}}{{this}} {{/each}}` checks `tags` as an array and then `this` as an ordinary path of the element (src/types.ts:82-85 has no case for `this`) |
| `TypeTests.TagsScenario` | tests/runtime.test.ts:98-112 | over `{ tags: string[] }` the template is rejected for `this`, since a primitive has no members |
| `TypeTests.StrayCloseTemplate` | src/types.ts:68-71 | `Hi {{/if}}`, having no block, is judged by the path `/if` for every input type |
| `TypeTests.StrayClose` | src/types.ts:68-71 | over `{ name: string }`, `Hi {{/if}}` is rejected naming `/if` |
| `TypeTests.StrayCloseBeforeBlock` | src/types.ts:60-62 | `{{/if}}{{#if name}}{{/if}}` is judged by the condition `name` alone for every input type: the stray close lies in the prefix the `if` pattern skips |
| `TypeTests.StrayCloseSkipped` | src/types.ts:60-62 | over `{ name: string }`, `{{/if}}{{#if name}}{{/if}}` is valid although `/if` is not a path |
| `Findings.ProcessTemplateContinuing` | src/types.ts:46-72 | `ProcessTemplate` as intended, going on after a valid block; no contract of its own, characterised by `Findings.ContinuesAfterIf`, `Findings.ContinuesAfterEach`, `Findings.ContinuingKeepsErrors`, `Findings.ContinuingRefines` and `Findings.ContinuingFlat` |
| `Findings.AsWrittenIgnoresAfterIf` | src/types.ts:63-66 | as written, a first `if` block with an existing condition and a valid body makes the template valid whatever follows it |
| `Findings.AsWrittenIgnoresAfterEach` | src/types.ts:54-57 | as written, a valid first `each` block makes the template valid whatever follows it |
| `Findings.ContinuesAfterIf` | src/types.ts:63-66 | intended: after a valid `if` block, the verdict is that of the text after it |
| `Findings.ContinuesAfterEach` | src/types.ts:54-57 | intended: after a valid `each` block, the verdict is that of the text after it |
| `Findings.ContinuingKeepsErrors` | src/types.ts:46-72 | every error found as written is found, unchanged, by the intended reading |
| `Findings.ContinuingRefines` | src/types.ts:46-72 | a template valid under the intended reading is valid as written |
| `Findings.ValidateContinuingRefines` | src/types.ts:124-133 | a template valid under the intended reading is valid as written, and a template rejected as written is rejected with the same message under the intended reading |
| `Findings.ContinuingFlat` | src/types.ts:68-72 | without blocks, the intended reading reports the first expression that is not a path, as the code does |
| `Findings.FlatReadingsAgree` | src/types.ts:124-133 | templates without blocks get the same verdict under both readings |
| `Findings.ValidateTemplateContinuing` | src/types.ts:124-133 | `ValidateTemplate` run over `Findings.ProcessTemplateContinuing`; no contract of its own, characterised by `Findings.ValidateContinuingRefines`, `Findings.FlatReadingsAgree`, `Findings.SkippedAfterBlock`, `Findings.ComplexSkipsSecondLine` and `Findings.NestedCloseScanned` |
| `Findings.SkippedAfterBlock` | src/types.ts:63-66 | `{{#if a}}{{/if}}{{b}}` over `{ a: string }`: valid as written, rejected for `b` under the intended reading |
| `Findings.ComplexContinuingVerdict` | tests/types/index.test-d.ts:70-71 | under the intended reading, Test 7's template checks `user.isAdmin`, `showDetails` and `items.length`, in that order |
| `Findings.ComplexContinuing` | tests/types/index.test-d.ts:60-73 | Test 7 is still valid under the intended reading, `items.length` being the array's `length` |
| `Findings.NestedCloseScanned` | src/types.ts:46-58 | `{{#if a}}{{#each xs}}{{/each}}{{/if}}` over `{ a: string, xs: string[] }`: the `each` pattern matches the inner block first; valid as written, rejected for `/if` under the intended reading, which scans the outer close as a variable |
| `Findings.ComplexSkipsSecondLine` | tests/types/index.test-d.ts:70-71 | Test 7's template over an input with only `user`: valid as written, rejected for `showDetails` under the intended reading |

## Left out

- `src/index.ts`: the runtime `TypedPrompt` hands the template to `Handlebars.compile`, a library outside this model. Rendering, truthiness and substitution are left out, and so is the `const Template` inference that feeds the template to the type.
- `examples/code-review-example.ts` and `tests/runtime.test.ts`: network calls, console output and Handlebars rendering.
- The full `keyof` of built-in types: arrays have only `length` and primitives have no members. For example, `{{length}}` inside an `each` over `string[]` is accepted by TypeScript and rejected in the model.
- Optional fields, `undefined` and union types in inputs: a `Shape` has none of them.
- Union results: `ExtractAllExpressions` gives a set of descriptors and `ExtractVariables` a set of paths. Their scan order is kept in `Templates.Expressions`.
- `ValidateTemplate` answers `true` or a message string. The model gives `Valid` or `Invalid(message)`.
- TypeScript's limits on the depth of type instantiation: a long enough template makes the compiler give up, and the model has no such bound.
- A stack of contexts, a distinct error for an unmatched close, and `this`: `src/types.ts` has none of them, so the model has none.
- `Findings.ProcessTemplateContinuing`: like the code, it does not check the text skipped before the first block. Checking it as plain text would scan the open marker of an enclosing block (`{{#if a}}{{#each xs}}...`) as a variable. It does scan the close of an enclosing block after a nested block: `{{#if a}}{{#each xs}}{{/each}}{{/if}}` over `{ a: string, xs: string[] }` is valid as written and rejected for `/if` under the intended reading (`Findings.NestedCloseScanned`), so this one-line correction still rejects well-formed nesting.
- The templates of Test 7 and the shop scenario are written as concatenations of pieces cut at their block markers. They denote the same strings.

## Findings

| source | as written | input that shows it | evidently intended | confidence | as-written member | corrected member |
|---|---|---|---|---|---|---|
| src/types.ts:54-58, src/types.ts:63-67 | `BodyErrors extends never ? ProcessTemplate<Input, After, Context> : BodyErrors` distributes over the `infer`-bound `BodyErrors`, so an error-free body (`never`) yields `never`; the text after a valid block is never examined | `{{#if a}}{{/if}}{{b}}` over `{ a: string }` is valid; Test 7's template over `{ user: { firstName, lastName, isAdmin } }` is valid although `showDetails` is missing | continue with `ProcessTemplate<Input, After, Context>` when the body has no error, e.g. by testing `[BodyErrors] extends [never]` | high (not executed) | `Findings.SkippedAfterBlock`, `Findings.ComplexSkipsSecondLine` (over `Templates.ProcessTemplate`) | `Findings.ProcessTemplateContinuing`, with `Findings.ContinuesAfterIf`, `Findings.ContinuesAfterEach` and `Findings.ContinuingRefines` |
