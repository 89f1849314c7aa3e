/**
 * The continuation after a block in `ProcessTemplate` (src/types.ts:54-58
 * and 63-67).  `BodyErrors` is a type variable bound by `infer`, so
 * `BodyErrors extends never ? ... : ...` distributes over it; for an empty
 * body result (`never`) the conditional itself is `never`, and the branch
 * `ProcessTemplate<Input, After, Context>` is never taken.  As written, a
 * valid block therefore ends validation; the evidently intended reading
 * goes on with the text after the block.
 *
 * As in `TypeTests`, lemmas about paths bind each path to a parameter by
 * `requires p == "..."`, which keeps the solver from unfolding the path
 * functions on the literal.
 */
module Findings {
  import opened Wrappers
  import opened Literal
  import opened Shapes
  import opened Templates
  import opened TemplateLemmas
  import opened Pieces
  import opened TypeTests

  /**
   * `ProcessTemplate` as intended: when a block's body has no error,
   * validation continues with the text after the block, in the same context.
   */
  function ProcessTemplateContinuing(input: Shape, t: string, context: Shape): Option<string>
    decreases |t|
  {
    match EachBlock(t)
    case Some(b) =>
      if !PathExists(input, b.path) then Some(b.path)
      else
        (match GetTypeAtPath(input, b.path)
         case Some(Array(element)) =>
           (match ProcessTemplateBody(input, b.body, element)
            case None => ProcessTemplateContinuing(input, b.after, context)
            case Some(e) => Some(e))
         case _ => Some(b.path))
    case None =>
      match IfBlock(t)
      case Some(b) =>
        if !PathExists(input, b.path) then Some(b.path)
        else
          (match ProcessTemplateContinuing(input, b.body, context)
           case None => ProcessTemplateContinuing(input, b.after, context)
           case Some(e) => Some(e))
      case None =>
        match Placeholder(t)
        case Some(sp) =>
          if !PathExists(context, sp.text) then Some(sp.text)
          else ProcessTemplateContinuing(input, sp.after, context)
        case None => None
  }

  /** `ValidateTemplate` over the intended continuation. */
  function ValidateTemplateContinuing(input: Shape, t: string): Verdict {
    Report(ProcessTemplateContinuing(input, t, input))
  }

  /**
   * As written, a template whose first `if` block has an existing condition
   * and a valid body is valid whatever follows the block.
   */
  lemma AsWrittenIgnoresAfterIf(input: Shape, t: string, context: Shape, b: Block)
    requires EachBlock(t).None? && IfBlock(t) == Some(b)
    requires PathExists(input, b.path) && ProcessTemplate(input, b.body, context).None?
    ensures ProcessTemplate(input, t, context).None?
  {
  }

  /**
   * As written, a template whose first `each` block is valid is valid
   * whatever follows the block.
   */
  lemma AsWrittenIgnoresAfterEach(input: Shape, t: string, context: Shape, b: Block)
    requires EachBlock(t) == Some(b)
    requires GetTypeAtPath(input, b.path).Some? && GetTypeAtPath(input, b.path).value.Array?
    requires ProcessTemplateBody(input, b.body, GetTypeAtPath(input, b.path).value.element).None?
    ensures ProcessTemplate(input, t, context).None?
  {
    PathExistsIffTyped(input, b.path);
  }

  /** Intended: after a valid `if` block, validation is that of the text after it. */
  lemma ContinuesAfterIf(input: Shape, t: string, context: Shape, b: Block)
    requires EachBlock(t).None? && IfBlock(t) == Some(b)
    requires PathExists(input, b.path) && ProcessTemplateContinuing(input, b.body, context).None?
    ensures ProcessTemplateContinuing(input, t, context) == ProcessTemplateContinuing(input, b.after, context)
  {
  }

  /** Intended: after a valid `each` block, validation is that of the text after it. */
  lemma ContinuesAfterEach(input: Shape, t: string, context: Shape, b: Block)
    requires EachBlock(t) == Some(b)
    requires GetTypeAtPath(input, b.path).Some? && GetTypeAtPath(input, b.path).value.Array?
    requires ProcessTemplateBody(input, b.body, GetTypeAtPath(input, b.path).value.element).None?
    ensures ProcessTemplateContinuing(input, t, context) == ProcessTemplateContinuing(input, b.after, context)
  {
    PathExistsIffTyped(input, b.path);
  }

  /**
   * The intended reading only adds checks: every error found as written is
   * found, the same, by the intended reading.
   */
  lemma {:induction false} ContinuingKeepsErrors(input: Shape, t: string, context: Shape)
    requires ProcessTemplate(input, t, context).Some?
    ensures ProcessTemplateContinuing(input, t, context) == ProcessTemplate(input, t, context)
    decreases |t|
  {
    if EachBlock(t).None? {
      match IfBlock(t)
      case Some(b) =>
        if PathExists(input, b.path) {
          ContinuingKeepsErrors(input, b.body, context);
        }
      case None =>
        var sp := Placeholder(t).value;
        if PathExists(context, sp.text) {
          ContinuingKeepsErrors(input, sp.after, context);
        }
    }
  }

  /** A template valid under the intended reading is valid as written. */
  lemma ContinuingRefines(input: Shape, t: string, context: Shape)
    ensures ProcessTemplateContinuing(input, t, context).None? ==> ProcessTemplate(input, t, context).None?
  {
    if ProcessTemplate(input, t, context).Some? {
      ContinuingKeepsErrors(input, t, context);
    }
  }

  /** A template the intended reading accepts is accepted as written, and every rejection as written stands. */
  lemma ValidateContinuingRefines(input: Shape, t: string)
    ensures ValidateTemplateContinuing(input, t) == Valid ==> ValidateTemplate(input, t) == Valid
    ensures ValidateTemplate(input, t).Invalid? ==> ValidateTemplateContinuing(input, t) == ValidateTemplate(input, t)
  {
    ContinuingRefines(input, t, input);
    if ProcessTemplate(input, t, input).Some? {
      ContinuingKeepsErrors(input, t, input);
    }
  }

  /** Without blocks the two readings agree: the first expression that is not a path. */
  lemma {:induction false} ContinuingFlat(input: Shape, t: string, context: Shape)
    requires EachBlock(t).None? && IfBlock(t).None?
    ensures ProcessTemplateContinuing(input, t, context) == FirstMissing(context, Expressions(t))
    decreases |t|
  {
    match Placeholder(t)
    case Some(sp) =>
      FlatSuffix(t);
      ContinuingFlat(input, sp.after, context);
      assert Expressions(t)[1..] == Expressions(sp.after);
    case None =>
  }

  /** Templates without blocks, such as those of Tests 1 to 4, 8 and 9, get the same verdict under both readings. */
  lemma FlatReadingsAgree(input: Shape, t: string)
    requires EachBlock(t).None? && IfBlock(t).None?
    ensures ValidateTemplateContinuing(input, t) == ValidateTemplate(input, t)
  {
    ContinuingFlat(input, t, input);
    FlatTemplate(input, t, input);
  }

  // The input that shows the discrepancy: an `if` block, then a variable the input lacks.

  const OnlyA := Record(map["a" := Primitive])

  /** `{{#if a}}{{/if}}{{b}}`. */
  const IfThenB := "{{#if " + "a" + "}}" + "{{/if}}" + "{{b}}"

  lemma IfThenVariableText()
    ensures IfThenB == "" + "{{#if " + "a" + "}}" + "" + "{{/if}}" + "{{b}}"
  {
  }

  lemma IfThenVariableBlock()
    ensures EachBlock(IfThenB).None?
    ensures IfBlock(IfThenB) == Some(Block("", "a", "", "{{b}}"))
  {
    IfThenVariableText();
    AbsentWithoutChar("{{b}}", "{{#each ", '#');
    NoEachAroundIf("", "a", "", "{{b}}");
    IfBlockAt("", "a", "", "{{b}}");
  }

  lemma IfThenVariableAsWritten(input: Shape)
    ensures ValidateTemplate(input, IfThenB) ==
            if PathExists(input, "a") then Valid else Invalid(ErrorMessage("a"))
  {
    IfThenVariableBlock();
    IfBlockChecks(input, IfThenB, input, Block("", "a", "", "{{b}}"));
    EmptyAsWritten(input, input);
  }

  lemma EmptyAsWritten(input: Shape, context: Shape)
    ensures ProcessTemplate(input, "", context).None?
  {
    NoBlocks("");
    NoPlaceholder("");
    FlatTemplate(input, "", context);
  }

  lemma IfThenVariableContinuing(input: Shape)
    ensures ValidateTemplateContinuing(input, IfThenB) ==
            if !PathExists(input, "a") then Invalid(ErrorMessage("a"))
            else if PathExists(input, "b") then Valid else Invalid(ErrorMessage("b"))
  {
    IfThenVariableBlock();
    IfContinuing(input, IfThenB, input, Block("", "a", "", "{{b}}"));
    EmptyContinuing(input, input);
    ContinuingB(input);
  }

  lemma ContinuingB(input: Shape)
    ensures ProcessTemplateContinuing(input, "{{b}}", input) == if PathExists(input, "b") then None else Some("b")
  {
    assert "{{b}}" == "" + "{{" + "b" + "}}" + "";
    ContinuingFlatOne(input, "{{b}}", input, "", "b", "");
  }

  lemma OnlyAPaths(p: string, q: string)
    requires p == "a" && q == "b"
    ensures PathExists(OnlyA, p) && !PathExists(OnlyA, q)
  {
    OneSegment(OnlyA, p);
    OneSegment(OnlyA, q);
  }

  /**
   * `{{#if a}}{{/if}}{{b}}` against `{ a: string }`: valid as written,
   * rejected for `b` under the intended reading.
   */
  lemma SkippedAfterBlock()
    ensures ValidateTemplate(OnlyA, IfThenB) == Valid
    ensures ValidateTemplateContinuing(OnlyA, IfThenB) == Invalid(ErrorMessage("b"))
  {
    OnlyAPaths("a", "b");
    IfThenVariableAsWritten(OnlyA);
    IfThenVariableContinuing(OnlyA);
  }

  // Test 7 under the intended reading: the second line is checked too.

  lemma ComplexBlocks()
    ensures EachBlock(ComplexTemplate).None?
    ensures IfBlock(ComplexTemplate) ==
            Some(Block("{{user.firstName}} {{user.lastName}}", "user.isAdmin", " (Admin)", ComplexDetails))
  {
    ComplexDetailsNoEach();
    ComplexNamesFlat();
    NoEachAroundIf("{{user.firstName}} {{user.lastName}}", "user.isAdmin", " (Admin)", ComplexDetails);
    IfBlockAt("{{user.firstName}} {{user.lastName}}", "user.isAdmin", " (Admin)", ComplexDetails);
  }

  lemma ComplexDetailsBlocks()
    ensures EachBlock(ComplexDetails).None?
    ensures IfBlock(ComplexDetails) == Some(Block("\n", "showDetails", "Items count: {{items.length}}", ""))
  {
    ComplexDetailsNoEach();
    IfBlockAtEnd("\n", "showDetails", "Items count: {{items.length}}");
  }

  lemma AdminBody(input: Shape, context: Shape)
    ensures ProcessTemplateContinuing(input, " (Admin)", context).None?
  {
    NoBlocks(" (Admin)");
    NoPlaceholder(" (Admin)");
    ContinuingFlat(input, " (Admin)", context);
  }

  lemma DetailsBodyText()
    ensures "Items count: {{items.length}}" == "Items count: " + "{{" + "items.length" + "}}" + ""
  {
  }

  lemma DetailsBody(input: Shape, context: Shape)
    ensures ProcessTemplateContinuing(input, "Items count: {{items.length}}", context) ==
            if PathExists(context, "items.length") then None else Some("items.length")
  {
    DetailsBodyText();
    ContinuingFlatOne(input, "Items count: {{items.length}}", context, "Items count: ", "items.length", "");
  }

  /** A flat text with one expression under the intended reading: that expression is checked. */
  lemma ContinuingFlatOne(input: Shape, t: string, context: Shape, a: string, e: string, b: string)
    requires t == a + "{{" + e + "}}" + b && '{' !in a && '}' !in e && '{' !in b
    requires '#' !in a && '#' !in e && '#' !in b
    ensures ProcessTemplateContinuing(input, t, context) == if PathExists(context, e) then None else Some(e)
  {
    assert '#' !in t;
    OneExpression(t, a, e, b);
    NoBlocks(t);
    ContinuingFlat(input, t, context);
  }

  lemma EmptyContinuing(input: Shape, context: Shape)
    ensures ProcessTemplateContinuing(input, "", context).None?
  {
    NoBlocks("");
    NoPlaceholder("");
    ContinuingFlat(input, "", context);
  }

  /** An `if` block under the intended reading: its condition, then its body, then the text after it. */
  lemma IfContinuing(input: Shape, t: string, context: Shape, b: Block)
    requires EachBlock(t).None? && IfBlock(t) == Some(b)
    ensures ProcessTemplateContinuing(input, t, context) ==
            if !PathExists(input, b.path) then Some(b.path)
            else if ProcessTemplateContinuing(input, b.body, context).Some? then ProcessTemplateContinuing(input, b.body, context)
            else ProcessTemplateContinuing(input, b.after, context)
  {
  }

  lemma DetailsContinuing(input: Shape)
    ensures ProcessTemplateContinuing(input, ComplexDetails, input) ==
            if !PathExists(input, "showDetails") then Some("showDetails")
            else if PathExists(input, "items.length") then None else Some("items.length")
  {
    ComplexDetailsBlocks();
    IfContinuing(input, ComplexDetails, input, Block("\n", "showDetails", "Items count: {{items.length}}", ""));
    DetailsBody(input, input);
    EmptyContinuing(input, input);
  }

  lemma ComplexContinuingVerdict(input: Shape)
    ensures ValidateTemplateContinuing(input, ComplexTemplate) ==
            if !PathExists(input, "user.isAdmin") then Invalid(ErrorMessage("user.isAdmin"))
            else if !PathExists(input, "showDetails") then Invalid(ErrorMessage("showDetails"))
            else if !PathExists(input, "items.length") then Invalid(ErrorMessage("items.length"))
            else Valid
  {
    ComplexBlocks();
    IfContinuing(input, ComplexTemplate, input,
                 Block("{{user.firstName}} {{user.lastName}}", "user.isAdmin", " (Admin)", ComplexDetails));
    AdminBody(input, input);
    DetailsContinuing(input);
  }

  lemma ItemsLength(q: string)
    requires q == "items.length"
    ensures PathExists(ComplexInput, q)
  {
    assert q == "items" + "." + "length";
    TwoSegments(ComplexInput, "items", "length");
  }

  lemma ComplexDetailPaths(p: string, q: string)
    requires p == "showDetails" && q == "items.length"
    ensures PathExists(ComplexInput, p) && PathExists(ComplexInput, q)
  {
    OneSegment(ComplexInput, p);
    ItemsLength(q);
  }

  /** Test 7's input still passes the intended reading, which also checks `showDetails` and `items.length`. */
  lemma ComplexContinuing()
    ensures ValidateTemplateContinuing(ComplexInput, ComplexTemplate) == Valid
  {
    ComplexPath("user.isAdmin");
    ComplexDetailPaths("showDetails", "items.length");
    ComplexContinuingVerdict(ComplexInput);
  }

  /** Test 7's input without `showDetails` and `items`. */
  const AdminOnlyInput := Record(map["user" := ComplexUser])

  lemma AdminOnlyPaths(p: string, q: string)
    requires p == "user.isAdmin" && q == "showDetails"
    ensures PathExists(AdminOnlyInput, p) && !PathExists(AdminOnlyInput, q)
  {
    AdminOnlyIsAdmin(p);
    AdminOnlyNoDetails(q);
  }

  lemma AdminOnlyNoDetails(q: string)
    requires q == "showDetails"
    ensures !PathExists(AdminOnlyInput, q)
  {
    OneSegment(AdminOnlyInput, q);
    assert q !in Keys(AdminOnlyInput);
  }

  lemma AdminOnlyIsAdmin(p: string)
    requires p == "user.isAdmin"
    ensures PathExists(AdminOnlyInput, p)
  {
    assert p == "user" + "." + "isAdmin";
    TwoSegments(AdminOnlyInput, "user", "isAdmin");
  }

  /**
   * Test 7's template against an input with only `user`: valid as written,
   * rejected for `showDetails` under the intended reading.
   */
  lemma ComplexSkipsSecondLine()
    ensures ValidateTemplate(AdminOnlyInput, ComplexTemplate) == Valid
    ensures ValidateTemplateContinuing(AdminOnlyInput, ComplexTemplate) == Invalid(ErrorMessage("showDetails"))
  {
    AdminOnlyPaths("user.isAdmin", "showDetails");
    ComplexTemplateVerdict(AdminOnlyInput);
    ComplexContinuingVerdict(AdminOnlyInput);
  }

  // The intended reading scans the close of an enclosing block after a nested one.

  /** `{{#if a}}{{#each xs}}{{/each}}{{/if}}`: an `each` block nested in an `if` block. */
  const NestedIfEach := "{{#if " + "a" + "}}" + "{{#each " + "xs" + "}}" + "{{/each}}" + "{{/if}}"

  /** `{ a: string, xs: string[] }`. */
  const AAndXs := Record(map["a" := Primitive, "xs" := Array(Primitive)])

  /** The `each` pattern is tried first, so the inner block is the one matched. */
  lemma NestedIfEachBlock()
    ensures EachBlock(NestedIfEach) == Some(Block("{{#if a}}", "xs", "", "{{/if}}"))
  {
    assert NestedIfEach == "{{#if a}}" + "{{#each " + "xs" + "}}" + "" + "{{/each}}" + "{{/if}}";
    MatchThreeByMarkers("{{#if a}}", "{{#each ", "xs", "}}", "", "{{/each}}", "{{/if}}", 3, 0, 2);
  }

  lemma AAndXsPaths(p: string, q: string)
    requires p == "xs" && q == "/if"
    ensures GetTypeAtPath(AAndXs, p) == Some(Array(Primitive)) && !PathExists(AAndXs, q)
  {
    OneSegment(AAndXs, p);
    OneSegment(AAndXs, q);
  }

  lemma StrayCloseContinuing(input: Shape, context: Shape)
    ensures ProcessTemplateContinuing(input, "{{/if}}", context) == if PathExists(context, "/if") then None else Some("/if")
  {
    assert "{{/if}}" == "" + "{{" + "/if" + "}}" + "";
    ContinuingFlatOne(input, "{{/if}}", context, "", "/if", "");
  }

  /**
   * Against `{ a: string, xs: string[] }` the nested template is valid as
   * written; the intended reading, going on after the inner `each` block,
   * scans the outer `{{/if}}` as a variable and rejects it.
   */
  lemma NestedCloseScanned()
    ensures ValidateTemplate(AAndXs, NestedIfEach) == Valid
    ensures ValidateTemplateContinuing(AAndXs, NestedIfEach) == Invalid(ErrorMessage("/if"))
  {
    var b := Block("{{#if a}}", "xs", "", "{{/if}}");
    NestedIfEachBlock();
    AAndXsPaths("xs", "/if");
    EachBlockChecks(AAndXs, NestedIfEach, AAndXs, b);
    NoBlocks("");
    NoPlaceholder("");
    BodyChecksPlainVariables(AAndXs, "", Primitive);
    ContinuesAfterEach(AAndXs, NestedIfEach, AAndXs, b);
    StrayCloseContinuing(AAndXs, AAndXs);
  }
}
