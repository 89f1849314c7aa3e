/**
 * Template scanning and validation: `ExtractSingleVariable`,
 * `ExtractAllExpressions`, `ExtractVariables`, `ProcessTemplate`,
 * `ProcessTemplateBody` and `ValidateTemplate` of src/types.ts.
 */
module Templates {
  import opened Wrappers
  import opened Literal
  import opened Shapes

  /** The descriptor `ExtractSingleVariable` gives one `{{...}}` expression. */
  datatype Expr = Each(path: string) | If(path: string) | Close | Var(path: string)

  /** `${string}{{${infer Text}}}${infer After}`: the first `{{...}}` of a text. */
  datatype Span = Span(skipped: string, text: string, after: string)

  /** `${string}OPEN${infer Path}}}${infer Body}CLOSE${infer After}`: the first block of a text. */
  datatype Block = Block(skipped: string, path: string, body: string, after: string)

  /** The verdict of `ValidateTemplate`: `true`, or the error message string. */
  datatype Verdict = Valid | Invalid(message: string)

  /** The first `{{...}}` of `t`: the text before it, the text inside it (up to the first `}}`) and the rest. */
  function Placeholder(t: string): (r: Option<Span>)
    ensures r.Some? ==> t == r.value.skipped + "{{" + r.value.text + "}}" + r.value.after
    ensures r.Some? ==> !Contains(r.value.skipped, "{{") && !Contains(r.value.text, "}}")
    ensures r.Some? ==> IndexOf(t, "{{") == Some(|r.value.skipped|)
    ensures r.Some? ==> IndexOf(r.value.text + "}}" + r.value.after, "}}") == Some(|r.value.text|)
  {
    match MatchPattern(t, ["{{", "}}"])
    case Some(caps) =>
      Interleave2(caps, "{{", "}}");
      FirstCuts2(caps, "{{", "}}");
      Some(Span(caps[0], caps[1], caps[2]))
    case None => None
  }

  /** `t` splits into a block opened by `open` and closed by the first `close` after it. */
  function MatchBlock(t: string, open: string, close: string): (r: Option<Block>)
    requires open != "" && close != ""
    ensures r.Some? ==> t == r.value.skipped + open + r.value.path + "}}" + r.value.body + close + r.value.after
    ensures r.Some? ==> !Contains(r.value.skipped, open) && !Contains(r.value.path, "}}")
    ensures r.Some? ==> !Contains(r.value.body, close)
    ensures r.Some? ==> IndexOf(t, open) == Some(|r.value.skipped|)
    ensures r.Some? ==> IndexOf(r.value.path + "}}" + r.value.body + close + r.value.after, "}}") == Some(|r.value.path|)
    ensures r.Some? ==> IndexOf(r.value.body + close + r.value.after, close) == Some(|r.value.body|)
  {
    match MatchPattern(t, [open, "}}", close])
    case Some(caps) =>
      Interleave3(caps, open, "}}", close);
      FirstCuts3(caps, open, "}}", close);
      Some(Block(caps[0], caps[1], caps[2], caps[3]))
    case None => None
  }

  /** Line 50: the first `{{#each PATH}}` and the first `{{/each}}` after it. */
  function EachBlock(t: string): Option<Block> {
    MatchBlock(t, "{{#each ", "{{/each}}")
  }

  /** Line 60: the first `{{#if PATH}}` and the first `{{/if}}` after it. */
  function IfBlock(t: string): Option<Block> {
    MatchBlock(t, "{{#if ", "{{/if}}")
  }

  /**
   * `ExtractSingleVariable<T>`: classifies a whole `{{...}}` text, trying
   * `each`, `if`, close and plain variable in that order (None is `never`).
   */
  function ExtractSingleVariable(t: string): Option<Expr> {
    match MatchAffix(t, "{{#each ", "}}")
    case Some(v) => Some(Each(v))
    case None =>
      match MatchAffix(t, "{{#if ", "}}")
      case Some(v) => Some(If(v))
      case None =>
        if MatchAffix(t, "{{/", "}}").Some? then Some(Close)
        else
          match MatchAffix(t, "{{", "}}")
          case Some(v) => Some(Var(v))
          case None => None
  }

  /** The texts inside the `{{...}}` expressions of `t`, in scan order. */
  function Expressions(t: string): seq<string>
    decreases |t|
  {
    match Placeholder(t)
    case Some(sp) => [sp.text] + Expressions(sp.after)
    case None => []
  }

  /** `ExtractAllExpressions<T>`: the union of the descriptors of all expressions. */
  function ExtractAllExpressions(t: string): set<Expr>
    decreases |t|
  {
    match Placeholder(t)
    case Some(sp) =>
      var x := ExtractSingleVariable("{{" + sp.text + "}}");
      (if x.Some? then {x.value} else {}) + ExtractAllExpressions(sp.after)
    case None => {}
  }

  /** `ExtractVariables<T>`: the paths of the descriptors that have one. */
  function ExtractVariables(t: string): set<string> {
    set x | x in ExtractAllExpressions(t) && !x.Close? :: x.path
  }

  /**
   * `ProcessTemplateBody<Input, Body, Context>`: the first expression of an
   * `each` body that does not start with `#` or `/` and is not a path of the
   * element type.
   */
  function ProcessTemplateBody(input: Shape, t: string, context: Shape): Option<string>
    decreases |t|
  {
    match Placeholder(t)
    case Some(sp) =>
      if StartsWith(sp.text, "#") || StartsWith(sp.text, "/") then ProcessTemplateBody(input, sp.after, context)
      else if !PathExists(context, sp.text) then Some(sp.text)
      else ProcessTemplateBody(input, sp.after, context)
    case None => None
  }

  /**
   * `ProcessTemplate<Input, Template, Context>`: the first invalid path, or
   * None for `never`.  The `each` and `if` branches are tried against the
   * whole text before a plain variable.  When a block's body has no error,
   * the distributive `BodyErrors extends never` yields `never`, so the text
   * after the block is not examined.
   */
  function ProcessTemplate(input: Shape, t: string, context: Shape): Option<string>
    decreases |t|
  {
    match EachBlock(t)
    case Some(b) =>
      if !PathExists(input, b.path) then Some(b.path)
      else
        (match GetTypeAtPath(input, b.path)
         case Some(Array(element)) => ProcessTemplateBody(input, b.body, element)
         case _ => Some(b.path))
    case None =>
      match IfBlock(t)
      case Some(b) =>
        if !PathExists(input, b.path) then Some(b.path)
        else ProcessTemplate(input, b.body, context)
      case None =>
        match Placeholder(t)
        case Some(sp) =>
          if !PathExists(context, sp.text) then Some(sp.text)
          else ProcessTemplate(input, sp.after, context)
        case None => None
  }

  /** The message of a rejected template. */
  function ErrorMessage(path: string): string {
    "Error: Variable \"" + path + "\" does not exist in input type"
  }

  /** The verdict for a first invalid path, or for none (`never` extends `never`). */
  function Report(error: Option<string>): Verdict {
    match error
    case None => Valid
    case Some(path) => Invalid(ErrorMessage(path))
  }

  /** `ValidateTemplate<Input, Template>`: `ProcessTemplate` with the input as the context. */
  function ValidateTemplate(input: Shape, t: string): Verdict {
    Report(ProcessTemplate(input, t, input))
  }
}
