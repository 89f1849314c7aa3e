/**
 * What the validator of src/types.ts promises: classification priority,
 * what the extractors collect, and which paths `ProcessTemplate` checks
 * against which shape.
 */
module TemplateLemmas {
  import opened Wrappers
  import opened Literal
  import opened Shapes
  import opened Templates

  /** Reference classification of the text inside `{{...}}`. */
  function Classify(e: string): Expr {
    if StartsWith(e, "#each ") then Each(e[6..])
    else if StartsWith(e, "#if ") then If(e[4..])
    else if StartsWith(e, "/") then Close
    else Var(e)
  }

  /** An expression is checked inside an `each` body unless it starts with `#` or `/`. */
  predicate IsPlain(e: string) {
    !StartsWith(e, "#") && !StartsWith(e, "/")
  }

  /** The plain expressions among `es`, in order. */
  function PlainVariables(es: seq<string>): (r: seq<string>)
    ensures forall p :: p in r <==> p in es && IsPlain(p)
  {
    if |es| == 0 then []
    else if IsPlain(es[0]) then [es[0]] + PlainVariables(es[1..])
    else PlainVariables(es[1..])
  }

  /**
   * The first path of `ps` that `context` does not have, in order: all
   * paths before it exist, and None means that every path exists.
   */
  function FirstMissing(context: Shape, ps: seq<string>): (r: Option<string>)
    ensures r.Some? ==> exists k :: 0 <= k < |ps| && ps[k] == r.value && !PathExists(context, ps[k]) &&
                                    forall j :: 0 <= j < k ==> PathExists(context, ps[j])
    ensures r.None? <==> forall k :: 0 <= k < |ps| ==> PathExists(context, ps[k])
  {
    if |ps| == 0 then None
    else if !PathExists(context, ps[0]) then Some(ps[0])
    else
      var r := FirstMissing(context, ps[1..]);
      assert ps == [ps[0]] + ps[1..];
      r
  }

  /**
   * Classification priority of `ExtractSingleVariable`: `each`, then `if`,
   * then close (no path), then plain variable carrying the whole text.
   */
  lemma ClassificationPriority(e: string)
    ensures ExtractSingleVariable("{{" + e + "}}") == Some(Classify(e))
  {
    assert "{{" + "#each " == "{{#each " && "{{" + "#if " == "{{#if " && "{{" + "/" == "{{/" && "{{" + "" == "{{";
    BracedAffix(e, "#each ");
    BracedAffix(e, "#if ");
    BracedAffix(e, "/");
    BracedAffix(e, "");
  }

  /** `{{P${X}}}` matches `{{e}}` iff `e` starts with `P`, and X is the rest of `e`. */
  lemma BracedAffix(e: string, p: string)
    requires '}' !in p
    ensures MatchAffix("{{" + e + "}}", "{{" + p, "}}") == if StartsWith(e, p) then Some(e[|p|..]) else None
  {
    var t := "{{" + e + "}}";
    assert EndsWith(t, "}}") by { assert t[|t| - 2..] == "}}"; }
    BracedPrefix(e, p);
    if StartsWith(e, p) {
      assert t[2 + |p|..|t| - 2] == e[|p|..];
    }
  }

  /** Inside `{{...}}`, a prefix without `}` starts the braced text iff it starts the inner text. */
  lemma BracedPrefix(e: string, p: string)
    requires '}' !in p
    ensures StartsWith("{{" + e + "}}", "{{" + p) <==> StartsWith(e, p)
  {
    var t := "{{" + e + "}}";
    var q := "{{" + p;
    assert t[2 + |e|] == '}';
    if StartsWith(t, q) {
      assert forall k :: 0 <= k < |q| ==> t[k] == t[..|q|][k] == q[k];
      assert |p| <= |e| by {
        assert forall k :: 0 <= k < |p| ==> q[2 + k] == p[k] != '}';
      }
      assert e[..|p|] == t[2..2 + |p|] == q[2..];
    }
    if StartsWith(e, p) {
      assert t[..|q|] == "{{" + e[..|p|];
    }
  }

  /**
   * `Placeholder`'s contract pins its result: the only span that rebuilds
   * the text, cut at the first `{{` and then at the first `}}` after it.
   */
  lemma PlaceholderDetermined(t: string, sp: Span)
    requires t == sp.skipped + "{{" + sp.text + "}}" + sp.after
    requires IndexOf(t, "{{") == Some(|sp.skipped|)
    requires IndexOf(sp.text + "}}" + sp.after, "}}") == Some(|sp.text|)
    ensures Placeholder(t) == Some(sp)
  {
    var caps := [sp.skipped, sp.text, sp.after];
    Interleave2(caps, "{{", "}}");
    MatchPatternComplete(t, caps, ["{{", "}}"]);
    assert Placeholder(t).Some?;
    var q := Placeholder(t).value;
    SpanRegroup(q.skipped, q.text, q.after);
    SpanRegroup(sp.skipped, sp.text, sp.after);
    CutDetermined(q.skipped, q.text + "}}" + q.after, sp.skipped, sp.text + "}}" + sp.after, "{{");
    CutDetermined(q.text, q.after, sp.text, sp.after, "}}");
  }

  /**
   * `MatchBlock`'s contract pins its result: the first `open`, the first
   * `}}` after it and the first `close` after that.
   */
  lemma MatchBlockDetermined(t: string, open: string, close: string, b: Block)
    requires open != "" && close != ""
    requires t == b.skipped + open + b.path + "}}" + b.body + close + b.after
    requires IndexOf(t, open) == Some(|b.skipped|)
    requires IndexOf(b.path + "}}" + b.body + close + b.after, "}}") == Some(|b.path|)
    requires IndexOf(b.body + close + b.after, close) == Some(|b.body|)
    ensures MatchBlock(t, open, close) == Some(b)
  {
    MatchBlockFound(t, open, close, b);
    var q := MatchBlock(t, open, close).value;
    var u, v := q.path + "}}" + q.body + close + q.after, b.path + "}}" + b.body + close + b.after;
    BlockRegroupOpen(q.skipped, open, q.path, q.body, close, q.after);
    BlockRegroupOpen(b.skipped, open, b.path, b.body, close, b.after);
    assert |q.skipped| == |b.skipped|;
    CutDetermined(q.skipped, u, b.skipped, v, open);
    assert u == v;
    BlockRegroupPath(q.path, q.body, close, q.after);
    BlockRegroupPath(b.path, b.body, close, b.after);
    assert |q.path| == |b.path|;
    CutDetermined(q.path, q.body + close + q.after, b.path, b.body + close + b.after, "}}");
    assert |q.body| == |b.body|;
    CutDetermined(q.body, q.after, b.body, b.after, close);
  }

  lemma MatchBlockFound(t: string, open: string, close: string, b: Block)
    requires open != "" && close != ""
    requires t == b.skipped + open + b.path + "}}" + b.body + close + b.after
    ensures MatchBlock(t, open, close).Some?
  {
    var caps := [b.skipped, b.path, b.body, b.after];
    Interleave3(caps, open, "}}", close);
    MatchPatternComplete(t, caps, [open, "}}", close]);
  }

  lemma SpanRegroup(s: string, x: string, a: string)
    ensures s + "{{" + x + "}}" + a == s + "{{" + (x + "}}" + a)
  {
  }

  lemma BlockRegroupOpen(s: string, o: string, p: string, body: string, c: string, a: string)
    ensures s + o + p + "}}" + body + c + a == s + o + (p + "}}" + body + c + a)
  {
  }

  lemma BlockRegroupPath(p: string, body: string, c: string, a: string)
    ensures p + "}}" + body + c + a == p + "}}" + (body + c + a)
  {
  }

  /** The message names its path: different paths give different messages. */
  lemma ErrorMessageNamesPath(p: string, q: string)
    ensures ErrorMessage(p) == ErrorMessage(q) <==> p == q
  {
    var pre := "Error: Variable \"";
    if ErrorMessage(p) == ErrorMessage(q) {
      var m := ErrorMessage(p);
      assert |p| == |q|;
      assert m[|pre|..|pre| + |p|] == p;
      assert ErrorMessage(q)[|pre|..|pre| + |q|] == q;
    }
  }

  /** A block in a suffix is a block of the whole text. */
  lemma BlockInSuffix(x: string, y: string, open: string, close: string)
    requires open != "" && close != ""
    requires MatchBlock(y, open, close).Some?
    ensures MatchBlock(x + y, open, close).Some?
  {
    PatternInSuffix(x, y, [open, "}}", close]);
  }

  /** A block opened by `{{...` contains a `{{...}}` expression. */
  lemma BlockHasPlaceholder(t: string, open: string, close: string)
    requires open != "" && close != "" && StartsWith(open, "{{")
    requires MatchBlock(t, open, close).Some?
    ensures Placeholder(t).Some?
  {
    var b := MatchBlock(t, open, close).value;
    var x := b.skipped + open + b.path;
    var y := b.body + close + b.after;
    BlockRegroup(b.skipped, open, b.path, b.body, close, b.after);
    OccursAfter(x, "}}", y);
    OccursAfter(b.skipped, open, b.path + "}}" + y);
    PrefixOccurs(t, open, "{{", |b.skipped|);
    PairFromOccurrences(t, "{{", "}}", |b.skipped|, |x|);
  }

  lemma BlockRegroup(s: string, o: string, p: string, body: string, c: string, a: string)
    ensures s + o + p + "}}" + body + c + a == (s + o + p) + "}}" + (body + c + a)
    ensures s + o + p + "}}" + body + c + a == s + o + (p + "}}" + (body + c + a))
  {
  }

  /**
   * `ExtractAllExpressions` is exactly the set of classifications of the
   * expressions found scanning left to right.
   */
  lemma {:induction false} ExtractAllExpressionsScan(t: string)
    ensures ExtractAllExpressions(t) == set e | e in Expressions(t) :: Classify(e)
    decreases |t|
  {
    match Placeholder(t)
    case Some(sp) =>
      ClassificationPriority(sp.text);
      ExtractAllExpressionsScan(sp.after);
      assert Expressions(t) == [sp.text] + Expressions(sp.after);
      ClassifyCons(sp.text, Expressions(sp.after));
    case None =>
  }

  /** The classifications of `[e] + es`: that of `e` and those of `es`. */
  lemma ClassifyCons(e: string, es: seq<string>)
    ensures (set x | x in [e] + es :: Classify(x)) == {Classify(e)} + (set x | x in es :: Classify(x))
  {
  }

  /**
   * `ExtractVariables` holds exactly the paths of the `each`, `if` and
   * plain expressions found by the scan, and nothing for a close.
   */
  lemma ExtractVariablesExact(t: string, p: string)
    ensures p in ExtractVariables(t) <==>
            exists e :: e in Expressions(t) && !Classify(e).Close? && Classify(e).path == p
  {
    ExtractAllExpressionsScan(t);
  }

  /** The close classification never carries a path: exactly the texts starting with `/`. */
  lemma ClosePathless(t: string)
    ensures forall x :: x in ExtractAllExpressions(t) && x.Close? ==>
                          exists e :: e in Expressions(t) && StartsWith(e, "/") && Classify(e) == x
  {
    ExtractAllExpressionsScan(t);
  }

  /** A text without blocks has no blocks after its first expression either. */
  lemma FlatSuffix(t: string)
    requires EachBlock(t).None? && IfBlock(t).None? && Placeholder(t).Some?
    ensures EachBlock(Placeholder(t).value.after).None? && IfBlock(Placeholder(t).value.after).None?
  {
    var sp := Placeholder(t).value;
    var x := sp.skipped + "{{" + sp.text + "}}";
    assert t == x + sp.after;
    if EachBlock(sp.after).Some? {
      BlockInSuffix(x, sp.after, "{{#each ", "{{/each}}");
    }
    if IfBlock(sp.after).Some? {
      BlockInSuffix(x, sp.after, "{{#if ", "{{/if}}");
    }
  }

  /**
   * Without `each` or `if` blocks, `ProcessTemplate` reports the first
   * expression, in scan order, that is not a path of the context.
   */
  lemma {:induction false} FlatTemplate(input: Shape, t: string, context: Shape)
    requires EachBlock(t).None? && IfBlock(t).None?
    ensures ProcessTemplate(input, t, context) == FirstMissing(context, Expressions(t))
    decreases |t|
  {
    match Placeholder(t)
    case Some(sp) =>
      FlatSuffix(t);
      FlatTemplate(input, sp.after, context);
      assert Expressions(t)[1..] == Expressions(sp.after);
    case None =>
  }

  /**
   * In an `each` body every expression not starting with `#` or `/` is
   * checked against the element shape, the first missing one reported.
   */
  lemma {:induction false} BodyChecksPlainVariables(input: Shape, t: string, context: Shape)
    ensures ProcessTemplateBody(input, t, context) == FirstMissing(context, PlainVariables(Expressions(t)))
    decreases |t|
  {
    match Placeholder(t)
    case Some(sp) =>
      BodyChecksPlainVariables(input, sp.after, context);
      PlainVariablesCons(sp.text, Expressions(sp.after));
      if IsPlain(sp.text) {
        FirstMissingCons(context, sp.text, PlainVariables(Expressions(sp.after)));
      }
    case None =>
  }

  lemma PlainVariablesCons(e: string, es: seq<string>)
    ensures PlainVariables([e] + es) == if IsPlain(e) then [e] + PlainVariables(es) else PlainVariables(es)
  {
    assert ([e] + es)[1..] == es;
  }

  lemma FirstMissingCons(context: Shape, e: string, es: seq<string>)
    ensures FirstMissing(context, [e] + es) == if !PathExists(context, e) then Some(e) else FirstMissing(context, es)
  {
    assert ([e] + es)[1..] == es;
  }

  /** A template without any `{{...}}` is valid for every input shape. */
  lemma NoExpressionsValid(input: Shape, t: string)
    requires Expressions(t) == []
    ensures ValidateTemplate(input, t) == Valid
  {
    if EachBlock(t).Some? {
      BlockHasPlaceholder(t, "{{#each ", "{{/each}}");
    }
    if IfBlock(t).Some? {
      BlockHasPlaceholder(t, "{{#if ", "{{/if}}");
    }
  }

  /**
   * A template without blocks is valid iff every expression is a path of
   * the input, and otherwise its message names the first one that is not.
   */
  lemma ValidateFlat(input: Shape, t: string)
    requires EachBlock(t).None? && IfBlock(t).None?
    ensures ValidateTemplate(input, t) == Valid <==>
            forall k :: 0 <= k < |Expressions(t)| ==> PathExists(input, Expressions(t)[k])
    ensures ValidateTemplate(input, t).Invalid? ==>
            exists k :: 0 <= k < |Expressions(t)| && !PathExists(input, Expressions(t)[k]) &&
                        ValidateTemplate(input, t).message == ErrorMessage(Expressions(t)[k]) &&
                        forall j :: 0 <= j < k ==> PathExists(input, Expressions(t)[j])
  {
    FlatTemplate(input, t, input);
  }

  /**
   * When no block matches and the first expression is not a path of the
   * input, the message embeds exactly that expression.
   */
  lemma FirstExpressionMissing(input: Shape, t: string)
    requires EachBlock(t).None? && IfBlock(t).None?
    requires |Expressions(t)| > 0 && !PathExists(input, Expressions(t)[0])
    ensures ValidateTemplate(input, t) == Invalid(ErrorMessage(Expressions(t)[0]))
  {
  }

  /**
   * An `each` block is checked against the input: a missing path, or one
   * that is not an array, is reported as itself; otherwise the body's plain
   * expressions are checked against the element shape.  The context plays
   * no part.
   */
  lemma EachBlockChecks(input: Shape, t: string, context: Shape, b: Block)
    requires EachBlock(t) == Some(b)
    ensures !PathExists(input, b.path) ==> ProcessTemplate(input, t, context) == Some(b.path)
    ensures !(GetTypeAtPath(input, b.path).Some? && GetTypeAtPath(input, b.path).value.Array?) ==>
              ProcessTemplate(input, t, context) == Some(b.path)
    ensures GetTypeAtPath(input, b.path).Some? && GetTypeAtPath(input, b.path).value.Array? ==>
              ProcessTemplate(input, t, context) ==
              FirstMissing(GetTypeAtPath(input, b.path).value.element, PlainVariables(Expressions(b.body)))
  {
    PathExistsIffTyped(input, b.path);
    var ty := GetTypeAtPath(input, b.path);
    if ty.Some? && ty.value.Array? {
      BodyChecksPlainVariables(input, b.body, ty.value.element);
    }
  }

  /**
   * An `if` block (with no `each` block in the text) checks its condition
   * against the input, whatever the context, and validates its body with the
   * context unchanged.
   */
  lemma IfBlockChecks(input: Shape, t: string, context: Shape, b: Block)
    requires EachBlock(t).None? && IfBlock(t) == Some(b)
    ensures !PathExists(input, b.path) ==> ProcessTemplate(input, t, context) == Some(b.path)
    ensures PathExists(input, b.path) ==> ProcessTemplate(input, t, context) == ProcessTemplate(input, b.body, context)
    ensures PathExists(input, b.path) && EachBlock(b.body).None? && IfBlock(b.body).None? ==>
              ProcessTemplate(input, t, context) == FirstMissing(context, Expressions(b.body))
  {
    if EachBlock(b.body).None? && IfBlock(b.body).None? {
      FlatTemplate(input, b.body, context);
    }
  }
}
