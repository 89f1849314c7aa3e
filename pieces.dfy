/**
 * Templates written out as pieces around their markers: where their first
 * `{{...}}`, `each` block and `if` block are, and the verdict that follows.
 * The concrete templates of the type-level tests are reduced to these.
 */
module Pieces {
  import opened Wrappers
  import opened Literal
  import opened Shapes
  import opened Templates
  import opened TemplateLemmas

  /** A text without `#` holds no `each` and no `if` block. */
  lemma NoBlocks(t: string)
    requires '#' !in t
    ensures EachBlock(t).None? && IfBlock(t).None?
  {
    AbsentWithoutChar(t, "{{#each ", '#');
    AbsentWithoutChar(t, "{{#if ", '#');
  }

  /** The first `{{...}}` when no `{` comes before it and no `}` inside it. */
  lemma PlaceholderAt(a: string, e: string, b: string)
    requires '{' !in a && '}' !in e
    ensures Placeholder(a + "{{" + e + "}}" + b) == Some(Span(a, e, b))
  {
    MatchTwoByMarkers(a, "{{", e, "}}", b, 0, 0);
  }

  /** A text without `{` holds no `{{...}}`. */
  lemma NoPlaceholder(t: string)
    requires '{' !in t
    ensures Placeholder(t).None? && Expressions(t) == []
  {
    AbsentWithoutChar(t, "{{", '{');
  }

  /** The expressions of a text whose first `{{...}}` is written out. */
  lemma ExprStep(t: string, a: string, e: string, rest: string)
    requires t == a + "{{" + e + "}}" + rest && '{' !in a && '}' !in e
    ensures Expressions(t) == [e] + Expressions(rest)
  {
    PlaceholderAt(a, e, rest);
  }

  /** A text with one `{{...}}` holds exactly that expression. */
  lemma OneExpression(t: string, a: string, e: string, b: string)
    requires t == a + "{{" + e + "}}" + b && '{' !in a && '}' !in e && '{' !in b
    ensures Expressions(t) == [e]
  {
    ExprStep(t, a, e, b);
    NoPlaceholder(b);
  }

  /** An `each` block located by its markers: no `#` before it, no `}` in its path, no `/` in its body. */
  lemma EachBlockAt(a: string, p: string, body: string, b: string)
    requires '#' !in a && '}' !in p && '/' !in body
    ensures EachBlock(a + "{{#each " + p + "}}" + body + "{{/each}}" + b) == Some(Block(a, p, body, b))
  {
    MatchThreeByMarkers(a, "{{#each ", p, "}}", body, "{{/each}}", b, 2, 0, 2);
  }

  /** An `if` block located by its markers, as for `each`. */
  lemma IfBlockAt(a: string, p: string, body: string, b: string)
    requires '#' !in a && '}' !in p && '/' !in body
    ensures IfBlock(a + "{{#if " + p + "}}" + body + "{{/if}}" + b) == Some(Block(a, p, body, b))
  {
    MatchThreeByMarkers(a, "{{#if ", p, "}}", body, "{{/if}}", b, 2, 0, 2);
  }

  /** An `if` block that ends the text, located by its markers. */
  lemma IfBlockAtEnd(a: string, p: string, body: string)
    requires '#' !in a && '}' !in p && '/' !in body
    ensures IfBlock(a + "{{#if " + p + "}}" + body + "{{/if}}") == Some(Block(a, p, body, ""))
  {
    IfBlockAt(a, p, body, "");
    assert a + "{{#if " + p + "}}" + body + "{{/if}}" + "" == a + "{{#if " + p + "}}" + body + "{{/if}}";
  }

  /** A two-segment path exists iff its key names an object member that has the second segment. */
  lemma TwoSegments(t: Shape, key: string, rest: string)
    requires '.' !in key && '.' !in rest
    ensures PathExists(t, key + "." + rest) <==>
            key in Keys(t) && IsObject(Member(t, key)) && rest in Keys(Member(t, key))
  {
    SplitKeyJoin(key, rest);
  }

  /** A path with a leading segment descends into that member. */
  lemma LeadingSegment(t: Shape, key: string, rest: string)
    requires '.' !in key
    ensures PathExists(t, key + "." + rest) <==>
            key in Keys(t) && IsObject(Member(t, key)) && PathExists(Member(t, key), rest)
  {
    SplitKeyJoin(key, rest);
  }

  /** A one-segment path exists iff it is a key, and its type is that member. */
  lemma OneSegment(t: Shape, key: string)
    requires '.' !in key
    ensures PathExists(t, key) <==> key in Keys(t)
    ensures GetTypeAtPath(t, key) == if key in Keys(t) then Some(Member(t, key)) else None
  {
  }

  /** A template without `#` is judged by its expressions in scan order. */
  lemma FlatVerdict(input: Shape, t: string)
    requires '#' !in t
    ensures ValidateTemplate(input, t) == Report(FirstMissing(input, Expressions(t)))
  {
    NoBlocks(t);
    FlatTemplate(input, t, input);
  }

  /**
   * A template whose first `each` block is written out is judged by that
   * block alone: the path must be an array of the input, and the body's plain
   * expressions paths of its element.
   */
  lemma EachVerdict(input: Shape, a: string, p: string, body: string, b: string)
    requires '#' !in a && '}' !in p && '/' !in body
    ensures var ty := GetTypeAtPath(input, p);
            ValidateTemplate(input, a + "{{#each " + p + "}}" + body + "{{/each}}" + b) ==
            if ty.Some? && ty.value.Array? then Report(FirstMissing(ty.value.element, PlainVariables(Expressions(body))))
            else Invalid(ErrorMessage(p))
  {
    var t := a + "{{#each " + p + "}}" + body + "{{/each}}" + b;
    EachBlockAt(a, p, body, b);
    EachBlockChecks(input, t, input, Block(a, p, body, b));
  }

  /**
   * A template without `each` blocks whose first `if` block is written out,
   * with a body without blocks, is judged by the condition and the body.
   */
  lemma IfVerdict(input: Shape, a: string, p: string, body: string, b: string)
    requires '#' !in a && '}' !in p && '/' !in body && '#' !in body
    requires !Contains(a + "{{#if " + p + "}}" + body + "{{/if}}" + b, "{{#each ")
    ensures ValidateTemplate(input, a + "{{#if " + p + "}}" + body + "{{/if}}" + b) ==
            if !PathExists(input, p) then Invalid(ErrorMessage(p))
            else Report(FirstMissing(input, Expressions(body)))
  {
    var t := a + "{{#if " + p + "}}" + body + "{{/if}}" + b;
    IfBlockAt(a, p, body, b);
    NoBlocks(body);
    assert EachBlock(t).None?;
    IfBlockChecks(input, t, input, Block(a, p, body, b));
  }

  /** `{{#each ` does not start inside a `#`-free text ending in `}}`, nor in what follows it. */
  lemma NoEachAfterBraces(w: string, c: string)
    requires |w| >= 2 && w[|w| - 1] == '}' && w[|w| - 2] == '}' && '#' !in w
    requires !Contains(c, "{{#each ")
    ensures !Contains(w + c, "{{#each ")
  {
    var s := w + c;
    var lit := "{{#each ";
    forall j: nat | OccursAt(s, lit, j) ensures false {
      if j + 2 < |w| {
        CharAt(s, lit, j, 2);
      } else if j < |w| {
        CharAt(s, lit, j, |w| - 1 - j);
      } else {
        assert s[|w|..] == c;
        SuffixOccursBack(s, lit, |w|, j);
      }
    }
  }

  /** An `if` block without `#` in its path and body adds no `{{#each ` to the text around it. */
  lemma NoEachAroundIf(a: string, p: string, body: string, c: string)
    requires '#' !in a && '#' !in p && '#' !in body
    requires !Contains(c, "{{#each ")
    ensures !Contains(a + "{{#if " + p + "}}" + body + "{{/if}}" + c, "{{#each ")
  {
    var w := "if " + p + "}}" + body + "{{/if}}";
    assert w[|w| - 1] == '}' && w[|w| - 2] == '}';
    NoEachAfterBraces(w, c);
    assert a + "{{#if " + p + "}}" + body + "{{/if}}" + c == (a + "{{") + "#" + (w + c);
    NoOccurrenceAcrossHash(a + "{{", w + c, "{{#each ");
  }

  /** An expression without `#` and `/` is plain. */
  lemma PlainWithoutMarks(e: string)
    requires '#' !in e && '/' !in e
    ensures IsPlain(e)
  {
    if |e| > 0 {
      assert e[..1] == [e[0]];
    }
  }

  /** A flat template with one expression is valid iff that expression is a path of the input. */
  lemma FlatOne(input: Shape, t: string, a: string, e: string, b: string)
    requires t == a + "{{" + e + "}}" + b && '{' !in a && '}' !in e && '{' !in b
    requires '#' !in a && '#' !in e && '#' !in b
    ensures ValidateTemplate(input, t) == if PathExists(input, e) then Valid else Invalid(ErrorMessage(e))
  {
    assert '#' !in t;
    OneExpression(t, a, e, b);
    FlatVerdict(input, t);
  }

  /** A flat template with two expressions reports the first of them that is not a path of the input. */
  lemma FlatTwo(input: Shape, t: string, a: string, e0: string, u: string, m: string, e1: string, b: string)
    requires t == a + "{{" + e0 + "}}" + u && u == m + "{{" + e1 + "}}" + b
    requires '{' !in a && '}' !in e0 && '{' !in m && '}' !in e1 && '{' !in b
    requires '#' !in a && '#' !in e0 && '#' !in m && '#' !in e1 && '#' !in b
    ensures ValidateTemplate(input, t) ==
            if !PathExists(input, e0) then Invalid(ErrorMessage(e0))
            else if !PathExists(input, e1) then Invalid(ErrorMessage(e1))
            else Valid
  {
    assert '#' !in u;
    assert '#' !in t;
    ExprStep(t, a, e0, u);
    OneExpression(u, m, e1, b);
    FlatVerdict(input, t);
  }

  /**
   * A template whose first block is an `if` block with a body without
   * expressions is valid iff the condition is a path of the input: nothing
   * before or after the block is examined.
   */
  lemma IfPlain(input: Shape, t: string, a: string, p: string, body: string, b: string)
    requires t == a + "{{#if " + p + "}}" + body + "{{/if}}" + b
    requires '#' !in a && '#' !in p && '}' !in p && '{' !in body && '#' !in body && '/' !in body
    requires !Contains(b, "{{#each ")
    ensures ValidateTemplate(input, t) == if PathExists(input, p) then Valid else Invalid(ErrorMessage(p))
  {
    NoEachAroundIf(a, p, body, b);
    IfVerdict(input, a, p, body, b);
    NoPlaceholder(body);
  }

  /** As `IfPlain`, for a body with one expression, checked against the input after the condition. */
  lemma IfOne(input: Shape, t: string, a: string, p: string, body: string, m: string, e: string, r: string, b: string)
    requires t == a + "{{#if " + p + "}}" + body + "{{/if}}" + b && body == m + "{{" + e + "}}" + r
    requires '#' !in a && '#' !in p && '}' !in p && '#' !in body && '/' !in body
    requires '{' !in m && '}' !in e && '{' !in r && !Contains(b, "{{#each ")
    ensures ValidateTemplate(input, t) ==
            if !PathExists(input, p) then Invalid(ErrorMessage(p))
            else if !PathExists(input, e) then Invalid(ErrorMessage(e))
            else Valid
  {
    NoEachAroundIf(a, p, body, b);
    IfVerdict(input, a, p, body, b);
    OneExpression(body, m, e, r);
  }

  /**
   * A template whose first `each` block has a body without expressions is
   * valid iff the path is an array of the input.
   */
  lemma EachPlain(input: Shape, t: string, a: string, p: string, body: string, b: string)
    requires t == a + "{{#each " + p + "}}" + body + "{{/each}}" + b
    requires '#' !in a && '}' !in p && '{' !in body && '/' !in body
    ensures var ty := GetTypeAtPath(input, p);
            ValidateTemplate(input, t) == if ty.Some? && ty.value.Array? then Valid else Invalid(ErrorMessage(p))
  {
    EachVerdict(input, a, p, body, b);
    NoPlaceholder(body);
  }

  /** As `EachPlain`, for a body with one plain expression, checked against the element shape. */
  lemma EachOne(input: Shape, t: string, a: string, p: string, body: string, m: string, e: string, r: string, b: string)
    requires t == a + "{{#each " + p + "}}" + body + "{{/each}}" + b && body == m + "{{" + e + "}}" + r
    requires '#' !in a && '}' !in p && '{' !in m && '}' !in e && '#' !in e && '{' !in r
    requires '/' !in m && '/' !in e && '/' !in r
    ensures var ty := GetTypeAtPath(input, p);
            ValidateTemplate(input, t) ==
            if !(ty.Some? && ty.value.Array?) then Invalid(ErrorMessage(p))
            else if !PathExists(ty.value.element, e) then Invalid(ErrorMessage(e))
            else Valid
  {
    EachVerdict(input, a, p, body, b);
    OneExpression(body, m, e, r);
    PlainWithoutMarks(e);
  }

  /** As `EachOne`, for a body with two plain expressions, the first missing one reported. */
  lemma EachTwo(input: Shape, t: string, a: string, p: string, body: string,
                m0: string, e0: string, u: string, m1: string, e1: string, r: string, b: string)
    requires t == a + "{{#each " + p + "}}" + body + "{{/each}}" + b
    requires body == m0 + "{{" + e0 + "}}" + u && u == m1 + "{{" + e1 + "}}" + r
    requires '#' !in a && '}' !in p && '/' !in body
    requires '{' !in m0 && '}' !in e0 && '{' !in m1 && '}' !in e1 && '{' !in r
    requires '#' !in e0 && '/' !in e0 && '#' !in e1 && '/' !in e1
    ensures var ty := GetTypeAtPath(input, p);
            ValidateTemplate(input, t) ==
            if !(ty.Some? && ty.value.Array?) then Invalid(ErrorMessage(p))
            else if !PathExists(ty.value.element, e0) then Invalid(ErrorMessage(e0))
            else if !PathExists(ty.value.element, e1) then Invalid(ErrorMessage(e1))
            else Valid
  {
    EachVerdict(input, a, p, body, b);
    TwoPlainExpressions(body, m0, e0, u, m1, e1, r);
  }

  /** A template without `{` is valid for every input shape. */
  lemma StaticText(input: Shape, t: string)
    requires '{' !in t
    ensures ValidateTemplate(input, t) == Valid
  {
    NoPlaceholder(t);
    NoExpressionsValid(input, t);
  }

  /** A text ending in an `if` block, without `#` elsewhere, contains no `{{#each `. */
  lemma NoEachEndingInIf(a: string, p: string, body: string)
    requires '#' !in a && '#' !in p && '#' !in body
    ensures !Contains(a + "{{#if " + p + "}}" + body + "{{/if}}", "{{#each ")
  {
    NoEachInEmpty();
    NoEachAroundIf(a, p, body, "");
    assert a + "{{#if " + p + "}}" + body + "{{/if}}" + "" == a + "{{#if " + p + "}}" + body + "{{/if}}";
  }

  /** The plain expressions of a body with two expressions without `#` and `/`. */
  lemma TwoPlainExpressions(body: string, m0: string, e0: string, u: string, m1: string, e1: string, r: string)
    requires body == m0 + "{{" + e0 + "}}" + u && u == m1 + "{{" + e1 + "}}" + r
    requires '{' !in m0 && '}' !in e0 && '{' !in m1 && '}' !in e1 && '{' !in r
    requires '#' !in e0 && '/' !in e0 && '#' !in e1 && '/' !in e1
    ensures PlainVariables(Expressions(body)) == [e0, e1]
  {
    TwoExpressions(body, m0, e0, u, m1, e1, r);
    PlainPair(e0, e1);
  }

  lemma TwoExpressions(body: string, m0: string, e0: string, u: string, m1: string, e1: string, r: string)
    requires body == m0 + "{{" + e0 + "}}" + u && u == m1 + "{{" + e1 + "}}" + r
    requires '{' !in m0 && '}' !in e0 && '{' !in m1 && '}' !in e1 && '{' !in r
    ensures Expressions(body) == [e0, e1]
  {
    ExprStep(body, m0, e0, u);
    OneExpression(u, m1, e1, r);
    PairCons(Expressions(body), Expressions(u), e0, e1);
  }

  lemma PairCons(x: seq<string>, y: seq<string>, e0: string, e1: string)
    requires x == [e0] + y && y == [e1]
    ensures x == [e0, e1]
  {
  }

  lemma PlainPair(e0: string, e1: string)
    requires '#' !in e0 && '/' !in e0 && '#' !in e1 && '/' !in e1
    ensures PlainVariables([e0, e1]) == [e0, e1]
  {
    PlainWithoutMarks(e0);
    PlainWithoutMarks(e1);
    assert [e0, e1] == [e0] + [e1] && [e1] == [e1] + [];
    PlainVariablesCons(e0, [e1]);
    PlainVariablesCons(e1, []);
  }

  /** The empty text contains no `{{#each `. */
  lemma NoEachInEmpty()
    ensures !Contains("", "{{#each ")
  {
    AbsentWithoutChar("", "{{#each ", '#');
  }
}
