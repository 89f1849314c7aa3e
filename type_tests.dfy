/**
 * The type-level tests of tests/types/index.test-d.ts, the examples of the
 * `PathExists` doc comment, the doc example of `TypedPrompt` in
 * src/index.ts, and further scenarios of `each` blocks, as facts about the
 * model.  Each template is first judged for every input
 * shape, in terms of the paths it checks; the test's own input type then
 * settles the verdict.
 *
 * Lemmas about paths take each path as a parameter bound by
 * `requires p == "..."`: the binding keeps the solver from unfolding the
 * path functions on the literal in every other proof that mentions it.
 * Template texts are taken apart by small lemmas that state one literal
 * identity each, for the same reason.
 */
module TypeTests {
  import opened Wrappers
  import opened Literal
  import opened Shapes
  import opened Templates
  import opened TemplateLemmas
  import opened Pieces

  // The input types of the tests.
  const BasicInput := Record(map["name" := Primitive])
  const NestedUser := Record(map["name" := Primitive, "profile" := Record(map["age" := Primitive])])
  const NestedInput := Record(map["user" := NestedUser])
  const NestedInput2 := Record(map["user" := Record(map["name" := Primitive])])
  const ConditionalInput := Record(map["showGreeting" := Primitive, "userName" := Primitive])
  const LoopItem := Record(map["name" := Primitive, "value" := Primitive])
  const LoopInput := Record(map["items" := Array(LoopItem)])
  const ComplexUser := Record(map["firstName" := Primitive, "lastName" := Primitive, "isAdmin" := Primitive])
  const ComplexInput := Record(map["user" := ComplexUser,
                                   "items" := Array(Record(map["id" := Primitive, "title" := Primitive])),
                                   "showDetails" := Primitive])
  const EmptyInput := Record(map[])
  const AnyInput := Record(map["foo" := Primitive, "bar" := Primitive])
  // The input types of the further scenarios.
  const ShopItem := Record(map["name" := Primitive, "price" := Primitive])
  const ShopInput := Record(map["user" := Record(map["name" := Primitive]), "items" := Array(ShopItem)])
  const TagsInput := Record(map["tags" := Array(Primitive)])

  /** The two examples of the `PathExists` doc comment. */
  lemma PathExistsDocExamples(p: string, q: string)
    requires p == "user.name" && q == "user.email"
    ensures PathExists(NestedInput2, p)
    ensures !PathExists(NestedInput2, q)
  {
    assert p == "user" + "." + "name";
    assert q == "user" + "." + "email";
    TwoSegments(NestedInput2, "user", "name");
    TwoSegments(NestedInput2, "user", "email");
  }

  // The doc example of `TypedPrompt`: `name` is accepted, `age` is rejected.

  lemma DocNameTemplate(input: Shape)
    ensures ValidateTemplate(input, "Hi, my name is {{name}}") ==
            if PathExists(input, "name") then Valid else Invalid(ErrorMessage("name"))
  {
    FlatOne(input, "Hi, my name is {{name}}", "Hi, my name is ", "name", "");
  }

  lemma DocAgeTemplate(input: Shape)
    ensures ValidateTemplate(input, "Hi, my age is {{age}}") ==
            if PathExists(input, "age") then Valid else Invalid(ErrorMessage("age"))
  {
    FlatOne(input, "Hi, my age is {{age}}", "Hi, my age is ", "age", "");
  }

  lemma TypedPromptDocExample()
    ensures ValidateTemplate(BasicInput, "Hi, my name is {{name}}") == Valid
    ensures ValidateTemplate(BasicInput, "Hi, my age is {{age}}") == Invalid(ErrorMessage("age"))
  {
    BasicPaths("name", "age");
    DocNameTemplate(BasicInput);
    DocAgeTemplate(BasicInput);
  }

  // Test 1: basic variable access.

  lemma BasicTemplate(input: Shape)
    ensures ValidateTemplate(input, "Hello, {{name}}!") ==
            if PathExists(input, "name") then Valid else Invalid(ErrorMessage("name"))
  {
    FlatOne(input, "Hello, {{name}}!", "Hello, ", "name", "!");
  }

  lemma BasicPaths(p: string, q: string)
    requires p == "name" && q == "age"
    ensures PathExists(BasicInput, p) && !PathExists(BasicInput, q)
  {
    OneSegment(BasicInput, p);
    OneSegment(BasicInput, q);
  }

  lemma BasicVariable()
    ensures ValidateTemplate(BasicInput, "Hello, {{name}}!") == Valid
  {
    BasicPaths("name", "age");
    BasicTemplate(BasicInput);
  }

  // Test 2: an undefined variable is reported by name, also when it is the whole template.

  lemma AgeTemplate(input: Shape)
    ensures ValidateTemplate(input, "My age is {{age}}") ==
            if PathExists(input, "age") then Valid else Invalid(ErrorMessage("age"))
  {
    FlatOne(input, "My age is {{age}}", "My age is ", "age", "");
  }

  lemma AgeOnlyTemplate(input: Shape)
    ensures ValidateTemplate(input, "{{age}}") ==
            if PathExists(input, "age") then Valid else Invalid(ErrorMessage("age"))
  {
    FlatOne(input, "{{age}}", "", "age", "");
  }

  lemma UndefinedVariable()
    ensures ValidateTemplate(BasicInput, "My age is {{age}}") == Invalid(ErrorMessage("age"))
    ensures ValidateTemplate(BasicInput, "{{age}}") == Invalid(ErrorMessage("age"))
  {
    BasicPaths("name", "age");
    AgeTemplate(BasicInput);
    AgeOnlyTemplate(BasicInput);
  }

  // Test 3: nested property access.

  /** `{{user.name}} is {{user.profile.age}} years old`. */
  const NestedTemplateText := "{{user.name}}" + " is {{user.profile.age}} years old"

  lemma NestedTextHead()
    ensures "{{user.name}}" == "" + "{{" + "user.name" + "}}"
  {
  }

  lemma NestedTextTail()
    ensures " is {{user.profile.age}} years old" == " is " + "{{" + "user.profile.age" + "}}" + " years old"
  {
  }

  lemma NestedTemplate(input: Shape)
    ensures ValidateTemplate(input, NestedTemplateText) ==
            if !PathExists(input, "user.name") then Invalid(ErrorMessage("user.name"))
            else if !PathExists(input, "user.profile.age") then Invalid(ErrorMessage("user.profile.age"))
            else Valid
  {
    NestedTextHead();
    NestedTextTail();
    FlatTwo(input, NestedTemplateText,
            "", "user.name", " is {{user.profile.age}} years old", " is ", "user.profile.age", " years old");
  }

  lemma NestedPaths(p: string, q: string)
    requires p == "user.name" && q == "user.profile.age"
    ensures PathExists(NestedInput, p) && PathExists(NestedInput, q)
  {
    NestedName(p);
    NestedAge(q);
  }

  lemma NestedName(p: string)
    requires p == "user.name"
    ensures PathExists(NestedInput, p)
  {
    assert p == "user" + "." + "name";
    TwoSegments(NestedInput, "user", "name");
  }

  lemma NestedAge(q: string)
    requires q == "user.profile.age"
    ensures PathExists(NestedInput, q)
  {
    assert q == "user" + "." + "profile.age";
    LeadingSegment(NestedInput, "user", "profile.age");
    NestedProfileAge("profile.age");
  }

  lemma NestedProfileAge(r: string)
    requires r == "profile.age"
    ensures PathExists(NestedUser, r)
  {
    assert r == "profile" + "." + "age";
    TwoSegments(NestedUser, "profile", "age");
  }

  lemma NestedAccess()
    ensures ValidateTemplate(NestedInput, NestedTemplateText) == Valid
  {
    NestedPaths("user.name", "user.profile.age");
    NestedTemplate(NestedInput);
  }

  // Test 4: an undefined nested property is reported with its whole path.

  lemma EmailTemplate(input: Shape)
    ensures ValidateTemplate(input, "Email: {{user.email}}") ==
            if PathExists(input, "user.email") then Valid else Invalid(ErrorMessage("user.email"))
  {
    FlatOne(input, "Email: {{user.email}}", "Email: ", "user.email", "");
  }

  lemma UndefinedNested()
    ensures ValidateTemplate(NestedInput2, "Email: {{user.email}}") == Invalid(ErrorMessage("user.email"))
  {
    PathExistsDocExamples("user.name", "user.email");
    EmailTemplate(NestedInput2);
  }

  // Test 5: a conditional checks its condition and then its body.

  lemma ConditionalText()
    ensures "{{#if showGreeting}}Hello, {{userName}}!{{/if}}" ==
            "{{#if showGreeting}}" + "Hello, {{userName}}!{{/if}}"
  {
  }

  lemma ConditionalHead()
    ensures "{{#if showGreeting}}" == "" + "{{#if " + "showGreeting" + "}}"
  {
  }

  lemma ConditionalTail()
    ensures "Hello, {{userName}}!{{/if}}" == "Hello, {{userName}}!" + "{{/if}}" + ""
  {
  }

  lemma ConditionalBody()
    ensures "Hello, {{userName}}!" == "Hello, " + "{{" + "userName" + "}}" + "!"
  {
  }

  lemma ConditionalTemplate(input: Shape)
    ensures ValidateTemplate(input, "{{#if showGreeting}}Hello, {{userName}}!{{/if}}") ==
            if !PathExists(input, "showGreeting") then Invalid(ErrorMessage("showGreeting"))
            else if !PathExists(input, "userName") then Invalid(ErrorMessage("userName"))
            else Valid
  {
    ConditionalText();
    ConditionalHead();
    ConditionalTail();
    AppendAssoc3("" + "{{#if " + "showGreeting" + "}}", "Hello, {{userName}}!", "{{/if}}", "");
    ConditionalBody();
    NoEachInEmpty();
    IfOne(input, "{{#if showGreeting}}Hello, {{userName}}!{{/if}}",
          "", "showGreeting", "Hello, {{userName}}!", "Hello, ", "userName", "!", "");
  }

  lemma ConditionalPaths(p: string, q: string)
    requires p == "showGreeting" && q == "userName"
    ensures PathExists(ConditionalInput, p) && PathExists(ConditionalInput, q)
  {
    OneSegment(ConditionalInput, p);
    OneSegment(ConditionalInput, q);
  }

  lemma Conditional()
    ensures ValidateTemplate(ConditionalInput, "{{#if showGreeting}}Hello, {{userName}}!{{/if}}") == Valid
  {
    ConditionalPaths("showGreeting", "userName");
    ConditionalTemplate(ConditionalInput);
  }

  // Test 6: an `each` loop over an array property.

  lemma LoopText()
    ensures "{{#each items}}Item here{{/each}}" == "" + "{{#each " + "items" + "}}" + "Item here" + "{{/each}}" + ""
  {
  }

  lemma LoopTemplate(input: Shape)
    ensures var ty := GetTypeAtPath(input, "items");
            ValidateTemplate(input, "{{#each items}}Item here{{/each}}") ==
            if ty.Some? && ty.value.Array? then Valid else Invalid(ErrorMessage("items"))
  {
    LoopText();
    EachPlain(input, "{{#each items}}Item here{{/each}}", "", "items", "Item here", "");
  }

  lemma LoopPath(p: string)
    requires p == "items"
    ensures GetTypeAtPath(LoopInput, p) == Some(Array(LoopItem))
  {
    OneSegment(LoopInput, p);
  }

  lemma Loop()
    ensures ValidateTemplate(LoopInput, "{{#each items}}Item here{{/each}}") == Valid
  {
    LoopPath("items");
    LoopTemplate(LoopInput);
  }

  // Test 7: the first `if` block ends processing, so only its condition is checked.

  /**
   * The template of Test 7, cut at the markers of its blocks: the names, the
   * `if user.isAdmin` block, and the second line with the `if showDetails` block.
   */
  const ComplexTemplate := "{{user.firstName}} {{user.lastName}}" +
                           "{{#if " + "user.isAdmin" + "}}" + " (Admin)" + "{{/if}}" + ComplexDetails
  const ComplexDetails := "\n" + "{{#if " + "showDetails" + "}}" + "Items count: {{items.length}}" + "{{/if}}"

  /** No `each` block follows the first `if` block. */
  lemma ComplexDetailsNoEach()
    ensures !Contains(ComplexDetails, "{{#each ")
  {
    NoEachEndingInIf("\n", "showDetails", "Items count: {{items.length}}");
  }

  lemma ComplexNamesFlat()
    ensures '#' !in "{{user.firstName}} {{user.lastName}}"
  {
  }

  lemma ComplexTemplateVerdict(input: Shape)
    ensures ValidateTemplate(input, ComplexTemplate) ==
            if PathExists(input, "user.isAdmin") then Valid else Invalid(ErrorMessage("user.isAdmin"))
  {
    ComplexDetailsNoEach();
    ComplexNamesFlat();
    IfPlain(input, ComplexTemplate, "{{user.firstName}} {{user.lastName}}", "user.isAdmin", " (Admin)", ComplexDetails);
  }

  lemma ComplexPath(p: string)
    requires p == "user.isAdmin"
    ensures PathExists(ComplexInput, p)
  {
    assert p == "user" + "." + "isAdmin";
    LeadingSegment(ComplexInput, "user", "isAdmin");
    ComplexUserIsAdmin("isAdmin");
  }

  lemma ComplexUserIsAdmin(q: string)
    requires q == "isAdmin"
    ensures PathExists(ComplexUser, q)
  {
    OneSegment(ComplexUser, q);
  }

  lemma Complex()
    ensures ValidateTemplate(ComplexInput, ComplexTemplate) == Valid
  {
    ComplexPath("user.isAdmin");
    ComplexTemplateVerdict(ComplexInput);
  }

  // Tests 8 and 9: templates without variables are valid for any input.

  lemma StaticTemplates()
    ensures ValidateTemplate(EmptyInput, "Hello world!") == Valid
    ensures ValidateTemplate(AnyInput, "Static text only") == Valid
  {
    StaticHello();
    StaticOnly();
  }

  lemma StaticHello()
    ensures ValidateTemplate(EmptyInput, "Hello world!") == Valid
  {
    StaticText(EmptyInput, "Hello world!");
  }

  lemma StaticOnly()
    ensures ValidateTemplate(AnyInput, "Static text only") == Valid
  {
    StaticText(AnyInput, "Static text only");
  }

  // Further scenarios for `each`.  As written, a valid `each` block ends
  // processing: `user.name` before it is not checked.

  /** The shop scenario's template, cut at the markers of its `each` block. */
  const ShopTemplate := "{{user.name}}: " + "{{#each " + "items" + "}}" + "{{name}} ${{price}} " + "{{/each}}" + ""
  /** The same template with `{{price}}` changed to `{{cost}}`. */
  const ShopCostTemplate := "{{user.name}}: " + "{{#each " + "items" + "}}" + "{{name}} ${{cost}} " + "{{/each}}" + ""

  lemma ShopBody()
    ensures "{{name}} ${{price}} " == "" + "{{" + "name" + "}}" + " ${{price}} "
    ensures " ${{price}} " == " $" + "{{" + "price" + "}}" + " "
  {
    assert "{{name}}" == "" + "{{" + "name" + "}}";
  }

  lemma ShopCostBody()
    ensures "{{name}} ${{cost}} " == "" + "{{" + "name" + "}}" + " ${{cost}} "
    ensures " ${{cost}} " == " $" + "{{" + "cost" + "}}" + " "
  {
    assert "{{name}}" == "" + "{{" + "name" + "}}";
  }

  lemma ShopTemplateVerdict(input: Shape)
    ensures var ty := GetTypeAtPath(input, "items");
            ValidateTemplate(input, ShopTemplate) ==
            if !(ty.Some? && ty.value.Array?) then Invalid(ErrorMessage("items"))
            else if !PathExists(ty.value.element, "name") then Invalid(ErrorMessage("name"))
            else if !PathExists(ty.value.element, "price") then Invalid(ErrorMessage("price"))
            else Valid
  {
    ShopBody();
    EachTwo(input, ShopTemplate, "{{user.name}}: ", "items", "{{name}} ${{price}} ",
            "", "name", " ${{price}} ", " $", "price", " ", "");
  }

  lemma ShopCostTemplateVerdict(input: Shape)
    ensures var ty := GetTypeAtPath(input, "items");
            ValidateTemplate(input, ShopCostTemplate) ==
            if !(ty.Some? && ty.value.Array?) then Invalid(ErrorMessage("items"))
            else if !PathExists(ty.value.element, "name") then Invalid(ErrorMessage("name"))
            else if !PathExists(ty.value.element, "cost") then Invalid(ErrorMessage("cost"))
            else Valid
  {
    ShopCostBody();
    EachTwo(input, ShopCostTemplate, "{{user.name}}: ", "items", "{{name}} ${{cost}} ",
            "", "name", " ${{cost}} ", " $", "cost", " ", "");
  }

  lemma ShopPaths(items: string, name: string, price: string, cost: string)
    requires items == "items" && name == "name" && price == "price" && cost == "cost"
    ensures GetTypeAtPath(ShopInput, items) == Some(Array(ShopItem))
    ensures PathExists(ShopItem, name) && PathExists(ShopItem, price) && !PathExists(ShopItem, cost)
  {
    ShopItems(items);
    ShopItemFields(name, price, cost);
  }

  lemma ShopItems(items: string)
    requires items == "items"
    ensures GetTypeAtPath(ShopInput, items) == Some(Array(ShopItem))
  {
    OneSegment(ShopInput, items);
  }

  lemma ShopItemFields(name: string, price: string, cost: string)
    requires name == "name" && price == "price" && cost == "cost"
    ensures PathExists(ShopItem, name) && PathExists(ShopItem, price) && !PathExists(ShopItem, cost)
  {
    OneSegment(ShopItem, name);
    OneSegment(ShopItem, price);
    ShopNoCost(cost);
  }

  lemma ShopNoCost(cost: string)
    requires cost == "cost"
    ensures !PathExists(ShopItem, cost)
  {
    OneSegment(ShopItem, cost);
    assert cost !in Keys(ShopItem);
  }

  /** Valid with `{{price}}`; with `{{cost}}` the message names `cost`. */
  lemma ShopScenario()
    ensures ValidateTemplate(ShopInput, ShopTemplate) == Valid
    ensures ValidateTemplate(ShopInput, ShopCostTemplate) == Invalid(ErrorMessage("cost"))
  {
    ShopPaths("items", "name", "price", "cost");
    ShopTemplateVerdict(ShopInput);
    ShopCostTemplateVerdict(ShopInput);
  }

  /** The template of the `{{this}}` runtime test over an array of strings. */
  const TagsTemplateText := "Tags: " + "{{#each " + "tags" + "}}" + "{{this}} " + "{{/each}}" + ""

  lemma TagsTemplate(input: Shape)
    ensures var ty := GetTypeAtPath(input, "tags");
            ValidateTemplate(input, TagsTemplateText) ==
            if !(ty.Some? && ty.value.Array?) then Invalid(ErrorMessage("tags"))
            else if !PathExists(ty.value.element, "this") then Invalid(ErrorMessage("this"))
            else Valid
  {
    assert "{{this}} " == "" + "{{" + "this" + "}}" + " ";
    EachOne(input, TagsTemplateText, "Tags: ", "tags", "{{this}} ", "", "this", " ", "");
  }

  lemma TagsPath(p: string)
    requires p == "tags"
    ensures GetTypeAtPath(TagsInput, p) == Some(Array(Primitive))
  {
    OneSegment(TagsInput, p);
  }

  /**
   * `{{this}}` over an array of strings: without a `this` case the path
   * `this` is looked up in the primitive element, which has no members, so
   * the type rules reject the template that the runtime test compiles.
   */
  lemma TagsScenario()
    ensures ValidateTemplate(TagsInput, TagsTemplateText) == Invalid(ErrorMessage("this"))
  {
    TagsPath("tags");
    TagsTemplate(TagsInput);
  }

  // An unmatched close: with no block around it, it is an ordinary expression.

  /** `Hi {{/if}}` is judged by looking up the path `/if`. */
  lemma StrayCloseTemplate(input: Shape)
    ensures ValidateTemplate(input, "Hi {{/if}}") ==
            if PathExists(input, "/if") then Valid else Invalid(ErrorMessage("/if"))
  {
    FlatOne(input, "Hi {{/if}}", "Hi ", "/if", "");
  }

  lemma StrayClosePath(q: string)
    requires q == "/if"
    ensures !PathExists(BasicInput, q)
  {
    OneSegment(BasicInput, q);
  }

  lemma StrayClose()
    ensures ValidateTemplate(BasicInput, "Hi {{/if}}") == Invalid(ErrorMessage("/if"))
  {
    StrayClosePath("/if");
    StrayCloseTemplate(BasicInput);
  }

  /** `{{/if}}{{#if name}}{{/if}}`: a stray close before a block. */
  const CloseBeforeIf := "{{/if}}" + "{{#if " + "name" + "}}" + "" + "{{/if}}" + ""

  /**
   * A stray close before the first block lies in the text the `if` pattern
   * skips, so only the block's condition decides the verdict.
   */
  lemma StrayCloseBeforeBlock(input: Shape)
    ensures ValidateTemplate(input, CloseBeforeIf) ==
            if PathExists(input, "name") then Valid else Invalid(ErrorMessage("name"))
  {
    IfPlain(input, CloseBeforeIf, "{{/if}}", "name", "", "");
  }

  lemma StrayCloseSkipped()
    ensures ValidateTemplate(BasicInput, CloseBeforeIf) == Valid
  {
    BasicPaths("name", "age");
    StrayCloseBeforeBlock(BasicInput);
  }
}
