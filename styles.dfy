/**
 * A Style: a selector and an insertion-ordered table of CSS declarations,
 * built fluently (`rule`, `font`, `display`, `apply` all return the style
 * itself) and rendered either as a rule block or as an inline `style="..."`
 * attribute.
 */
module Styles {
  import opened Wrappers
  import RuleMap
  import Text

  /**
   * What a Style selects: an optional id and the class names. The selector
   * module itself is not part of this model; its text is taken to be `#id`
   * followed by `.name` for each class name.
   */
  datatype Selector = Selector(id: Option<string>, classNames: seq<string>)

  function SelectorCss(sel: Selector): string
  {
    (if sel.id.Some? then "#" + sel.id.value else "") + ClassList(sel.classNames)
  }

  function ClassList(names: seq<string>): string
  {
    if names == [] then "" else "." + names[0] + ClassList(names[1..])
  }

  /** The `size` argument of `font`: a unit value (its CSS text) or a bare number. */
  datatype FontSize = Measure(text: string) | Number(n: int)

  /** Python truthiness of `size`: `None` and `0` are false; unit values are objects, hence true. */
  predicate SizeTruthy(size: Option<FontSize>)
  {
    size.Some? && (size.value.Number? ==> size.value.n != 0)
  }

  /** Python truthiness of `weight`: `None` and the empty string are false. */
  predicate WeightTruthy(weight: Option<string>)
  {
    weight.Some? && weight.value != ""
  }

  /** The value stored for a size: a unit as it is, a bare number wrapped in points. */
  function SizeText(size: FontSize): string
  {
    match size
    case Measure(text) => text
    case Number(n) => Text.IntToString(n) + "pt"
  }

  /** The assignments `font(size, weight)` performs, in the order it performs them. */
  function FontRules(size: Option<FontSize>, weight: Option<string>): seq<RuleMap.Rule>
  {
    (if SizeTruthy(size) then [("font-size", SizeText(size.value))] else [])
    + (if WeightTruthy(weight) then [("font-weight", weight.value)] else [])
  }

  /** One declaration as CSS text, `attr: value;`. */
  function Declaration(rule: RuleMap.Rule): string
  {
    rule.0 + ": " + rule.1 + ";"
  }

  function Declarations(rules: seq<RuleMap.Rule>): seq<string>
  {
    seq(|rules|, i requires 0 <= i < |rules| => Declaration(rules[i]))
  }

  /** The body lines of a rule block: each declaration indented by four spaces. */
  function BodyLines(rules: seq<RuleMap.Rule>): seq<string>
  {
    seq(|rules|, i requires 0 <= i < |rules| => "    " + Declaration(rules[i]))
  }

  /** `css()`: the selector, an opening brace, the body lines, a closing brace. */
  function RuleBlock(selector: string, rules: seq<RuleMap.Rule>): string
  {
    selector + " {\n" + Text.Join("\n", BodyLines(rules)) + "\n}"
  }

  /** `inline()`: the declarations separated by single spaces inside `style="..."`. */
  function InlineStyle(rules: seq<RuleMap.Rule>): string
  {
    "style=\"" + Text.Join(" ", Declarations(rules)) + "\""
  }

  /** A line without its four-space indentation. */
  function Dedent(line: string): string
  {
    if |line| >= 4 && line[..4] == "    " then line[4..] else line
  }

  /** No property name and no value holds a line break. */
  predicate SingleLineRules(rules: seq<RuleMap.Rule>)
  {
    forall i :: 0 <= i < |rules| ==> '\n' !in rules[i].0 && '\n' !in rules[i].1
  }

  class Style {
    const selector: Selector
    var rules: seq<RuleMap.Rule>

    /** The rule table is a dict: no property appears twice. */
    ghost predicate Valid()
      reads this
    {
      RuleMap.UniqueKeys(rules)
    }

    /** `Style(*class_name, id=..., selector=...)`: an explicit selector wins over id and class names. */
    constructor (classNames: seq<string>, id: Option<string>, selector: Option<Selector>)
      ensures Valid() && rules == []
      ensures this.selector == if selector.Some? then selector.value else Selector(id, classNames)
    {
      this.selector := if selector.Some? then selector.value else Selector(id, classNames);
      rules := [];
    }

    /** `rule(attr, value)`: one dict assignment; returns the style itself. */
    method Rule(attr: string, value: string) returns (style: Style)
      requires Valid()
      modifies this
      ensures Valid() && style == this
      ensures rules == RuleMap.Set(old(rules), attr, value)
    {
      RuleMap.SetUnique(rules, attr, value);
      rules := RuleMap.Set(rules, attr, value);
      style := this;
    }

    /** `font(size, weight)`: sets `font-size` and then `font-weight`, each only when truthy. */
    method Font(size: Option<FontSize>, weight: Option<string>) returns (style: Style)
      requires Valid()
      modifies this
      ensures Valid() && style == this
      ensures rules == RuleMap.ApplyAll(old(rules), FontRules(size, weight))
    {
      style := this;
      ghost var applied: seq<RuleMap.Rule> := [];
      if SizeTruthy(size) {
        RuleMap.ApplyAllSnoc(old(rules), applied, ("font-size", SizeText(size.value)));
        style := Rule("font-size", SizeText(size.value));
        applied := applied + [("font-size", SizeText(size.value))];
      }
      if WeightTruthy(weight) {
        RuleMap.ApplyAllSnoc(old(rules), applied, ("font-weight", weight.value));
        style := Rule("font-weight", weight.value);
        applied := applied + [("font-weight", weight.value)];
      }
      assert applied == FontRules(size, weight);
    }

    /** `display(value)`: sets the `display` property; returns the style itself. */
    method Display(display: string) returns (style: Style)
      requires Valid()
      modifies this
      ensures Valid() && style == this
      ensures rules == RuleMap.Set(old(rules), "display", display)
    {
      style := Rule("display", display);
    }

    /**
     * `apply(other)`: assigns each of `other`'s declarations in `other`'s
     * order. `other` keeps its table, even when it is this very style.
     */
    method Apply(other: Style) returns (style: Style)
      requires Valid() && other.Valid()
      modifies this
      ensures Valid() && style == this
      ensures rules == RuleMap.ApplyAll(old(rules), old(other.rules))
      ensures other.rules == old(other.rules)
    {
      var items := other.rules;
      var i := 0;
      while i < |items|
        invariant 0 <= i <= |items|
        invariant Valid()
        invariant rules == RuleMap.ApplyAll(old(rules), items[..i])
      {
        RuleMap.ApplyAllSnoc(old(rules), items[..i], items[i]);
        assert items[..i + 1] == items[..i] + [items[i]];
        var _ := Rule(items[i].0, items[i].1);
        i := i + 1;
      }
      assert items[..i] == items;
      if other == this {
        RuleMap.ApplyAllSelf(items);
      }
      style := this;
    }

    /** `css()`: the rule block for this style's selector. */
    function Css(): string
      reads this
    {
      RuleBlock(SelectorCss(selector), rules)
    }

    /** `inline()`: the declarations as an inline style attribute. */
    function Inline(): string
      reads this
    {
      InlineStyle(rules)
    }
  }

  /**
   * What `font` leaves behind: `font-size` holds the size (a bare number in
   * points) when the size is truthy, `font-weight` holds the weight when it
   * is truthy, and every other property, or a falsy argument's property,
   * keeps its value.
   */
  lemma FontEffect(rules: seq<RuleMap.Rule>, size: Option<FontSize>, weight: Option<string>, key: string)
    ensures RuleMap.Lookup(RuleMap.ApplyAll(rules, FontRules(size, weight)), key)
         == if key == "font-size" && SizeTruthy(size) then Some(SizeText(size.value))
            else if key == "font-weight" && WeightTruthy(weight) then Some(weight.value)
            else RuleMap.Lookup(rules, key)
  {
    var font := FontRules(size, weight);
    RuleMap.ApplyAllLookup(rules, font, key);
    if |font| == 2 {
      RuleMap.IndexOfAt(font, "font-size", 0);
      RuleMap.IndexOfAt(font, "font-weight", 1);
    } else if |font| == 1 {
      RuleMap.IndexOfAt(font, font[0].0, 0);
    }
  }

  /**
   * The rule block read line by line: the selector line, one line per
   * declaration in table order (a single empty line when the table is empty),
   * and the closing brace.
   */
  lemma BlockLines(selector: string, rules: seq<RuleMap.Rule>)
    requires '\n' !in selector && SingleLineRules(rules)
    ensures Text.Split(RuleBlock(selector, rules), "\n")
         == [selector + " {"] + (if rules == [] then [""] else BodyLines(rules)) + ["}"]
  {
    var parts := [selector + " {"] + (if rules == [] then [""] else BodyLines(rules)) + ["}"];
    BlockAsJoin(selector, rules);
    forall i | 0 <= i < |parts|
      ensures Text.Separable(parts[i], "\n") && Text.Free(parts[i], "\n")
    {
      if 1 <= i < |parts| - 1 && rules != [] {
        assert parts[i] == "    " + rules[i - 1].0 + ": " + rules[i - 1].1 + ";";
      }
      Text.SeparableChar(parts[i], '\n');
    }
    Text.SplitJoin(parts, "\n");
  }

  /** The rule block is its lines joined by line breaks. */
  lemma BlockAsJoin(selector: string, rules: seq<RuleMap.Rule>)
    ensures RuleBlock(selector, rules)
         == Text.Join("\n", [selector + " {"] + (if rules == [] then [""] else BodyLines(rules)) + ["}"])
  {
    var body := BodyLines(rules);
    var mid := if rules == [] then [""] else body;
    assert Text.Join("\n", mid) == Text.Join("\n", body);
    Text.JoinAppend("\n", [selector + " {"], mid + ["}"]);
    Text.JoinAppend("\n", mid, ["}"]);
    assert [selector + " {"] + mid + ["}"] == [selector + " {"] + (mid + ["}"]);
  }

  /** The inline attribute is a single line. */
  lemma InlineSingleLine(rules: seq<RuleMap.Rule>)
    requires SingleLineRules(rules)
    ensures '\n' !in InlineStyle(rules)
  {
    var decls := Declarations(rules);
    forall i | 0 <= i < |decls| ensures '\n' !in decls[i] {
      assert decls[i] == rules[i].0 + ": " + rules[i].1 + ";";
    }
    Text.JoinExcludes(" ", decls, '\n');
  }

  /**
   * The two renderers agree: the inline attribute lists exactly the body
   * lines of the rule block, in the same order, with their indentation
   * removed and separated by spaces.
   */
  lemma InlineMatchesBlock(selector: string, rules: seq<RuleMap.Rule>)
    requires '\n' !in selector && SingleLineRules(rules) && rules != []
    ensures var lines := Text.Split(RuleBlock(selector, rules), "\n");
            |lines| == |rules| + 2
            && InlineStyle(rules)
               == "style=\"" + Text.Join(" ", seq(|rules|, i requires 0 <= i < |rules| => Dedent(lines[i + 1]))) + "\""
  {
    BlockLines(selector, rules);
    var lines := Text.Split(RuleBlock(selector, rules), "\n");
    var dedented := seq(|rules|, i requires 0 <= i < |rules| => Dedent(lines[i + 1]));
    forall i | 0 <= i < |rules| ensures dedented[i] == Declarations(rules)[i] {
      assert lines[i + 1] == "    " + Declaration(rules[i]);
      assert lines[i + 1][..4] == "    ";
    }
    assert dedented == Declarations(rules);
  }
}
