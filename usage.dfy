/**
 * Whole-library scenarios: what a caller can conclude from the contracts
 * of StyleSheet, MediaSet and Style alone.
 */
module Usage {
  import opened Wrappers
  import Text
  import RuleMap
  import Styles
  import Sheets
  import MediaQuery

  /**
   * `sheet.style("btn").display("flex").font(16, "bold")` renders as a
   * block with the three declarations in the order they were set, the
   * bare number in points.
   */
  method ButtonBlock() returns (css: string)
    ensures css == ".btn {\n" + "    display: flex;\n" + "    font-size: 16pt;\n" + "    font-weight: bold;\n" + "}"
  {
    var sheet := new Sheets.StyleSheet([]);
    var btn := sheet.Style(["btn"]);
    var s := btn.Display("flex");
    assert btn.rules == [("display", "flex")];
    s := btn.Font(Some(Styles.Number(16)), Some("bold"));
    ButtonFont();
    css := btn.Css();
    ButtonText();
  }

  /** `font(16, "bold")` after `display("flex")`: the two font declarations follow `display`. */
  lemma ButtonFont()
    ensures RuleMap.ApplyAll([("display", "flex")], Styles.FontRules(Some(Styles.Number(16)), Some("bold")))
         == [("display", "flex"), ("font-size", "16pt"), ("font-weight", "bold")]
  {
    assert Text.IntToString(16) == "16";
    assert Styles.SizeText(Styles.Number(16)) == "16pt";
    var font := Styles.FontRules(Some(Styles.Number(16)), Some("bold"));
    assert font == [("font-size", "16pt")] + [("font-weight", "bold")];
    RuleMap.ApplyAllSnoc([("display", "flex")], [("font-size", "16pt")], ("font-weight", "bold"));
    RuleMap.ApplyAllSnoc([("display", "flex")], [], ("font-size", "16pt"));
    assert [] + [("font-size", "16pt")] == [("font-size", "16pt")];
  }

  /** The rule block of `.btn` with those three declarations. */
  lemma ButtonText()
    ensures Styles.RuleBlock(Styles.SelectorCss(Styles.Selector(None, ["btn"])),
                             [("display", "flex"), ("font-size", "16pt"), ("font-weight", "bold")])
         == ".btn {\n" + "    display: flex;\n" + "    font-size: 16pt;\n" + "    font-weight: bold;\n" + "}"
  {
    assert Styles.SelectorCss(Styles.Selector(None, ["btn"])) == ".btn";
    ButtonBody();
  }

  /** Its body: one indented line per declaration, in order. */
  lemma ButtonBody()
    ensures Text.Join("\n", Styles.BodyLines([("display", "flex"), ("font-size", "16pt"), ("font-weight", "bold")]))
         == "    display: flex;" + "\n" + ("    font-size: 16pt;" + "\n" + "    font-weight: bold;")
  {
    ButtonLines();
    var lines := ["    display: flex;", "    font-size: 16pt;", "    font-weight: bold;"];
    assert lines[1..] == [lines[1], lines[2]];
    Text.JoinPair("\n", lines[1], lines[2]);
  }

  /** The three body lines of `.btn`, one per declaration. */
  lemma ButtonLines()
    ensures Styles.BodyLines([("display", "flex"), ("font-size", "16pt"), ("font-weight", "bold")])
         == ["    display: flex;", "    font-size: 16pt;", "    font-weight: bold;"]
  {
    DisplayLine();
    FontSizeLine();
    FontWeightLine();
  }

  lemma DisplayLine()
    ensures "    " + Styles.Declaration(("display", "flex")) == "    display: flex;"
  {
  }

  lemma FontSizeLine()
    ensures "    " + Styles.Declaration(("font-size", "16pt")) == "    font-size: 16pt;"
  {
  }

  lemma FontWeightLine()
    ensures "    " + Styles.Declaration(("font-weight", "bold")) == "    font-weight: bold;"
  {
  }

  /** After `sheet.style(name)`, `sheet[name]` finds that same style and marks it used. */
  method LookupAfterStyle(sheet: Sheets.StyleSheet, name: string)
    returns (style: Styles.Style, found: Result<Styles.Style, seq<string>>)
    requires sheet.Valid() && Text.Free(name, Sheets.KeySeparator)
    modifies sheet
    ensures sheet.Valid()
    ensures found == Success(style) && style in sheet.used
    ensures sheet.styles == old(sheet.styles) + [Sheets.StyleEntry(style)]
  {
    style := sheet.Style([name]);
    Text.SplitFree(name, Sheets.KeySeparator);
    found := sheet.Get(name);
  }

  /** Registering a tuple twice keeps both entries; the tuple then finds the newer style. */
  method RegisterTwice(sheet: Sheets.StyleSheet, names: seq<string>)
    returns (first: Styles.Style, second: Styles.Style)
    requires sheet.Valid() && names != []
    modifies sheet
    ensures sheet.Valid() && first != second
    ensures sheet.styles == old(sheet.styles) + [Sheets.StyleEntry(first), Sheets.StyleEntry(second)]
    ensures sheet.byClass == old(sheet.byClass)[names := second]
  {
    first := sheet.Style(names);
    second := sheet.Style(names);
  }

  /**
   * A sheet holding `media(min_width=600)` with one style renders the
   * media header, the style one level deeper, and the closing brace.
   */
  method MediaBlock(timestamp: string) returns (output: seq<Sheets.Chunk>, card: Styles.Style)
    ensures output == Sheets.Preamble(timestamp) + [
      Sheets.Write("@media(min-width: 600px)"), Sheets.Write("{\n"),
      Sheets.StyleRender(card, false, 1, {}), Sheets.Write("\n\n"),
      Sheets.Write("}\n"), Sheets.Write("\n\n")]
  {
    var sheet := new Sheets.StyleSheet([]);
    var media := sheet.Media(Some(600), None);
    card := media.Style(["card"]);
    assert sheet.styles == [Sheets.MediaEntry(media)];
    assert sheet.Valid();
    output := sheet.Render(false, timestamp);
    MediaBlockEntries(sheet, media, card);
  }

  /** The entries of a sheet holding only that media set, itself holding only one style. */
  lemma MediaBlockEntries(sheet: Sheets.StyleSheet, media: Sheets.StyleSheet, card: Styles.Style)
    requires sheet.Valid() && sheet.styles == [Sheets.MediaEntry(media)]
    requires media.styles == [Sheets.StyleEntry(card)]
    requires media.scope == Some(Sheets.MediaScope(Some(600), None))
    ensures sheet.Entries(1, false, 0, {}) == [
      Sheets.Write("@media(min-width: 600px)"), Sheets.Write("{\n"),
      Sheets.StyleRender(card, false, 1, {}), Sheets.Write("\n\n"),
      Sheets.Write("}\n"), Sheets.Write("\n\n")]
  {
    assert sheet.styles[0].media == media;
    assert media.Valid();
    MediaHeader600();
    assert media.Entries(1, false, 1, {}) == [Sheets.StyleRender(card, false, 1, {}), Sheets.Write("\n\n")];
    assert sheet.EntryOutput(0, false, 0, {}) == media.Block(false, 0, {});
  }

  /** `media(min_width=600)` opens with `@media(min-width: 600px)`. */
  lemma MediaHeader600()
    ensures MediaQuery.Header(Some(600), None) == "@media(min-width: 600px)"
  {
    assert Text.IntToString(600) == "600";
    MediaQuery.QueryCases(Some(600), None);
  }

  /**
   * `sheet.media(min_width=600).media(max_width=900).style("card")`: a media
   * set nested in another renders inside it, and its style two levels deep.
   */
  method NestedMediaBlock(timestamp: string) returns (output: seq<Sheets.Chunk>, card: Styles.Style)
    ensures output == Sheets.Preamble(timestamp) + [
      Sheets.Write("@media(min-width: 600px)"), Sheets.Write("{\n"),
      Sheets.Write("@media(max-width: 900px)"), Sheets.Write("{\n"),
      Sheets.StyleRender(card, false, 2, {}), Sheets.Write("\n\n"),
      Sheets.Write("}\n"), Sheets.Write("\n\n"),
      Sheets.Write("}\n"), Sheets.Write("\n\n")]
  {
    var sheet, outer, inner;
    sheet, outer, inner, card := BuildNested();
    output := sheet.Render(false, timestamp);
    NestedEntries(sheet, outer, inner, card);
  }

  /** The nested sheet with a style in the inner set. */
  method BuildNested() returns (sheet: Sheets.StyleSheet, outer: Sheets.StyleSheet, inner: Sheets.StyleSheet, card: Styles.Style)
    ensures sheet.Valid() && sheet.scope.None? && sheet.used == {}
    ensures sheet.styles == [Sheets.MediaEntry(outer)]
    ensures outer.styles == [Sheets.MediaEntry(inner)] && inner.styles == [Sheets.StyleEntry(card)]
    ensures outer.scope == Some(Sheets.MediaScope(Some(600), None))
    ensures inner.scope == Some(Sheets.MediaScope(None, Some(900)))
  {
    sheet, outer, inner := NestTwo();
    card := inner.Style(["card"]);
    assert outer.Valid();
  }

  /**
   * The two nested media sets. Creating the inner set grows the outer
   * set's footprint, so the sheet absorbs it before it is valid again.
   */
  method NestTwo() returns (sheet: Sheets.StyleSheet, outer: Sheets.StyleSheet, inner: Sheets.StyleSheet)
    ensures sheet.Valid() && sheet.scope.None? && sheet.used == {}
    ensures sheet.styles == [Sheets.MediaEntry(outer)] && outer.styles == [Sheets.MediaEntry(inner)] && inner.styles == []
    ensures outer.scope == Some(Sheets.MediaScope(Some(600), None))
    ensures inner.scope == Some(Sheets.MediaScope(None, Some(900)))
    ensures outer.Valid() && inner.Valid() && fresh(sheet) && fresh(outer) && fresh(inner)
  {
    sheet := new Sheets.StyleSheet([]);
    outer := sheet.Media(Some(600), None);
    Sheets.ValidAroundEntry(sheet, 0, outer);
    inner := outer.Media(None, Some(900));
    sheet.Absorb(0, outer);
  }

  /** The entries of a sheet holding that media set, holding the inner one, holding one style. */
  lemma NestedEntries(sheet: Sheets.StyleSheet, outer: Sheets.StyleSheet, inner: Sheets.StyleSheet, card: Styles.Style)
    requires sheet.Valid() && sheet.styles == [Sheets.MediaEntry(outer)]
    requires outer.styles == [Sheets.MediaEntry(inner)] && inner.styles == [Sheets.StyleEntry(card)]
    requires outer.scope == Some(Sheets.MediaScope(Some(600), None))
    requires inner.scope == Some(Sheets.MediaScope(None, Some(900)))
    ensures sheet.Entries(1, false, 0, {}) == [
      Sheets.Write("@media(min-width: 600px)"), Sheets.Write("{\n"),
      Sheets.Write("@media(max-width: 900px)"), Sheets.Write("{\n"),
      Sheets.StyleRender(card, false, 2, {}), Sheets.Write("\n\n"),
      Sheets.Write("}\n"), Sheets.Write("\n\n"),
      Sheets.Write("}\n"), Sheets.Write("\n\n")]
  {
    assert sheet.styles[0].media == outer;
    assert outer.Valid();
    assert outer.styles[0].media == inner;
    assert inner.Valid();
    MediaHeader600();
    MediaHeader900();
    var block := [Sheets.StyleRender(card, false, 2, {}), Sheets.Write("\n\n")];
    assert inner.Entries(1, false, 2, {}) == block;
    var innerBlock := [Sheets.Write("@media(max-width: 900px)"), Sheets.Write("{\n")] + block + [Sheets.Write("}\n")];
    assert inner.Block(false, 1, {}) == innerBlock;
    assert outer.EntryOutput(0, false, 1, {}) == innerBlock;
    assert outer.Entries(1, false, 1, {}) == innerBlock + [Sheets.Write("\n\n")];
    assert sheet.EntryOutput(0, false, 0, {}) == outer.Block(false, 0, {});
  }

  /** `media(max_width=900)` opens with `@media(max-width: 900px)`. */
  lemma MediaHeader900()
    ensures MediaQuery.Header(None, Some(900)) == "@media(max-width: 900px)"
  {
    assert Text.IntToString(900) == "900";
    MediaQuery.QueryCases(None, Some(900));
  }

  /**
   * `redefine(style)` renders a second block for the same selector after
   * the original, and the original keeps its declarations.
   */
  method RedefineAfter(timestamp: string) returns (output: seq<Sheets.Chunk>, original: Styles.Style, redefined: Styles.Style)
    ensures original.selector == redefined.selector && original != redefined
    ensures original.rules == [("display", "flex")] && redefined.rules == [("display", "grid")]
    ensures output == Sheets.Preamble(timestamp) + [
      Sheets.StyleRender(original, false, 0, {}), Sheets.Write("\n\n"),
      Sheets.StyleRender(redefined, false, 0, {}), Sheets.Write("\n\n")]
  {
    var sheet := new Sheets.StyleSheet([]);
    original := sheet.Style(["btn"]);
    var s := original.Display("flex");
    redefined := sheet.Redefine(original);
    s := redefined.Display("grid");
    assert sheet.styles == [Sheets.StyleEntry(original), Sheets.StyleEntry(redefined)];
    output := sheet.Render(false, timestamp);
    TwoStyleEntries(sheet, original, redefined);
  }

  /** The entries of a sheet holding exactly two styles. */
  lemma TwoStyleEntries(sheet: Sheets.StyleSheet, first: Styles.Style, second: Styles.Style)
    requires sheet.Valid() && sheet.styles == [Sheets.StyleEntry(first), Sheets.StyleEntry(second)]
    ensures sheet.Entries(2, false, 0, {}) == [
      Sheets.StyleRender(first, false, 0, {}), Sheets.Write("\n\n"),
      Sheets.StyleRender(second, false, 0, {}), Sheets.Write("\n\n")]
  {
    assert sheet.Entries(1, false, 0, {}) == [Sheets.StyleRender(first, false, 0, {}), Sheets.Write("\n\n")];
  }
}
