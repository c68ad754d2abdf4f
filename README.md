# violetear stylesheet core in Dafny

violetear builds CSS from Python. A **Style** pairs a selector with an
insertion-ordered table of declarations. The table is filled fluently:
`rule`, `font`, `display` and `apply` each return the style itself.
A style renders as a rule block (`css`) or as an inline `style="..."`
attribute (`inline`).

A **StyleSheet** holds an ordered list of entries. It also keeps a lookup
table from class-name tuples to styles, and the set of styles looked up so
far ("used"). Its entries are styles, plus nested **MediaSets**. A MediaSet
is a sheet scoped by `min-width`/`max-width` bounds, and it renders as an
`@media(...)` block.

The model has these modules:

- `Wrappers`: `Option` and `Result`.
- `Text`: the Python string operations the core relies on: `str.join`,
  `str.split` with leftmost non-overlapping matching, and `str()` of an
  integer.
- `RuleMap`: the declaration table as a Python `dict`. It is a sequence of
  `(property, value)` pairs with unique keys. Assigning a new key appends it.
  Assigning an existing key overwrites the value in place.
- `Styles`: the `Style` class, whose fields the methods update in place. It
  also holds the pure renderers for the rule block and the inline attribute.
- `MediaQuery`: the condition text of a MediaSet.
- `Sheets`: the `StyleSheet` class. StyleSheet and MediaSet are one class
  here, told apart by `scope`. The class has a ghost footprint `Repr` that
  covers the nested media sets. Rendering is modelled as the sequence of
  chunks written to the sink.
- `Usage`: concrete scenarios that are derived only from the contracts.

Rendering framing is exact: the preamble, the `"\n\n"` after each entry,
the media header, and the braces. How a single Style renders itself is not
in the core files. So each style entry contributes a `StyleRender` chunk
that records the arguments the sheet passes: `dynamic`, `indent` and `used`.

Three facts about the source shape the model:

- `redefine` passes `parent=` to the Style constructor (violetear/stylesheet.py:51),
  and `Style.__init__` (violetear/style.py:6) accepts no such keyword. The
  call raises `TypeError`; see Findings.
- Looking up an unknown key raises `KeyError` carrying the split tuple. The
  model returns `Failure` with that tuple.
- A Style has no parent field.

A MediaSet may itself hold MediaSets, since it inherits `media`. Creating
one inside a nested set grows that set's footprint. The sheet holding it
then takes in the growth with the ghost method `Absorb`.

## Model

| member | source | states |
|---|---|---|
| RuleMap.Lookup | violetear/style.py:12 | definition: reading a property of the dict-shaped table; its properties are in the SetLookup, LookupEntry and ApplyAllLookup rows |
| RuleMap.Set | violetear/style.py:15 | definition: the assignment `self._rules[attr] = value`; its properties are in the SetSpec, SetLookup, SetUnique and SetNoop rows |
| RuleMap.ApplyAll | violetear/style.py:35-36 | definition: the assignments of `apply`, in the other table's order; its properties are in the ApplyAll* rows |
| RuleMap.IndexOf | violetear/style.py:15 | the position of a property in the table is within bounds exactly when the property is present; there the key matches, and no earlier entry holds it |
| RuleMap.SetSpec | violetear/style.py:15 | assigning a present property replaces its pair at the same position; assigning a new property appends it at the end |
| RuleMap.SetLookup | violetear/style.py:15 | after an assignment the property reads as the new value and every other property reads as before |
| RuleMap.SetUnique | violetear/style.py:15 | an assignment keeps keys unique, makes the property present, and grows the table by one exactly when the property was new |
| RuleMap.SetNoop | violetear/style.py:15 | assigning the value a property already has leaves the table unchanged |
| RuleMap.LookupEntry | violetear/style.py:12 | in a table with unique keys, each pair is what a lookup of its key finds |
| RuleMap.ApplyAllSnoc | violetear/style.py:35-36 | applying one more declaration is one more assignment after the earlier ones |
| RuleMap.ApplyAllUnique | violetear/style.py:35-36 | applying declarations keeps the keys unique |
| RuleMap.ApplyAllLookup | violetear/style.py:34-38 | after `apply`, the other style's properties hold its values and every other property keeps its own |
| RuleMap.ApplyAllNoop | violetear/style.py:34-38 | applying declarations that already hold changes nothing |
| RuleMap.ApplyAllIdempotent | violetear/style.py:34-38 | applying the same style twice equals applying it once |
| RuleMap.ApplyAllSelf | violetear/style.py:34-38 | a style applied to itself keeps its table |
| RuleMap.ApplyAllKeepsOrder | violetear/style.py:34-38 | `apply` keeps every existing property at its position; new properties come after them |
| Text.Join | violetear/style.py:41-43 | definition: `sep.join(parts)`; its properties are in the JoinAppend, JoinPair, JoinExcludes, SplitJoin and JoinSplit rows |
| Text.Split | violetear/stylesheet.py:56 | splitting always yields at least one part |
| Text.NatToString | violetear/stylesheet.py:38 | the decimal text of a count is non-empty and all digits; its value is in the NatToStringValue row |
| Text.IntToString | violetear/stylesheet.py:76 | the decimal text of an integer holds only digits and a minus sign; its sign and value are in the IntToStringValue row |
| Text.DigitsValue | violetear/stylesheet.py:38 | definition: the number a string of decimal digits denotes; used by the two value rows below |
| Text.NatToStringValue | violetear/stylesheet.py:38 | the decimal text of a count denotes that count, and starts with `0` exactly when the count is 0 |
| Text.NatToStringInjective | violetear/stylesheet.py:38 | two counts have the same decimal text exactly when they are equal |
| Text.IntToStringValue | violetear/stylesheet.py:76 | the text of an integer starts with `-` exactly when it is negative, holds only digits after that, and the digits denote its magnitude |
| Text.IntToStringInjective | violetear/stylesheet.py:76 | two integers have the same text exactly when they are equal |
| Text.JoinAppend | violetear/style.py:41-43 | joining two non-empty lists is joining each, with one separator between |
| Text.JoinPair | violetear/stylesheet.py:81 | two parts join into first, separator, second |
| Text.JoinExcludes | violetear/style.py:48 | a character absent from the separator and from every part is absent from the join |
| Text.SplitFree | violetear/stylesheet.py:56 | a key without the separator splits into itself alone |
| Text.SplitAfter | violetear/stylesheet.py:56 | a part that the separator cannot straddle splits off first, and the rest splits on its own |
| Text.SplitJoin | violetear/stylesheet.py:56 | split undoes join when no separator can be found inside or across the parts |
| Text.JoinSplit | violetear/stylesheet.py:56 | joining the parts of any split with the same separator gives back the original text |
| Styles.SelectorCss | violetear/style.py:45 | definition: the selector text, `#id` then `.name` per class name |
| Styles.SizeText | violetear/style.py:20-21 | definition: the stored size, a unit's text as it is and a bare number in points |
| Styles.FontRules | violetear/style.py:18-28 | definition: the assignments `font` performs, in order; its properties are in the Styles.Style.Font and Styles.FontEffect rows |
| Styles.RuleBlock | violetear/style.py:40-45 | definition: the text `css()` returns; its properties are in the BlockAsJoin, BlockLines and InlineMatchesBlock rows |
| Styles.InlineStyle | violetear/style.py:47-49 | definition: the text `inline()` returns; its properties are in the InlineSingleLine and InlineMatchesBlock rows |
| Styles.Style.constructor | violetear/style.py:5-12 | an explicit selector wins over id and class names; the table starts empty |
| Styles.Style.Rule | violetear/style.py:14-16 | one dict assignment on the table, keys stay unique, and the style itself is returned |
| Styles.Style.Font | violetear/style.py:18-28 | sets `font-size` and then `font-weight`, each only when its argument is truthy; a bare number is stored in points |
| Styles.Style.Display | violetear/style.py:30-32 | sets `display` by one assignment and returns the style itself |
| Styles.Style.Apply | violetear/style.py:34-38 | assigns each of the other style's declarations in its order, and leaves the other style's table as it was, even when it is this style |
| Styles.Style.Css | violetear/style.py:40-45 | `css()` of this style: the rule block of its selector and table (see Styles.RuleBlock) |
| Styles.Style.Inline | violetear/style.py:47-49 | `inline()` of this style: the inline attribute of its table (see Styles.InlineStyle) |
| Styles.FontEffect | violetear/style.py:18-28 | after `font`, `font-size` and `font-weight` hold the truthy arguments; a falsy argument's property and every other property keep their values |
| Styles.BlockAsJoin | violetear/style.py:40-45 | the rule block is the selector line, the body lines and the closing brace, joined by line breaks |
| Styles.BlockLines | violetear/style.py:40-45 | read line by line, the block is the selector line, one indented line per declaration in table order (one empty line when there are none), then `}` |
| Styles.InlineSingleLine | violetear/style.py:47-49 | the inline attribute holds no line break when the declarations hold none |
| Styles.InlineMatchesBlock | violetear/style.py:40-49 | the inline attribute lists exactly the block's body lines in order, unindented and separated by spaces |
| MediaQuery.Query | violetear/stylesheet.py:73-81 | definition: the text between the parentheses of `@media(...)`; its properties are in the rows below |
| MediaQuery.Header | violetear/stylesheet.py:81 | definition: `@media(` + condition + `)` |
| MediaQuery.QueryCases | violetear/stylesheet.py:73-81 | the condition is both clauses separated by a comma, one clause, or empty, following the truthiness of the bounds |
| MediaQuery.NoCommaIn | violetear/stylesheet.py:76-79 | a single width clause holds no comma |
| MediaQuery.EmptyQuery | violetear/stylesheet.py:73-81 | the header is the bare `@media()` exactly when neither bound is truthy |
| MediaQuery.CommaIffBoth | violetear/stylesheet.py:73-81 | the condition holds a comma exactly when both bounds are truthy |
| MediaQuery.MinWidthFirst | violetear/stylesheet.py:75-76 | the `min-width` clause opens the condition, and the condition opens with `min-width: ` only when the lower bound is truthy |
| MediaQuery.MaxWidthLast | violetear/stylesheet.py:78-81 | the `max-width` clause ends the condition when the upper bound is truthy; otherwise the condition is the `min-width` clause or empty |
| Sheets.Preamble | violetear/stylesheet.py:21-22 | definition: the two comment lines, with the clock reading as a parameter |
| Sheets.AutoName | violetear/stylesheet.py:37-38 | definition: `_c` followed by the entry count; its properties are in the AutoNameRoundTrip and AutoNameInjective rows |
| Sheets.RedefineAsWrittenFails | violetear/stylesheet.py:51 | the constructor call with `selector=` and `parent=` is a TypeError, and it would succeed with `selector=` alone |
| Sheets.StyleSheet.RedefineCall | violetear/stylesheet.py:50-53 | the constructor call and then the append: a rejected keyword is a TypeError with the entries unchanged; an accepted one appends a new empty style with the same selector; the original keeps its declarations either way |
| Sheets.StyleSheet.RedefineAsWritten | violetear/stylesheet.py:50-53 | `redefine` as written always fails with TypeError and leaves entries, registrations and used set unchanged |
| Sheets.StyleSheet.Valid | violetear/stylesheet.py:45-48 | the nesting invariant: each nested set is owned by this sheet, lies inside its footprint without containing it, is valid itself, and no nested set lies inside a sibling's footprint |
| Sheets.StyleSheet.ValidAround | violetear/stylesheet.py:45-48 | definition: the nesting invariant for every entry but one nested set, which it does not read; it survives any change to that set |
| Sheets.StyleSheet.Absorb | violetear/stylesheet.py:45-48 | after a nested set has grown its footprint by `media`, the sheet takes in the growth and is valid again |
| Sheets.ValidAroundEntry | violetear/stylesheet.py:45-48 | a valid sheet is valid around each nested set and meets the other preconditions of Absorb for it |
| Sheets.StyleSheet.constructor | violetear/stylesheet.py:9-12 | the given styles become the entries in order; nothing is registered or used |
| Sheets.StyleSheet.MediaSet | violetear/stylesheet.py:63-70 | an empty sheet that records the width bounds and the sheet that created it |
| Sheets.StyleSheet.Style | violetear/stylesheet.py:36-43 | appends a new empty style and registers it under the class names, or under `_c<entry count>` when none are given; other keys are untouched |
| Sheets.StyleSheet.Media | violetear/stylesheet.py:45-48 | appends a new empty MediaSet owned by this sheet, with the given bounds |
| Sheets.StyleSheet.Redefine | violetear/stylesheet.py:50-53 | appends a new empty style with the same selector, after the original, and leaves the original's declarations unchanged |
| Sheets.StyleSheet.Get | violetear/stylesheet.py:55-59 | a key whose split tuple is registered returns that style and adds it to the used set; any other key fails with the tuple and records nothing |
| Sheets.StyleSheet.Entries | violetear/stylesheet.py:24-26 | definition: what the render loop writes for the first n entries; its properties are in the WriteEntries and EntriesPass rows |
| Sheets.StyleSheet.EntryOutput | violetear/stylesheet.py:25 | definition: what one entry writes, a style render call or a nested block |
| Sheets.StyleSheet.Block | violetear/stylesheet.py:72-88 | definition: what a MediaSet writes; its properties are in the WriteBlock and BlockPass rows |
| Sheets.StyleSheet.WriteEntries | violetear/stylesheet.py:24-26 | the render loop writes every entry's output in entry order, each followed by a blank line |
| Sheets.StyleSheet.WriteEntry | violetear/stylesheet.py:84-86 | an entry writes a style render call, or a nested MediaSet's whole block |
| Sheets.StyleSheet.WriteBlock | violetear/stylesheet.py:72-88 | a MediaSet writes its header and an opening brace, then its entries one level deeper with the caller's used set, then a closing brace |
| Sheets.StyleSheet.Render | violetear/stylesheet.py:14-34 | a top-level sheet writes the two comment lines, then its entries at indentation 0 with its own used set |
| Sheets.EntriesPass | violetear/stylesheet.py:24-26 | every style rendered from a sheet's entries, however deeply nested, receives the caller's dynamic flag and used set, at the entries' indentation or deeper |
| Sheets.BlockPass | violetear/stylesheet.py:84-86 | inside a media block every style is rendered at least one level deeper than the block |
| Sheets.ClassKeyRoundTrip | violetear/stylesheet.py:55-57 | the `__`-joined key of a class-name tuple finds that tuple, when no name holds `__` and no name before the last ends in `_` |
| Sheets.AutoNameRoundTrip | violetear/stylesheet.py:37-38 | the key `_c<n>` of an automatically named style finds its one-name tuple |
| Sheets.AutoNameInjective | violetear/stylesheet.py:37-38 | two automatic names are equal exactly when the entry counts are equal |
| Sheets.KeySplitInjective | violetear/stylesheet.py:56 | two lookup keys split into the same tuple exactly when they are the same key |
| Usage.ButtonBlock | violetear/style.py:40-45 | `style("btn").display("flex").font(16, "bold")` renders as `.btn {` and three indented declarations in order, the size in points, then `}` |
| Usage.ButtonFont | violetear/style.py:18-28 | `font(16, "bold")` after `display("flex")` puts `font-size: 16pt` and then `font-weight: bold` after `display` |
| Usage.ButtonText | violetear/style.py:45 | the `.btn` rule block with those three declarations, as exact text |
| Usage.LookupAfterStyle | violetear/stylesheet.py:55-59 | after `style(name)`, looking up `name` finds that same style and marks it used |
| Usage.RegisterTwice | violetear/stylesheet.py:40-42 | registering one tuple twice keeps both entries, and the tuple then finds the newer style |
| Usage.MediaHeader600 | violetear/stylesheet.py:75-81 | `media(min_width=600)` opens with `@media(min-width: 600px)` |
| Usage.MediaBlock | violetear/stylesheet.py:72-88 | a sheet holding a 600px media set with one style renders the header, the style one level deeper, and the closing brace |
| Usage.NestedMediaBlock | violetear/stylesheet.py:84-86 | a 900px media set inside a 600px one, holding one style, renders both headers in order, the style two levels deep, and both closing braces |
| Usage.NestTwo | violetear/stylesheet.py:45-48 | `sheet.media(min_width=600).media(max_width=900)` gives a valid sheet whose entries nest in that order |
| Usage.MediaHeader900 | violetear/stylesheet.py:78-81 | `media(max_width=900)` opens with `@media(max-width: 900px)` |
| Usage.RedefineAfter | violetear/stylesheet.py:50-53 | a redefinition renders after the original for the same selector, and each keeps its own declarations |

## Left out

- File and stream sinks are not modelled: opening a path, writing to a caller's stream, `fp.close()`, and the `None` result for a non-buffer sink. Output is the sequence of chunks written.
- The clock reading in the second comment line is a parameter (`timestamp`).
- The Selector and Unit modules are not part of this model. A selector's text is taken to be `#id` followed by `.name` per class name. A bare number given to `font` is stored as its decimal text followed by `pt`. A unit value is carried as its CSS text and is taken to be truthy.
- How a single Style renders inside a sheet is not part of this model. This covers its indentation and the pruning of unused styles when `dynamic` is set. Each such call is recorded with its arguments instead.
- Rule values are strings (their text form). Other value objects are not modelled.
- Sheets.StyleSheet.Render: in-memory sink only. It requires a top-level sheet. A MediaSet's own `render` defaults `fp` to `None` and has no `StringIO` fallback, so it would fail when writing.
- Styles.Style.Font: integer sizes only. Floating-point sizes and their text form are not modelled.
- Sheets.StyleSheet.Redefine: the `parent=` back-reference is not modelled. The constructor has no such field (see Findings).
- Sheets.StyleSheet.Get: a lookup on a MediaSet records into that MediaSet's own used set. Rendering passes the top-level sheet's used set down. The model keeps both exactly as the code does, but proves nothing that connects them.
- Sheets.StyleSheet.Media: called on a nested MediaSet, it grows that set's footprint, and the enclosing sheets do not re-establish their invariant by themselves. The sheet holding the set takes in the growth with the ghost method Absorb. A sheet further out does the same for its own entry, or re-proves its invariant by hand. After `style`, `redefine` or a lookup on a nested set the footprint is unchanged, and a caller asserts the enclosing invariant again.
- Python's `*args` call forms are lists here: `style(*names)` takes a sequence, and the empty sequence means no names.

## Findings

| source | as written | input that shows it | evidently intended | confidence | as-written member | corrected member |
|---|---|---|---|---|---|---|
| violetear/stylesheet.py:51 | `redefine` calls `Style(selector=..., parent=...)`, but `Style.__init__` (violetear/style.py:6) takes no `parent` keyword | any `sheet.redefine(s)` raises TypeError, and nothing is appended | append a new empty Style with the same selector after the original, and return it | high, not executed | Sheets.StyleSheet.RedefineAsWritten | Sheets.StyleSheet.Redefine |
