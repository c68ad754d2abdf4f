/**
 * StyleSheet and MediaSet: an ordered registry of entries (styles and
 * nested media sets), a lookup table from class-name tuples to styles, and
 * the set of styles looked up so far.
 *
 * A MediaSet is a StyleSheet with a media scope (its width bounds) and the
 * sheet that created it; both are one class here, told apart by `scope`.
 * Rendering writes into a sink; the sink is modelled as the sequence of
 * chunks written so far. How a single Style renders itself (its indentation
 * and whether `dynamic` skips it) is not part of this model, so a Style's
 * contribution is the chunk recording that call and its arguments.
 */
module Sheets {
  import opened Wrappers
  import Text
  import Styles
  import MediaQuery

  /** The separator between class names in a lookup key. */
  const KeySeparator: string := "__"

  /** The width bounds of a MediaSet. */
  datatype MediaScope = MediaScope(minWidth: Option<int>, maxWidth: Option<int>)

  /** An entry of a sheet: a style, or a nested media set. */
  datatype Entry = StyleEntry(style: Styles.Style) | MediaEntry(media: StyleSheet)

  /** One write into the sink: literal text, or a style rendering itself with these arguments. */
  datatype Chunk =
    | Write(text: string)
    | StyleRender(style: Styles.Style, dynamic: bool, indent: nat, used: set<Styles.Style>)

  /** The two comment lines that open a rendered sheet; the clock reading is a parameter. */
  function Preamble(timestamp: string): seq<Chunk>
  {
    [Write("/* Made with violetear */\n"), Write("/* Autogenerated on " + timestamp + " */\n\n")]
  }

  /** The class name given to a style registered without one: `_c` and the entry count. */
  function AutoName(count: nat): string
  {
    "_c" + Text.NatToString(count)
  }

  /** The keyword parameters the Style constructor accepts besides class names. */
  const StyleKeywords: set<string> := {"id", "selector"}

  /** Calling the Style constructor with these keyword arguments: any other keyword is a `TypeError`. */
  function StyleCall(keywords: set<string>): Result<(), string>
  {
    if keywords <= StyleKeywords then Success(()) else Failure("TypeError")
  }

  /**
   * `redefine` as written calls the Style constructor with `selector=` and
   * `parent=`; the constructor has no `parent` parameter, so the call fails
   * for every style and nothing is appended.
   */
  lemma RedefineAsWrittenFails()
    ensures StyleCall({"selector", "parent"}) == Failure("TypeError")
    ensures StyleCall({"selector"}) == Success(())
  {
    assert "parent" in {"selector", "parent"} && "parent" !in StyleKeywords;
  }

  class StyleSheet {
    var styles: seq<Entry>
    var byClass: map<seq<string>, Styles.Style>
    var used: set<Styles.Style>
    /** `None` for a top-level sheet, the width bounds for a MediaSet. */
    const scope: Option<MediaScope>
    /** The sheet a MediaSet was created by. */
    const owner: StyleSheet?
    /** This sheet and every media set nested in it. */
    ghost var Repr: set<StyleSheet>

    /** Every nested media set belongs to this sheet and nests strictly inside it. */
    ghost predicate Valid()
      reads this, Repr
      ensures Valid() ==> this in Repr
      decreases Repr
    {
      this in Repr &&
      (forall i :: 0 <= i < |styles| && styles[i].MediaEntry? ==>
        styles[i].media in Repr && styles[i].media.Repr <= Repr && this !in styles[i].media.Repr &&
        styles[i].media.owner == this && styles[i].media.scope.Some? && styles[i].media.Valid()) &&
      (forall i, j ::
        0 <= i < |styles| && 0 <= j < |styles| && i != j && styles[i].MediaEntry? && styles[j].MediaEntry?
        ==> styles[i].media !in styles[j].media.Repr)
    }

    /**
     * Everything `Valid` says, except about the nested set `m` itself. It
     * does not read `m`, so it survives any change made to `m` alone.
     */
    ghost predicate ValidAround(m: StyleSheet)
      reads this, Repr - {m}
    {
      this in Repr && this != m &&
      (forall i :: 0 <= i < |styles| && styles[i].MediaEntry? && styles[i].media != m ==>
        styles[i].media in Repr && styles[i].media.Repr <= Repr && this !in styles[i].media.Repr &&
        m !in styles[i].media.Repr &&
        styles[i].media.owner == this && styles[i].media.scope.Some? && styles[i].media.Valid()) &&
      (forall i, j ::
        0 <= i < |styles| && 0 <= j < |styles| && i != j && styles[i].MediaEntry? && styles[j].MediaEntry?
        && styles[j].media != m
        ==> styles[i].media !in styles[j].media.Repr)
    }

    /**
     * The nested set `m` (entry `k`) has grown its footprint, by creating a
     * media set of its own: this sheet takes the growth into its footprint.
     */
    ghost method Absorb(k: nat, m: StyleSheet)
      requires k < |styles| && styles[k] == MediaEntry(m)
      requires ValidAround(m)
      requires m.Valid() && this !in m.Repr && m.owner == this && m.scope.Some?
      requires forall i :: 0 <= i < |styles| && i != k && styles[i].MediaEntry? ==> styles[i].media !in m.Repr
      modifies this`Repr
      ensures Valid() && Repr == old(Repr) + m.Repr
    {
      Repr := Repr + m.Repr;
    }

    /** `StyleSheet(*styles)`: the given styles as entries, nothing registered, nothing used. */
    constructor (initial: seq<Styles.Style>)
      ensures Valid() && Repr == {this}
      ensures styles == seq(|initial|, i requires 0 <= i < |initial| => StyleEntry(initial[i]))
      ensures byClass == map[] && used == {}
      ensures scope == None && owner == null
    {
      scope := None;
      owner := null;
      styles := seq(|initial|, i requires 0 <= i < |initial| => StyleEntry(initial[i]));
      byClass := map[];
      used := {};
      new;
      Repr := {this};
    }

    /** `MediaSet(sheet, min_width, max_width)`: an empty sheet scoped by the bounds. */
    constructor MediaSet(sheet: StyleSheet, minWidth: Option<int>, maxWidth: Option<int>)
      ensures Valid() && Repr == {this}
      ensures styles == [] && byClass == map[] && used == {}
      ensures scope == Some(MediaScope(minWidth, maxWidth)) && owner == sheet
    {
      scope := Some(MediaScope(minWidth, maxWidth));
      owner := sheet;
      styles := [];
      byClass := map[];
      used := {};
      new;
      Repr := {this};
    }

    /**
     * `style(*class_name)`: appends a new empty Style and registers it under
     * the class names, or under `_c<entry count>` when none are given. A
     * tuple registered before now finds the new style; every other tuple
     * keeps its style.
     */
    method Style(classNames: seq<string>) returns (style: Styles.Style)
      requires Valid()
      modifies this
      ensures Valid() && Repr == old(Repr) && fresh(style)
      ensures var key := if classNames == [] then [AutoName(|old(styles)|)] else classNames;
              && style.selector == Styles.Selector(None, key)
              && style.rules == [] && style.Valid()
              && styles == old(styles) + [StyleEntry(style)]
              && byClass == old(byClass)[key := style]
      ensures used == old(used)
    {
      var key := if classNames == [] then [AutoName(|styles|)] else classNames;
      style := new Styles.Style(key, None, None);
      styles := styles + [StyleEntry(style)];
      byClass := byClass[key := style];
    }

    /** `media(min_width, max_width)`: appends a new empty MediaSet owned by this sheet. */
    method Media(minWidth: Option<int>, maxWidth: Option<int>) returns (media: StyleSheet)
      requires Valid()
      modifies this
      ensures Valid() && fresh(media) && Repr == old(Repr) + {media}
      ensures media.Valid() && media.Repr == {media}
      ensures media.styles == [] && media.byClass == map[] && media.used == {}
      ensures media.scope == Some(MediaScope(minWidth, maxWidth)) && media.owner == this
      ensures styles == old(styles) + [MediaEntry(media)]
      ensures byClass == old(byClass) && used == old(used)
    {
      media := new StyleSheet.MediaSet(this, minWidth, maxWidth);
      styles := styles + [MediaEntry(media)];
      Repr := Repr + {media};
    }

    /**
     * The two steps of `redefine(style)`: the Style constructor is called
     * with `selector=style.selector` and the other keyword arguments named
     * in `keywords`, and its result is appended. A keyword the constructor
     * does not take raises `TypeError` before anything is appended.
     */
    method RedefineCall(style: Styles.Style, keywords: set<string>) returns (result: Result<Styles.Style, string>)
      requires Valid()
      modifies this
      ensures Valid() && Repr == old(Repr)
      ensures byClass == old(byClass) && used == old(used)
      ensures style.rules == old(style.rules)
      ensures StyleCall(keywords).Failure? ==> result == Failure("TypeError") && styles == old(styles)
      ensures StyleCall(keywords).Success? ==>
        && result.Success? && fresh(result.value)
        && result.value.selector == style.selector && result.value.rules == [] && result.value.Valid()
        && styles == old(styles) + [StyleEntry(result.value)]
    {
      var call := StyleCall(keywords);
      if call.Failure? {
        result := Failure(call.error);
      } else {
        var redefined := new Styles.Style([], None, Some(style.selector));
        styles := styles + [StyleEntry(redefined)];
        result := Success(redefined);
      }
    }

    /**
     * `redefine(style)` as written, passing `selector=` and `parent=`: it
     * always raises `TypeError`, and the sheet keeps its entries.
     */
    method RedefineAsWritten(style: Styles.Style) returns (result: Result<Styles.Style, string>)
      requires Valid()
      modifies this
      ensures Valid() && result == Failure("TypeError")
      ensures styles == old(styles) && byClass == old(byClass) && used == old(used)
    {
      RedefineAsWrittenFails();
      result := RedefineCall(style, {"selector", "parent"});
    }

    /**
     * `redefine(style)` as evidently intended, passing `selector=` only:
     * appends a new empty Style for the same selector, so that it renders
     * after the original. The original is left as it was.
     */
    method Redefine(style: Styles.Style) returns (redefined: Styles.Style)
      requires Valid()
      modifies this
      ensures Valid() && Repr == old(Repr) && fresh(redefined)
      ensures redefined.selector == style.selector && redefined.rules == [] && redefined.Valid()
      ensures styles == old(styles) + [StyleEntry(redefined)]
      ensures byClass == old(byClass) && used == old(used)
      ensures style.rules == old(style.rules)
    {
      RedefineAsWrittenFails();
      var result := RedefineCall(style, {"selector"});
      redefined := result.value;
    }

    /**
     * `sheet[key]`: splits the key on `__`, finds the style registered under
     * that tuple and records it as used. An unknown tuple is a `KeyError`
     * and records nothing.
     */
    method Get(key: string) returns (result: Result<Styles.Style, seq<string>>)
      requires Valid()
      modifies this`used
      ensures Valid()
      ensures var names := Text.Split(key, KeySeparator);
              if names in byClass then
                result == Success(byClass[names]) && used == old(used) + {byClass[names]}
              else
                result == Failure(names) && used == old(used)
      ensures styles == old(styles) && byClass == old(byClass)
    {
      var names := Text.Split(key, KeySeparator);
      if names in byClass {
        var style := byClass[names];
        used := used + {style};
        result := Success(style);
      } else {
        result := Failure(names);
      }
    }

    /**
     * What rendering the first `n` entries writes: each entry's own output
     * followed by a blank line, in entry order.
     */
    ghost function Entries(n: nat, dynamic: bool, indent: nat, used: set<Styles.Style>): seq<Chunk>
      requires Valid() && n <= |styles|
      reads this, Repr
      decreases Repr, 0, n
    {
      if n == 0 then []
      else Entries(n - 1, dynamic, indent, used) + EntryOutput(n - 1, dynamic, indent, used) + [Write("\n\n")]
    }

    /** What entry `i` writes: a style's render call, or a nested MediaSet's block. */
    ghost function EntryOutput(i: nat, dynamic: bool, indent: nat, used: set<Styles.Style>): seq<Chunk>
      requires Valid() && i < |styles|
      reads this, Repr
      decreases Repr, 0, i
    {
      match styles[i]
      case StyleEntry(s) => [StyleRender(s, dynamic, indent, used)]
      case MediaEntry(m) => m.Block(dynamic, indent, used)
    }

    /**
     * What a MediaSet writes: its `@media(...)` header, an opening brace,
     * its entries one level deeper with the caller's used set, and a
     * closing brace.
     */
    ghost function Block(dynamic: bool, indent: nat, used: set<Styles.Style>): seq<Chunk>
      requires Valid() && scope.Some?
      reads this, Repr
      decreases Repr, 1
    {
      [Write(MediaQuery.Header(scope.value.minWidth, scope.value.maxWidth)), Write("{\n")]
      + Entries(|styles|, dynamic, indent + 1, used)
      + [Write("}\n")]
    }

    /** The render loop shared by both kinds of sheet: what its entries write, in order. */
    method WriteEntries(dynamic: bool, indent: nat, used: set<Styles.Style>)
      returns (written: seq<Chunk>)
      requires Valid()
      ensures written == Entries(|styles|, dynamic, indent, used)
      decreases Repr, 1
    {
      written := [];
      var i := 0;
      while i < |styles|
        invariant 0 <= i <= |styles|
        invariant written == Entries(i, dynamic, indent, used)
      {
        var own := WriteEntry(i, dynamic, indent, used);
        written := written + own + [Write("\n\n")];
        i := i + 1;
      }
    }

    /** One step of the render loop: what entry `i` writes. */
    method WriteEntry(i: nat, dynamic: bool, indent: nat, used: set<Styles.Style>)
      returns (written: seq<Chunk>)
      requires Valid() && i < |styles|
      ensures written == EntryOutput(i, dynamic, indent, used)
      decreases Repr, 0
    {
      match styles[i] {
        case StyleEntry(s) =>
          written := [StyleRender(s, dynamic, indent, used)];
        case MediaEntry(m) =>
          assert m.Valid() && m.scope.Some? && m.Repr < Repr;
          written := m.WriteBlock(dynamic, indent, used);
      }
    }

    /** `MediaSet.render(dynamic, fp, indent, used)`: what the block writes. */
    method WriteBlock(dynamic: bool, indent: nat, used: set<Styles.Style>)
      returns (written: seq<Chunk>)
      requires Valid() && scope.Some?
      ensures written == Block(dynamic, indent, used)
      decreases Repr, 2
    {
      var body := WriteEntries(dynamic, indent + 1, used);
      written := [Write(MediaQuery.Header(scope.value.minWidth, scope.value.maxWidth)), Write("{\n")]
        + body + [Write("}\n")];
    }

    /**
     * `StyleSheet.render(dynamic)` into an in-memory sink: the preamble, then
     * every entry at indentation 0 with this sheet's used set.
     */
    method Render(dynamic: bool, timestamp: string) returns (output: seq<Chunk>)
      requires Valid() && scope.None?
      ensures output == Preamble(timestamp) + Entries(|styles|, dynamic, 0, used)
    {
      var body := WriteEntries(dynamic, 0, used);
      output := Preamble(timestamp) + body;
    }
  }

  /**
   * A valid sheet is valid around each of its nested sets; this is what a
   * caller keeps while it changes that nested set alone, before `Absorb`.
   */
  lemma ValidAroundEntry(sheet: StyleSheet, k: nat, m: StyleSheet)
    requires sheet.Valid() && k < |sheet.styles| && sheet.styles[k] == MediaEntry(m)
    ensures sheet.ValidAround(m)
    ensures m.Valid() && sheet !in m.Repr && m.owner == sheet && m.scope.Some?
    ensures forall i :: 0 <= i < |sheet.styles| && i != k && sheet.styles[i].MediaEntry? ==> sheet.styles[i].media !in m.Repr
  {
    forall i | 0 <= i < |sheet.styles| && sheet.styles[i].MediaEntry? && sheet.styles[i].media != m
      ensures m !in sheet.styles[i].media.Repr
    {
      assert i != k;
    }
  }

  /** Every style render call in `chunks` carries these arguments, at `minIndent` or deeper. */
  predicate Passed(chunks: seq<Chunk>, dynamic: bool, minIndent: nat, used: set<Styles.Style>)
  {
    forall i :: 0 <= i < |chunks| && chunks[i].StyleRender? ==>
      chunks[i].dynamic == dynamic && chunks[i].used == used && chunks[i].indent >= minIndent
  }

  lemma PassedAppend(a: seq<Chunk>, b: seq<Chunk>, dynamic: bool, minIndent: nat, used: set<Styles.Style>)
    requires Passed(a, dynamic, minIndent, used) && Passed(b, dynamic, minIndent, used)
    ensures Passed(a + b, dynamic, minIndent, used)
  {
    forall i | 0 <= i < |a + b| && (a + b)[i].StyleRender?
      ensures (a + b)[i].dynamic == dynamic && (a + b)[i].used == used && (a + b)[i].indent >= minIndent
    {
      if i >= |a| { assert (a + b)[i] == b[i - |a|]; }
    }
  }

  /**
   * Every style rendered from a sheet's entries, however deeply nested,
   * gets the caller's `dynamic` flag and used set, and an indentation at
   * least the one the entries were rendered at.
   */
  lemma {:induction false} EntriesPass(sheet: StyleSheet, n: nat, dynamic: bool, indent: nat, used: set<Styles.Style>)
    requires sheet.Valid() && n <= |sheet.styles|
    ensures Passed(sheet.Entries(n, dynamic, indent, used), dynamic, indent, used)
    decreases sheet.Repr, 0, n
  {
    if n > 0 {
      EntriesPass(sheet, n - 1, dynamic, indent, used);
      var own := sheet.EntryOutput(n - 1, dynamic, indent, used);
      match sheet.styles[n - 1] {
        case StyleEntry(s) =>
        case MediaEntry(m) =>
          BlockPass(m, dynamic, indent, used);
          forall i | 0 <= i < |own| && own[i].StyleRender? ensures own[i].indent >= indent { }
      }
      PassedAppend(sheet.Entries(n - 1, dynamic, indent, used), own, dynamic, indent, used);
      PassedAppend(sheet.Entries(n - 1, dynamic, indent, used) + own, [Write("\n\n")], dynamic, indent, used);
    }
  }

  /** Inside a MediaSet's block every style is one level deeper than the block itself. */
  lemma {:induction false} BlockPass(media: StyleSheet, dynamic: bool, indent: nat, used: set<Styles.Style>)
    requires media.Valid() && media.scope.Some?
    ensures Passed(media.Block(dynamic, indent, used), dynamic, indent + 1, used)
    decreases media.Repr, 1
  {
    var head := [Write(MediaQuery.Header(media.scope.value.minWidth, media.scope.value.maxWidth)), Write("{\n")];
    EntriesPass(media, |media.styles|, dynamic, indent + 1, used);
    PassedAppend(head, media.Entries(|media.styles|, dynamic, indent + 1, used), dynamic, indent + 1, used);
    PassedAppend(head + media.Entries(|media.styles|, dynamic, indent + 1, used), [Write("}\n")], dynamic, indent + 1, used);
  }

  /**
   * A class-name tuple joined with `__` splits back into the same tuple
   * when no name contains `__` and no name but the last ends in `_`.
   */
  lemma ClassKeyRoundTrip(names: seq<string>)
    requires |names| >= 1
    requires forall i :: 0 <= i < |names| ==> Text.Free(names[i], KeySeparator)
    requires forall i :: 0 <= i < |names| - 1 ==> names[i] == [] || names[i][|names[i]| - 1] != '_'
    ensures Text.Split(Text.Join(KeySeparator, names), KeySeparator) == names
  {
    forall i | 0 <= i < |names| - 1 ensures Text.Separable(names[i], KeySeparator) {
      var p := names[i];
      forall j | 0 <= j < |p| ensures !Text.OccursAt(p + KeySeparator, KeySeparator, j) {
        if j + 2 <= |p| {
          assert !Text.OccursAt(p, KeySeparator, j);
          assert (p + KeySeparator)[j..j + 2] == p[j..j + 2];
        } else {
          assert (p + KeySeparator)[j] == p[|p| - 1];
        }
      }
    }
    Text.SplitJoin(names, KeySeparator);
  }

  /** Different entry counts give different automatic names. */
  lemma AutoNameInjective(a: nat, b: nat)
    ensures AutoName(a) == AutoName(b) <==> a == b
  {
    if AutoName(a) == AutoName(b) {
      assert AutoName(a)[2..] == Text.NatToString(a);
      assert AutoName(b)[2..] == Text.NatToString(b);
      Text.NatToStringInjective(a, b);
    }
  }

  /** Different lookup keys split into different class-name tuples. */
  lemma KeySplitInjective(key1: string, key2: string)
    ensures Text.Split(key1, KeySeparator) == Text.Split(key2, KeySeparator) <==> key1 == key2
  {
    Text.JoinSplit(key1, KeySeparator);
    Text.JoinSplit(key2, KeySeparator);
  }

  /** The key `_c<n>` of an automatically named style splits back into its one-name tuple. */
  lemma AutoNameRoundTrip(count: nat)
    ensures Text.Split(AutoName(count), KeySeparator) == [AutoName(count)]
  {
    var name := AutoName(count);
    var digits := Text.NatToString(count);
    forall j | 0 <= j < |name| ensures !Text.OccursAt(name, KeySeparator, j) {
      if j + 2 <= |name| {
        assert name[j..j + 2][1] == name[j + 1];
        if j == 0 {
          assert name[1] == 'c';
        } else {
          assert name[j + 1] == digits[j - 1];
        }
      }
    }
    Text.SplitFree(name, KeySeparator);
  }
}
