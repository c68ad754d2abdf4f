/**
 * The condition of a `@media(...)` block: a `min-width` clause when the
 * lower bound is truthy, then a `max-width` clause when the upper bound is
 * truthy, joined by a comma and a space.
 */
module MediaQuery {
  import opened Wrappers
  import Text

  /** Python truthiness of an optional width: `None` and `0` are false. */
  predicate Truthy(width: Option<int>)
  {
    width.Some? && width.value != 0
  }

  function MinClause(width: int): string
  {
    "min-width: " + Text.IntToString(width) + "px"
  }

  function MaxClause(width: int): string
  {
    "max-width: " + Text.IntToString(width) + "px"
  }

  /** The clauses of the condition, in the order they are written. */
  function Clauses(minWidth: Option<int>, maxWidth: Option<int>): seq<string>
  {
    (if Truthy(minWidth) then [MinClause(minWidth.value)] else [])
    + (if Truthy(maxWidth) then [MaxClause(maxWidth.value)] else [])
  }

  /** The text between the parentheses of `@media(...)`. */
  function Query(minWidth: Option<int>, maxWidth: Option<int>): string
  {
    Text.Join(", ", Clauses(minWidth, maxWidth))
  }

  /** The opening line of a media block, before its brace. */
  function Header(minWidth: Option<int>, maxWidth: Option<int>): string
  {
    "@media(" + Query(minWidth, maxWidth) + ")"
  }

  /** The condition case by case: both clauses, one of them, or nothing. */
  lemma QueryCases(minWidth: Option<int>, maxWidth: Option<int>)
    ensures Query(minWidth, maxWidth) ==
      if Truthy(minWidth) && Truthy(maxWidth) then MinClause(minWidth.value) + ", " + MaxClause(maxWidth.value)
      else if Truthy(minWidth) then MinClause(minWidth.value)
      else if Truthy(maxWidth) then MaxClause(maxWidth.value)
      else ""
  {
    if Truthy(minWidth) && Truthy(maxWidth) {
      Text.JoinPair(", ", MinClause(minWidth.value), MaxClause(maxWidth.value));
    }
  }

  /** A rendered width holds no comma. */
  lemma NoCommaIn(width: int)
    ensures ',' !in MinClause(width) && ',' !in MaxClause(width)
  {
    var digits := Text.IntToString(width);
    forall k | 0 <= k < |digits| ensures digits[k] != ',' {
      assert digits[k] == '-' || '0' <= digits[k] <= '9';
    }
  }

  /** The header is the bare `@media()` exactly when neither bound is truthy. */
  lemma EmptyQuery(minWidth: Option<int>, maxWidth: Option<int>)
    ensures Query(minWidth, maxWidth) == "" <==> !Truthy(minWidth) && !Truthy(maxWidth)
    ensures Header(minWidth, maxWidth) == "@media()" <==> !Truthy(minWidth) && !Truthy(maxWidth)
  {
    QueryCases(minWidth, maxWidth);
    var h := Header(minWidth, maxWidth);
    if h == "@media()" {
      assert |h| == 8 + |Query(minWidth, maxWidth)|;
    }
  }

  /** A comma appears in the condition exactly when both bounds are truthy. */
  lemma CommaIffBoth(minWidth: Option<int>, maxWidth: Option<int>)
    ensures ',' in Query(minWidth, maxWidth) <==> Truthy(minWidth) && Truthy(maxWidth)
  {
    QueryCases(minWidth, maxWidth);
    if Truthy(minWidth) {
      NoCommaIn(minWidth.value);
      if Truthy(maxWidth) {
        assert Query(minWidth, maxWidth)[|MinClause(minWidth.value)|] == ',';
      }
    }
    if Truthy(maxWidth) {
      NoCommaIn(maxWidth.value);
    }
  }

  /**
   * The `min-width` clause comes first whenever the lower bound is truthy,
   * and the condition starts with `min-width: ` only then.
   */
  lemma MinWidthFirst(minWidth: Option<int>, maxWidth: Option<int>)
    ensures Truthy(minWidth) ==> Query(minWidth, maxWidth)[..|MinClause(minWidth.value)|] == MinClause(minWidth.value)
    ensures var q := Query(minWidth, maxWidth); (|q| >= 11 && q[..11] == "min-width: ") <==> Truthy(minWidth)
  {
    var q := Query(minWidth, maxWidth);
    QueryCases(minWidth, maxWidth);
    if !Truthy(minWidth) && Truthy(maxWidth) {
      assert q == MaxClause(maxWidth.value);
      assert q[1] == 'a';
    }
  }

  /**
   * The `max-width` clause ends the condition whenever the upper bound is
   * truthy; otherwise the condition is the `min-width` clause alone, or empty.
   */
  lemma MaxWidthLast(minWidth: Option<int>, maxWidth: Option<int>)
    ensures Truthy(maxWidth) ==>
      var q := Query(minWidth, maxWidth);
      var c := MaxClause(maxWidth.value);
      |q| >= |c| && q[|q| - |c|..] == c
    ensures !Truthy(maxWidth) ==>
      Query(minWidth, maxWidth) == if Truthy(minWidth) then MinClause(minWidth.value) else ""
  {
    QueryCases(minWidth, maxWidth);
  }
}
