/**
 * The rule table of a Style: a Python dict from CSS property name to value,
 * kept in insertion order. Assigning a new key appends it; assigning an
 * existing key replaces its value where it stands.
 */
module RuleMap {
  import opened Wrappers

  /** One declaration: a property name and the text of its value. */
  type Rule = (string, string)

  /** The property names, in table order. */
  function Keys(rules: seq<Rule>): seq<string>
  {
    seq(|rules|, i requires 0 <= i < |rules| => rules[i].0)
  }

  /** No property name appears twice (what a dict guarantees). */
  predicate UniqueKeys(rules: seq<Rule>)
  {
    forall i, j :: 0 <= i < j < |rules| ==> rules[i].0 != rules[j].0
  }

  /** Position of `attr` in the table, or `|rules|` when it is absent. */
  function IndexOf(rules: seq<Rule>, attr: string): (i: nat)
    ensures i <= |rules|
    ensures i < |rules| <==> attr in Keys(rules)
    ensures i < |rules| ==> rules[i].0 == attr
    ensures forall j :: 0 <= j < i ==> rules[j].0 != attr
  {
    if rules == [] then 0
    else
      KeysCons(rules);
      if rules[0].0 == attr then 0 else 1 + IndexOf(rules[1..], attr)
  }

  /** The keys of a non-empty table: its first key, then the keys of the rest. */
  lemma KeysCons(rules: seq<Rule>)
    requires rules != []
    ensures Keys(rules) == [rules[0].0] + Keys(rules[1..])
  {
  }

  /** `rules.get(attr)`. */
  function Lookup(rules: seq<Rule>, attr: string): Option<string>
  {
    var i := IndexOf(rules, attr);
    if i < |rules| then Some(rules[i].1) else None
  }

  /** `rules[attr] = value`. */
  function Set(rules: seq<Rule>, attr: string, value: string): seq<Rule>
  {
    if rules == [] then [(attr, value)]
    else if rules[0].0 == attr then [(attr, value)] + rules[1..]
    else [rules[0]] + Set(rules[1..], attr, value)
  }

  /** `for attr, value in other: rules[attr] = value`, in `other`'s order. */
  function ApplyAll(rules: seq<Rule>, other: seq<Rule>): seq<Rule>
    decreases |other|
  {
    if other == [] then rules
    else ApplyAll(Set(rules, other[0].0, other[0].1), other[1..])
  }

  /**
   * Assignment, position by position: an existing key keeps its slot and
   * only its value changes; a new key is appended after every existing entry.
   */
  lemma {:induction false} SetSpec(rules: seq<Rule>, attr: string, value: string)
    ensures attr in Keys(rules) ==> Set(rules, attr, value) == rules[IndexOf(rules, attr) := (attr, value)]
    ensures attr !in Keys(rules) ==> Set(rules, attr, value) == rules + [(attr, value)]
  {
    if rules != [] {
      KeysCons(rules);
    }
    if rules != [] && rules[0].0 != attr {
      SetSpec(rules[1..], attr, value);
      assert [rules[0]] + rules[1..] == rules;
    }
  }

  /** The first position holding a key is its `IndexOf`. */
  lemma IndexOfAt(rules: seq<Rule>, attr: string, i: nat)
    requires i < |rules| && rules[i].0 == attr
    requires forall j :: 0 <= j < i ==> rules[j].0 != attr
    ensures IndexOf(rules, attr) == i
  {
    assert Keys(rules)[i] == attr;
  }

  /** Looking up a key: the first entry's value if it is that key, else a lookup in the rest. */
  lemma LookupCons(rules: seq<Rule>, key: string)
    requires rules != []
    ensures Lookup(rules, key) == if rules[0].0 == key then Some(rules[0].1) else Lookup(rules[1..], key)
  {
  }

  /** After `rules[attr] = value`, `attr` maps to `value` and every other key keeps its value. */
  lemma {:induction false} SetLookup(rules: seq<Rule>, attr: string, value: string, key: string)
    ensures Lookup(Set(rules, attr, value), key) == if key == attr then Some(value) else Lookup(rules, key)
  {
    var after := Set(rules, attr, value);
    LookupCons(after, key);
    if rules != [] {
      LookupCons(rules, key);
      if rules[0].0 != attr {
        assert after[1..] == Set(rules[1..], attr, value);
        SetLookup(rules[1..], attr, value, key);
      } else {
        assert after[1..] == rules[1..];
      }
    } else {
      assert after[1..] == [];
    }
  }

  /** Assignment keeps the property names distinct and holds exactly one entry for `attr`. */
  lemma SetUnique(rules: seq<Rule>, attr: string, value: string)
    requires UniqueKeys(rules)
    ensures UniqueKeys(Set(rules, attr, value))
    ensures attr in Keys(Set(rules, attr, value))
    ensures |Set(rules, attr, value)| == if attr in Keys(rules) then |rules| else |rules| + 1
  {
    SetSpec(rules, attr, value);
    var after := Set(rules, attr, value);
    if attr !in Keys(rules) {
      forall i | 0 <= i < |rules| ensures rules[i].0 != attr {
        assert Keys(rules)[i] == rules[i].0;
      }
    }
    assert Keys(after)[IndexOf(after, attr)] == attr by {
      if attr in Keys(rules) { IndexOfAt(after, attr, IndexOf(rules, attr)); }
      else { IndexOfAt(after, attr, |rules|); }
    }
  }

  /** Assigning a key the value it already has changes nothing. */
  lemma SetNoop(rules: seq<Rule>, attr: string, value: string)
    requires Lookup(rules, attr) == Some(value)
    ensures Set(rules, attr, value) == rules
  {
    SetSpec(rules, attr, value);
  }

  /** Applying one more entry is one more assignment (the loop step of `apply`). */
  lemma {:induction false} ApplyAllSnoc(rules: seq<Rule>, other: seq<Rule>, entry: Rule)
    ensures ApplyAll(rules, other + [entry]) == Set(ApplyAll(rules, other), entry.0, entry.1)
    decreases |other|
  {
    if other != [] {
      assert (other + [entry])[1..] == other[1..] + [entry];
      ApplyAllSnoc(Set(rules, other[0].0, other[0].1), other[1..], entry);
    }
  }

  /** Applying a table keeps the property names distinct. */
  lemma {:induction false} ApplyAllUnique(rules: seq<Rule>, other: seq<Rule>)
    requires UniqueKeys(rules)
    ensures UniqueKeys(ApplyAll(rules, other))
    decreases |other|
  {
    if other != [] {
      SetUnique(rules, other[0].0, other[0].1);
      ApplyAllUnique(Set(rules, other[0].0, other[0].1), other[1..]);
    }
  }

  /**
   * After applying `other` (distinct keys), every key of `other` holds
   * `other`'s value and every other key holds what it held before.
   */
  lemma {:induction false} ApplyAllLookup(rules: seq<Rule>, other: seq<Rule>, key: string)
    requires UniqueKeys(other)
    ensures Lookup(ApplyAll(rules, other), key) == if key in Keys(other) then Lookup(other, key) else Lookup(rules, key)
    decreases |other|
  {
    if other != [] {
      var head := other[0];
      var tail := other[1..];
      var next := Set(rules, head.0, head.1);
      ApplyAllLookup(next, tail, key);
      SetLookup(rules, head.0, head.1, key);
      assert UniqueKeys(tail);
      KeysCons(other);
      if key == head.0 {
        IndexOfAt(other, key, 0);
        assert key !in Keys(tail) by {
          forall j | 0 <= j < |tail| ensures tail[j].0 != key {
            assert other[j + 1] == tail[j];
          }
        }
      } else if key in Keys(tail) {
        var k := IndexOf(tail, key);
        IndexOfAt(other, key, k + 1);
      }
    }
  }

  /** Applying a table whose entries all already hold changes nothing. */
  lemma {:induction false} ApplyAllNoop(rules: seq<Rule>, other: seq<Rule>)
    requires forall i :: 0 <= i < |other| ==> Lookup(rules, other[i].0) == Some(other[i].1)
    ensures ApplyAll(rules, other) == rules
    decreases |other|
  {
    if other != [] {
      SetNoop(rules, other[0].0, other[0].1);
      forall i | 0 <= i < |other[1..]|
        ensures Lookup(rules, other[1..][i].0) == Some(other[1..][i].1)
      {
        assert other[1..][i] == other[i + 1];
      }
      ApplyAllNoop(rules, other[1..]);
    }
  }

  /** In a table with distinct keys, each entry is what a lookup of its key finds. */
  lemma LookupEntry(rules: seq<Rule>, i: nat)
    requires UniqueKeys(rules) && i < |rules|
    ensures Lookup(rules, rules[i].0) == Some(rules[i].1)
  {
    IndexOfAt(rules, rules[i].0, i);
  }

  /** `apply` is idempotent: applying the same table a second time changes nothing. */
  lemma ApplyAllIdempotent(rules: seq<Rule>, other: seq<Rule>)
    requires UniqueKeys(other)
    ensures ApplyAll(ApplyAll(rules, other), other) == ApplyAll(rules, other)
  {
    var once := ApplyAll(rules, other);
    forall i | 0 <= i < |other|
      ensures Lookup(once, other[i].0) == Some(other[i].1)
    {
      ApplyAllLookup(rules, other, other[i].0);
      assert Keys(other)[i] == other[i].0;
      LookupEntry(other, i);
    }
    ApplyAllNoop(once, other);
  }

  /** Applying a table to itself changes nothing (`s.apply(s)`). */
  lemma ApplyAllSelf(rules: seq<Rule>)
    requires UniqueKeys(rules)
    ensures ApplyAll(rules, rules) == rules
  {
    forall i | 0 <= i < |rules|
      ensures Lookup(rules, rules[i].0) == Some(rules[i].1)
    {
      LookupEntry(rules, i);
    }
    ApplyAllNoop(rules, rules);
  }

  /** Applying never moves or drops an existing entry's key: the old keys stay a prefix. */
  lemma {:induction false} ApplyAllKeepsOrder(rules: seq<Rule>, other: seq<Rule>)
    ensures |ApplyAll(rules, other)| >= |rules|
    ensures Keys(ApplyAll(rules, other))[..|rules|] == Keys(rules)
    decreases |other|
  {
    if other != [] {
      var next := Set(rules, other[0].0, other[0].1);
      SetSpec(rules, other[0].0, other[0].1);
      assert |next| >= |rules|;
      assert Keys(next)[..|rules|] == Keys(rules);
      ApplyAllKeepsOrder(next, other[1..]);
      var after := ApplyAll(rules, other);
      assert Keys(after)[..|next|][..|rules|] == Keys(after)[..|rules|];
    }
  }
}
