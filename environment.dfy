/**
 * The SCons construction environment the build script configures: a
 * dictionary from variable names to values that `Replace` overwrites and
 * `Append` extends, both in place.
 */
module Environment {

  /** One element of a list-valued variable: a word, or a `(NAME, VALUE)` pair as in CPPDEFINES. */
  datatype Item = Word(word: string) | Define(name: string, value: string)

  /** A builder registered under BUILDERS: the command it runs, the message it prints, the suffix it gives its target. */
  datatype BuilderSpec = BuilderSpec(command: string, message: string, suffix: string)

  /** A construction variable's value: a string, a list, or the table of builders. */
  datatype Value =
    | Str(s: string)
    | List(items: seq<Item>)
    | Builders(table: map<string, BuilderSpec>)

  /** A list of plain words. */
  function Words(ws: seq<string>): seq<Item> {
    seq(|ws|, i requires 0 <= i < |ws| => Word(ws[i]))
  }

  /** `env.get(key, default)` */
  function Lookup(vars: map<string, Value>, key: string, default: Value): Value {
    if key in vars then vars[key] else default
  }

  /** Every value in `vars` is a list. */
  predicate ListValued(vars: map<string, Value>) {
    forall k :: k in vars ==> vars[k].List?
  }

  /**
   * What `Append` stores when `key` already holds `orig` and `val` is
   * appended: two lists or two strings are concatenated, a non-empty string
   * joins a list as one more word on the side it came from, two builder
   * tables are merged with the new entries winning.
   */
  function AppendValue(orig: Value, val: Value): (r: Value)
    ensures orig.List? && val.List? ==> r == List(orig.items + val.items)
    ensures orig.Str? && val.Str? ==> r == Str(orig.s + val.s)
  {
    match (orig, val)
    case (List(a), List(b)) => List(a + b)
    case (Str(s), Str(t)) => Str(s + t)
    case (Str(s), List(b)) => List(if s == [] then b else [Word(s)] + b)
    case (List(a), Str(t)) => List(if t == [] then a else a + [Word(t)])
    case (Builders(m), Builders(n)) => Builders(m + n)
    case _ => val
  }

  /**
   * The variables after `Append(kw)`: every key of `kw` is appended to (or
   * set, when it was absent), and every other key keeps its value.
   */
  function Appended(vars: map<string, Value>, kw: map<string, Value>): (r: map<string, Value>)
    ensures r.Keys == vars.Keys + kw.Keys
    ensures forall k :: k in vars && k !in kw ==> r[k] == vars[k]
    ensures forall k :: k in kw && k !in vars ==> r[k] == kw[k]
    ensures forall k :: k in kw && k in vars ==> r[k] == AppendValue(vars[k], kw[k])
  {
    map k | k in vars.Keys + kw.Keys ::
      if k !in kw then vars[k]
      else if k in vars then AppendValue(vars[k], kw[k])
      else kw[k]
  }

  /**
   * Appending to a list keeps every old element where it was and puts the
   * new elements after all of them, in their given order.
   */
  lemma AppendKeepsOrder(vars: map<string, Value>, kw: map<string, Value>, key: string)
    requires key in vars && key in kw && vars[key].List? && kw[key].List?
    ensures Appended(vars, kw)[key].List?
    ensures var before, added, r := vars[key].items, kw[key].items, Appended(vars, kw)[key].items;
      |r| == |before| + |added| &&
      (forall i :: 0 <= i < |before| ==> r[i] == before[i]) &&
      (forall j :: 0 <= j < |added| ==> r[|before| + j] == added[j])
  {
  }

  /**
   * For list-valued variables, two appends in a row are one append of the
   * two updates appended to each other: `Append(a); Append(b)` leaves the
   * same lists as `Append(a + b)`.
   */
  lemma AppendTwice(vars: map<string, Value>, kw1: map<string, Value>, kw2: map<string, Value>)
    requires ListValued(vars) && ListValued(kw1) && ListValued(kw2)
    ensures Appended(Appended(vars, kw1), kw2) == Appended(vars, Appended(kw1, kw2))
  {
    var lhs, rhs := Appended(Appended(vars, kw1), kw2), Appended(vars, Appended(kw1, kw2));
    forall k | k in lhs.Keys
      ensures k in rhs && lhs[k] == rhs[k]
    {
      if k in vars && k in kw1 && k in kw2 {
        assert vars[k].items + kw1[k].items + kw2[k].items == vars[k].items + (kw1[k].items + kw2[k].items);
      }
    }
    assert lhs.Keys == rhs.Keys;
  }

  /** The construction environment, changed in place by `Replace` and `Append`. */
  class Env {
    var vars: map<string, Value>

    constructor (initial: map<string, Value>)
      ensures vars == initial
    {
      vars := initial;
    }

    /** `env.get(key, default)` */
    function Get(key: string, default: Value): Value
      reads this
    {
      Lookup(vars, key, default)
    }

    /** `env.Replace(**kw)`: every key of `kw` now holds its new value; nothing else changes. */
    method Replace(kw: map<string, Value>)
      modifies this
      ensures vars == old(vars) + kw
      ensures forall k :: k in kw ==> k in vars && vars[k] == kw[k]
      ensures forall k :: k in old(vars) && k !in kw ==> k in vars && vars[k] == old(vars)[k]
      ensures vars.Keys == old(vars).Keys + kw.Keys
    {
      vars := vars + kw;
    }

    /** `env.Append(**kw)`: every key of `kw` is extended as `AppendValue` says; nothing else changes. */
    method Append(kw: map<string, Value>)
      modifies this
      ensures vars == Appended(old(vars), kw)
      ensures forall k :: k in old(vars) && k !in kw ==> k in vars && vars[k] == old(vars)[k]
      ensures forall k :: k in old(vars) && k in kw && old(vars)[k].List? && kw[k].List? ==>
        vars[k] == List(old(vars)[k].items + kw[k].items)
    {
      vars := Appended(vars, kw);
    }
  }
}
