/**
 * The query of a request as `URLSearchParams` keeps it: an ordered list of
 * name/value pairs. `set` follows the URL standard: when the name is present the
 * first pair with that name takes the new value and every later pair with that
 * name is removed; otherwise the pair is appended. `get` answers the value of the
 * first pair with the name.
 */
module SearchParams {
  import opened Wrappers

  type Params = seq<(string, string)>

  /** `params.get(name)`: the value of the first pair named `name`. */
  function GetParam(ps: Params, name: string): Option<string>
  {
    if ps == [] then None
    else if ps[0].0 == name then Some(ps[0].1)
    else GetParam(ps[1..], name)
  }

  /** How many pairs are named `name`. */
  function CountParam(ps: Params, name: string): nat
  {
    if ps == [] then 0
    else (if ps[0].0 == name then 1 else 0) + CountParam(ps[1..], name)
  }

  /** `ps` without any pair named `name`. */
  function RemoveAll(ps: Params, name: string): Params
  {
    if ps == [] then []
    else if ps[0].0 == name then RemoveAll(ps[1..], name)
    else [ps[0]] + RemoveAll(ps[1..], name)
  }

  /** The first pair named `name` takes `value`; the later ones are removed. */
  function ReplaceFirst(ps: Params, name: string, value: string): Params
    requires GetParam(ps, name).Some?
  {
    if ps[0].0 == name then [(name, value)] + RemoveAll(ps[1..], name)
    else [ps[0]] + ReplaceFirst(ps[1..], name, value)
  }

  /** `params.set(name, value)`. */
  function SetParam(ps: Params, name: string, value: string): Params
  {
    if GetParam(ps, name).Some? then ReplaceFirst(ps, name, value) else ps + [(name, value)]
  }

  lemma {:induction false} RemoveAllFacts(ps: Params, name: string, other: string)
    ensures GetParam(RemoveAll(ps, name), name) == None
    ensures CountParam(RemoveAll(ps, name), name) == 0
    ensures other != name ==> GetParam(RemoveAll(ps, name), other) == GetParam(ps, other)
    ensures other != name ==> CountParam(RemoveAll(ps, name), other) == CountParam(ps, other)
  {
    if ps != [] {
      RemoveAllFacts(ps[1..], name, other);
    }
  }

  lemma {:induction false} AppendFacts(ps: Params, name: string, value: string, other: string)
    requires GetParam(ps, name) == None
    ensures GetParam(ps + [(name, value)], name) == Some(value)
    ensures CountParam(ps, name) == 0
    ensures other != name ==> GetParam(ps + [(name, value)], other) == GetParam(ps, other)
    ensures other != name ==> CountParam(ps + [(name, value)], other) == CountParam(ps, other)
  {
    if ps != [] {
      assert (ps + [(name, value)])[1..] == ps[1..] + [(name, value)];
      AppendFacts(ps[1..], name, value, other);
    }
  }

  lemma {:induction false} ReplaceFirstFacts(ps: Params, name: string, value: string, other: string)
    requires GetParam(ps, name).Some?
    ensures GetParam(ReplaceFirst(ps, name, value), name) == Some(value)
    ensures CountParam(ReplaceFirst(ps, name, value), name) == 1
    ensures other != name ==> GetParam(ReplaceFirst(ps, name, value), other) == GetParam(ps, other)
    ensures other != name ==> CountParam(ReplaceFirst(ps, name, value), other) == CountParam(ps, other)
  {
    if ps[0].0 == name {
      RemoveAllFacts(ps[1..], name, other);
    } else {
      ReplaceFirstFacts(ps[1..], name, value, other);
    }
  }

  /** After `set`, `get` of that name answers the new value, and the name occurs exactly once. */
  lemma SetThenGet(ps: Params, name: string, value: string)
    ensures GetParam(SetParam(ps, name, value), name) == Some(value)
    ensures CountParam(SetParam(ps, name, value), name) == 1
  {
    if GetParam(ps, name).Some? {
      ReplaceFirstFacts(ps, name, value, name);
    } else {
      AppendFacts(ps, name, value, name);
      assert CountParam(ps + [(name, value)], name) == 1 by {
        CountAppend(ps, (name, value), name);
      }
    }
  }

  lemma {:induction false} CountAppend(ps: Params, p: (string, string), name: string)
    ensures CountParam(ps + [p], name) == CountParam(ps, name) + (if p.0 == name then 1 else 0)
  {
    if ps != [] {
      assert (ps + [p])[1..] == ps[1..] + [p];
      CountAppend(ps[1..], p, name);
    }
  }

  /** `set` of one name changes neither the value nor the number of pairs of any other name. */
  lemma SetLeavesOthers(ps: Params, name: string, value: string, other: string)
    requires other != name
    ensures GetParam(SetParam(ps, name, value), other) == GetParam(ps, other)
    ensures CountParam(SetParam(ps, name, value), other) == CountParam(ps, other)
  {
    if GetParam(ps, name).Some? {
      ReplaceFirstFacts(ps, name, value, other);
    } else {
      AppendFacts(ps, name, value, other);
    }
  }

  /** `ps` without any pair whose name is in `names`, the other pairs in their original order. */
  function Without(ps: Params, names: set<string>): Params
  {
    if ps == [] then []
    else if ps[0].0 in names then Without(ps[1..], names)
    else [ps[0]] + Without(ps[1..], names)
  }

  /**
   * `set` keeps the position of every pair it does not touch: dropping a set of
   * names that includes the one set gives the same list on both sides, in the
   * same order, duplicates included.
   */
  lemma {:induction false} SetKeepsOthers(ps: Params, names: set<string>, name: string, value: string)
    requires name in names
    ensures Without(SetParam(ps, name, value), names) == Without(ps, names)
  {
    if GetParam(ps, name).Some? {
      ReplaceFirstKeepsOthers(ps, names, name, value);
    } else {
      WithoutAppend(ps, (name, value), names);
    }
  }

  lemma {:induction false} ReplaceFirstKeepsOthers(ps: Params, names: set<string>, name: string, value: string)
    requires name in names && GetParam(ps, name).Some?
    ensures Without(ReplaceFirst(ps, name, value), names) == Without(ps, names)
  {
    if ps[0].0 == name {
      WithoutRemoveAll(ps[1..], names, name);
      assert ([(name, value)] + RemoveAll(ps[1..], name))[1..] == RemoveAll(ps[1..], name);
    } else {
      ReplaceFirstKeepsOthers(ps[1..], names, name, value);
      assert ([ps[0]] + ReplaceFirst(ps[1..], name, value))[1..] == ReplaceFirst(ps[1..], name, value);
    }
  }

  lemma {:induction false} WithoutRemoveAll(ps: Params, names: set<string>, name: string)
    requires name in names
    ensures Without(RemoveAll(ps, name), names) == Without(ps, names)
  {
    if ps != [] {
      WithoutRemoveAll(ps[1..], names, name);
      if ps[0].0 != name {
        assert ([ps[0]] + RemoveAll(ps[1..], name))[1..] == RemoveAll(ps[1..], name);
      }
    }
  }

  lemma {:induction false} WithoutAppend(ps: Params, p: (string, string), names: set<string>)
    requires p.0 in names
    ensures Without(ps + [p], names) == Without(ps, names)
  {
    if ps == [] {
      assert Without([p], names) == Without([p][1..], names);
    } else {
      assert (ps + [p])[1..] == ps[1..] + [p];
      WithoutAppend(ps[1..], p, names);
    }
  }
}
