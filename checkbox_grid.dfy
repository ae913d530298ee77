// frontend/components/ui/forms/CheckboxCardGrid.tsx: the multi-select card
// grid. Selected options are identified by their key (the option's id when it
// has one, else its value); toggling a key flips its membership and emits the
// selection in the options' order.
module CheckboxGrid {
  import opened Results
  import opened Seqs

  datatype CheckboxOption = CheckboxOption(caption: string, value: int, id: Option<int>)

  /** keyOf: the option's id when it has one, else its value. */
  function KeyOf(o: CheckboxOption): (k: int)
    ensures o.id.Some? ==> k == o.id.value
    ensures o.id.None? ==> k == o.value
  {
    if o.id.Some? then o.id.value else o.value
  }

  /** `options.map(keyOf)`. */
  function OptionKeys(options: seq<CheckboxOption>): seq<int>
  {
    seq(|options|, i requires 0 <= i < |options| => KeyOf(options[i]))
  }

  /** The set `toggle` ends with: `values` with `key` removed when present, added when absent. */
  function ToggledSet(values: seq<int>, key: int): set<int>
  {
    var s := set v | v in values;
    if key in s then s - {key} else s + {key}
  }

  /** `options.map(keyOf).filter(k => set.has(k))`. */
  function Emit(options: seq<CheckboxOption>, s: set<int>): (r: seq<int>)
    ensures forall x | x in r :: x in s && x in OptionKeys(options)
    ensures forall i | 0 <= i < |options| && KeyOf(options[i]) in s :: KeyOf(options[i]) in r
    decreases |options|
  {
    if options == [] then []
    else
      var init := Emit(options[..|options| - 1], s);
      var k := KeyOf(options[|options| - 1]);
      assert forall i | 0 <= i < |options| - 1 :: options[..|options| - 1][i] == options[i];
      assert OptionKeys(options[..|options| - 1]) == OptionKeys(options)[..|options| - 1];
      assert OptionKeys(options)[|options| - 1] == k;
      if k in s then init + [k] else init
  }

  /**
   * toggle: a set built from `values`, the key deleted or added in place, then
   * the option keys in the set, in the options' order.
   */
  method Toggle(values: seq<int>, options: seq<CheckboxOption>, key: int) returns (next: seq<int>)
    ensures next == Emit(options, ToggledSet(values, key))
  {
    var s := set v | v in values;
    if key in s {
      s := s - {key};
    } else {
      s := s + {key};
    }
    next := [];
    for i := 0 to |options|
      invariant next == Emit(options[..i], s)
    {
      assert options[..i + 1][..i] == options[..i];
      var k := KeyOf(options[i]);
      if k in s {
        next := next + [k];
      }
    }
    assert options[..|options|] == options;
  }

  /** The emitted keys follow the options' order. */
  lemma {:induction false} EmitInOptionOrder(options: seq<CheckboxOption>, s: set<int>)
    ensures SubsequenceOf(Emit(options, s), OptionKeys(options))
    decreases |options|
  {
    if options != [] {
      var n := |options| - 1;
      EmitInOptionOrder(options[..n], s);
      assert OptionKeys(options)[..n] == OptionKeys(options[..n]);
      var r := Emit(options, s);
      assert OptionKeys(options[..n]) + [KeyOf(options[n])] == OptionKeys(options);
      if KeyOf(options[n]) in s {
        SubsequenceSnocBoth(Emit(options[..n], s), OptionKeys(options[..n]), KeyOf(options[n]));
      } else {
        SubsequenceSnoc(Emit(options[..n], s), OptionKeys(options[..n]), KeyOf(options[n]));
      }
    }
  }

  /** Emission only looks at option keys: sets that agree on them emit the same list. */
  lemma {:induction false} EmitOnlyOptionKeys(options: seq<CheckboxOption>, s1: set<int>, s2: set<int>)
    requires forall i | 0 <= i < |options| :: KeyOf(options[i]) in s1 <==> KeyOf(options[i]) in s2
    ensures Emit(options, s1) == Emit(options, s2)
    decreases |options|
  {
    if options != [] {
      var n := |options| - 1;
      assert forall i | 0 <= i < n :: options[..n][i] == options[i];
      EmitOnlyOptionKeys(options[..n], s1, s2);
    }
  }

  /**
   * After toggling an option key, that key is selected exactly when it was not
   * before, every other option key keeps its membership, and nothing but option
   * keys is emitted.
   */
  lemma ToggleSpec(values: seq<int>, options: seq<CheckboxOption>, key: int)
    ensures key in OptionKeys(options) ==> (key in Emit(options, ToggledSet(values, key)) <==> key !in values)
    ensures forall k | k in OptionKeys(options) && k != key ::
      k in Emit(options, ToggledSet(values, key)) <==> k in values
    ensures forall k | k in Emit(options, ToggledSet(values, key)) :: k in OptionKeys(options)
    ensures SubsequenceOf(Emit(options, ToggledSet(values, key)), OptionKeys(options))
  {
    EmitInOptionOrder(options, ToggledSet(values, key));
  }

  /** Toggling the same key twice gives `values` in the options' order, without keys no option has. */
  lemma DoubleToggle(values: seq<int>, options: seq<CheckboxOption>, key: int)
    ensures Emit(options, ToggledSet(Emit(options, ToggledSet(values, key)), key)) == Emit(options, set v | v in values)
  {
    var s1 := ToggledSet(values, key);
    var next := Emit(options, s1);
    var s2 := ToggledSet(next, key);
    forall i | 0 <= i < |options|
      ensures KeyOf(options[i]) in s2 <==> KeyOf(options[i]) in (set v | v in values)
    {
      var k := KeyOf(options[i]);
      assert k in OptionKeys(options) by {
        assert OptionKeys(options)[i] == k;
      }
      assert k in next <==> k in s1;
    }
    EmitOnlyOptionKeys(options, s2, set v | v in values);
  }
}
