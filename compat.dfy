/**
 Where the two entry points agree and where they part: `buildObject`
 (index.ts) against the older `buildObjectBetter` (index.js), on calls that
 both accept. Keys are strings and name themselves.
 */
module Compat {
  import opened Js
  import BuildObject
  import BuildObjectBetter

  /** A string names the property of the same name. */
  function Identity(s: string): string
  {
    s
  }

  /**
   The value supplier `buildObject` receives in place of a value generator of
   `buildObjectBetter`: the same array, object or primitive, and for a
   function the same function, given the element, its index and all elements.
   */
  function AsValueSupplier<V>(values: BuildObjectBetter.Values<string, V>): BuildObject.Values<string, V>
  {
    match values
    case Callback(g) => Callback((k: Key, i: nat, keys: seq<Key>, e: string, es: seq<string>) => g(e, i, es))
    case ArrayOf(items) => ArrayOf(items)
    case Lookup(source) => Lookup(source)
    case Primitive(p) => Primitive(p)
  }

  /** With any value supplier but `null`, both two-argument forms build the same object from a key list. */
  lemma TwoArgsAgree<V>(keys: seq<string>, values: BuildObjectBetter.Values<string, V>)
    requires !(values.Primitive? && values.value.Null?)
    ensures BuildObjectBetter.GeneratedObject(Some(keys), values, Identity)
         == Ok(BuildObject.TwoArgObject(BuildObject.Elements(keys), AsValueSupplier(values), Identity))
  {
    var step := BuildObjectBetter.GeneratorStep(values, Identity, keys);
    var indexed := BuildObjectBetter.Indexed(keys);
    var ts := AsValueSupplier(values);
    var (elements, tsKeys) := BuildObject.KeysAndElements(BuildObject.Elements(keys), Identity);
    var pairs := BuildObject.ValuePairs(elements, tsKeys, ts);
    forall i | 0 <= i < |indexed|
      ensures step(indexed[i]) == Write(pairs[i].0, pairs[i].1)
    {
      assert indexed[i] == (i, keys[i]);
      assert elements == keys;
      assert tsKeys[i] == Some(Identity(keys[i]));
      assert pairs[i] == (keys[i], BuildObject.SuppliedValue(ts, tsKeys, elements, i));
      assert BuildObjectBetter.Generated(values, Identity, keys[i], i, keys)
          == Ok(BuildObject.SuppliedValue(ts, tsKeys, elements, i));
      assert step(indexed[i]) == Write(Identity(keys[i]), BuildObject.SuppliedValue(ts, tsKeys, elements, i));
    }
    WritesAll(indexed, step);
    assert Writes(indexed, step).value == pairs;
  }

  /**
   A `null` value supplier: `buildObject` gives every key the value `null`,
   while `buildObjectBetter` throws on any non-empty key list.
   */
  lemma NullSupplierDiffers<V>(keys: seq<string>)
    requires 0 < |keys|
    ensures BuildObjectBetter.GeneratedObject<string, V>(Some(keys), Primitive(Null), Identity) == Err(NullAccess)
    ensures forall k ::
      (k in BuildObject.TwoArgObject<string, V>(BuildObject.Elements(keys), Primitive(Null), Identity).props <==> k in keys)
    ensures forall k | k in BuildObject.TwoArgObject<string, V>(BuildObject.Elements(keys), Primitive(Null), Identity).props ::
      BuildObject.TwoArgObject<string, V>(BuildObject.Elements(keys), Primitive(Null), Identity).props[k] == Null
  {
    BuildObjectBetter.NullGenerator<string, V>(keys, Identity);
    var (elements, tsKeys) := BuildObject.KeysAndElements(BuildObject.Elements(keys), Identity);
    var ts: BuildObject.Values<string, V> := Primitive(Null);
    BuildObject.ValuesObjectContents(elements, tsKeys, ts);
    var o := BuildObject.ValuesObject(elements, tsKeys, ts);
    assert forall i | 0 <= i < |keys| :: PropertyKey(tsKeys[i]) == keys[i];
    forall k | k in o.props ensures o.props[k] == Null {
      BuildObject.ValuesObjectSupplied(elements, tsKeys, ts, k);
    }
  }

  /**
   A single iterable that holds only array entries, or only entry objects, is
   read alike by both entry points.
   */
  lemma OneArgUniformAgree<V>(items: seq<Entry<V>>)
    requires (forall i | 0 <= i < |items| :: items[i].Pair?) || (forall i | 0 <= i < |items| :: items[i].Labeled?)
    ensures BuildObject.OneArgObject(Iterable(items)) == BuildObjectBetter.OneArgObject(Iterable(items))
  {
    if |items| > 0 {
      WritesAgree(items, BuildObject.EntryReader(items[0]), BuildObjectBetter.EntryStep);
    }
  }

  /** index.ts reads both elements of `items` as array entries; the second is not one. */
  lemma MixedEntriesFail(items: seq<Entry<int>>)
    requires items == [Pair("a", Defined(1)), Labeled("b", Defined(2))]
    ensures BuildObject.OneArgObject(Iterable(items)) == Err(NotIterable)
  {
    assert items[..2] == items;
    var read: Entry<int> -> Step<Value<int>> := BuildObject.EntryReader(items[0]);
    assert read == BuildObject.ReadAsPair;
    assert read(items[0]) == Write("a", Defined(1));
    assert read(items[1]) == Throw(NotIterable);
    WritesStep(items, read, 0);
    assert Writes(items[..1], read).Ok?;
    WritesStep(items, read, 1);
  }

  /** index.js handles each element of `items` on its own and writes both. */
  lemma MixedEntriesWritten(items: seq<Entry<int>>)
    requires items == [Pair("a", Defined(1)), Labeled("b", Defined(2))]
    ensures Writes(items, BuildObjectBetter.EntryStep) == Ok([("a", Defined(1)), ("b", Defined(2))])
  {
    assert items[..2] == items;
    assert |items[..0]| == 0;
    var step: Entry<int> -> Step<Value<int>> := BuildObjectBetter.EntryStep;
    var a: (string, Value<int>) := ("a", Defined(1));
    var b: (string, Value<int>) := ("b", Defined(2));
    var none: seq<(string, Value<int>)> := [];
    assert step(items[0]) == Write(a.0, a.1);
    assert step(items[1]) == Write(b.0, b.1);
    WritesStep(items, step, 0);
    assert Writes(items[..0], step) == Ok(none);
    assert none + [a] == [a];
    WritesStep(items, step, 1);
    assert [a] + [b] == [a, b];
  }

  /** Assigning `a` and then `b` to `{}`. */
  lemma TwoAssignments()
    ensures FromPairs([("a", Defined(1)), ("b", Defined(2))]) == Props(["a", "b"], map["a" := Defined(1), "b" := Defined(2)])
  {
    var a: (string, Value<int>) := ("a", Defined(1));
    var b: (string, Value<int>) := ("b", Defined(2));
    var none: seq<(string, Value<int>)> := [];
    FromPairsSnoc(none, a.0, a.1);
    FromPairsSnoc([a], b.0, b.1);
    assert none + [a] == [a] && [a] + [b] == [a, b];
    var empty: Obj<Value<int>> := Empty();
    assert FromPairs(none) == empty;
    var keys: seq<string> := [];
    assert keys + ["a"] == ["a"] && ["a"] + ["b"] == ["a", "b"];
    assert FromPairs([a]) == Props(["a"], map["a" := Defined(1)]);
    assert map["a" := Defined(1)]["b" := Defined(2)] == map["a" := Defined(1), "b" := Defined(2)];
  }

  /**
   A mixed iterable is read differently: when an array entry comes first,
   `buildObject` fails on the entry object that follows, and
   `buildObjectBetter` writes both.
   */
  lemma MixedEntriesDiffer()
    ensures BuildObject.OneArgObject<int>(Iterable([Pair("a", Defined(1)), Labeled("b", Defined(2))])) == Err(NotIterable)
    ensures BuildObjectBetter.OneArgObject<int>(Iterable([Pair("a", Defined(1)), Labeled("b", Defined(2))])).Ok?
    ensures BuildObjectBetter.OneArgObject<int>(Iterable([Pair("a", Defined(1)), Labeled("b", Defined(2))])).value.props
         == map["a" := Defined(1), "b" := Defined(2)]
  {
    MixedEntriesFail([Pair("a", Defined(1)), Labeled("b", Defined(2))]);
    MixedEntriesWritten([Pair("a", Defined(1)), Labeled("b", Defined(2))]);
    TwoAssignments();
  }
}
