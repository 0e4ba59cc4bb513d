/**
 The older JavaScript entry point `buildObjectBetter` (index.js). A single
 argument is read as an iterable of entries or shallow-copied; any other call
 builds an object from a list of keys and a value generator, reading only its
 first two arguments. `toKey` stands for the property-key conversion of a key.
 */
module BuildObjectBetter {
  import opened Js

  /** A value-generator function `(k, i, keys) => value`. */
  type Generator<!K, V> = (K, nat, seq<K>) -> Value<V>

  /** The value generator as passed: a function, an array, an object (or `null`), or another primitive. */
  type Values<!K, V> = ValueSupplier<Generator<K, V>, V>

  /** The function the generator is resolved into: it returns a value, or throws. */
  type Resolved<!K, V> = (K, nat, seq<K>) -> Result<Value<V>>

  /** The arguments one call of the resolved generator receives. */
  type GeneratorCall<K> = (K, nat, seq<K>)

  /**
   A call of `buildObjectBetter`: no arguments, one argument, or a key list
   (`None` when the first argument is not iterable), a value generator and
   `extra` further arguments that are never read.
   */
  datatype Call<!K, V> =
    | NoArgs
    | Single(source: Source<V>)
    | Several(keys: Option<seq<K>>, values: Values<K, V>, extra: nat)

  function ArgCount<K, V>(call: Call<K, V>): nat
  {
    match call
    case NoArgs => 0
    case Single(_) => 1
    case Several(_, _, extra) => 2 + extra
  }

  // ---------------------------------------------------------------------------
  // Two or more arguments

  /**
   What the resolved generator returns for key `k` at index `i`: a function is
   called as is, an array is indexed by position, any other `typeof "object"`
   value (`null` included) is indexed by key, and any other value is a constant.
   */
  function Generated<K, V>(values: Values<K, V>, toKey: K -> string, k: K, i: nat, keys: seq<K>): (r: Result<Value<V>>)
    ensures r.Err? <==> values.Primitive? && values.value.Null?
    ensures r.Err? ==> r.error == NullAccess
    ensures values.Callback? ==> r == Ok(values.f(k, i, keys))
    ensures IsArray(values) ==> r == Ok(if i < |values.items| then values.items[i] else Undefined)
    ensures values.Lookup? ==> r == Ok(if toKey(k) in values.source.props then values.source.props[toKey(k)] else Undefined)
    ensures TypeOf(values) == UndefinedTag || TypeOf(values) == OtherPrimitiveTag ==> r == Ok(values.value)
  {
    match values
    case Callback(g) => Ok(g(k, i, keys))
    case ArrayOf(items) => Ok(At(items, i))
    case Lookup(source) => Ok(Read(source, toKey(k)))
    case Primitive(p) =>
      match p
      case Null => Err(NullAccess)
      case _ => Ok(p)
  }

  /** The keys paired with their positions, in iteration order. */
  function Indexed<K>(keys: seq<K>): (r: seq<(nat, K)>)
    ensures |r| == |keys|
    ensures forall i | 0 <= i < |keys| :: r[i] == (i, keys[i])
  {
    seq(|keys|, i requires 0 <= i < |keys| => (i, keys[i]))
  }

  /** One turn of the keyed loop: `o[k] = valueGenerator(k, i, keys)`. */
  function GeneratorStep<K, V>(values: Values<K, V>, toKey: K -> string, keys: seq<K>): (((nat, K)) -> Step<Value<V>>)
  {
    (p: (nat, K)) =>
      match Generated(values, toKey, p.1, p.0, keys)
      case Ok(v) => Write(toKey(p.1), v)
      case Err(e) => Throw(e)
  }

  /** The reference result of `fromTwoArgs(keys, valueGenerator)`. */
  function GeneratedObject<K, V>(keys: Option<seq<K>>, values: Values<K, V>, toKey: K -> string): Result<Obj<Value<V>>>
  {
    match keys
    case None => Err(NotIterable)
    case Some(ks) => Assigned(Writes(Indexed(ks), GeneratorStep(values, toKey, ks)))
  }

  /** The calls made to the generator over a whole key list: `(k, i, keys)` with `i` counting from 0. */
  function GeneratorCalls<K>(keys: seq<K>): (calls: seq<GeneratorCall<K>>)
    ensures |calls| == |keys|
    ensures forall i | 0 <= i < |keys| :: calls[i] == (keys[i], i, keys)
  {
    seq(|keys|, i requires 0 <= i < |keys| => (keys[i], i, keys))
  }

  /**
   The first half of `fromTwoArgs`: anything but a function is replaced by a
   closure over it, which then behaves as `Generated` says.
   */
  method ResolveGenerator<K, V>(valueGenerator: Values<K, V>, toKey: K -> string) returns (generator: Resolved<K, V>)
    ensures forall k, i, ks :: generator(k, i, ks) == Generated(valueGenerator, toKey, k, i, ks)
  {
    if TypeOf(valueGenerator) != FunctionTag {
      if IsArray(valueGenerator) {
        var values := valueGenerator.items;
        generator := (k: K, i: nat, ks: seq<K>) => Ok(At(values, i));
      } else if TypeOf(valueGenerator) == ObjectTag {
        if valueGenerator.Lookup? {
          var source := valueGenerator.source;
          generator := (k: K, i: nat, ks: seq<K>) => Ok(Read(source, toKey(k)));
        } else {
          generator := (k: K, i: nat, ks: seq<K>) => Err(NullAccess);
        }
      } else {
        var constantValue := valueGenerator.value;
        generator := (k: K, i: nat, ks: seq<K>) => Ok(constantValue);
      }
    } else {
      var g := valueGenerator.f;
      generator := (k: K, i: nat, ks: seq<K>) => Ok(g(k, i, ks));
    }
  }

  /** A turn of the keyed loop whose generator call returns assigns that value. */
  lemma GeneratorLoopStep<K, V>(ks: seq<K>, values: Values<K, V>, toKey: K -> string, i: nat, done: seq<(string, Value<V>)>)
    requires i < |ks|
    requires Writes(Indexed(ks)[..i], GeneratorStep(values, toKey, ks)) == Ok(done)
    requires Generated(values, toKey, ks[i], i, ks).Ok?
    ensures Writes(Indexed(ks)[..i + 1], GeneratorStep(values, toKey, ks))
         == Ok(done + [(toKey(ks[i]), Generated(values, toKey, ks[i], i, ks).value)])
  {
    WritesStep(Indexed(ks), GeneratorStep(values, toKey, ks), i);
    assert Indexed(ks)[i] == (i, ks[i]);
  }

  /** A turn of the keyed loop whose generator call throws makes the whole build throw. */
  lemma GeneratorLoopAbort<K, V>(ks: seq<K>, values: Values<K, V>, toKey: K -> string, i: nat)
    requires i < |ks|
    requires Writes(Indexed(ks)[..i], GeneratorStep(values, toKey, ks)).Ok?
    requires Generated(values, toKey, ks[i], i, ks).Err?
    ensures GeneratedObject(Some(ks), values, toKey) == Err(Generated(values, toKey, ks[i], i, ks).error)
  {
    var step := GeneratorStep(values, toKey, ks);
    WritesStep(Indexed(ks), step, i);
    assert Indexed(ks)[i] == (i, ks[i]);
    WritesAbort(Indexed(ks), step, i + 1);
  }

  /**
   `fromTwoArgs(keys, valueGenerator)`. `calls` lists the calls made to the
   resolved generator: one per key, in order, up to the first that throws.
   */
  method FromTwoArgs<K, V>(keys: Option<seq<K>>, valueGenerator: Values<K, V>, toKey: K -> string)
    returns (r: Result<Obj<Value<V>>>, ghost calls: seq<GeneratorCall<K>>)
    ensures r == GeneratedObject(keys, valueGenerator, toKey)
    ensures keys.Some? ==> |calls| <= |keys.value| && calls == GeneratorCalls(keys.value)[..|calls|]
    ensures keys.Some? && r.Ok? ==> |calls| == |keys.value|
    ensures keys.Some? && r.Err? ==>
      && 0 < |calls|
      && Generated(valueGenerator, toKey, keys.value[|calls| - 1], |calls| - 1, keys.value).Err?
    ensures keys.Some? && r.Err? ==> |calls| == 1
  {
    var o: Obj<Value<V>> := Empty();
    calls := [];
    var generator := ResolveGenerator(valueGenerator, toKey);
    if keys.None? {
      return Err(NotIterable), [];
    }
    var ks := keys.value;
    ghost var step := GeneratorStep(valueGenerator, toKey, ks);
    ghost var indexed := Indexed(ks);
    ghost var done: seq<(string, Value<V>)> := [];
    for i := 0 to |ks|
      invariant Writes(indexed[..i], step) == Ok(done)
      invariant o == FromPairs(done)
      invariant calls == GeneratorCalls(ks)[..i]
      invariant 0 < i ==> !(valueGenerator.Primitive? && valueGenerator.value.Null?)
    {
      var k := ks[i];
      var v := generator(k, i, ks);
      calls := calls + [(k, i, ks)];
      PrefixSnoc(GeneratorCalls(ks), i);
      assert v == Generated(valueGenerator, toKey, ks[i], i, ks);
      if v.Err? {
        GeneratorLoopAbort(ks, valueGenerator, toKey, i);
        assert i == 0 && |calls| == 1;
        return Err(v.error), calls;
      }
      GeneratorLoopStep(ks, valueGenerator, toKey, i, done);
      FromPairsSnoc(done, toKey(k), v.value);
      done := done + [(toKey(k), v.value)];
      o := Put(o, toKey(k), v.value);
    }
    assert indexed[..|ks|] == indexed;
    assert GeneratorCalls(ks)[..|ks|] == GeneratorCalls(ks);
    return Ok(o), calls;
  }

  // ---------------------------------------------------------------------------
  // One argument

  /**
   How one element of the single iterable is handled: an array entry and an
   entry object are written, reading a property of `null` throws, and any
   other element is skipped.
   */
  function EntryStep<V>(e: Entry<V>): (r: Step<Value<V>>)
    ensures r.Throw? <==> e.NullEntry?
    ensures r.Throw? ==> r.error == NullAccess
    ensures r.Skip? <==> e.Scalar?
    ensures r.Write? ==> r.key == e.key && r.value == e.value
  {
    match e
    case Pair(k, v) => Write(k, v)
    case Labeled(k, v) => Write(k, v)
    case NullEntry => Throw(NullAccess)
    case Scalar => Skip
  }

  /** The reference result of `fromOneArg(entries)`. */
  function OneArgObject<V>(entries: Source<V>): Result<Obj<Value<V>>>
  {
    match entries
    case Plain(o) => Ok(Copy(o))
    case Iterable(items) => Assigned(Writes(items, EntryStep))
  }

  /** `fromOneArg(entries)` */
  method FromOneArg<V>(entries: Source<V>) returns (r: Result<Obj<Value<V>>>)
    ensures r == OneArgObject(entries)
  {
    if entries.Iterable? {
      var items := entries.items;
      var o: Obj<Value<V>> := Empty();
      for i := 0 to |items|
        invariant Writes(items[..i], EntryStep).Ok?
        invariant o == FromPairs(Writes(items[..i], EntryStep).value)
      {
        WritesStep(items, EntryStep, i);
        var e := items[i];
        match e
        case Pair(key, value) =>
          FromPairsSnoc(Writes(items[..i], EntryStep).value, key, value);
          o := Put(o, key, value);
        case Labeled(key, value) =>
          FromPairsSnoc(Writes(items[..i], EntryStep).value, key, value);
          o := Put(o, key, value);
        case NullEntry =>
          WritesAbort(items, EntryStep, i + 1);
          return Err(NullAccess);
        case Scalar =>
      }
      assert items[..|items|] == items;
      return Ok(o);
    } else {
      return Ok(Copy(entries.obj));
    }
  }

  // ---------------------------------------------------------------------------
  // Dispatch

  /** The reference result of `buildObjectBetter(...args)`. */
  function Built<K, V>(call: Call<K, V>, toKey: K -> string): Result<Obj<Value<V>>>
  {
    match call
    case Single(source) => OneArgObject(source)
    case NoArgs => GeneratedObject(None, Primitive(Undefined), toKey)
    case Several(keys, values, _) => GeneratedObject(keys, values, toKey)
  }

  /** `buildObjectBetter(...args)` */
  method BuildObjectBetter<K, V>(call: Call<K, V>, toKey: K -> string) returns (r: Result<Obj<Value<V>>>)
    ensures r == Built(call, toKey)
  {
    ghost var calls;
    if ArgCount(call) == 1 {
      r := FromOneArg(call.source);
    } else if call.NoArgs? {
      r, calls := FromTwoArgs(None, Primitive(Undefined), toKey);
    } else {
      r, calls := FromTwoArgs(call.keys, call.values, toKey);
    }
  }

  // ---------------------------------------------------------------------------
  // Properties

  /**
   Exactly one argument goes to the one-argument form; any other count goes to
   the keyed form, which reads only the first two arguments, so that a call
   without arguments throws for want of an iterable.
   */
  lemma Dispatch<K, V>(call: Call<K, V>, toKey: K -> string, more: nat)
    ensures ArgCount(call) == 1 <==> call.Single?
    ensures call.NoArgs? ==> Built(call, toKey) == Err(NotIterable)
    ensures call.Several? ==> Built(call, toKey) == Built(Several(call.keys, call.values, more), toKey)
  {
  }

  /**
   A null value generator fails on the first key it is asked for: the build
   succeeds exactly when the key list is empty, and then gives `{}`.
   */
  lemma NullGenerator<K, V>(keys: seq<K>, toKey: K -> string)
    ensures GeneratedObject<K, V>(Some(keys), Primitive(Null), toKey).Ok? <==> |keys| == 0
    ensures |keys| == 0 ==> GeneratedObject<K, V>(Some(keys), Primitive(Null), toKey) == Ok(Empty())
    ensures |keys| > 0 ==> GeneratedObject<K, V>(Some(keys), Primitive(Null), toKey) == Err(NullAccess)
  {
    var step := GeneratorStep<K, V>(Primitive(Null), toKey, keys);
    var indexed := Indexed(keys);
    WritesSucceeds(indexed, step);
    if |keys| > 0 {
      assert step(indexed[0]).Throw?;
      WritesStep(indexed, step, 0);
      WritesAbort(indexed, step, 1);
    }
  }

  /**
   With any generator but `null`, every key is written: the result has
   exactly the keys of the list, each holding the value generated at the last
   index where the key occurs.
   */
  lemma GeneratedContents<K, V>(keys: seq<K>, values: Values<K, V>, toKey: K -> string)
    requires !(values.Primitive? && values.value.Null?)
    ensures GeneratedObject(Some(keys), values, toKey).Ok?
    ensures forall k :: k in GeneratedObject(Some(keys), values, toKey).value.props <==>
      exists i | 0 <= i < |keys| :: toKey(keys[i]) == k
    ensures forall i | 0 <= i < |keys| && (forall j | i < j < |keys| :: toKey(keys[j]) != toKey(keys[i])) ::
      Ok(GeneratedObject(Some(keys), values, toKey).value.props[toKey(keys[i])]) == Generated(values, toKey, keys[i], i, keys)
    ensures KeysInWriteOrder(GeneratedObject(Some(keys), values, toKey).value, Indexed(keys), GeneratorStep(values, toKey, keys))
  {
    var step := GeneratorStep(values, toKey, keys);
    var indexed := Indexed(keys);
    assert forall i | 0 <= i < |indexed| :: step(indexed[i]) == Write(toKey(keys[i]), Generated(values, toKey, keys[i], i, keys).value);
    WritesContents(indexed, step);
    WritesOrder(indexed, step);
    var o := GeneratedObject(Some(keys), values, toKey).value;
    forall k ensures k in o.props <==> exists i | 0 <= i < |keys| :: toKey(keys[i]) == k {
      if k in o.props {
        var i :| 0 <= i < |indexed| && step(indexed[i]).Write? && step(indexed[i]).key == k;
        assert toKey(keys[i]) == k;
      }
    }
    forall i | 0 <= i < |keys| && (forall j | i < j < |keys| :: toKey(keys[j]) != toKey(keys[i]))
      ensures Ok(o.props[toKey(keys[i])]) == Generated(values, toKey, keys[i], i, keys)
    {
      assert FinalWrite(indexed, step, i);
    }
  }

  /**
   Each element of a single iterable is handled on its own: the build succeeds
   exactly when no element is `null`, and then the object holds the writes of
   the array entries and entry objects, the last write to a key winning, with
   every other element skipped.
   */
  lemma OneArgElementwise<V>(items: seq<Entry<V>>)
    ensures OneArgObject(Iterable(items)).Ok? <==> forall i | 0 <= i < |items| :: !items[i].NullEntry?
    ensures OneArgObject(Iterable(items)).Err? ==> OneArgObject(Iterable(items)).error == NullAccess
    ensures OneArgObject(Iterable(items)).Ok? ==> HoldsWrites(OneArgObject(Iterable(items)).value, items, EntryStep)
    ensures OneArgObject(Iterable(items)).Ok? ==> KeysInWriteOrder(OneArgObject(Iterable(items)).value, items, EntryStep)
  {
    WritesSucceeds(items, EntryStep);
    if Writes(items, EntryStep).Err? {
      WritesFailure(items, EntryStep);
    } else {
      WritesContents(items, EntryStep);
      WritesOrder(items, EntryStep);
    }
  }

  /** A single non-iterable argument gives `Object.assign({}, entries)`, a shallow copy. */
  lemma OneArgShallowCopy<V>(o: Obj<Value<V>>)
    ensures OneArgObject(Plain(o)) == Ok(o)
  {
    CopyIsFaithful(o);
  }
}
