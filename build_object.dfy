/**
 The TypeScript entry point `buildObject` (index.ts). It dispatches on the
 number of arguments to three builders:
 - one argument: read an iterable of entries, or shallow-copy an object;
 - two arguments: derive keys and elements from an iterable or an object,
   then compute a value for every key;
 - three arguments: materialise the elements, compute every key with a key
   supplier, then compute every value with a value supplier.
 `toKey` stands for `String(e)`, the host's conversion of an element to a
 property name.
 */
module BuildObject {
  import opened Js

  /** A key-supplier function `(e, i, elements) => key`. */
  type KeyFunc<!E> = (E, nat, seq<E>) -> string

  /** A value-supplier function `(k, i, keys, e, elements) => value`. */
  type ValueFunc<!E, V> = (Key, nat, seq<Key>, E, seq<E>) -> Value<V>

  /** The value supplier of the two- and three-argument forms. */
  type Values<!E, V> = ValueSupplier<ValueFunc<E, V>, V>

  /** The arguments a value-supplier function receives on one call. */
  type ValueCall<E> = (Key, nat, seq<Key>, E, seq<E>)

  /**
   The key supplier of the three-argument form: a function, an array of keys,
   an object mapping each element (as a property name) to its key, `null`, or
   a primitive (a string, number, boolean, bigint, symbol or `undefined`).
   */
  datatype KeySupplier<!E> =
    | KeyCallback(g: KeyFunc<E>)
    | KeyArray(names: seq<string>)
    | KeyTable(table: Obj<string>)
    | NullKeys
    | PrimitiveKeys

  /** The first argument of the two-argument form: an iterable, or an object. */
  datatype KeyAndElementSource<E> = Elements(items: seq<E>) | Properties(obj: Obj<E>)

  /** An argument count that no builder accepts. */
  type OtherCount = n: nat | n == 0 || 3 < n

  /** A call of `buildObject`, by the number and shapes of its arguments. */
  datatype Call<!E, V> =
    | One(source: Source<V>)
    | Two(pairsFrom: KeyAndElementSource<E>, values: Values<E, V>)
    | Three(elements: Option<seq<E>>, keys: KeySupplier<E>, values: Values<E, V>)
    | Other(count: OtherCount)

  function ArgCount<E, V>(call: Call<E, V>): nat
  {
    match call
    case One(_) => 1
    case Two(_, _) => 2
    case Three(_, _, _) => 3
    case Other(n) => n
  }

  // ---------------------------------------------------------------------------
  // Type guards

  /** `typeof s` of a key supplier. */
  function KeyTypeOf<E>(s: KeySupplier<E>): TypeTag
  {
    match s
    case KeyCallback(_) => FunctionTag
    case KeyArray(_) => ObjectTag
    case KeyTable(_) => ObjectTag
    case NullKeys => ObjectTag
    case PrimitiveKeys => OtherPrimitiveTag
  }

  /** `typeof o === "function"` */
  predicate IsKeyFunc<E>(o: KeySupplier<E>)
    ensures IsKeyFunc(o) <==> o.KeyCallback?
  {
    KeyTypeOf(o) == FunctionTag
  }

  /** `Array.isArray(o)` */
  predicate IsKeyArray<E>(o: KeySupplier<E>)
    ensures IsKeyArray(o) <==> o.KeyArray?
    ensures IsKeyArray(o) ==> KeyTypeOf(o) == ObjectTag
  {
    o.KeyArray?
  }

  /** `typeof o === "function"` */
  predicate IsValueFunc<E, V>(o: Values<E, V>)
    ensures IsValueFunc(o) <==> o.Callback?
  {
    TypeOf(o) == FunctionTag
  }

  /** `Array.isArray(o)` */
  predicate IsValueArray<E, V>(o: Values<E, V>)
    ensures IsValueArray(o) <==> o.ArrayOf?
    ensures IsValueArray(o) ==> TypeOf(o) == ObjectTag && !IsPrimitive(o)
  {
    IsArray(o)
  }

  /**
   `typeof o` is "string", "number", "boolean", "bigint", "symbol" or
   "undefined", or `o` is `null`: exactly the primitive suppliers, `null`
   and `undefined` included.
   */
  predicate IsPrimitive<E, V>(o: Values<E, V>)
    ensures IsPrimitive(o) <==> o.Primitive?
  {
    match TypeOf(o)
    case UndefinedTag => true
    case OtherPrimitiveTag => true
    case FunctionTag => false
    case ObjectTag =>
      match o
      case Primitive(Null) => true
      case _ => false
  }

  /** `typeof o[Symbol.iterator] === "function"`: an iterable, not an object to copy. */
  predicate IsIterable<V>(o: Source<V>)
    ensures IsIterable(o) <==> !o.Plain?
  {
    o.Iterable?
  }

  /** `Array.isArray(o)` on an entry: exactly the elements `[key, value]` destructuring accepts. */
  predicate IsEntry<V>(o: Entry<V>)
    ensures IsEntry(o) <==> ReadAsPair(o).Write?
  {
    o.Pair?
  }

  // ---------------------------------------------------------------------------
  // One argument

  /** `const [key, value] = e`: only an array entry is iterable. */
  function ReadAsPair<V>(e: Entry<V>): (r: Step<Value<V>>)
    ensures !r.Skip?
    ensures r.Write? <==> e.Pair?
    ensures r.Write? ==> r.key == e.key && r.value == e.value
    ensures r.Throw? ==> r.error == NotIterable
  {
    match e
    case Pair(k, v) => Write(k, v)
    case _ => Throw(NotIterable)
  }

  /**
   `const { key, value } = e`: an array or a primitive has neither property, so
   both read as `undefined` and the write goes to the property "undefined";
   destructuring `null` throws.
   */
  function ReadAsLabeled<V>(e: Entry<V>): (r: Step<Value<V>>)
    ensures !r.Skip?
    ensures r.Throw? <==> e.NullEntry?
    ensures r.Throw? ==> r.error == NullAccess
    ensures e.Labeled? ==> r.Write? && r.key == e.key && r.value == e.value
    ensures (e.Pair? || e.Scalar?) ==> r.Write? && r.key == "undefined" && r.value == Undefined
  {
    match e
    case Labeled(k, v) => Write(k, v)
    case NullEntry => Throw(NullAccess)
    case _ => Write("undefined", Undefined)
  }

  /** How every element is read, as decided by the first element. */
  function EntryReader<V>(first: Entry<V>): Entry<V> -> Step<Value<V>>
  {
    if IsEntry(first) then ReadAsPair else ReadAsLabeled
  }

  /** The reference result of `fromOneArg(source)`. */
  function OneArgObject<V>(source: Source<V>): Result<Obj<Value<V>>>
  {
    match source
    case Plain(o) => Ok(Copy(o))
    case Iterable(items) =>
      if |items| == 0 then Ok(Empty())
      else Assigned(Writes(items, EntryReader(items[0])))
  }

  /** `fromOneArg(source)` */
  method FromOneArg<V>(source: Source<V>) returns (r: Result<Obj<Value<V>>>)
    ensures r == OneArgObject(source)
  {
    if IsIterable(source) {
      var elements: seq<Entry<V>> := [];
      for j := 0 to |source.items|
        invariant elements == source.items[..j]
      {
        elements := elements + [source.items[j]];
      }
      assert elements == source.items;
      if |elements| == 0 {
        return Ok(Empty());
      }
      var first := elements[0];
      var o: Obj<Value<V>> := Empty();
      ghost var read := EntryReader(first);
      if IsEntry(first) {
        for i := 0 to |elements|
          invariant Writes(elements[..i], read).Ok?
          invariant o == FromPairs(Writes(elements[..i], read).value)
        {
          WritesStep(elements, read, i);
          match ReadAsPair(elements[i])
          case Throw(e) =>
            WritesAbort(elements, read, i + 1);
            return Err(e);
          case Write(key, value) =>
            FromPairsSnoc(Writes(elements[..i], read).value, key, value);
            o := Put(o, key, value);
          case Skip =>
        }
      } else {
        for i := 0 to |elements|
          invariant Writes(elements[..i], read).Ok?
          invariant o == FromPairs(Writes(elements[..i], read).value)
        {
          WritesStep(elements, read, i);
          match ReadAsLabeled(elements[i])
          case Throw(e) =>
            WritesAbort(elements, read, i + 1);
            return Err(e);
          case Write(key, value) =>
            FromPairsSnoc(Writes(elements[..i], read).value, key, value);
            o := Put(o, key, value);
          case Skip =>
        }
      }
      assert elements[..|elements|] == elements;
      return Ok(o);
    } else {
      return Ok(Copy(source.obj));
    }
  }

  // ---------------------------------------------------------------------------
  // Key and element lists

  /** A string array seen as a key list. */
  function AsKeys(names: seq<string>): (keys: seq<Key>)
    ensures |keys| == |names|
    ensures forall i | 0 <= i < |names| :: keys[i] == Some(names[i])
  {
    seq(|names|, i requires 0 <= i < |names| => Some(names[i]))
  }

  /** The reference result of `getKeysAndElements(source)`: (elements, keys). */
  function KeysAndElements<E>(source: KeyAndElementSource<E>, toKey: E -> string): (seq<E>, seq<Key>)
  {
    match source
    case Elements(items) =>
      (items, seq(|items|, i requires 0 <= i < |items| => Some(toKey(items[i]))))
    case Properties(o) =>
      (seq(|o.keys|, i requires 0 <= i < |o.keys| => o.props[o.keys[i]]), AsKeys(o.keys))
  }

  /** `getKeysAndElements(source)` */
  method GetKeysAndElements<E(0)>(source: KeyAndElementSource<E>, toKey: E -> string)
    returns (elements: seq<E>, keys: seq<Key>)
    ensures |elements| == |keys|
    ensures source.Elements? ==>
      && elements == source.items
      && forall i | 0 <= i < |keys| :: keys[i] == Some(toKey(elements[i]))
    ensures source.Properties? ==>
      && keys == AsKeys(source.obj.keys)
      && forall i | 0 <= i < |keys| :: elements[i] == source.obj.props[source.obj.keys[i]]
    ensures (elements, keys) == KeysAndElements(source, toKey)
  {
    if source.Elements? {
      elements := [];
      for j := 0 to |source.items|
        invariant elements == source.items[..j]
      {
        elements := elements + [source.items[j]];
      }
      assert elements == source.items;
      keys := seq(|elements|, _ => None);
      if |elements| == 0 {
        assert keys == KeysAndElements(source, toKey).1;
        return [], keys;
      }
      for i := 0 to |elements|
        invariant |keys| == |elements|
        invariant forall j | 0 <= j < i :: keys[j] == Some(toKey(elements[j]))
      {
        keys := keys[i := Some(toKey(elements[i]))];
      }
      assert keys == KeysAndElements(source, toKey).1;
    } else {
      var names := source.obj.keys;
      keys := AsKeys(names);
      var hole: E := *;
      elements := seq(|keys|, _ => hole);
      for i := 0 to |keys|
        invariant |elements| == |keys|
        invariant forall j | 0 <= j < i :: elements[j] == source.obj.props[names[j]]
      {
        elements := elements[i := source.obj.props[names[i]]];
      }
      assert elements == KeysAndElements(source, toKey).0;
    }
  }

  /**
   `getElements(source)`: `[...source]`, where `None` is a source that is not
   iterable and the spread throws.
   */
  function GetElements<E>(source: Option<seq<E>>): (elements: Result<seq<E>>)
    ensures elements.Err? <==> source.None?
    ensures elements.Err? ==> elements.error == NotIterable
    ensures elements.Ok? ==> |elements.value| == |source.value|
    ensures elements.Ok? ==> forall i | 0 <= i < |source.value| :: elements.value[i] == source.value[i]
  {
    match source
    case None => Err(NotIterable)
    case Some(items) => Ok(items)
  }

  /** `keySupplier[e]` where `typeof keySupplier === "object"`. */
  function KeyProperty<E>(keySupplier: KeySupplier<E>, name: string): (r: Result<Key>)
    requires keySupplier.KeyTable? || keySupplier.NullKeys?
    ensures r.Err? <==> keySupplier.NullKeys?
    ensures r.Err? ==> r.error == NullAccess
    ensures r.Ok? ==> (r.value.Some? <==> name in keySupplier.table.props)
    ensures r.Ok? && r.value.Some? ==> r.value.value == keySupplier.table.props[name]
  {
    match keySupplier
    case KeyTable(t) => Ok(Get(t, name))
    case NullKeys => Err(NullAccess)
  }

  /** The reference result of `getKeys(elements, keySupplier)`. */
  function KeysOf<E>(elements: seq<E>, keySupplier: KeySupplier<E>, toKey: E -> string): (r: Result<seq<Key>>)
    ensures r.Err? <==> keySupplier.PrimitiveKeys? || (keySupplier.NullKeys? && |elements| > 0)
    ensures r.Err? ==> r.error == if keySupplier.PrimitiveKeys? then InvalidKeySupplier else NullAccess
    ensures r.Ok? ==> |r.value| == |elements|
    ensures keySupplier.KeyCallback? ==>
      forall i | 0 <= i < |elements| :: r.value[i] == Some(keySupplier.g(elements[i], i, elements))
    ensures keySupplier.KeyArray? ==>
      forall i | 0 <= i < |elements| :: r.value[i] == NameAt(keySupplier.names, i)
    ensures keySupplier.KeyTable? ==>
      forall i | 0 <= i < |elements| :: r.value[i] == Get(keySupplier.table, toKey(elements[i]))
  {
    match keySupplier
    case KeyCallback(g) =>
      Ok(seq(|elements|, i requires 0 <= i < |elements| => Some(g(elements[i], i, elements))))
    case KeyArray(names) =>
      Ok(seq(|elements|, i requires 0 <= i < |elements| => NameAt(names, i)))
    case KeyTable(t) =>
      Ok(seq(|elements|, i requires 0 <= i < |elements| => Get(t, toKey(elements[i]))))
    case NullKeys =>
      if |elements| == 0 then Ok([]) else Err(NullAccess)
    case PrimitiveKeys =>
      Err(InvalidKeySupplier)
  }

  /** `getKeys(elements, keySupplier)` */
  method GetKeys<E>(elements: seq<E>, keySupplier: KeySupplier<E>, toKey: E -> string)
    returns (r: Result<seq<Key>>)
    ensures r == KeysOf(elements, keySupplier, toKey)
  {
    var keys: seq<Key> := seq(|elements|, _ => None);
    if IsKeyFunc(keySupplier) {
      for i := 0 to |elements|
        invariant |keys| == |elements|
        invariant forall j | 0 <= j < i :: keys[j] == Some(keySupplier.g(elements[j], j, elements))
      {
        var e := elements[i];
        var k := keySupplier.g(e, i, elements);
        keys := keys[i := Some(k)];
      }
      assert keys == KeysOf(elements, keySupplier, toKey).value;
    } else if IsKeyArray(keySupplier) {
      for i := 0 to |elements|
        invariant |keys| == |elements|
        invariant forall j | 0 <= j < i :: keys[j] == NameAt(keySupplier.names, j)
      {
        var k := NameAt(keySupplier.names, i);
        keys := keys[i := k];
      }
      assert keys == KeysOf(elements, keySupplier, toKey).value;
    } else if KeyTypeOf(keySupplier) == ObjectTag {
      for i := 0 to |elements|
        invariant |keys| == |elements|
        invariant keySupplier.KeyTable? ==>
          forall j | 0 <= j < i :: keys[j] == Get(keySupplier.table, toKey(elements[j]))
        invariant keySupplier.NullKeys? ==> i == 0
      {
        var e := elements[i];
        var k := KeyProperty(keySupplier, toKey(e));
        if k.Err? {
          return Err(k.error);
        }
        keys := keys[i := k.value];
      }
      assert keys == KeysOf(elements, keySupplier, toKey).value;
    } else {
      return Err(InvalidKeySupplier);
    }
    return Ok(keys);
  }

  // ---------------------------------------------------------------------------
  // Values

  /** The value the supplier gives for key `i`. */
  function SuppliedValue<E, V>(values: Values<E, V>, keys: seq<Key>, elements: seq<E>, i: nat): Value<V>
    requires i < |keys| == |elements|
  {
    match values
    case Callback(f) => f(keys[i], i, keys, elements[i], elements)
    case ArrayOf(items) => At(items, i)
    case Primitive(p) => p
    case Lookup(source) => Read(source, PropertyKey(keys[i]))
  }

  /** The assignments `getValues` performs, in order. */
  function ValuePairs<E, V>(elements: seq<E>, keys: seq<Key>, values: Values<E, V>): (pairs: seq<(string, Value<V>)>)
    requires |keys| == |elements|
    ensures |pairs| == |keys|
    ensures forall i | 0 <= i < |keys| :: pairs[i] == (PropertyKey(keys[i]), SuppliedValue(values, keys, elements, i))
  {
    seq(|keys|, i requires 0 <= i < |keys| => (PropertyKey(keys[i]), SuppliedValue(values, keys, elements, i)))
  }

  /** The reference result of `getValues(elements, keys, valueSupplier)`. */
  function ValuesObject<E, V>(elements: seq<E>, keys: seq<Key>, values: Values<E, V>): Obj<Value<V>>
    requires |keys| == |elements|
  {
    FromPairs(ValuePairs(elements, keys, values))
  }

  /** The calls `getValues` makes to a value-supplier function: one per key, in order. */
  function ValueCalls<E>(elements: seq<E>, keys: seq<Key>): (calls: seq<ValueCall<E>>)
    requires |keys| == |elements|
    ensures |calls| == |keys|
    ensures forall i | 0 <= i < |keys| :: calls[i] == (keys[i], i, keys, elements[i], elements)
  {
    seq(|keys|, i requires 0 <= i < |keys| => (keys[i], i, keys, elements[i], elements))
  }

  /**
   `getValues(elements, keys, valueSupplier)`. `calls` lists the calls made to
   a value-supplier function.
   */
  method GetValues<E, V>(elements: seq<E>, keys: seq<Key>, valueSupplier: Values<E, V>)
    returns (obj: Obj<Value<V>>, ghost calls: seq<ValueCall<E>>)
    requires |keys| == |elements|
    ensures obj == ValuesObject(elements, keys, valueSupplier)
    ensures calls == if valueSupplier.Callback? then ValueCalls(elements, keys) else []
  {
    ghost var pairs := ValuePairs(elements, keys, valueSupplier);
    obj := Empty();
    calls := [];
    if IsValueFunc(valueSupplier) {
      for i := 0 to |keys|
        invariant obj == FromPairs(pairs[..i])
        invariant calls == ValueCalls(elements, keys)[..i]
      {
        var k := keys[i];
        var v := valueSupplier.f(k, i, keys, elements[i], elements);
        ValuePairsStep(elements, keys, valueSupplier, i);
        obj := Put(obj, PropertyKey(k), v);
        PrefixSnoc(ValueCalls(elements, keys), i);
        calls := calls + [(k, i, keys, elements[i], elements)];
      }
      assert ValueCalls(elements, keys)[..|keys|] == ValueCalls(elements, keys);
    } else if IsValueArray(valueSupplier) {
      for i := 0 to |keys|
        invariant obj == FromPairs(pairs[..i])
      {
        var k := keys[i];
        ValuePairsStep(elements, keys, valueSupplier, i);
        obj := Put(obj, PropertyKey(k), At(valueSupplier.items, i));
      }
    } else if IsPrimitive(valueSupplier) {
      for i := 0 to |keys|
        invariant obj == FromPairs(pairs[..i])
      {
        var k := keys[i];
        ValuePairsStep(elements, keys, valueSupplier, i);
        obj := Put(obj, PropertyKey(k), valueSupplier.value);
      }
    } else {
      for i := 0 to |keys|
        invariant obj == FromPairs(pairs[..i])
      {
        var k := keys[i];
        ValuePairsStep(elements, keys, valueSupplier, i);
        obj := Put(obj, PropertyKey(k), Read(valueSupplier.source, PropertyKey(k)));
      }
    }
    assert pairs[..|keys|] == pairs;
  }

  /** One more turn of a `getValues` loop. */
  lemma ValuePairsStep<E, V>(elements: seq<E>, keys: seq<Key>, values: Values<E, V>, i: nat)
    requires i < |keys| == |elements|
    ensures FromPairs(ValuePairs(elements, keys, values)[..i + 1])
         == Put(FromPairs(ValuePairs(elements, keys, values)[..i]), PropertyKey(keys[i]), SuppliedValue(values, keys, elements, i))
  {
    var pairs := ValuePairs(elements, keys, values);
    PrefixSnoc(pairs, i);
    FromPairsSnoc(pairs[..i], PropertyKey(keys[i]), SuppliedValue(values, keys, elements, i));
  }

  // ---------------------------------------------------------------------------
  // Two and three arguments

  /** The reference result of `fromTwoArgs(source, valueSupplier)`. */
  function TwoArgObject<E, V>(source: KeyAndElementSource<E>, values: Values<E, V>, toKey: E -> string): Obj<Value<V>>
  {
    var (elements, keys) := KeysAndElements(source, toKey);
    ValuesObject(elements, keys, values)
  }

  /**
   `fromTwoArgs(source, valueSupplier)`. `calls` lists the calls made to a
   value-supplier function.
   */
  method FromTwoArgs<E(0), V>(source: KeyAndElementSource<E>, valueSupplier: Values<E, V>, toKey: E -> string)
    returns (obj: Obj<Value<V>>, ghost calls: seq<ValueCall<E>>)
    ensures obj == TwoArgObject(source, valueSupplier, toKey)
    ensures var (elements, keys) := KeysAndElements(source, toKey);
      calls == if valueSupplier.Callback? then ValueCalls(elements, keys) else []
  {
    var elements, keys := GetKeysAndElements(source, toKey);
    obj, calls := GetValues(elements, keys, valueSupplier);
  }

  /** The reference result of `fromThreeArgs(source, keySupplier, valueSupplier)`. */
  function ThreeArgObject<E, V>(source: Option<seq<E>>, keySupplier: KeySupplier<E>, values: Values<E, V>, toKey: E -> string)
    : Result<Obj<Value<V>>>
  {
    match source
    case None => Err(NotIterable)
    case Some(elements) =>
      match KeysOf(elements, keySupplier, toKey)
      case Err(e) => Err(e)
      case Ok(keys) => Ok(ValuesObject(elements, keys, values))
  }

  /**
   `fromThreeArgs(source, keySupplier, valueSupplier)`. `calls` lists the calls
   made to a value-supplier function; every key is computed before the first.
   */
  method FromThreeArgs<E, V>(source: Option<seq<E>>, keySupplier: KeySupplier<E>, valueSupplier: Values<E, V>, toKey: E -> string)
    returns (r: Result<Obj<Value<V>>>, ghost calls: seq<ValueCall<E>>)
    ensures r == ThreeArgObject(source, keySupplier, valueSupplier, toKey)
    ensures source.None? ==> r == Err(NotIterable)
    ensures calls ==
      if r.Ok? && valueSupplier.Callback? then ValueCalls(source.value, KeysOf(source.value, keySupplier, toKey).value) else []
  {
    var spread := GetElements(source);
    if spread.Err? {
      return Err(spread.error), [];
    }
    var elements := spread.value;
    var keys := GetKeys(elements, keySupplier, toKey);
    if keys.Err? {
      return Err(keys.error), [];
    }
    var obj;
    obj, calls := GetValues(elements, keys.value, valueSupplier);
    return Ok(obj), calls;
  }

  // ---------------------------------------------------------------------------
  // Dispatch

  /** The reference result of `buildObject(...args)`. */
  function Built<E, V>(call: Call<E, V>, toKey: E -> string): Result<Obj<Value<V>>>
  {
    match call
    case One(source) => OneArgObject(source)
    case Two(source, values) => Ok(TwoArgObject(source, values, toKey))
    case Three(source, keys, values) => ThreeArgObject(source, keys, values, toKey)
    case Other(_) => Err(IncorrectNumberOfArguments)
  }

  /** `buildObject(...args)` */
  method BuildObject<E(0), V>(call: Call<E, V>, toKey: E -> string) returns (r: Result<Obj<Value<V>>>)
    ensures r == Built(call, toKey)
  {
    match call
    case One(source) =>
      r := FromOneArg(source);
    case Two(source, values) =>
      ghost var calls;
      var obj;
      obj, calls := FromTwoArgs(source, values, toKey);
      r := Ok(obj);
    case Three(source, keys, values) =>
      ghost var calls;
      r, calls := FromThreeArgs(source, keys, values, toKey);
    case Other(_) =>
      r := Err(IncorrectNumberOfArguments);
  }

  // ---------------------------------------------------------------------------
  // Properties

  /** Only one, two or three arguments are accepted; any other count throws. */
  lemma {:induction false} ArgumentCount<E, V>(call: Call<E, V>, toKey: E -> string)
    ensures (Built(call, toKey).Err? && Built(call, toKey).error == IncorrectNumberOfArguments)
        <==> ArgCount(call) !in {1, 2, 3}
  {
    match call
    case One(Iterable(items)) =>
      if |items| > 0 && Writes(items, EntryReader(items[0])).Err? {
        WritesFailure(items, EntryReader(items[0]));
      }
    case _ =>
  }

  /** An empty iterable gives `{}`, both as the single argument and as the source of two. */
  lemma EmptyIterable<E, V>(values: Values<E, V>, toKey: E -> string)
    ensures OneArgObject<V>(Iterable([])) == Ok(Empty())
    ensures TwoArgObject(Elements([]), values, toKey) == Empty()
  {
  }

  /**
   A single non-iterable argument gives a shallow copy: the source's own keys,
   in the source's order, each mapped to the identical value.
   */
  lemma OneArgShallowCopy<V>(o: Obj<Value<V>>)
    ensures OneArgObject(Plain(o)).Ok?
    ensures OneArgObject(Plain(o)).value.keys == o.keys
    ensures OneArgObject(Plain(o)).value.props == o.props
  {
    CopyIsFaithful(o);
  }

  /**
   When the first element is an array, every element is read as `[key, value]`:
   the build succeeds exactly when every element is an array entry, and then
   the object has the keys of the entries, each holding the value of the last
   entry with that key.
   */
  lemma OneArgReadsPairs<V>(items: seq<Entry<V>>)
    requires 0 < |items| && items[0].Pair?
    ensures OneArgObject(Iterable(items)).Ok? <==> forall i | 0 <= i < |items| :: items[i].Pair?
    ensures OneArgObject(Iterable(items)).Err? ==> OneArgObject(Iterable(items)).error == NotIterable
    ensures OneArgObject(Iterable(items)).Ok? ==> HoldsWrites(OneArgObject(Iterable(items)).value, items, ReadAsPair)
    ensures OneArgObject(Iterable(items)).Ok? ==> KeysInWriteOrder(OneArgObject(Iterable(items)).value, items, ReadAsPair)
  {
    var read := EntryReader(items[0]);
    WritesSucceeds(items, read);
    if Writes(items, read).Err? {
      WritesFailure(items, read);
    } else {
      WritesContents(items, read);
      WritesOrder(items, read);
    }
  }

  /**
   When the first element is not an array, every element is read as
   `{ key, value }`: the build succeeds exactly when no element is `null`; an
   entry object writes its key and value, and any other element writes
   `undefined` to the property "undefined". Each key holds the value of the
   last element that writes it.
   */
  lemma OneArgReadsLabeled<V>(items: seq<Entry<V>>)
    requires 0 < |items| && !items[0].Pair?
    ensures OneArgObject(Iterable(items)).Ok? <==> forall i | 0 <= i < |items| :: !items[i].NullEntry?
    ensures OneArgObject(Iterable(items)).Err? ==> OneArgObject(Iterable(items)).error == NullAccess
    ensures OneArgObject(Iterable(items)).Ok? ==> HoldsWrites(OneArgObject(Iterable(items)).value, items, ReadAsLabeled)
    ensures OneArgObject(Iterable(items)).Ok? ==> KeysInWriteOrder(OneArgObject(Iterable(items)).value, items, ReadAsLabeled)
  {
    var read := EntryReader(items[0]);
    WritesSucceeds(items, read);
    if Writes(items, read).Err? {
      WritesFailure(items, read);
    } else {
      WritesContents(items, read);
      WritesOrder(items, read);
    }
  }

  /**
   The object `getValues` returns has exactly the property names of `keys`
   (an `undefined` key names "undefined"), and each holds the value supplied
   at the last index with that name.
   */
  lemma ValuesObjectContents<E, V>(elements: seq<E>, keys: seq<Key>, values: Values<E, V>)
    requires |keys| == |elements|
    ensures forall k :: k in ValuesObject(elements, keys, values).props <==>
      exists i | 0 <= i < |keys| :: PropertyKey(keys[i]) == k
    ensures forall i | 0 <= i < |keys| && (forall j | i < j < |keys| :: PropertyKey(keys[j]) != PropertyKey(keys[i])) ::
      ValuesObject(elements, keys, values).props[PropertyKey(keys[i])] == SuppliedValue(values, keys, elements, i)
  {
    var pairs := ValuePairs(elements, keys, values);
    FromPairsContents(pairs);
    forall k ensures k in FromPairs(pairs).props <==> exists i | 0 <= i < |keys| :: PropertyKey(keys[i]) == k {
      if k in FromPairs(pairs).props {
        var i :| 0 <= i < |pairs| && Names(pairs)[i] == k;
        assert PropertyKey(keys[i]) == k;
      }
      if exists i | 0 <= i < |keys| :: PropertyKey(keys[i]) == k {
        var i :| 0 <= i < |keys| && PropertyKey(keys[i]) == k;
        assert Names(pairs)[i] == k;
      }
    }
    forall i | 0 <= i < |keys| && (forall j | i < j < |keys| :: PropertyKey(keys[j]) != PropertyKey(keys[i]))
      ensures FromPairs(pairs).props[PropertyKey(keys[i])] == SuppliedValue(values, keys, elements, i)
    {
      assert LastWrite(pairs, i);
    }
  }

  /** Every property of the object `getValues` returns holds a value the supplier gave. */
  lemma {:induction false} ValuesObjectSupplied<E, V>(elements: seq<E>, keys: seq<Key>, values: Values<E, V>, k: string)
    requires |keys| == |elements|
    requires k in ValuesObject(elements, keys, values).props
    ensures exists i | 0 <= i < |keys| ::
      ValuesObject(elements, keys, values).props[k] == SuppliedValue(values, keys, elements, i)
  {
    ValuesObjectContents(elements, keys, values);
    var i :| 0 <= i < |keys| && PropertyKey(keys[i]) == k;
    while exists j | i < j < |keys| :: PropertyKey(keys[j]) == k
      invariant 0 <= i < |keys| && PropertyKey(keys[i]) == k
      decreases |keys| - i
    {
      var j :| i < j < |keys| && PropertyKey(keys[j]) == k;
      i := j;
    }
  }

  /**
   Every index is visited once, in order: the names of the object `getValues`
   returns are ordered by their first occurrence in `keys`.
   */
  lemma ValuesObjectOrder<E, V>(elements: seq<E>, keys: seq<Key>, values: Values<E, V>)
    requires |keys| == |elements|
    ensures forall p, q | 0 <= p < q < |ValuesObject(elements, keys, values).keys| ::
      exists i | 0 <= i < |keys| ::
        && PropertyKey(keys[i]) == ValuesObject(elements, keys, values).keys[p]
        && forall j | 0 <= j <= i :: PropertyKey(keys[j]) != ValuesObject(elements, keys, values).keys[q]
  {
    var pairs := ValuePairs(elements, keys, values);
    var names := Names(pairs);
    var o := FromPairs(pairs);
    FromPairsOrder(pairs);
    forall p, q | 0 <= p < q < |o.keys|
      ensures exists i | 0 <= i < |keys| ::
        && PropertyKey(keys[i]) == o.keys[p]
        && forall j | 0 <= j <= i :: PropertyKey(keys[j]) != o.keys[q]
    {
      var i := FirstIndex(names, o.keys[p]);
      var first := FirstIndex(names, o.keys[q]);
      assert i < first;
      assert PropertyKey(keys[i]) == o.keys[p];
      forall j | 0 <= j <= i ensures PropertyKey(keys[j]) != o.keys[q] {
        assert names[j] == PropertyKey(keys[j]);
      }
    }
  }

  /**
   With distinct keys, the result lists the keys in order and each holds the
   value supplied for it.
   */
  lemma ValuesObjectDistinct<E, V>(elements: seq<E>, keys: seq<Key>, values: Values<E, V>)
    requires |keys| == |elements|
    requires forall i, j | 0 <= i < j < |keys| :: PropertyKey(keys[i]) != PropertyKey(keys[j])
    ensures |ValuesObject(elements, keys, values).keys| == |keys|
    ensures forall i | 0 <= i < |keys| ::
      && ValuesObject(elements, keys, values).keys[i] == PropertyKey(keys[i])
      && ValuesObject(elements, keys, values).props[PropertyKey(keys[i])] == SuppliedValue(values, keys, elements, i)
  {
    var pairs := ValuePairs(elements, keys, values);
    assert Distinct(Names(pairs));
    FromPairsDistinct(pairs);
  }

  /**
   The value-supplier shapes are told apart in the order function, array,
   primitive (`null` and `undefined` included), object lookup.
   */
  lemma ValueSupplierOrder<E, V>(values: Values<E, V>)
    ensures IsValueFunc(values) <==> values.Callback?
    ensures !IsValueFunc(values) && IsValueArray(values) <==> values.ArrayOf?
    ensures !IsValueFunc(values) && !IsValueArray(values) && IsPrimitive(values) <==> values.Primitive?
    ensures !IsValueFunc(values) && !IsValueArray(values) && !IsPrimitive(values) <==> values.Lookup?
  {
  }

  /**
   Two arguments with an object source: the result has the source's keys, in
   the source's order, and each holds the value supplied for that key and its
   property value.
   */
  lemma TwoArgObjectSource<E, V>(o: Obj<E>, values: Values<E, V>, toKey: E -> string)
    ensures var (elements, keys) := KeysAndElements(Properties(o), toKey);
      && TwoArgObject(Properties(o), values, toKey).keys == o.keys
      && forall i | 0 <= i < |o.keys| ::
        TwoArgObject(Properties(o), values, toKey).props[o.keys[i]] == SuppliedValue(values, keys, elements, i)
  {
    var (elements, keys) := KeysAndElements(Properties(o), toKey);
    forall i, j | 0 <= i < j < |keys| ensures PropertyKey(keys[i]) != PropertyKey(keys[j]) {
      assert PropertyKey(keys[i]) == o.keys[i];
    }
    ValuesObjectDistinct(elements, keys, values);
    assert ValuesObject(elements, keys, values).keys == o.keys;
  }
}
