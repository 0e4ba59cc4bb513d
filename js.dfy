/**
 The parts of the JavaScript host that both entry points of the object builder
 rely on: values that may be `undefined` or `null`, plain objects with ordered
 string keys and last-write-wins assignment, the two shapes of an entry, the
 shapes a value supplier can take, and the errors a build can raise.
 */
module Js {

  /** An optional value. As a key, `None` is JavaScript's `undefined`. */
  datatype Option<+T> = None | Some(value: T)

  /** A JavaScript value as the builder treats it: `undefined`, `null`, or any other value. */
  datatype Value<+V> = Undefined | Null | Defined(v: V)

  /** The errors a build can raise. */
  datatype Error =
    | IncorrectNumberOfArguments  // Error("Incorrect number of arguments")
    | InvalidKeySupplier          // TypeError("Invalid key supplier")
    | NotIterable                 // TypeError: array destructuring or for-of over a non-iterable value
    | NullAccess                  // TypeError: reading a property of null

  /** A completed call: the value it returns, or the error it throws. */
  datatype Result<+T> = Ok(value: T) | Err(error: Error)

  /** A key as it sits in a key list: a string, or `undefined`. */
  type Key = Option<string>

  /** The property name that `o[k] = v` writes when `k` is a key. */
  function PropertyKey(k: Key): string
  {
    match k
    case Some(s) => s
    case None => "undefined"
  }

  /** `a[i]` on an array of values: `undefined` past the end. */
  function At<V>(a: seq<Value<V>>, i: nat): Value<V>
  {
    if i < |a| then a[i] else Undefined
  }

  /** `a[i]` on an array of strings: `undefined` past the end. */
  function NameAt(a: seq<string>, i: nat): Key
  {
    if i < |a| then Some(a[i]) else None
  }

  // ---------------------------------------------------------------------------
  // Plain objects

  /** The own enumerable string-keyed properties of an object, in insertion order. */
  datatype Props<T> = Props(keys: seq<string>, props: map<string, T>)

  ghost predicate Distinct(s: seq<string>)
  {
    forall i, j | 0 <= i < j < |s| :: s[i] != s[j]
  }

  /** Each property appears once in the key order, and the key order lists exactly the properties. */
  ghost predicate WellFormed<T>(p: Props<T>)
  {
    && Distinct(p.keys)
    && (forall k :: k in p.props <==> k in p.keys)
  }

  /** A plain JavaScript object. */
  type Obj<T> = p: Props<T> | WellFormed(p) witness Props([], map[])

  /** `{}` */
  function Empty<T>(): Obj<T>
  {
    Props([], map[])
  }

  /** `o[k]` where a missing property reads as `None`. */
  function Get<T>(o: Obj<T>, k: string): Option<T>
  {
    if k in o.props then Some(o.props[k]) else None
  }

  /** `o[k]` on an object of values: a missing property reads as `undefined`. */
  function Read<V>(o: Obj<Value<V>>, k: string): Value<V>
  {
    if k in o.props then o.props[k] else Undefined
  }

  /** `o[k] = v`: an existing property keeps its place, a new one goes last. */
  function Put<T>(o: Obj<T>, k: string, v: T): Obj<T>
  {
    if k in o.props then Props(o.keys, o.props[k := v])
    else Props(o.keys + [k], o.props[k := v])
  }

  /** A prefix one longer is the prefix plus the next element. */
  lemma PrefixSnoc<T>(s: seq<T>, i: nat)
    requires i < |s|
    ensures s[..i + 1] == s[..i] + [s[i]]
  {
  }

  /** The object that results from assigning every (key, value) pair to `{}`, first to last. */
  function FromPairs<T>(pairs: seq<(string, T)>): Obj<T>
  {
    if |pairs| == 0 then Empty()
    else
      var n := |pairs| - 1;
      Put(FromPairs(pairs[..n]), pairs[n].0, pairs[n].1)
  }

  /** Assigning one more pair. */
  lemma FromPairsSnoc<T>(pairs: seq<(string, T)>, k: string, v: T)
    ensures FromPairs(pairs + [(k, v)]) == Put(FromPairs(pairs), k, v)
  {
    assert (pairs + [(k, v)])[..|pairs|] == pairs;
  }

  /** The keys written by a sequence of assignments, in order. */
  function Names<T>(pairs: seq<(string, T)>): (r: seq<string>)
    ensures |r| == |pairs|
    ensures forall i | 0 <= i < |pairs| :: r[i] == pairs[i].0
  {
    seq(|pairs|, i requires 0 <= i < |pairs| => pairs[i].0)
  }

  /** No later assignment in `pairs` writes the key that assignment `i` writes. */
  ghost predicate LastWrite<T>(pairs: seq<(string, T)>, i: int)
    requires 0 <= i < |pairs|
  {
    forall j | i < j < |pairs| :: pairs[j].0 != pairs[i].0
  }

  /** The position at which `k` first occurs in `names`. */
  function FirstIndex(names: seq<string>, k: string): (r: nat)
    requires k in names
    ensures r < |names| && names[r] == k
    ensures forall j | 0 <= j < r :: names[j] != k
  {
    if names[0] == k then 0 else 1 + FirstIndex(names[1..], k)
  }

  /**
   Last write wins: the object built by a sequence of assignments has exactly
   the keys written, and each holds the value of the last assignment to it.
   */
  lemma {:induction false} FromPairsContents<T>(pairs: seq<(string, T)>)
    ensures forall k :: k in FromPairs(pairs).props <==> k in Names(pairs)
    ensures forall i | 0 <= i < |pairs| && LastWrite(pairs, i) ::
      FromPairs(pairs).props[pairs[i].0] == pairs[i].1
  {
    FromPairsKeys(pairs);
    FromPairsLastWrites(pairs);
  }

  /** The keys of the built object are exactly the keys written. */
  lemma {:induction false} FromPairsKeys<T>(pairs: seq<(string, T)>)
    ensures forall k :: k in FromPairs(pairs).props <==> k in Names(pairs)
  {
    if |pairs| > 0 {
      var n := |pairs| - 1;
      FromPairsKeys(pairs[..n]);
      assert Names(pairs) == Names(pairs[..n]) + [pairs[n].0];
    }
  }

  /** Each key written holds the value of its last assignment. */
  lemma {:induction false} FromPairsLastWrites<T>(pairs: seq<(string, T)>)
    ensures forall i | 0 <= i < |pairs| :: pairs[i].0 in FromPairs(pairs).props
    ensures forall i | 0 <= i < |pairs| && LastWrite(pairs, i) ::
      FromPairs(pairs).props[pairs[i].0] == pairs[i].1
  {
    FromPairsKeys(pairs);
    if |pairs| > 0 {
      var n := |pairs| - 1;
      FromPairsLastWrites(pairs[..n]);
      var prev := FromPairs(pairs[..n]);
      assert FromPairs(pairs).props == prev.props[pairs[n].0 := pairs[n].1];
      forall i | 0 <= i < |pairs| && LastWrite(pairs, i)
        ensures FromPairs(pairs).props[pairs[i].0] == pairs[i].1
      {
        if i < n {
          assert pairs[..n][i] == pairs[i];
          assert LastWrite(pairs[..n], i);
        }
      }
    }
  }

  lemma FirstIndexOfPrefix(names: seq<string>, x: string, k: string)
    requires k in names
    ensures k in names + [x] && FirstIndex(names + [x], k) == FirstIndex(names, k)
  {
    var r := FirstIndex(names, k);
    assert (names + [x])[r] == k;
    var s := FirstIndex(names + [x], k);
    assert s <= r;
    assert names[s] == (names + [x])[s];
  }

  lemma FirstIndexOfNew(names: seq<string>, k: string)
    requires k !in names
    ensures k in names + [k] && FirstIndex(names + [k], k) == |names|
  {
    assert forall j | 0 <= j < |names| :: (names + [k])[j] == names[j];
  }

  ghost predicate FirstWrittenFirst(keys: seq<string>, names: seq<string>)
    requires forall k | k in keys :: k in names
  {
    forall p, q | 0 <= p < q < |keys| :: FirstIndex(names, keys[p]) < FirstIndex(names, keys[q])
  }

  /** One more assignment keeps the keys in the order of their first write. */
  lemma FromPairsOrderStep<T>(o: Obj<T>, names: seq<string>, k: string, v: T)
    requires forall y :: y in o.keys <==> y in names
    requires FirstWrittenFirst(o.keys, names)
    ensures forall y :: y in Put(o, k, v).keys <==> y in names + [k]
    ensures FirstWrittenFirst(Put(o, k, v).keys, names + [k])
  {
    var keys := Put(o, k, v).keys;
    forall p, q | 0 <= p < q < |keys|
      ensures FirstIndex(names + [k], keys[p]) < FirstIndex(names + [k], keys[q])
    {
      FirstIndexOfPrefix(names, k, keys[p]);
      if q < |o.keys| {
        FirstIndexOfPrefix(names, k, keys[q]);
      } else {
        FirstIndexOfNew(names, k);
      }
    }
  }

  /**
   Insertion order: the keys of the built object are ordered by the position at
   which each key was first written.
   */
  lemma {:induction false} FromPairsOrder<T>(pairs: seq<(string, T)>)
    ensures forall k :: k in FromPairs(pairs).keys <==> k in Names(pairs)
    ensures FirstWrittenFirst(FromPairs(pairs).keys, Names(pairs))
  {
    if |pairs| > 0 {
      var n := |pairs| - 1;
      FromPairsOrder(pairs[..n]);
      assert Names(pairs) == Names(pairs[..n]) + [pairs[n].0];
      FromPairsOrderStep(FromPairs(pairs[..n]), Names(pairs[..n]), pairs[n].0, pairs[n].1);
    }
  }

  /** With distinct keys, every assignment is the last one to its key. */
  lemma DistinctLastWrites<T>(pairs: seq<(string, T)>)
    requires Distinct(Names(pairs))
    ensures forall i | 0 <= i < |pairs| :: LastWrite(pairs, i)
  {
    forall i | 0 <= i < |pairs| ensures LastWrite(pairs, i) {
      forall j | i < j < |pairs| ensures pairs[j].0 != pairs[i].0 {
        assert Names(pairs)[i] != Names(pairs)[j];
      }
    }
  }

  /**
   Assignments to distinct keys: the built object lists the keys in the order
   written and holds every value written.
   */
  lemma {:induction false} FromPairsDistinct<T>(pairs: seq<(string, T)>)
    requires Distinct(Names(pairs))
    ensures FromPairs(pairs).keys == Names(pairs)
    ensures forall i | 0 <= i < |pairs| :: FromPairs(pairs).props[pairs[i].0] == pairs[i].1
  {
    FromPairsContents(pairs);
    DistinctLastWrites(pairs);
    DistinctKeysInOrder(pairs);
  }

  /** With distinct keys, every assignment appends its key. */
  lemma {:induction false} DistinctKeysInOrder<T>(pairs: seq<(string, T)>)
    requires Distinct(Names(pairs))
    ensures FromPairs(pairs).keys == Names(pairs)
  {
    if |pairs| > 0 {
      var n := |pairs| - 1;
      assert Names(pairs[..n]) == Names(pairs)[..n];
      DistinctKeysInOrder(pairs[..n]);
      FromPairsKeys(pairs[..n]);
      var prev := FromPairs(pairs[..n]);
      assert pairs[n].0 !in Names(pairs[..n]);
      assert pairs[n].0 !in prev.props;
      assert FromPairs(pairs).keys == prev.keys + [pairs[n].0];
      assert Names(pairs) == Names(pairs[..n]) + [pairs[n].0];
    }
  }

  /** The own enumerable properties of `o` as (key, value) pairs, in key order. */
  function OwnEntries<T>(o: Obj<T>): (r: seq<(string, T)>)
    ensures |r| == |o.keys|
    ensures forall i | 0 <= i < |o.keys| :: r[i] == (o.keys[i], o.props[o.keys[i]])
  {
    seq(|o.keys|, i requires 0 <= i < |o.keys| => (o.keys[i], o.props[o.keys[i]]))
  }

  /** `{ ...o }` and `Object.assign({}, o)`: each own enumerable property copied onto `{}`. */
  function Copy<T>(o: Obj<T>): Obj<T>
  {
    FromPairs(OwnEntries(o))
  }

  /**
   A shallow copy has exactly the source's own keys, in the source's order,
   each mapped to the identical value.
   */
  lemma CopyIsFaithful<T>(o: Obj<T>)
    ensures Copy(o) == o
  {
    var pairs := OwnEntries(o);
    assert Names(pairs) == o.keys;
    FromPairsDistinct(pairs);
    var c := Copy(o);
    assert c.props.Keys == o.props.Keys by {
      FromPairsContents(pairs);
    }
    forall k | k in o.props ensures c.props[k] == o.props[k] {
      var i :| 0 <= i < |o.keys| && o.keys[i] == k;
      assert pairs[i] == (k, o.props[k]);
    }
    assert c.props == o.props;
  }

  // ---------------------------------------------------------------------------
  // Assignment loops that may skip an item or throw

  /** What one turn of an assignment loop does: write a property, skip the item, or throw. */
  datatype Step<T> = Write(key: string, value: T) | Skip | Throw(error: Error)

  /**
   The assignments a loop over `xs` performs, in order; the first item whose
   step throws aborts the loop with that error.
   */
  function Writes<X, T>(xs: seq<X>, step: X -> Step<T>): Result<seq<(string, T)>>
  {
    if |xs| == 0 then Ok([])
    else
      var n := |xs| - 1;
      match Writes(xs[..n], step)
      case Err(e) => Err(e)
      case Ok(done) =>
        match step(xs[n])
        case Write(k, v) => Ok(done + [(k, v)])
        case Skip => Ok(done)
        case Throw(e) => Err(e)
  }

  /** The object an assignment loop returns, or the error it throws. */
  function Assigned<T>(r: Result<seq<(string, T)>>): Result<Obj<T>>
  {
    match r
    case Ok(pairs) => Ok(FromPairs(pairs))
    case Err(e) => Err(e)
  }

  /** One more turn of the loop. */
  lemma WritesStep<X, T>(xs: seq<X>, step: X -> Step<T>, i: nat)
    requires i < |xs|
    ensures Writes(xs[..i + 1], step) ==
      match Writes(xs[..i], step)
      case Err(e) => Err(e)
      case Ok(done) =>
        match step(xs[i])
        case Write(k, v) => Ok(done + [(k, v)])
        case Skip => Ok(done)
        case Throw(e) => Err(e)
  {
    assert xs[..i + 1][..i] == xs[..i];
  }

  /** Once a prefix of the loop has thrown, the whole loop throws the same error. */
  lemma {:induction false} WritesAbort<X, T>(xs: seq<X>, step: X -> Step<T>, j: nat)
    requires j <= |xs| && Writes(xs[..j], step).Err?
    ensures Writes(xs, step) == Writes(xs[..j], step)
    decreases |xs| - j
  {
    if j < |xs| {
      WritesStep(xs, step, j);
      WritesAbort(xs, step, j + 1);
    } else {
      assert xs[..j] == xs;
    }
  }

  /** The loop completes exactly when no item's step throws. */
  lemma {:induction false} WritesSucceeds<X, T>(xs: seq<X>, step: X -> Step<T>)
    ensures Writes(xs, step).Ok? <==> forall i | 0 <= i < |xs| :: !step(xs[i]).Throw?
  {
    if |xs| > 0 {
      var n := |xs| - 1;
      WritesSucceeds(xs[..n], step);
      assert forall i | 0 <= i < n :: xs[..n][i] == xs[i];
    }
  }

  /** Every error the loop throws is thrown by the step of one of its items. */
  lemma {:induction false} WritesFailure<X, T>(xs: seq<X>, step: X -> Step<T>)
    requires Writes(xs, step).Err?
    ensures exists i | 0 <= i < |xs| :: step(xs[i]).Throw? && step(xs[i]).error == Writes(xs, step).error
  {
    var n := |xs| - 1;
    if Writes(xs[..n], step).Err? {
      WritesFailure(xs[..n], step);
      var i :| 0 <= i < n && step(xs[..n][i]).Throw? && step(xs[..n][i]).error == Writes(xs[..n], step).error;
      assert xs[..n][i] == xs[i];
    } else {
      assert step(xs[n]).Throw?;
    }
  }

  /** Two loops whose steps agree on every item perform the same assignments. */
  lemma {:induction false} WritesAgree<X, T>(xs: seq<X>, step1: X -> Step<T>, step2: X -> Step<T>)
    requires forall i | 0 <= i < |xs| :: step1(xs[i]) == step2(xs[i])
    ensures Writes(xs, step1) == Writes(xs, step2)
  {
    if |xs| > 0 {
      var n := |xs| - 1;
      assert forall i | 0 <= i < n :: xs[..n][i] == xs[i];
      WritesAgree(xs[..n], step1, step2);
    }
  }

  /** A loop whose every step writes performs one assignment per item, in order. */
  lemma {:induction false} WritesAll<X, T>(xs: seq<X>, step: X -> Step<T>)
    requires forall i | 0 <= i < |xs| :: step(xs[i]).Write?
    ensures Writes(xs, step).Ok? && |Writes(xs, step).value| == |xs|
    ensures forall i | 0 <= i < |xs| :: Writes(xs, step).value[i] == (step(xs[i]).key, step(xs[i]).value)
  {
    if |xs| > 0 {
      var n := |xs| - 1;
      assert forall i | 0 <= i < n :: xs[..n][i] == xs[i];
      WritesAll(xs[..n], step);
    }
  }

  /** No later step of the loop writes the key that step `i` writes. */
  ghost predicate FinalWrite<X, T>(xs: seq<X>, step: X -> Step<T>, i: int)
    requires 0 <= i < |xs| && step(xs[i]).Write?
  {
    forall j | i < j < |xs| :: !(step(xs[j]).Write? && step(xs[j]).key == step(xs[i]).key)
  }

  /** `o` holds exactly the keys written by the steps of `xs`, each with the value of its last write. */
  ghost predicate HoldsWrites<X, T>(o: Obj<T>, xs: seq<X>, step: X -> Step<T>)
  {
    && (forall k :: k in o.props <==> exists i | 0 <= i < |xs| :: step(xs[i]).Write? && step(xs[i]).key == k)
    && (forall i | 0 <= i < |xs| && step(xs[i]).Write? && FinalWrite(xs, step, i) ::
          step(xs[i]).key in o.props && o.props[step(xs[i]).key] == step(xs[i]).value)
  }

  /** One more step that does not throw keeps `HoldsWrites`. */
  lemma HoldsWritesStep<X, T>(o: Obj<T>, xs: seq<X>, x: X, step: X -> Step<T>)
    requires HoldsWrites(o, xs, step) && !step(x).Throw?
    ensures HoldsWrites(if step(x).Write? then Put(o, step(x).key, step(x).value) else o, xs + [x], step)
  {
    var ys := xs + [x];
    assert forall i | 0 <= i < |xs| :: ys[i] == xs[i];
    assert ys[|xs|] == x;
    forall i | 0 <= i < |xs| && step(xs[i]).Write? && FinalWrite(ys, step, i)
      ensures FinalWrite(xs, step, i)
    {
      forall j | i < j < |xs| ensures !(step(xs[j]).Write? && step(xs[j]).key == step(xs[i]).key) {
        assert ys[j] == xs[j];
      }
    }
  }

  /**
   A loop in which no step throws returns the object of its writes: exactly
   the keys written, each holding the value of its last write.
   */
  lemma {:induction false} WritesContents<X, T>(xs: seq<X>, step: X -> Step<T>)
    requires forall i | 0 <= i < |xs| :: !step(xs[i]).Throw?
    ensures Assigned(Writes(xs, step)).Ok?
    ensures HoldsWrites(Assigned(Writes(xs, step)).value, xs, step)
  {
    if |xs| > 0 {
      var n := |xs| - 1;
      assert forall i | 0 <= i < n :: xs[..n][i] == xs[i];
      WritesContents(xs[..n], step);
      var done := Writes(xs[..n], step).value;
      HoldsWritesStep(FromPairs(done), xs[..n], xs[n], step);
      assert xs[..n] + [xs[n]] == xs;
      match step(xs[n])
      case Skip =>
      case Write(k, v) =>
        FromPairsSnoc(done, k, v);
    }
  }

  /**
   Some step writes `a` while no step up to and including it has written `b`:
   the first write of `a` comes before the first write of `b`, if any.
   */
  ghost predicate WrittenBefore<X, T>(xs: seq<X>, step: X -> Step<T>, a: string, b: string)
  {
    exists i | 0 <= i < |xs| ::
      && step(xs[i]).Write? && step(xs[i]).key == a
      && forall j | 0 <= j <= i :: !(step(xs[j]).Write? && step(xs[j]).key == b)
  }

  /** The keys of `o` are ordered by the first write of each in the loop over `xs`. */
  ghost predicate KeysInWriteOrder<X, T>(o: Obj<T>, xs: seq<X>, step: X -> Step<T>)
  {
    forall p, q | 0 <= p < q < |o.keys| :: WrittenBefore(xs, step, o.keys[p], o.keys[q])
  }

  /** A write that comes first in `xs` still comes first when the loop runs on. */
  lemma WrittenBeforeExtend<X, T>(xs: seq<X>, x: X, step: X -> Step<T>, a: string, b: string)
    requires WrittenBefore(xs, step, a, b)
    ensures WrittenBefore(xs + [x], step, a, b)
  {
    var i :| 0 <= i < |xs| && step(xs[i]).Write? && step(xs[i]).key == a
      && forall j | 0 <= j <= i :: !(step(xs[j]).Write? && step(xs[j]).key == b);
    var ys := xs + [x];
    assert forall j | 0 <= j <= i :: ys[j] == xs[j];
    assert ys[i] == xs[i];
  }

  /** One more step that does not throw keeps the keys in the order of their first writes. */
  lemma KeysInWriteOrderStep<X, T>(o: Obj<T>, xs: seq<X>, x: X, step: X -> Step<T>)
    requires HoldsWrites(o, xs, step) && KeysInWriteOrder(o, xs, step) && !step(x).Throw?
    ensures KeysInWriteOrder(if step(x).Write? then Put(o, step(x).key, step(x).value) else o, xs + [x], step)
  {
    var o' := if step(x).Write? then Put(o, step(x).key, step(x).value) else o;
    var ys := xs + [x];
    forall p, q | 0 <= p < q < |o'.keys| ensures WrittenBefore(ys, step, o'.keys[p], o'.keys[q]) {
      if q < |o.keys| {
        assert o'.keys[p] == o.keys[p] && o'.keys[q] == o.keys[q];
        WrittenBeforeExtend(xs, x, step, o.keys[p], o.keys[q]);
      } else {
        // `x` wrote a key that no earlier step had written.
        var k := step(x).key;
        assert k !in o.props && o'.keys[q] == k && o'.keys[p] == o.keys[p];
        assert o.keys[p] in o.keys && o.keys[p] in o.props;
        var i :| 0 <= i < |xs| && step(xs[i]).Write? && step(xs[i]).key == o.keys[p];
        assert forall j | 0 <= j <= i :: ys[j] == xs[j];
        assert ys[i] == xs[i];
      }
    }
  }

  /** A loop in which no step throws lists the keys in the order of their first writes. */
  lemma {:induction false} WritesOrder<X, T>(xs: seq<X>, step: X -> Step<T>)
    requires forall i | 0 <= i < |xs| :: !step(xs[i]).Throw?
    ensures Assigned(Writes(xs, step)).Ok?
    ensures KeysInWriteOrder(Assigned(Writes(xs, step)).value, xs, step)
  {
    WritesContents(xs, step);
    if |xs| > 0 {
      var n := |xs| - 1;
      assert forall i | 0 <= i < n :: xs[..n][i] == xs[i];
      WritesOrder(xs[..n], step);
      WritesContents(xs[..n], step);
      var done := Writes(xs[..n], step).value;
      KeysInWriteOrderStep(FromPairs(done), xs[..n], xs[n], step);
      assert xs[..n] + [xs[n]] == xs;
      match step(xs[n])
      case Skip =>
      case Write(k, v) =>
        FromPairsSnoc(done, k, v);
    }
  }

  // ---------------------------------------------------------------------------
  // Shapes of arguments

  /**
   An element of a one-argument iterable: the entry `[key, value]`, the entry
   object `{ key, value }`, `null`, or a number, boolean, bigint, symbol or
   function (which has neither a `key` nor a `value` property and is not iterable).
   */
  datatype Entry<V> =
    | Pair(key: string, value: Value<V>)
    | Labeled(key: string, value: Value<V>)
    | NullEntry
    | Scalar

  /** The single argument: an iterable of entries, or any other object. */
  datatype Source<V> = Iterable(items: seq<Entry<V>>) | Plain(obj: Obj<Value<V>>)

  /**
   A value supplier: a function of type `F`, an array of values, a non-null
   object to look values up in, or a primitive (a string, number, boolean,
   bigint, symbol, `undefined` or `null`).
   */
  datatype ValueSupplier<F, V> =
    | Callback(f: F)
    | ArrayOf(items: seq<Value<V>>)
    | Lookup(source: Obj<Value<V>>)
    | Primitive(value: Value<V>)

  /** The answers of `typeof` that the builder tells apart. */
  datatype TypeTag = FunctionTag | ObjectTag | UndefinedTag | OtherPrimitiveTag

  /** `typeof s`; note that `typeof null` is "object". */
  function TypeOf<F, V>(s: ValueSupplier<F, V>): (t: TypeTag)
    ensures t == FunctionTag <==> s.Callback?
    ensures t == ObjectTag <==> s.ArrayOf? || s.Lookup? || s == Primitive(Null)
  {
    match s
    case Callback(_) => FunctionTag
    case ArrayOf(_) => ObjectTag
    case Lookup(_) => ObjectTag
    case Primitive(p) =>
      match p
      case Undefined => UndefinedTag
      case Null => ObjectTag
      case Defined(_) => OtherPrimitiveTag
  }

  /** `Array.isArray(s)` */
  predicate IsArray<F, V>(s: ValueSupplier<F, V>)
  {
    s.ArrayOf?
  }
}
