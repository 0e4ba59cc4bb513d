# build-object-better in Dafny

This project models `buildObject`, a function that builds a string-keyed
object from one, two or three arguments. It models both implementations:
- **index.ts**: the current TypeScript source.
- **index.js**: the older JavaScript entry point `buildObjectBetter`.

The forms of a call:
- **One argument:** an iterable of entries is read into an object. Any other
  object is shallow-copied.
- **Two arguments:** a list of keys, or an object, is combined with a value
  supplier.
- **Three arguments:** keys are first computed from the elements by a key
  supplier. Values are then computed by a value supplier, which sees the
  complete key and element lists.

A supplier is a function, an array, an object to look values up in, or a
primitive. Its shape is decided by `typeof` and `Array.isArray` guards.

Files:
- `js.dfy` (module `Js`): the host behaviour both implementations rely on.
  - `undefined` and `null` values.
  - Plain objects: distinct keys in insertion order over a property map. `o[k] = v` keeps an existing key's place and appends a new key.
  - The shallow copy `{ ...o }` / `Object.assign({}, o)`.
  - Assignment loops that write, skip an item, or throw.
  - The argument shapes and `typeof`.
- `build_object.dfy` (module `BuildObject`): index.ts.
- `build_object_better.dfy` (module `BuildObjectBetter`): index.js.
- `compat.dfy` (module `Compat`): where the two entry points agree and where they differ.

How the code is modelled:
- Every loop of the source is a Dafny `method` with a loop and invariants.
- Each such method is proved against a reference function (`OneArgObject`,
  `KeysAndElements`, `KeysOf`, `ValuesObject`, `GeneratedObject`, …).
- The lemmas state the library's promises about those functions.
- A thrown exception is the `Err` case of a `Result`.
- User callbacks are Dafny function values. The calls made to a value
  supplier (index.ts) or a value generator (index.js) are returned as a ghost
  trace; calls to an index.ts key supplier are not traced.
- `String(e)`, and the conversion of a key to a property name, are the
  parameter `toKey`.

The model follows the code as written, including three behaviours that are easy to miss:
- In index.ts's one-argument form, the *first* element decides how every element is read. The elements are not each classified on their own. A list that mixes `[key, value]` arrays and `{ key, value }` objects therefore fails or writes the property "undefined" (`Compat.MixedEntriesDiffer`).
- In index.js, a `null` value supplier takes the object-lookup branch rather than the constant branch. It throws on any non-empty key list (`BuildObjectBetter.NullGenerator`, `Compat.NullSupplierDiffers`).
- index.js accepts any number of arguments. Zero arguments throw because `undefined` is not iterable. Four or more arguments build from the first two.

## Model

| member | source | states |
|---|---|---|
| Js.FromPairsContents | index.ts:104-126 | an object built by successive assignments has exactly the keys written; each holds the value of its last write |
| Js.FromPairsOrder | index.ts:104-126 | the keys of the built object are ordered by the position of each key's first write |
| Js.FromPairsDistinct | index.ts:104-126 | assignments to distinct keys give those keys in the order written, each with its value |
| Js.CopyIsFaithful | index.ts:43-45 | a shallow copy has exactly the source's own keys, in the source's order, each with the identical value |
| Js.WritesAbort | index.ts:31-34 | once a step of an assignment loop throws, the whole loop throws that error |
| Js.WritesSucceeds | index.ts:31-40 | an assignment loop completes exactly when no item's step throws |
| Js.WritesFailure | index.ts:31-40 | every error an assignment loop throws is thrown by the step of one of its items |
| Js.WritesAll | index.ts:31-34 | a loop whose every step writes performs one assignment per item, in item order |
| Js.WritesAgree | index.js:30-36 | two loops whose steps agree item by item perform the same assignments |
| Js.WritesContents | index.js:30-36 | a loop in which no step throws yields exactly the keys written, each holding the value of its last write (skipped items write nothing) |
| Js.WritesOrder | index.js:30-36 | a loop in which no step throws lists the keys in the order of their first writes |
| Js.TypeOf | index.ts:184-201 | `typeof` is "function" exactly for a callback, and "object" exactly for an array, a lookup object or `null` |
| BuildObject.IsPrimitive | index.ts:188-201 | a supplier is primitive exactly when it is a string, number, boolean, bigint, symbol, `undefined` or `null` |
| BuildObject.IsKeyFunc | index.ts:172-174 | a key supplier passes the `typeof "function"` test exactly when it is a key callback |
| BuildObject.IsKeyArray | index.ts:176-178 | a key supplier passes `Array.isArray` exactly when it is an array of names; an array has `typeof` "object" |
| BuildObject.IsValueFunc | index.ts:184-186 | a value supplier passes the `typeof "function"` test exactly when it is a callback |
| BuildObject.IsValueArray | index.ts:180-182 | a value supplier passes `Array.isArray` exactly when it is an array; an array has `typeof` "object" and is not primitive |
| BuildObject.IsIterable | index.ts:203-205 | a single argument is iterable exactly when it is not a plain object to copy |
| BuildObject.IsEntry | index.ts:207-209 | an element passes `Array.isArray` exactly when `[key, value]` destructuring of it succeeds |
| BuildObject.ReadAsPair | index.ts:32-33 | an array entry writes its key and value; destructuring any other element throws "not iterable"; no element is skipped |
| BuildObject.ReadAsLabeled | index.ts:38-39 | an entry object writes its key and value; `null` throws a null access; an array entry or a scalar writes `undefined` to the property "undefined" |
| BuildObject.ValueSupplierOrder | index.ts:105-125 | the guards pick function, then array, then primitive (`null` and `undefined` included), then object lookup, and each shape reaches exactly one branch |
| BuildObject.FromOneArg | index.ts:18-46 | collects the elements, then reads all of them as the first element dictates; the result is the reference one-argument object, including the error a reader throws |
| BuildObject.OneArgReadsPairs | index.ts:27-34 | when the first element is an array, the build succeeds exactly when every element is an array entry (otherwise "not iterable"); the result then holds each entry's key with the value of the last entry for it, the keys in the order of their first entries |
| BuildObject.OneArgReadsLabeled | index.ts:35-41 | when the first element is not an array, the build succeeds exactly when no element is `null` (otherwise a null access); entry objects write their key and value, and any other element writes `undefined` to "undefined", last write winning, the keys in the order of their first writes |
| BuildObject.OneArgShallowCopy | index.ts:43-45 | a non-iterable single argument gives an object with exactly its own keys, in order, mapped to the identical values |
| BuildObject.EmptyIterable | index.ts:24-26 | an empty iterable gives `{}` as the single argument, and also as the two-argument source, whatever the value supplier |
| BuildObject.GetKeysAndElements | index.ts:56-83 | equal-length lists; for an iterable the elements in order with `keys[i] = String(elements[i])`, for an object `Object.keys` with `elements[i] = source[keys[i]]` |
| BuildObject.GetElements | index.ts:95-97 | the spread copies the elements in order, and throws "not iterable" exactly for a source that is not iterable |
| BuildObject.KeysOf | index.ts:129-157 | fails exactly for a primitive supplier (invalid key supplier), or for `null` with elements (null access); otherwise one key per element: `g(e, i, elements)`, `ks[i]` (`undefined` past the end), or `table[String(e)]` |
| BuildObject.KeyProperty | index.ts:142-151 | reading a property of a `null` key supplier throws a null access; on an object it gives the property named by the element, or `undefined` when there is none |
| BuildObject.GetKeys | index.ts:129-157 | the preallocated key array filled by index equals the reference key list, or the same error |
| BuildObject.ValueCalls | index.ts:106-109 | the value function is called once per index `i`, in order, as `f(keys[i], i, keys, elements[i], elements)` with the complete lists |
| BuildObject.GetValues | index.ts:99-127 | the object built by the guarded loops is the reference object; the calls to a value function are exactly `ValueCalls`, and there are none for other suppliers |
| BuildObject.ValuePairs | index.ts:104-126 | assignment `i` writes the property named by `keys[i]` (`undefined` names "undefined") with the supplier's value for index `i` |
| BuildObject.ValuesObjectContents | index.ts:104-126 | the result has exactly the property names of `keys`; each holds the value supplied at the last index with that name |
| BuildObject.ValuesObjectSupplied | index.ts:104-126 | every property of the result holds a value the supplier gave at some index |
| BuildObject.ValuesObjectOrder | index.ts:104-126 | every index is visited in order: the result's names are ordered by their first occurrence in `keys` |
| BuildObject.ValuesObjectDistinct | index.ts:104-126 | with distinct keys, the result lists them in order and each holds the value supplied for it |
| BuildObject.TwoArgObjectSource | index.ts:75-81 | with an object source, the result has the source's keys in the source's order, each holding the value supplied for its index |
| BuildObject.FromTwoArgs | index.ts:48-54 | the result is the reference two-argument object, and a value function is called once per key with the complete lists |
| BuildObject.FromThreeArgs | index.ts:85-93 | a source that is not iterable throws "not iterable" before any key supplier is examined; otherwise the result is the reference three-argument object or its key error; a value function is called only after every key is computed, and then sees all keys |
| BuildObject.BuildObject | index.ts:1-16 | dispatches on the argument count to the one-, two- and three-argument builders |
| BuildObject.ArgumentCount | index.ts:7-15 | the call throws "Incorrect number of arguments" exactly when the count is not 1, 2 or 3 |
| BuildObjectBetter.Indexed | index.js:18-22 | the loop pairs each key with a counter that starts at 0 and grows by one |
| BuildObjectBetter.Generated | index.js:5-16 | the resolved generator throws exactly for `null` (a null access); a function is called as `(k, i, keys)`, an array gives `values[i]` (`undefined` past the end), an object gives `source[k]`, any other primitive gives itself |
| BuildObjectBetter.ResolveGenerator | index.js:5-16 | the closure the guards install returns, for every key, index and list, what `Generated` says |
| BuildObjectBetter.GeneratorCalls | index.js:18-22 | the generator is called as `(keys[i], i, keys)` for each index in order |
| BuildObjectBetter.FromTwoArgs | index.js:2-24 | resolves the supplier into a closure, then runs the keyed loop; the result is the reference object, and the calls so far are a prefix of `GeneratorCalls`, all of it when the build succeeds; when it throws, the last call made is the one that threw, and it is the first |
| BuildObjectBetter.FromOneArg | index.js:26-41 | handles each element on its own, or copies a non-iterable argument; the result is the reference one-argument object |
| BuildObjectBetter.EntryStep | index.js:31-35 | an array entry or entry object writes its key and value, `null` throws a null access, and exactly the scalars are skipped |
| BuildObjectBetter.BuildObjectBetter | index.js:43-49 | one argument goes to the one-argument form, every other call to the keyed form |
| BuildObjectBetter.Dispatch | index.js:43-49 | exactly one argument selects the one-argument form; no arguments throw for want of an iterable; arguments after the second are ignored |
| BuildObjectBetter.NullGenerator | index.js:9-11 | a `null` supplier succeeds exactly on an empty key list, giving `{}`, and otherwise throws a null access |
| BuildObjectBetter.GeneratedContents | index.js:18-22 | with any supplier but `null` the build succeeds with exactly the keys of the list, each holding the value generated at its last index, the keys in the order of their first occurrence |
| BuildObjectBetter.OneArgElementwise | index.js:30-36 | the one-argument build succeeds exactly when no element is `null`; array entries and entry objects are written, last write winning, the keys in the order of their first writes, and other elements are skipped |
| BuildObjectBetter.OneArgShallowCopy | index.js:38-40 | a non-iterable single argument gives an object equal to it: the same own keys, in the same order, with the identical values |
| Compat.TwoArgsAgree | index.js:5-16 | for a list of string keys and any supplier but `null`, both entry points build the same object |
| Compat.NullSupplierDiffers | index.js:9-11 | with a `null` supplier and some keys, index.js throws while index.ts maps every key to `null` |
| Compat.OneArgUniformAgree | index.js:30-36 | a single iterable of only array entries, or only entry objects, is read alike by both entry points |
| Compat.MixedEntriesDiffer | index.ts:29-34 | the list `[["a", 1], {key: "b", value: 2}]` makes index.ts fail (not iterable) and gives `{a: 1, b: 2}` in index.js |

## Left out

- Property-key coercion beyond strings is abstract (`toKey`), and so is the number formatting of `String()`. The enumeration order in which integer-like keys come first is not modelled: objects keep plain insertion order.
- Prototype-chain lookup in `source[k]` is not modelled. Lookups read own properties only. Symbol keys are left out.
- The `Symbol.iterator` protocol and lazy or one-shot iterators are not modelled: iterables are finite sequences that are already materialised.
- `isIterable` throwing on a `null` or `undefined` argument (index.ts:203-205) is not modelled.
- A single argument that is a primitive is not modelled. The datatype of one-argument sources has no case for one. In index.js a falsy one (`Object.assign({}, null)`) and a truthy non-iterable one (`Object.assign({}, 5)`, index.js:38-40) both give `{}`. In index.ts, `{ ...5 }` (index.ts:44) gives `{}`, while `null` or `undefined` makes `isIterable` throw.
- In index.ts's two-argument form, a first argument that is neither iterable nor an object is not modelled. An example is `buildObject(5, v)`, where `Object.keys(5)` is `[]` (index.ts:76). A non-iterable object is modelled (`KeyAndElementSource.Properties`). In index.js, a non-iterable first argument is `None` and throws.
- Entry elements that are strings are not modelled. In index.ts a string element is iterable, so `[key, value]` destructuring reads its characters (index.ts:32). In index.js a string element is neither an array nor an object, so it is skipped (index.js:31-35). `undefined` elements are not modelled either. An element is an array entry, an entry object, `null`, or a non-object scalar.
- An array entry is assumed to have a string key and a value. Shorter arrays and non-string first elements are not modelled.
- User callbacks are total pure functions. Callbacks that throw or have side effects are not modelled; the ghost call traces stand in for the observed calls.
- Object identity is not modelled, because objects are values. This covers `result !== source` for the copy and shared nested references.
- Error messages are not modelled. Errors are told apart by kind only.
- dist/index.js is not part of this model. It is stale compiled output that lacks the invalid-key-supplier branch.
- index.d.ts is not part of this model: it holds type declarations only.
- The build script and the webpack configuration are not part of this model.
