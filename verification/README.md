# ExtDirectStoreResult in Dafny

A model of `ExtDirectStoreResult<T>`, the response envelope that ext-direct-spring's
store read and store modify methods return to an Ext JS data store. It holds five
properties, each nullable on its own: `total`, `records`, `success`, `metaData` and
`message`. It also carries the Jackson view class inherited from `JsonViewHint`. Jackson
serializes the envelope under two class annotations:
- null properties are left out;
- the other properties are written in the fixed order `metaData`, `success`, `total`,
  `records`, `message`.

Files:
- `wrappers.dfy` (module `Wrappers`): `Option`, which stands for Java's nullable references.
- `bean.dfy` (module `Bean`): the class `ExtDirectStoreResult<T, V>` with its six
  fields, its nine constructors, the `metaData` getter and the five fluent setters.
  Each setter changes one field in place, with a `modifies` clause that names only that field, and returns the receiver.
  The module also holds `StoreResultState`, a value snapshot of the fields, and `Apply`,
  a specification of one setter call.
  - `Integer` and `Long` are newtypes over the ranges of `java.lang.Integer` and
    `java.lang.Long`.
  - A metadata provider is `MetaData<V>`: the map that its own `getMetaData()` yields.
  - Every constructor but the default one ensures that its state equals `Canonical(...)`,
    the four-argument constructor's result, with that overload's defaults. This is how
    the model states that the overloads funnel into the canonical constructor. The
    default constructor, like its Java counterpart, does not delegate and states that
    all six fields are null.
- `bean_json.dfy` (module `BeanJson`): the serialization contract. `Serialize` walks the
  declared property order and emits the property of each non-null getter.
- `setter_chains.dfy` (module `SetterChains`): sequences of setter calls.
- `examples_client.dfy` (module `StoreResultClients`): callers that chain setters and
  build envelopes, with what the contracts let them conclude.

The getters `getTotal`, `getRecords`, `isSuccess` and `getMessage` return their field
unchanged. In the model, callers read the fields `total`, `records`, `success` and
`message` directly.

No annotation on the class (`ExtDirectStoreResult.java:31-32`) or on `getMetaData()`
(`:112-117`) unwraps the map, so `metaData` is one nested property, present whenever a
provider is set, even with an empty map (`FalsyValuesEmitted`, `MetaDataAlwaysNested`).

## Model

| member | source | states |
|---|---|---|
| `Bean.NamesDistinct` | src/main/java/ch/ralscha/extdirectspring/bean/ExtDirectStoreResult.java:32 | the five property names of the order annotation are pairwise different, so no two properties share a JSON key |
| `Bean.StoreResultState.GetMetaData` | src/main/java/ch/ralscha/extdirectspring/bean/ExtDirectStoreResult.java:112-117 | the metaData value is null exactly when no provider is set; otherwise it is the provider's map, unchanged |
| `Bean.WidenTotal` | src/main/java/ch/ralscha/extdirectspring/bean/ExtDirectStoreResult.java:66-68 | an Integer total becomes a Long with the same numeric value, and null stays null |
| `Bean.Apply` | src/main/java/ch/ralscha/extdirectspring/bean/ExtDirectStoreResult.java:97-122 | after a setter call, the setter's property holds the given value; every other property and the view class are unchanged |
| `Bean.StateDeterminedByProperties` | src/main/java/ch/ralscha/extdirectspring/bean/ExtDirectStoreResult.java:35-43 | the five properties and the view class make up the whole envelope: two envelopes that agree on them are equal |
| `Bean.ApplyCurrent` | src/main/java/ch/ralscha/extdirectspring/bean/ExtDirectStoreResult.java:97-100 | setting a property to the value it already holds leaves the envelope unchanged |
| `Bean.ApplyCommutes` | src/main/java/ch/ralscha/extdirectspring/bean/ExtDirectStoreResult.java:97-122 | setters of two different properties give the same envelope in either order |
| `Bean.ExtDirectStoreResult.constructor` | src/main/java/ch/ralscha/extdirectspring/bean/ExtDirectStoreResult.java:45-47 | the default constructor leaves all six fields null |
| `Bean.ExtDirectStoreResult.OfRecord` | src/main/java/ch/ralscha/extdirectspring/bean/ExtDirectStoreResult.java:49-52 | records is the one-element list of the record and success is true; total and view are null, and metaData and message are null |
| `Bean.ExtDirectStoreResult.OfArray` | src/main/java/ch/ralscha/extdirectspring/bean/ExtDirectStoreResult.java:54-56 | records is the array's elements in array order and success is true; every other field is null |
| `Bean.ExtDirectStoreResult.OfRecords` | src/main/java/ch/ralscha/extdirectspring/bean/ExtDirectStoreResult.java:58-60 | records is the given collection, null included, and success is true; every other field is null |
| `Bean.ExtDirectStoreResult.WithIntegerTotal` | src/main/java/ch/ralscha/extdirectspring/bean/ExtDirectStoreResult.java:62-64 | total is the widened Integer total, records is as given and success is true; every other field is null |
| `Bean.ExtDirectStoreResult.WithIntegerTotalAndSuccess` | src/main/java/ch/ralscha/extdirectspring/bean/ExtDirectStoreResult.java:66-68 | total is the widened Integer total; records and success are as given, including a null success; every other field is null |
| `Bean.ExtDirectStoreResult.WithTotal` | src/main/java/ch/ralscha/extdirectspring/bean/ExtDirectStoreResult.java:70-72 | total and records are as given and success is true; every other field is null |
| `Bean.ExtDirectStoreResult.WithTotalAndView` | src/main/java/ch/ralscha/extdirectspring/bean/ExtDirectStoreResult.java:74-76 | total, records and the view class are as given and success is true; metaData and message are null |
| `Bean.ExtDirectStoreResult.Create` | src/main/java/ch/ralscha/extdirectspring/bean/ExtDirectStoreResult.java:78-83 | stores exactly the given total, records, success and view class; metaData and message stay null |
| `Bean.ExtDirectStoreResult.GetMetaData` | src/main/java/ch/ralscha/extdirectspring/bean/ExtDirectStoreResult.java:112-117 | returns null exactly when no provider is set; otherwise returns the provider's map, unchanged |
| `Bean.ExtDirectStoreResult.SetTotal` | src/main/java/ch/ralscha/extdirectspring/bean/ExtDirectStoreResult.java:97-100 | writes only the total field, makes the new state `Apply` of the old one, and returns the receiver |
| `Bean.ExtDirectStoreResult.SetRecords` | src/main/java/ch/ralscha/extdirectspring/bean/ExtDirectStoreResult.java:102-105 | writes only the records field, makes the new state `Apply` of the old one, and returns the receiver |
| `Bean.ExtDirectStoreResult.SetSuccess` | src/main/java/ch/ralscha/extdirectspring/bean/ExtDirectStoreResult.java:107-110 | writes only the success field, makes the new state `Apply` of the old one, and returns the receiver |
| `Bean.ExtDirectStoreResult.SetMetaData` | src/main/java/ch/ralscha/extdirectspring/bean/ExtDirectStoreResult.java:119-122 | writes only the metaData field, makes the new state `Apply` of the old one, and returns the receiver |
| `Bean.ExtDirectStoreResult.SetMessage` | src/main/java/ch/ralscha/extdirectspring/bean/ExtDirectStoreResult.java:140-143 | writes only the message field, makes the new state `Apply` of the old one, and returns the receiver |
| `BeanJson.Position` | src/main/java/ch/ralscha/extdirectspring/bean/ExtDirectStoreResult.java:32 | every property has a place in the declared order, and the declared order lists that property at that place |
| `BeanJson.PropertyOrderFacts` | src/main/java/ch/ralscha/extdirectspring/bean/ExtDirectStoreResult.java:32 | the declared order names every property, each exactly once |
| `BeanJson.Lookup` | src/main/java/ch/ralscha/extdirectspring/bean/ExtDirectStoreResult.java:85-117 | the value that Jackson reads for a property, when not null, is a property of that name |
| `BeanJson.PresentIffNotNull` | src/main/java/ch/ralscha/extdirectspring/bean/ExtDirectStoreResult.java:31 | each property is present exactly when its field is non-null; metaData is present whenever a provider is set |
| `BeanJson.Emit` | src/main/java/ch/ralscha/extdirectspring/bean/ExtDirectStoreResult.java:31-32 | walking a key order emits at most one property per key |
| `BeanJson.EmitSound` | src/main/java/ch/ralscha/extdirectspring/bean/ExtDirectStoreResult.java:31 | every emitted property comes from the walked order and carries its getter's non-null value |
| `BeanJson.EmitComplete` | src/main/java/ch/ralscha/extdirectspring/bean/ExtDirectStoreResult.java:31 | every property of the walked order whose getter is not null is emitted |
| `BeanJson.EmitKeepsOrder` | src/main/java/ch/ralscha/extdirectspring/bean/ExtDirectStoreResult.java:32 | walking keys in declared order emits properties in declared order |
| `BeanJson.Serialize` | src/main/java/ch/ralscha/extdirectspring/bean/ExtDirectStoreResult.java:31-32 | the JSON object holds exactly the non-null properties, each with its getter's value, each once, in the order metaData, success, total, records, message |
| `BeanJson.EmittedIffNotNull` | src/main/java/ch/ralscha/extdirectspring/bean/ExtDirectStoreResult.java:31 | a property appears in the output if and only if its getter is not null |
| `BeanJson.SerializedInDeclaredOrder` | src/main/java/ch/ralscha/extdirectspring/bean/ExtDirectStoreResult.java:31-32 | the output equals the concatenation, in declared order, of each non-null getter's property |
| `BeanJson.SerializedNames` | src/main/java/ch/ralscha/extdirectspring/bean/ExtDirectStoreResult.java:31-32 | the emitted key names are the subsequence of metaData, success, total, records, message whose getters are non-null |
| `BeanJson.FalsyValuesEmitted` | src/main/java/ch/ralscha/extdirectspring/bean/ExtDirectStoreResult.java:31 | only null is left out: these are all still emitted: a false success, a total of 0, an empty record list and a provider with an empty map |
| `BeanJson.SerializeInjective` | src/main/java/ch/ralscha/extdirectspring/bean/ExtDirectStoreResult.java:31 | two envelopes give the same output if and only if they agree on all five properties, so leaving out null loses no information |
| `SetterChains.LastUpdate` | src/main/java/ch/ralscha/extdirectspring/bean/ExtDirectStoreResult.java:97-122 | the result is a call of the chain that writes the property and no later call of the chain writes it; when there is none, no call in the chain writes it |
| `SetterChains.ApplyAllLastWins` | src/main/java/ch/ralscha/extdirectspring/bean/ExtDirectStoreResult.java:97-122 | after a chain of setter calls, each property holds the last value written to it, or its earlier value; the view class is kept |
| `SetterChains.SetterOrderIrrelevant` | src/main/java/ch/ralscha/extdirectspring/bean/ExtDirectStoreResult.java:97-122 | the same setter calls in any order give the same envelope and the same JSON output, when no two calls give one property different values |
| `StoreResultClients.ChainedSetters` | src/main/java/ch/ralscha/extdirectspring/bean/ExtDirectStoreResult.java:97-110 | setting total 5, then success false, on an empty envelope gives the canonical constructor's result for total 5, null records and success false |
| `StoreResultClients.SingleRecordIsOneElementList` | src/main/java/ch/ralscha/extdirectspring/bean/ExtDirectStoreResult.java:49-60 | the single-record constructor and the collection constructor given the one-element list build equal envelopes |
| `StoreResultClients.RecordsWithMessage` | src/main/java/ch/ralscha/extdirectspring/bean/ExtDirectStoreResult.java:31-32 | records ["a", "b"] with Integer total 2 and message "ok" serialize to success, total, records, message in that order, with no metaData |
| `StoreResultClients.MetaDataAlwaysNested` | src/main/java/ch/ralscha/extdirectspring/bean/ExtDirectStoreResult.java:112-122 | setting a provider on an empty envelope yields exactly one nested metaData property holding the provider's map, also when that map is empty |

## Left out

- JSON text: Jackson's serializer is not part of this model. The output is the list of
  emitted properties with their values. Element serialization of `T`, projection by the
  view class and JSON escaping are not modelled.
- `JsonViewHint` (`setJsonView`, `getJsonView`) is not part of this model. `jsonView` is
  a plain optional field that the constructors set. The model assumes it starts null and
  that it is not a serialized property, on the assumption that `JsonViewHint` hides its
  getter from Jackson. The order annotation alone would not exclude it: Jackson writes
  properties it does not list after the listed ones.
- `MetaData` is not part of this model. A provider is reduced to the map its
  `getMetaData()` yields. Two different provider objects with equal maps are not told
  apart, and a provider whose map changes over time is not modelled. A provider whose
  `getMetaData()` returns null is not modelled: Java passes that null on (`:114`) and
  the null filter drops the key, while `MetaData<V>` always holds a map, so "present
  whenever a provider is set" (`PresentIffNotNull`, `MetaDataAlwaysNested`) holds only
  for providers with a map. The entry order of the nested map is lost: Jackson writes a
  `Map` in its iteration order, and `map<string, V>` has no order.
- `Bean.ExtDirectStoreResult.OfArray`: takes a non-null array. Java fails with a
  NullPointerException when the array is null, and the model has no such path.
  `records` holds the elements as a value, so the Java list's link to the array it wraps
  is not modelled.
- Reference aliasing of `records`: the model stores the sequence's value. The Java class
  keeps the caller's collection object, which the caller could still change.
- `toString()` (`ExtDirectStoreResult.java:145-149`): a debug string with no stability
  contract.
- Concurrency: the class has no synchronization and is meant for use on a single thread.
