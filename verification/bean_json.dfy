/**
 * The serialization contract that the class annotations of ExtDirectStoreResult
 * declare: properties whose getter yields null are left out, and the others
 * appear in the fixed order metaData, success, total, records, message.
 * metaData is one nested property holding the provider's map.
 */
module BeanJson {
  import opened Wrappers
  import opened Bean

  /** One emitted JSON property: its name and the non-null getter value. */
  datatype Property<T, V> =
    | MetaDataProperty(metaData: map<string, V>)
    | SuccessProperty(success: bool)
    | TotalProperty(total: Long)
    | RecordsProperty(records: seq<T>)
    | MessageProperty(message: string)
  {
    function Key(): Key
    {
      match this
      case MetaDataProperty(_) => MetaDataKey
      case SuccessProperty(_) => SuccessKey
      case TotalProperty(_) => TotalKey
      case RecordsProperty(_) => RecordsKey
      case MessageProperty(_) => MessageKey
    }
  }

  /** The declared property order. */
  const PropertyOrder: seq<Key> := [MetaDataKey, SuccessKey, TotalKey, RecordsKey, MessageKey]

  /** Where a property stands in the declared order. */
  function Position(k: Key): (i: nat)
    ensures i < |PropertyOrder| && PropertyOrder[i] == k
  {
    match k
    case MetaDataKey => 0
    case SuccessKey => 1
    case TotalKey => 2
    case RecordsKey => 3
    case MessageKey => 4
  }

  /** Keys listed in strictly increasing declared position (so each at most once). */
  ghost predicate InDeclaredOrder(keys: seq<Key>)
  {
    forall i, j :: 0 <= i < j < |keys| ==> Position(keys[i]) < Position(keys[j])
  }

  /** The keys of the emitted properties, in output order. */
  function Keys<T, V>(out: seq<Property<T, V>>): (keys: seq<Key>)
    ensures |keys| == |out|
    ensures forall i :: 0 <= i < |out| ==> keys[i] == out[i].Key()
  {
    if out == [] then [] else [out[0].Key()] + Keys(out[1..])
  }

  /** The names of the emitted properties, in output order. */
  function Names<T, V>(out: seq<Property<T, V>>): (names: seq<string>)
    ensures |names| == |out|
    ensures forall i :: 0 <= i < |out| ==> names[i] == out[i].Key().Name()
  {
    if out == [] then [] else [out[0].Key().Name()] + Names(out[1..])
  }

  /** Whether the getter of property `k` yields a non-null value. */
  predicate Present<T, V>(s: StoreResultState<T, V>, k: Key)
  {
    Lookup(s, k).Some?
  }

  /**
   * Present means non-null, field by field; metaData is present whenever a
   * provider is set, whatever its map holds.
   */
  lemma PresentIffNotNull<T, V>(s: StoreResultState<T, V>)
    ensures Present(s, MetaDataKey) <==> s.metaData.Some?
    ensures Present(s, SuccessKey) <==> s.success.Some?
    ensures Present(s, TotalKey) <==> s.total.Some?
    ensures Present(s, RecordsKey) <==> s.records.Some?
    ensures Present(s, MessageKey) <==> s.message.Some?
  {
  }

  /** What the getter of property `k` yields: None for null, else the property to emit. */
  function Lookup<T, V>(s: StoreResultState<T, V>, k: Key): (p: Option<Property<T, V>>)
    ensures p.Some? ==> p.value.Key() == k
  {
    match k
    case MetaDataKey => if s.GetMetaData().Some? then Some(MetaDataProperty(s.GetMetaData().value)) else None
    case SuccessKey => if s.success.Some? then Some(SuccessProperty(s.success.value)) else None
    case TotalKey => if s.total.Some? then Some(TotalProperty(s.total.value)) else None
    case RecordsKey => if s.records.Some? then Some(RecordsProperty(s.records.value)) else None
    case MessageKey => if s.message.Some? then Some(MessageProperty(s.message.value)) else None
  }

  /** Walks `order`, emitting the property of each key whose getter is not null. */
  function Emit<T, V>(s: StoreResultState<T, V>, order: seq<Key>): (out: seq<Property<T, V>>)
    ensures |out| <= |order|
  {
    if order == [] then []
    else IfPresent(Lookup(s, order[0])) + Emit(s, order[1..])
  }

  /** A getter's contribution to the output: its property, or nothing for null. */
  function IfPresent<T, V>(p: Option<Property<T, V>>): seq<Property<T, V>>
  {
    if p.Some? then [p.value] else []
  }

  /** Everything emitted comes from `order` and carries its getter's value. */
  lemma {:induction false} EmitSound<T, V>(s: StoreResultState<T, V>, order: seq<Key>)
    ensures forall p :: p in Emit(s, order) ==> p.Key() in order && Lookup(s, p.Key()) == Some(p)
  {
    if order != [] {
      EmitSound(s, order[1..]);
      forall p | p in Emit(s, order) ensures p.Key() in order && Lookup(s, p.Key()) == Some(p) {
        if p !in Emit(s, order[1..]) {
          assert p in IfPresent(Lookup(s, order[0]));
        } else {
          assert p.Key() in order[1..];
        }
      }
    }
  }

  /** Every non-null property of `order` is emitted. */
  lemma {:induction false} EmitComplete<T, V>(s: StoreResultState<T, V>, order: seq<Key>)
    ensures forall k :: k in order && Lookup(s, k).Some? ==> Lookup(s, k).value in Emit(s, order)
  {
    if order != [] {
      EmitComplete(s, order[1..]);
      forall k | k in order && Lookup(s, k).Some? ensures Lookup(s, k).value in Emit(s, order) {
        if k == order[0] {
          assert Lookup(s, k).value in IfPresent(Lookup(s, order[0]));
        } else {
          assert k in order[1..];
        }
      }
    }
  }

  /** Walking keys in declared order emits properties in declared order. */
  lemma {:induction false} EmitKeepsOrder<T, V>(s: StoreResultState<T, V>, order: seq<Key>)
    requires InDeclaredOrder(order)
    ensures InDeclaredOrder(Keys(Emit(s, order)))
  {
    if order != [] {
      var rest := Emit(s, order[1..]);
      TailInDeclaredOrder(order);
      EmitKeepsOrder(s, order[1..]);
      if Lookup(s, order[0]).Some? {
        var p := Lookup(s, order[0]).value;
        EmitSound(s, order[1..]);
        forall q | q in rest ensures Position(p.Key()) < Position(q.Key()) {
          var m :| 0 <= m < |order[1..]| && order[1..][m] == q.Key();
          assert order[m + 1] == q.Key();
        }
        ConsInDeclaredOrder(p, rest);
      }
    }
  }

  lemma TailInDeclaredOrder(order: seq<Key>)
    requires order != [] && InDeclaredOrder(order)
    ensures InDeclaredOrder(order[1..])
  {
  }

  lemma ConsInDeclaredOrder<T, V>(p: Property<T, V>, rest: seq<Property<T, V>>)
    requires InDeclaredOrder(Keys(rest))
    requires forall q :: q in rest ==> Position(p.Key()) < Position(q.Key())
    ensures InDeclaredOrder(Keys([p] + rest))
  {
  }

  /** The declared order lists every property once. */
  lemma PropertyOrderFacts()
    ensures InDeclaredOrder(PropertyOrder)
    ensures forall k :: k in PropertyOrder
  {
    forall k ensures k in PropertyOrder {
      assert PropertyOrder[Position(k)] == k;
    }
  }

  /**
   * The envelope's JSON object: exactly the non-null properties, each with its
   * getter's value, each once, in the declared order.
   */
  function Serialize<T, V>(s: StoreResultState<T, V>): (out: seq<Property<T, V>>)
    ensures forall p :: p in out ==> Lookup(s, p.Key()) == Some(p)
    ensures forall k :: Lookup(s, k).Some? ==> Lookup(s, k).value in out
    ensures InDeclaredOrder(Keys(out))
  {
    PropertyOrderFacts();
    EmitSound(s, PropertyOrder);
    EmitComplete(s, PropertyOrder);
    EmitKeepsOrder(s, PropertyOrder);
    Emit(s, PropertyOrder)
  }

  /** A property is emitted exactly when its getter is not null. */
  lemma EmittedIffNotNull<T, V>(s: StoreResultState<T, V>, k: Key)
    ensures (exists p :: p in Serialize(s) && p.Key() == k) <==> Lookup(s, k).Some?
  {
  }

  /**
   * The output stated directly: each getter's property, if not null, in the
   * order metaData, success, total, records, message.
   */
  lemma SerializedInDeclaredOrder<T, V>(s: StoreResultState<T, V>)
    ensures Serialize(s) ==
      IfPresent(Lookup(s, MetaDataKey)) + (IfPresent(Lookup(s, SuccessKey)) + (IfPresent(Lookup(s, TotalKey)) +
        (IfPresent(Lookup(s, RecordsKey)) + IfPresent(Lookup(s, MessageKey)))))
  {
    EmitDeclaredOrder(s);
  }

  lemma EmitDeclaredOrder<T, V>(s: StoreResultState<T, V>)
    ensures Emit(s, PropertyOrder) ==
      IfPresent(Lookup(s, MetaDataKey)) + (IfPresent(Lookup(s, SuccessKey)) + (IfPresent(Lookup(s, TotalKey)) +
        (IfPresent(Lookup(s, RecordsKey)) + IfPresent(Lookup(s, MessageKey)))))
  {
    var o4 := [MessageKey];
    var o3 := [RecordsKey] + o4;
    var o2 := [TotalKey] + o3;
    var o1 := [SuccessKey] + o2;
    assert PropertyOrder == [MetaDataKey] + o1;
    EmitStep(s, MessageKey, []);
    assert Emit(s, []) == [];
    EmitStep(s, RecordsKey, o4);
    EmitStep(s, TotalKey, o3);
    EmitStep(s, SuccessKey, o2);
    EmitStep(s, MetaDataKey, o1);
  }

  /** One step of the walk. */
  lemma EmitStep<T, V>(s: StoreResultState<T, V>, k: Key, rest: seq<Key>)
    ensures Emit(s, [k] + rest) == IfPresent(Lookup(s, k)) + Emit(s, rest)
  {
  }

  /**
   * The emitted names, stated directly: the subsequence of metaData, success,
   * total, records, message whose getters are not null.
   */
  lemma SerializedNames<T, V>(s: StoreResultState<T, V>)
    ensures Names(Serialize(s)) ==
      (if Present(s, MetaDataKey) then [MetaDataKey.Name()] else []) +
      ((if Present(s, SuccessKey) then [SuccessKey.Name()] else []) +
      ((if Present(s, TotalKey) then [TotalKey.Name()] else []) +
      ((if Present(s, RecordsKey) then [RecordsKey.Name()] else []) +
      (if Present(s, MessageKey) then [MessageKey.Name()] else []))))
  {
    SerializedInDeclaredOrder(s);
    var a, b, c := IfPresent(Lookup(s, MetaDataKey)), IfPresent(Lookup(s, SuccessKey)), IfPresent(Lookup(s, TotalKey));
    var d, e := IfPresent(Lookup(s, RecordsKey)), IfPresent(Lookup(s, MessageKey));
    NamesAppend(d, e);
    NamesAppend(c, d + e);
    NamesAppend(b, c + (d + e));
    NamesAppend(a, b + (c + (d + e)));
    NamesIfPresent(s, MetaDataKey);
    NamesIfPresent(s, SuccessKey);
    NamesIfPresent(s, TotalKey);
    NamesIfPresent(s, RecordsKey);
    NamesIfPresent(s, MessageKey);
  }

  /** One getter's contribution to the emitted names. */
  lemma NamesIfPresent<T, V>(s: StoreResultState<T, V>, k: Key)
    ensures Names(IfPresent(Lookup(s, k))) == if Present(s, k) then [k.Name()] else []
  {
  }

  lemma NamesAppend<T, V>(a: seq<Property<T, V>>, b: seq<Property<T, V>>)
    ensures Names(a + b) == Names(a) + Names(b)
  {
  }

  /**
   * Only null is left out: a success of false, a total of 0, an empty record
   * list and an empty metadata map are all emitted.
   */
  lemma FalsyValuesEmitted<T, V>(s: StoreResultState<T, V>)
    ensures s.success == Some(false) ==> SuccessProperty(false) in Serialize(s)
    ensures s.total == Some(0) ==> TotalProperty(0) in Serialize(s)
    ensures s.records == Some([]) ==> RecordsProperty([]) in Serialize(s)
    ensures s.metaData.Some? && s.metaData.value.metaData == map[] ==> MetaDataProperty(map[]) in Serialize(s)
  {
    assert Lookup(s, SuccessKey).Some? ==> Lookup(s, SuccessKey).value in Serialize(s);
    assert Lookup(s, TotalKey).Some? ==> Lookup(s, TotalKey).value in Serialize(s);
    assert Lookup(s, RecordsKey).Some? ==> Lookup(s, RecordsKey).value in Serialize(s);
    assert Lookup(s, MetaDataKey).Some? ==> Lookup(s, MetaDataKey).value in Serialize(s);
  }

  /**
   * Omitting null loses nothing: two envelopes give the same JSON object
   * exactly when they agree on all five properties (the view class and the
   * provider behind the map aside, which are not serialized).
   */
  lemma SerializeInjective<T, V>(a: StoreResultState<T, V>, b: StoreResultState<T, V>)
    ensures Serialize(a) == Serialize(b) <==> forall k :: Current(a, k) == Current(b, k)
  {
    if Serialize(a) == Serialize(b) {
      forall k ensures Current(a, k) == Current(b, k) {
        LookupAgrees(a, b, k);
      }
    } else {
      if forall k :: Current(a, k) == Current(b, k) {
        forall k ensures Lookup(a, k) == Lookup(b, k) {
          assert Current(a, k) == Current(b, k);
        }
        SameLookupSameOutput(a, b);
      }
    }
  }

  /** Equal outputs mean equal getter values, hence equal properties. */
  lemma LookupAgrees<T, V>(a: StoreResultState<T, V>, b: StoreResultState<T, V>, k: Key)
    requires Serialize(a) == Serialize(b)
    ensures Current(a, k) == Current(b, k)
  {
    if Lookup(a, k).Some? {
      assert Lookup(a, k).value in Serialize(b);
    }
    if Lookup(b, k).Some? {
      assert Lookup(b, k).value in Serialize(a);
    }
    assert Lookup(a, k) == Lookup(b, k);
  }

  /** The output depends on the states only through their getters. */
  lemma SameLookupSameOutput<T, V>(a: StoreResultState<T, V>, b: StoreResultState<T, V>)
    requires forall k :: Lookup(a, k) == Lookup(b, k)
    ensures Serialize(a) == Serialize(b)
  {
    EmitSameLookup(a, b, PropertyOrder);
  }

  lemma {:induction false} EmitSameLookup<T, V>(a: StoreResultState<T, V>, b: StoreResultState<T, V>, order: seq<Key>)
    requires forall k :: Lookup(a, k) == Lookup(b, k)
    ensures Emit(a, order) == Emit(b, order)
  {
    if order != [] {
      EmitSameLookup(a, b, order[1..]);
      assert Lookup(a, order[0]) == Lookup(b, order[0]);
    }
  }
}
