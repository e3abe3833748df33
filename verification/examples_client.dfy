/** Callers of the envelope, stating what they can rely on from its contracts alone. */
module StoreResultClients {
  import opened Wrappers
  import opened Bean
  import opened BeanJson

  /** Chained setters on an empty envelope give the canonical constructor's result. */
  method ChainedSetters<T, V>() returns (r: ExtDirectStoreResult<T, V>)
    ensures fresh(r)
    ensures r.State() == Canonical(Some(5), None, Some(false), None)
  {
    var e := new ExtDirectStoreResult<T, V>();
    var e1 := e.SetTotal(Some(5));
    r := e1.SetSuccess(Some(false));
  }

  /** A single record and the one-element list of it build the same envelope. */
  method SingleRecordIsOneElementList<T, V>(record: T) returns (a: ExtDirectStoreResult<T, V>, b: ExtDirectStoreResult<T, V>)
    ensures fresh(a) && fresh(b)
    ensures a.State() == b.State()
  {
    a := new ExtDirectStoreResult<T, V>.OfRecord(record);
    b := new ExtDirectStoreResult<T, V>.OfRecords(Some([record]));
  }

  /**
   * Records ["a", "b"] with total 2, then a message: success, total, records
   * and message are emitted in that order, and no metaData.
   */
  method RecordsWithMessage<V>() returns (r: ExtDirectStoreResult<string, V>)
    ensures fresh(r)
    ensures Serialize(r.State()) ==
      [SuccessProperty(true), TotalProperty(2), RecordsProperty(["a", "b"]), MessageProperty("ok")]
    ensures Names(Serialize(r.State())) == ["success", "total", "records", "message"]
  {
    r := new ExtDirectStoreResult<string, V>.WithIntegerTotal(Some(2), Some(["a", "b"]));
    r := r.SetMessage(Some("ok"));
    ghost var st := r.State();
    assert st == StoreResultState(Some(2), Some(["a", "b"]), Some(true), None, Some("ok"), None);
    RecordsWithMessageOutput(st);
    ExampleNames(Serialize(st));
  }

  /**
   * Setting a provider on an empty envelope yields exactly one nested
   * metaData property holding the provider's map, even an empty one.
   */
  method MetaDataAlwaysNested<T, V>(entries: map<string, V>) returns (r: ExtDirectStoreResult<T, V>)
    ensures fresh(r)
    ensures Serialize(r.State()) == [MetaDataProperty(entries)]
  {
    r := new ExtDirectStoreResult<T, V>();
    r := r.SetMetaData(Some(MetaData(entries)));
    SerializedInDeclaredOrder(r.State());
  }

  /** The output for the state RecordsWithMessage builds. */
  lemma RecordsWithMessageOutput<V>(st: StoreResultState<string, V>)
    requires st == StoreResultState(Some(2), Some(["a", "b"]), Some(true), None, Some("ok"), None)
    ensures Serialize(st) ==
      [SuccessProperty(true), TotalProperty(2), RecordsProperty(["a", "b"]), MessageProperty("ok")]
  {
  }

  /** The key names of that output. */
  lemma ExampleNames<V>(out: seq<Property<string, V>>)
    requires out == [SuccessProperty(true), TotalProperty(2), RecordsProperty(["a", "b"]), MessageProperty("ok")]
    ensures Names(out) == ["success", "total", "records", "message"]
  {
  }
}
