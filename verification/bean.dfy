/**
 * The response envelope that store read and store modify methods return
 * (ExtDirectStoreResult<T> of package ch.ralscha.extdirectspring.bean):
 * five independently nullable properties (total, records, success, metaData,
 * message) plus the view class inherited from JsonViewHint.
 */
module Bean {
  import opened Wrappers

  /** The value range of java.lang.Integer. */
  newtype Integer = x: int | -0x8000_0000 <= x < 0x8000_0000

  /** The value range of java.lang.Long. */
  newtype Long = x: int | -0x8000_0000_0000_0000 <= x < 0x8000_0000_0000_0000

  /** The Jackson view class (a Class<?>), carried through unchanged. */
  datatype JsonView = JsonView(className: string)

  /**
   * A metadata provider, known to the envelope only through the map that its
   * own getMetaData() yields (root property, paging and sorting entries).
   */
  datatype MetaData<V> = MetaData(metaData: map<string, V>)

  /** The five bean properties, named as they appear in the JSON output. */
  datatype Key = MetaDataKey | SuccessKey | TotalKey | RecordsKey | MessageKey
  {
    function Name(): string
    {
      match this
      case MetaDataKey => "metaData"
      case SuccessKey => "success"
      case TotalKey => "total"
      case RecordsKey => "records"
      case MessageKey => "message"
    }
  }

  /** Distinct properties are serialized under distinct names. */
  lemma NamesDistinct(k1: Key, k2: Key)
    ensures k1.Name() == k2.Name() <==> k1 == k2
  {
  }

  /** The field values of one envelope, as a value. */
  datatype StoreResultState<T, V> = StoreResultState(
    total: Option<Long>,
    records: Option<seq<T>>,
    success: Option<bool>,
    metaData: Option<MetaData<V>>,
    message: Option<string>,
    jsonView: Option<JsonView>)
  {
    /**
     * The metaData property: null exactly when no provider is set, otherwise
     * the provider's map, unchanged (an empty map is still a map, not null).
     */
    function GetMetaData(): (m: Option<map<string, V>>)
      ensures m.None? <==> metaData.None?
      ensures metaData.Some? ==> m.value == metaData.value.metaData
    {
      if metaData.Some? then Some(metaData.value.metaData) else None
    }
  }

  /**
   * The state the four-argument constructor leaves behind: the given total,
   * records, success and view, and no metaData and no message.
   */
  function Canonical<T, V>(total: Option<Long>, records: Option<seq<T>>, success: Option<bool>,
                           jsonView: Option<JsonView>): StoreResultState<T, V>
  {
    StoreResultState(total, records, success, None, None, jsonView)
  }

  /** The Integer-total constructors' widening: same number, and null stays null. */
  function WidenTotal(total: Option<Integer>): (r: Option<Long>)
    ensures r.None? <==> total.None?
    ensures total.Some? ==> r.value as int == total.value as int
  {
    match total
    case None => None
    case Some(t) => Some(t as Long)
  }

  /** One call of a fluent setter, with the value it is given. */
  datatype Update<T, V> =
    | UpdateMetaData(metaData: Option<MetaData<V>>)
    | UpdateSuccess(success: Option<bool>)
    | UpdateTotal(total: Option<Long>)
    | UpdateRecords(records: Option<seq<T>>)
    | UpdateMessage(message: Option<string>)
  {
    /** The one property this setter writes. */
    function Target(): Key
    {
      match this
      case UpdateMetaData(_) => MetaDataKey
      case UpdateSuccess(_) => SuccessKey
      case UpdateTotal(_) => TotalKey
      case UpdateRecords(_) => RecordsKey
      case UpdateMessage(_) => MessageKey
    }
  }

  /** The setter call that would write `s`'s present value of property `k`. */
  function Current<T, V>(s: StoreResultState<T, V>, k: Key): (u: Update<T, V>)
    ensures u.Target() == k
  {
    match k
    case MetaDataKey => UpdateMetaData(s.metaData)
    case SuccessKey => UpdateSuccess(s.success)
    case TotalKey => UpdateTotal(s.total)
    case RecordsKey => UpdateRecords(s.records)
    case MessageKey => UpdateMessage(s.message)
  }

  /**
   * The state after one setter call: the setter's property holds the given
   * value, every other property and the view class are as they were.
   */
  function Apply<T, V>(s: StoreResultState<T, V>, u: Update<T, V>): (r: StoreResultState<T, V>)
    ensures Current(r, u.Target()) == u
    ensures forall k :: k != u.Target() ==> Current(r, k) == Current(s, k)
    ensures r.jsonView == s.jsonView
  {
    match u
    case UpdateMetaData(m) => s.(metaData := m)
    case UpdateSuccess(b) => s.(success := b)
    case UpdateTotal(t) => s.(total := t)
    case UpdateRecords(rs) => s.(records := rs)
    case UpdateMessage(msg) => s.(message := msg)
  }

  /** Two states that agree on the five properties and the view class are equal. */
  lemma StateDeterminedByProperties<T, V>(a: StoreResultState<T, V>, b: StoreResultState<T, V>)
    requires a.jsonView == b.jsonView
    requires forall k :: Current(a, k) == Current(b, k)
    ensures a == b
  {
    assert Current(a, MetaDataKey) == Current(b, MetaDataKey);
    assert Current(a, SuccessKey) == Current(b, SuccessKey);
    assert Current(a, TotalKey) == Current(b, TotalKey);
    assert Current(a, RecordsKey) == Current(b, RecordsKey);
    assert Current(a, MessageKey) == Current(b, MessageKey);
  }

  /** Writing a property's present value again changes nothing. */
  lemma ApplyCurrent<T, V>(s: StoreResultState<T, V>, k: Key)
    ensures Apply(s, Current(s, k)) == s
  {
  }

  /** Setters of two different properties commute. */
  lemma ApplyCommutes<T, V>(s: StoreResultState<T, V>, u: Update<T, V>, w: Update<T, V>)
    requires u.Target() != w.Target()
    ensures Apply(Apply(s, u), w) == Apply(Apply(s, w), u)
  {
  }

  /** The envelope object. Every field may be null; the setters return the receiver. */
  class ExtDirectStoreResult<T, V> {
    var total: Option<Long>
    var records: Option<seq<T>>
    var success: Option<bool>
    var metaData: Option<MetaData<V>>
    var message: Option<string>
    var jsonView: Option<JsonView>

    /** The present field values. */
    function State(): StoreResultState<T, V>
      reads this
    {
      StoreResultState(total, records, success, metaData, message, jsonView)
    }

    /** The default constructor: every field is null. */
    constructor ()
      ensures total.None? && records.None? && success.None?
      ensures metaData.None? && message.None? && jsonView.None?
    {
      total, records, success := None, None, None;
      metaData, message, jsonView := None, None, None;
    }

    /** One record, wrapped into a one-element list; success is true. */
    constructor OfRecord(record: T)
      ensures State() == Canonical(None, Some([record]), Some(true), None)
    {
      total, records, success := None, Some([record]), Some(true);
      metaData, message, jsonView := None, None, None;
    }

    /** The elements of an array, in array order; success is true. */
    constructor OfArray(records: array<T>)
      ensures State() == Canonical(None, Some(records[..]), Some(true), None)
    {
      this.total, this.records, this.success := None, Some(records[..]), Some(true);
      metaData, message, jsonView := None, None, None;
    }

    /** A (possibly null) collection, kept as it is; success is true. */
    constructor OfRecords(records: Option<seq<T>>)
      ensures State() == Canonical(None, records, Some(true), None)
    {
      this.total, this.records, this.success := None, records, Some(true);
      metaData, message, jsonView := None, None, None;
    }

    /** An Integer total, widened to Long, and the records; success is true. */
    constructor WithIntegerTotal(total: Option<Integer>, records: Option<seq<T>>)
      ensures State() == Canonical(WidenTotal(total), records, Some(true), None)
    {
      this.total, this.records, this.success := WidenTotal(total), records, Some(true);
      metaData, message, jsonView := None, None, None;
    }

    /** An Integer total, widened to Long, the records and the given success. */
    constructor WithIntegerTotalAndSuccess(total: Option<Integer>, records: Option<seq<T>>, success: Option<bool>)
      ensures State() == Canonical(WidenTotal(total), records, success, None)
    {
      this.total, this.records, this.success := WidenTotal(total), records, success;
      metaData, message, jsonView := None, None, None;
    }

    /** A Long total and the records; success is true. */
    constructor WithTotal(total: Option<Long>, records: Option<seq<T>>)
      ensures State() == Canonical(total, records, Some(true), None)
    {
      this.total, this.records, this.success := total, records, Some(true);
      metaData, message, jsonView := None, None, None;
    }

    /** A Long total, the records and a view class; success is true. */
    constructor WithTotalAndView(total: Option<Long>, records: Option<seq<T>>, jsonView: Option<JsonView>)
      ensures State() == Canonical(total, records, Some(true), jsonView)
    {
      this.total, this.records, this.success := total, records, Some(true);
      metaData, message, this.jsonView := None, None, jsonView;
    }

    /** The canonical constructor that all the others funnel into. */
    constructor Create(total: Option<Long>, records: Option<seq<T>>, success: Option<bool>, jsonView: Option<JsonView>)
      ensures State() == Canonical(total, records, success, jsonView)
      ensures this.total == total && this.records == records && this.success == success
      ensures metaData.None? && message.None? && this.jsonView == jsonView
    {
      this.total, this.records, this.success := total, records, success;
      metaData, message, this.jsonView := None, None, jsonView;
    }

    /** The metaData getter: null without a provider, else the provider's map. */
    function GetMetaData(): (m: Option<map<string, V>>)
      reads this
      ensures m.None? <==> metaData.None?
      ensures metaData.Some? ==> m.value == metaData.value.metaData
    {
      State().GetMetaData()
    }

    method SetTotal(total: Option<Long>) returns (self: ExtDirectStoreResult<T, V>)
      modifies this`total
      ensures self == this
      ensures State() == Apply(old(State()), UpdateTotal(total))
    {
      this.total := total;
      self := this;
    }

    method SetRecords(records: Option<seq<T>>) returns (self: ExtDirectStoreResult<T, V>)
      modifies this`records
      ensures self == this
      ensures State() == Apply(old(State()), UpdateRecords(records))
    {
      this.records := records;
      self := this;
    }

    method SetSuccess(success: Option<bool>) returns (self: ExtDirectStoreResult<T, V>)
      modifies this`success
      ensures self == this
      ensures State() == Apply(old(State()), UpdateSuccess(success))
    {
      this.success := success;
      self := this;
    }

    method SetMetaData(metaData: Option<MetaData<V>>) returns (self: ExtDirectStoreResult<T, V>)
      modifies this`metaData
      ensures self == this
      ensures State() == Apply(old(State()), UpdateMetaData(metaData))
    {
      this.metaData := metaData;
      self := this;
    }

    method SetMessage(message: Option<string>) returns (self: ExtDirectStoreResult<T, V>)
      modifies this`message
      ensures self == this
      ensures State() == Apply(old(State()), UpdateMessage(message))
    {
      this.message := message;
      self := this;
    }
  }
}
