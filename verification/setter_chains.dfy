/**
 * Chains of fluent setter calls on one envelope. Each setter writes only its
 * own property, so the envelope after a chain depends on the last value given
 * to each property and not on the order of calls to different properties.
 */
module SetterChains {
  import opened Wrappers
  import opened Bean
  import opened BeanJson

  /** The state after calling the setters `us` one after another on `s`. */
  function ApplyAll<T, V>(s: StoreResultState<T, V>, us: seq<Update<T, V>>): StoreResultState<T, V>
  {
    if us == [] then s else Apply(ApplyAll(s, us[..|us| - 1]), us[|us| - 1])
  }

  /** Call `i` of `us` writes property `k`, and no later call does. */
  ghost predicate LastWriteAt<T, V>(us: seq<Update<T, V>>, i: int, k: Key)
  {
    0 <= i < |us| && us[i].Target() == k && forall j :: i < j < |us| ==> us[j].Target() != k
  }

  /** The last setter call in `us` that writes property `k`, if there is one. */
  function LastUpdate<T, V>(us: seq<Update<T, V>>, k: Key): (r: Option<Update<T, V>>)
    ensures r.Some? ==> r.value in us && r.value.Target() == k
    ensures r.None? ==> forall u :: u in us ==> u.Target() != k
    ensures r.Some? ==> exists i :: LastWriteAt(us, i, k) && us[i] == r.value
  {
    if us == [] then None
    else if us[|us| - 1].Target() == k then Some(us[|us| - 1])
    else
      var init, last := us[..|us| - 1], us[|us| - 1];
      var r := LastUpdate(init, k);
      assert us == init + [last];
      assert forall u :: u in us ==> u in init || u == last;
      if r.Some? then
        LaterWriteStaysLast(init, last, r.value, k);
        r
      else r
  }

  /** The last write of `k` in `init` stays last after a call that writes another property. */
  lemma LaterWriteStaysLast<T, V>(init: seq<Update<T, V>>, last: Update<T, V>, u: Update<T, V>, k: Key)
    requires last.Target() != k
    requires exists i :: LastWriteAt(init, i, k) && init[i] == u
    ensures exists i :: LastWriteAt(init + [last], i, k) && (init + [last])[i] == u
  {
    var i :| LastWriteAt(init, i, k) && init[i] == u;
    assert LastWriteAt(init + [last], i, k);
  }

  /**
   * After a chain, each property holds what the last setter of it wrote, or
   * its value before the chain if no setter wrote it; the view class is kept.
   */
  lemma {:induction false} ApplyAllLastWins<T, V>(s: StoreResultState<T, V>, us: seq<Update<T, V>>, k: Key)
    ensures Current(ApplyAll(s, us), k) == if LastUpdate(us, k).Some? then LastUpdate(us, k).value else Current(s, k)
    ensures ApplyAll(s, us).jsonView == s.jsonView
  {
    if us != [] {
      ApplyAllLastWins(s, us[..|us| - 1], k);
    }
  }

  /** No two calls in `us` give the same property different values. */
  ghost predicate Consistent<T, V>(us: seq<Update<T, V>>)
  {
    forall u, w :: u in us && w in us && u.Target() == w.Target() ==> u == w
  }

  /**
   * Calling the same setters in any order gives the same envelope, and so the
   * same JSON object.
   */
  lemma SetterOrderIrrelevant<T, V>(s: StoreResultState<T, V>, us: seq<Update<T, V>>, vs: seq<Update<T, V>>)
    requires multiset(us) == multiset(vs)
    requires Consistent(us)
    ensures ApplyAll(s, us) == ApplyAll(s, vs)
    ensures Serialize(ApplyAll(s, us)) == Serialize(ApplyAll(s, vs))
  {
    forall k ensures Current(ApplyAll(s, us), k) == Current(ApplyAll(s, vs), k) {
      ApplyAllLastWins(s, us, k);
      ApplyAllLastWins(s, vs, k);
      var lu, lv := LastUpdate(us, k), LastUpdate(vs, k);
      if lu.Some? {
        assert lu.value in multiset(vs);
      }
      if lv.Some? {
        assert lv.value in multiset(us);
      }
    }
    ApplyAllLastWins(s, us, MetaDataKey);
    ApplyAllLastWins(s, vs, MetaDataKey);
    StateDeterminedByProperties(ApplyAll(s, us), ApplyAll(s, vs));
  }
}
