/**
 * Shallow equality of store snapshots (`shallowEqual`). The stores skip a
 * state update when the old and the new projection compare equal here.
 */
module ShallowEqual {

  /**
   * A JavaScript value as the comparison sees it. Objects carry an identity
   * `id` besides their own enumerable string-keyed properties; `Object.is`
   * compares objects by identity and everything else by value.
   */
  datatype JsValue =
    | Undefined
    | Null
    | Bool(b: bool)
    | Num(n: int)
    | Str(s: string)
    | Obj(id: nat, fields: map<string, JsValue>)

  /** `Object.is`: identity for two objects, value equality otherwise. */
  predicate Same(a: JsValue, b: JsValue)
  {
    if a.Obj? && b.Obj? then a.id == b.id else a == b
  }

  /**
   * Shallow equality: identical values are equal; otherwise both must be
   * non-null objects with the same number of keys, and every key of `a`
   * must be an own key of `b` holding an identical value.
   */
  predicate ShallowEqual(a: JsValue, b: JsValue)
  {
    if Same(a, b) then true
    else if a.Null? || b.Null? then false
    else if !a.Obj? || !b.Obj? then false
    else if |a.fields.Keys| != |b.fields.Keys| then false
    else forall k :: k in a.fields ==> k in b.fields && Same(a.fields[k], b.fields[k])
  }

  /** Reference definition: the two records have one key set and identical values. */
  predicate SameRecord(a: map<string, JsValue>, b: map<string, JsValue>)
  {
    a.Keys == b.Keys && forall k :: k in a ==> Same(a[k], b[k])
  }

  /** A subset of a finite set with the same size is the whole set. */
  lemma SubsetSameSize<T>(s: set<T>, t: set<T>)
    requires s <= t && |s| == |t|
    ensures s == t
  {
    if s != t {
      var x :| x in t && x !in s;
      assert s <= t - {x};
      SubsetSize(s, t - {x});
    }
  }

  lemma SubsetSize<T>(s: set<T>, t: set<T>)
    requires s <= t
    ensures |s| <= |t|
  {
    assert t == s + (t - s);
  }

  /** Identical inputs always compare equal. */
  lemma IdenticalEqual(a: JsValue, b: JsValue)
    requires Same(a, b)
    ensures ShallowEqual(a, b)
  {
  }

  /** Null against anything not identical to it, and non-objects, compare unequal. */
  lemma NonObjectsUnequal(a: JsValue, b: JsValue)
    requires !Same(a, b)
    requires a.Null? || b.Null? || !a.Obj? || !b.Obj?
    ensures !ShallowEqual(a, b)
  {
  }

  /** Records with different key counts compare unequal. */
  lemma KeyCountsDiffer(a: JsValue, b: JsValue)
    requires a.Obj? && b.Obj? && a.id != b.id
    requires |a.fields.Keys| != |b.fields.Keys|
    ensures !ShallowEqual(a, b)
  {
  }

  /**
   * For two distinct records, shallow equality holds exactly when they have
   * the same key set and identical values under each key.
   */
  lemma {:induction false} RecordsMeaning(a: JsValue, b: JsValue)
    requires a.Obj? && b.Obj? && a.id != b.id
    ensures ShallowEqual(a, b) <==> SameRecord(a.fields, b.fields)
  {
    if ShallowEqual(a, b) {
      assert a.fields.Keys <= b.fields.Keys;
      SubsetSameSize(a.fields.Keys, b.fields.Keys);
    }
  }

  /** Shallow equality in full, against the reference definition. */
  lemma ShallowEqualMeaning(a: JsValue, b: JsValue)
    ensures ShallowEqual(a, b) <==>
      Same(a, b) || (a.Obj? && b.Obj? && SameRecord(a.fields, b.fields))
  {
    if a.Obj? && b.Obj? && a.id != b.id {
      RecordsMeaning(a, b);
    }
  }

  /** The comparison does not depend on the order of its arguments. */
  lemma ShallowEqualSymmetric(a: JsValue, b: JsValue)
    ensures ShallowEqual(a, b) == ShallowEqual(b, a)
  {
    ShallowEqualMeaning(a, b);
    ShallowEqualMeaning(b, a);
  }
}
