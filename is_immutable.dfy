/** Duck-typed detection of Immutable.js values (src/isImmutable.js): a
    value is a collection or a record when it carries a truthy value under
    the corresponding sentinel key. */
module Immutable {
  import opened JsValues

  const IS_ITERABLE_SENTINEL: string := "@@__IMMUTABLE_ITERABLE__@@"
  const IS_RECORD_SENTINEL: string := "@@__IMMUTABLE_RECORD__@@"

  /** `!!(x && x[key])`: the read is reached only when `x` is truthy. */
  function CarriesSentinel(x: JsValue, key: string): (r: bool)
    ensures r <==> x.Object? && key in x.props && Truthy(x.props[key])
  {
    if Truthy(x) then
      match Get(x, key)
      case Some(v) => Truthy(v)
      case None => false
    else
      false
  }

  function IsCollection(x: JsValue): (r: bool)
    ensures r <==> x.Object? && IS_ITERABLE_SENTINEL in x.props && Truthy(x.props[IS_ITERABLE_SENTINEL])
  {
    CarriesSentinel(x, IS_ITERABLE_SENTINEL)
  }

  function IsRecord(x: JsValue): (r: bool)
    ensures r <==> x.Object? && IS_RECORD_SENTINEL in x.props && Truthy(x.props[IS_RECORD_SENTINEL])
  {
    CarriesSentinel(x, IS_RECORD_SENTINEL)
  }

  function IsImmutable(x: JsValue): (r: bool)
    ensures r ==> x.Object?
    ensures r <==> x.Object? && exists key :: key in {IS_ITERABLE_SENTINEL, IS_RECORD_SENTINEL} && key in x.props && Truthy(x.props[key])
  {
    IsCollection(x) || IsRecord(x)
  }

  /** A falsy value is neither a collection nor a record. */
  lemma FalsyIsNotImmutable(x: JsValue)
    requires !Truthy(x)
    ensures !IsCollection(x) && !IsRecord(x) && !IsImmutable(x)
  {
  }

  /** The two sentinels are different keys, so a record is not taken for a
      collection merely because of its own sentinel. */
  lemma SentinelsDistinct()
    ensures IS_ITERABLE_SENTINEL != IS_RECORD_SENTINEL
  {
    assert IS_ITERABLE_SENTINEL[14] == 'I' && IS_RECORD_SENTINEL[14] == 'R';
  }

  /** A plain object that has neither sentinel key is not immutable; the
      constructor in src/index.js then stores it as the state itself. */
  lemma PlainObjectIsNotImmutable(x: JsValue)
    requires x.Object? && IS_ITERABLE_SENTINEL !in x.props && IS_RECORD_SENTINEL !in x.props
    ensures !IsImmutable(x)
  {
  }

  /** Whatever else it holds, an object with a truthy record sentinel (as every
      Immutable.js record inherits from its prototype) is immutable. */
  lemma RecordIsImmutable(x: JsValue)
    requires x.Object? && IS_RECORD_SENTINEL in x.props && Truthy(x.props[IS_RECORD_SENTINEL])
    ensures IsRecord(x) && IsImmutable(x)
  {
  }
}
