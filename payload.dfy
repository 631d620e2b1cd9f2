/** The decoded request body the matchers compare, and the flat map they compare it by.

    The body-decoding step (choosing a transformer by content type and reading the
    request body) belongs to the surrounding recording library; its output is given
    to this model as a `Body`. */
module Payload {

  /** The runtime type of a leaf, as `type(value)` reports it for a decoded body. */
  datatype TypeTag = IntType | FloatType | StrType | BoolType | NoneType

  /** A leaf value of a decoded body. Only its type ever matters to the matchers. */
  datatype Scalar =
    | IntValue(i: int)
    | FloatValue(r: real)
    | StrValue(s: string)
    | BoolValue(b: bool)
    | NullValue

  /** A nested value: a mapping (its items in iteration order), a list, or a leaf. */
  datatype Value =
    | Mapping(entries: seq<(string, Value)>)
    | List(items: seq<Value>)
    | Leaf(scalar: Scalar)

  /** A decoded body: the items of the top-level mapping, in iteration order. */
  type Body = seq<(string, Value)>

  /** The flattened body: canonical path key to the type of the leaf found there. */
  type FlatTypeMap = map<string, TypeTag>

  function TagOf(s: Scalar): TypeTag
  {
    match s
    case IntValue(_) => IntType
    case FloatValue(_) => FloatType
    case StrValue(_) => StrType
    case BoolValue(_) => BoolType
    case NullValue => NoneType
  }

  /** Number of constructors in a value; the termination measure of the flattening method,
      which recurses on a one-entry mapping it builds itself. */
  function Size(v: Value): nat
    decreases v, 1, 0
  {
    match v
    case Leaf(_) => 1
    case Mapping(es) => 1 + EntriesSize(es, |es|)
    case List(items) => 1 + ItemsSize(items, |items|)
  }

  function EntriesSize(es: seq<(string, Value)>, n: nat): nat
    requires n <= |es|
    decreases Mapping(es), 0, n
  {
    if n == 0 then 0 else EntriesSize(es, n - 1) + Size(es[n - 1].1)
  }

  function ItemsSize(items: seq<Value>, n: nat): nat
    requires n <= |items|
    decreases List(items), 0, n
  {
    if n == 0 then 0 else ItemsSize(items, n - 1) + Size(items[n - 1])
  }

  lemma {:induction false} EntrySizeBelow(es: seq<(string, Value)>, n: nat, i: nat)
    requires i < n <= |es|
    ensures Size(es[i].1) <= EntriesSize(es, n)
  {
    if i < n - 1 {
      EntrySizeBelow(es, n - 1, i);
    }
  }

  lemma {:induction false} ItemSizeBelow(items: seq<Value>, n: nat, i: nat)
    requires i < n <= |items|
    ensures Size(items[i]) <= ItemsSize(items, n)
  {
    if i < n - 1 {
      ItemSizeBelow(items, n - 1, i);
    }
  }

  /** Each item of a list, put alone under a new key, is a smaller mapping than any
      mapping that holds the list. */
  lemma ListItemBelow(es: seq<(string, Value)>, i: nat, items: seq<Value>, k: nat, key: string)
    requires i < |es| && es[i].1 == List(items) && k < |items|
    ensures Size(Mapping([(key, items[k])])) < Size(Mapping(es))
  {
    EntrySizeBelow(es, |es|, i);
    ItemSizeBelow(items, |items|, k);
    assert EntriesSize([(key, items[k])], 1) == Size(items[k]);
  }

  lemma EntryBelow(es: seq<(string, Value)>, i: nat)
    requires i < |es|
    ensures Size(es[i].1) < Size(Mapping(es))
  {
    EntrySizeBelow(es, |es|, i);
  }
}
