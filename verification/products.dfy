/**
  Normalization of one page of raw products into output records
  (`process_one_set` in main.py).
 */
module Products {
  import opened Values

  /** A raw product as decoded from a page: field name to value. */
  type RawItem = map<string, Value>

  /** The keys `process_one_set` reads; a missing one raises `KeyError`. */
  predicate HasRequiredKeys(item: RawItem) {
    "id" in item && "title" in item && "price" in item && "category" in item
  }

  /** An item `process_one_set` turns into a record: every key it reads is
      present, and its id is a scalar whose `str()` this model defines. */
  predicate Processable(item: RawItem) {
    HasRequiredKeys(item) && !item["id"].VFloat?
  }

  predicate AllProcessable(items: seq<RawItem>) {
    forall k :: 0 <= k < |items| ==> Processable(items[k])
  }

  /** One normalized output record. The `processed_at` timestamp is a clock
      read and is not part of the model. */
  datatype Product = Product(
    id: string,
    title: Value,
    source: string,
    price: Value,
    category: Value)

  /** The record built for one raw item. */
  function Normalize(item: RawItem, source: string, idPrefix: string): Product
    requires Processable(item)
  {
    Product(idPrefix + PyStr(item["id"]), item["title"], source, item["price"], item["category"])
  }

  /** Converts a page of raw items, one record per item. */
  function ProcessOneSet(data: seq<RawItem>, source: string, idPrefix: string): (r: seq<Product>)
    requires AllProcessable(data)
    ensures |r| == |data|
    decreases |data|
  {
    if |data| == 0 then []
    else [Normalize(data[0], source, idPrefix)] + ProcessOneSet(data[1..], source, idPrefix)
  }

  /** The records come in input order; each has the prefixed `str()` of the
      item's id, the given source, and title, price and category copied. */
  lemma {:induction false} ProcessOneSetFields(data: seq<RawItem>, source: string, idPrefix: string)
    requires AllProcessable(data)
    ensures var r := ProcessOneSet(data, source, idPrefix);
      && |r| == |data|
      && forall k :: 0 <= k < |r| ==>
        && r[k].id == idPrefix + PyStr(data[k]["id"])
        && r[k].title == data[k]["title"]
        && r[k].source == source
        && r[k].price == data[k]["price"]
        && r[k].category == data[k]["category"]
    decreases |data|
  {
    if |data| > 0 {
      ProcessOneSetFields(data[1..], source, idPrefix);
    }
  }

  /** Converting two pages one after the other gives the conversion of their
      concatenation, so results accumulated page by page stay in input order. */
  lemma ProcessOneSetAppend(a: seq<RawItem>, b: seq<RawItem>, source: string, idPrefix: string)
    requires AllProcessable(a) && AllProcessable(b)
    ensures AllProcessable(a + b)
    ensures ProcessOneSet(a + b, source, idPrefix)
         == ProcessOneSet(a, source, idPrefix) + ProcessOneSet(b, source, idPrefix)
  {
    assert forall k :: 0 <= k < |a + b| ==> (a + b)[k] == if k < |a| then a[k] else b[k - |a|];
    ProcessOneSetFields(a + b, source, idPrefix);
    ProcessOneSetFields(a, source, idPrefix);
    ProcessOneSetFields(b, source, idPrefix);
    var lhs := ProcessOneSet(a + b, source, idPrefix);
    var rhs := ProcessOneSet(a, source, idPrefix) + ProcessOneSet(b, source, idPrefix);
    assert |lhs| == |rhs|;
    forall k | 0 <= k < |lhs|
      ensures lhs[k] == rhs[k]
    {
      if k < |a| {
        assert lhs[k] == Product(idPrefix + PyStr(a[k]["id"]), a[k]["title"], source, a[k]["price"], a[k]["category"]);
      } else {
        var j := k - |a|;
        assert rhs[k] == ProcessOneSet(b, source, idPrefix)[j];
        assert lhs[k] == Product(idPrefix + PyStr(b[j]["id"]), b[j]["title"], source, b[j]["price"], b[j]["category"]);
      }
    }
  }

  /** Integer ids that are distinct in a page stay distinct after prefixing. */
  lemma DistinctIntIdsStayDistinct(data: seq<RawItem>, source: string, idPrefix: string)
    requires AllProcessable(data)
    requires forall k :: 0 <= k < |data| ==> data[k]["id"].VInt?
    requires forall j, k :: 0 <= j < k < |data| ==> data[j]["id"] != data[k]["id"]
    ensures forall j, k :: 0 <= j < k < |data| ==>
      ProcessOneSet(data, source, idPrefix)[j].id != ProcessOneSet(data, source, idPrefix)[k].id
  {
    var r := ProcessOneSet(data, source, idPrefix);
    ProcessOneSetFields(data, source, idPrefix);
    forall j, k | 0 <= j < k < |data|
      ensures r[j].id != r[k].id
    {
      PrefixedDecimalInjective(idPrefix, data[j]["id"].i, data[k]["id"].i);
    }
  }

  /** Prefixing the decimal notations of two integers keeps them apart. */
  lemma PrefixedDecimalInjective(idPrefix: string, a: int, b: int)
    ensures idPrefix + IntToDecimal(a) == idPrefix + IntToDecimal(b) ==> a == b
  {
    assert IntToDecimal(a) == (idPrefix + IntToDecimal(a))[|idPrefix|..];
    assert IntToDecimal(b) == (idPrefix + IntToDecimal(b))[|idPrefix|..];
    if IntToDecimal(a) == IntToDecimal(b) {
      IntToDecimalInjective(a, b);
    }
  }
}
