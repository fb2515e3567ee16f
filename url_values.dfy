/**
 * The request's query parameters, as the listing handler reads them through
 * `url.Values`: the `key=value` pairs of the raw query string, in order.
 * `Get` returns the first value given for a key, `Del` removes every value of a
 * key, and `Encode` renders the remaining pairs as a query string.
 */
module UrlValues {

  datatype Param = Param(key: string, value: string)

  type Values = seq<Param>

  /** Whether some pair of `q` carries `key`. */
  predicate Has(q: Values, key: string)
  {
    exists i :: 0 <= i < |q| && q[i].key == key
  }

  /** The first value given for `key`, or "" when the key is absent. */
  function Get(q: Values, key: string): (v: string)
    ensures !Has(q, key) ==> v == ""
    ensures Has(q, key) ==>
      exists i :: 0 <= i < |q| && q[i].key == key && q[i].value == v &&
        forall j :: 0 <= j < i ==> q[j].key != key
  {
    if q == [] then ""
    else if q[0].key == key then q[0].value
    else
      var v := Get(q[1..], key);
      assert Has(q[1..], key) ==> Has(q, key) by {
        if Has(q[1..], key) {
          var i :| 0 <= i < |q[1..]| && q[1..][i].key == key;
          assert q[i + 1].key == key;
        }
      }
      assert Has(q, key) ==> Has(q[1..], key) by {
        if Has(q, key) {
          var i :| 0 <= i < |q| && q[i].key == key;
          assert i != 0 && q[1..][i - 1].key == key;
        }
      }
      if Has(q, key) then
        var i :| 0 <= i < |q[1..]| && q[1..][i].key == key && q[1..][i].value == v &&
          forall j :: 0 <= j < i ==> q[1..][j].key != key;
        assert q[i + 1].key == key && q[i + 1].value == v;
        assert forall j :: 0 <= j < i + 1 ==> q[j].key != key by {
          forall j | 0 <= j < i + 1 ensures q[j].key != key {
            if j > 0 { assert q[j] == q[1..][j - 1]; }
          }
        }
        v
      else v
  }

  /** `q` with every pair for `key` removed, the other pairs kept in order. */
  function Del(q: Values, key: string): (r: Values)
    ensures |r| <= |q|
    ensures forall i :: 0 <= i < |r| ==> r[i].key != key
    ensures forall p :: p in r <==> p in q && p.key != key
  {
    if q == [] then []
    else if q[0].key == key then Del(q[1..], key)
    else [q[0]] + Del(q[1..], key)
  }

  /** Deleting `key` leaves the first value of every other key as it was. */
  lemma {:induction false} DelKeepsOtherKeys(q: Values, key: string, other: string)
    requires other != key
    ensures Get(Del(q, key), other) == Get(q, other)
  {
    if q != [] {
      DelKeepsOtherKeys(q[1..], key, other);
    }
  }

  /** Deleting `key` removes it for good: nothing is read back for it. */
  lemma DelRemovesKey(q: Values, key: string)
    ensures Get(Del(q, key), key) == ""
    ensures !Has(Del(q, key), key)
  {
  }

  /** Every value given for `key`, in order and with repeats. */
  function ValuesOf(q: Values, key: string): (vs: seq<string>)
    ensures |vs| <= |q|
    ensures vs == [] <==> !Has(q, key)
  {
    if q == [] then []
    else if q[0].key == key then [q[0].value] + ValuesOf(q[1..], key)
    else ValuesOf(q[1..], key)
  }

  /** Deleting `key` keeps every value of every other key, in order and with repeats. */
  lemma {:induction false} DelKeepsValueLists(q: Values, key: string, other: string)
    requires other != key
    ensures ValuesOf(Del(q, key), other) == ValuesOf(q, other)
    ensures ValuesOf(Del(q, key), key) == []
  {
    if q != [] {
      DelKeepsValueLists(q[1..], key, other);
      if q[0].key != key {
        assert Del(q, key)[1..] == Del(q[1..], key);
      }
    }
  }

  /** One pair rendered as `key=value`. */
  function EncodePair(p: Param): (r: string)
    ensures |r| == |p.key| + 1 + |p.value| && r[|p.key|] == '='
  {
    p.key + "=" + p.value
  }

  /** The pairs rendered as `k1=v1&k2=v2&...`; escaping and key sorting are not modelled. */
  function Encode(q: Values): (r: string)
    ensures r == "" <==> q == []
  {
    if q == [] then ""
    else if |q| == 1 then EncodePair(q[0])
    else EncodePair(q[0]) + "&" + Encode(q[1..])
  }
}
