/**
 * The values a controller can send as the argument of a Socket.IO event,
 * and what the JavaScript object spread `{ ...data }` makes of each of them.
 */
module JsValues {

  /** A JSON value as delivered by the transport (an absent argument reads as Null). */
  datatype Json =
    | Null
    | Bool(b: bool)
    | Num(r: real)
    | Str(s: string)
    | Arr(items: seq<Json>)
    | Obj(fields: map<string, Json>)

  /** The character of decimal digit `d`. */
  function DigitChar(d: nat): (c: char)
    requires d < 10
    ensures '0' <= c <= '9'
    ensures c as int - '0' as int == d
  {
    (d + '0' as int) as char
  }

  /** The property name under which index `n` of an array or string appears: its decimal form. */
  function IndexKey(n: nat): (s: string)
    ensures |s| >= 1
    ensures n >= 10 ==> |s| >= 2
    ensures forall j :: 0 <= j < |s| ==> '0' <= s[j] <= '9'
    ensures s[0] == '0' <==> n == 0
    decreases n
  {
    if n < 10 then [DigitChar(n)] else IndexKey(n / 10) + [DigitChar(n % 10)]
  }

  /** The number a string of decimal digits spells, most significant digit first. */
  function DecimalValue(s: string): nat
    requires forall j :: 0 <= j < |s| ==> '0' <= s[j] <= '9'
    decreases |s|
  {
    if s == [] then 0
    else DecimalValue(s[..|s| - 1]) * 10 + (s[|s| - 1] as int - '0' as int)
  }

  /** The property name of index `n` spells `n` in decimal, as JavaScript's ToString does. */
  lemma {:induction false} IndexKeySpellsIndex(n: nat)
    ensures DecimalValue(IndexKey(n)) == n
    decreases n
  {
    var k := IndexKey(n);
    if n < 10 {
      assert k[..|k| - 1] == [];
    } else {
      IndexKeySpellsIndex(n / 10);
      assert k[..|k| - 1] == IndexKey(n / 10);
    }
  }

  /** Two indices never share a property name. */
  lemma {:induction false} IndexKeyInjective(n: nat, m: nat)
    requires IndexKey(n) == IndexKey(m)
    ensures n == m
    decreases n
  {
    if n < 10 && m < 10 {
      assert IndexKey(n)[0] == DigitChar(n);
      assert IndexKey(m)[0] == DigitChar(m);
    } else if n < 10 || m < 10 {
    } else {
      var kn, km := IndexKey(n), IndexKey(m);
      assert kn == IndexKey(n / 10) + [DigitChar(n % 10)];
      assert km == IndexKey(m / 10) + [DigitChar(m % 10)];
      assert kn[|kn| - 1] == DigitChar(n % 10);
      assert km[|km| - 1] == DigitChar(m % 10);
      assert IndexKey(n / 10) == kn[..|kn| - 1];
      assert IndexKey(m / 10) == km[..|km| - 1];
      IndexKeyInjective(n / 10, m / 10);
    }
  }

  lemma IndexKeysDistinct()
    ensures forall n: nat, m: nat :: IndexKey(n) == IndexKey(m) ==> n == m
  {
    forall n: nat, m: nat | IndexKey(n) == IndexKey(m)
      ensures n == m
    {
      IndexKeyInjective(n, m);
    }
  }

  /** The properties of an array-like value: element `i` under the name IndexKey(i). */
  function Indexed(xs: seq<Json>): (r: map<string, Json>)
    ensures forall i :: 0 <= i < |xs| ==> IndexKey(i) in r && r[IndexKey(i)] == xs[i]
    ensures forall k :: k in r ==> exists i :: 0 <= i < |xs| && IndexKey(i) == k
  {
    IndexKeysDistinct();
    map i | 0 <= i < |xs| :: IndexKey(i) := xs[i]
  }

  /** A string seen as an array-like value: each character becomes a one-character string. */
  function Chars(s: string): (r: seq<Json>)
    ensures |r| == |s|
    ensures forall i :: 0 <= i < |s| ==> r[i] == Str([s[i]])
  {
    if s == [] then [] else [Str([s[0]])] + Chars(s[1..])
  }

  /**
   * The own enumerable properties that `{ ...data }` copies out of `data`:
   * null, booleans and numbers contribute none, an object its own fields,
   * an array its elements and a string its characters, each under its index.
   */
  function Spread(data: Json): (r: map<string, Json>)
    ensures data.Obj? ==> r == data.fields
    ensures data.Null? || data.Bool? || data.Num? ==> r == map[]
    ensures data.Arr? ==>
      (forall i :: 0 <= i < |data.items| ==> IndexKey(i) in r && r[IndexKey(i)] == data.items[i])
    ensures data.Str? ==>
      (forall i :: 0 <= i < |data.s| ==> IndexKey(i) in r && r[IndexKey(i)] == Str([data.s[i]]))
    ensures data.Arr? ==> (forall k :: k in r ==> exists i :: 0 <= i < |data.items| && IndexKey(i) == k)
    ensures data.Str? ==> (forall k :: k in r ==> exists i :: 0 <= i < |data.s| && IndexKey(i) == k)
  {
    match data
    case Null => map[]
    case Bool(_) => map[]
    case Num(_) => map[]
    case Str(s) => Indexed(Chars(s))
    case Arr(items) => Indexed(items)
    case Obj(fields) => fields
  }
}
