/** The JavaScript values a game hands to `track` as its payload: finite,
    acyclic JSON-like data. An object is the ordered list of its own
    enumerable keys, in the order `for…in` visits them. */
module JsonValue {
  import opened Decimal

  datatype Json =
    | JNull
    | JBool(b: bool)
    | JNum(n: int)
    | JStr(s: string)
    | JArr(items: seq<Json>)
    | JObj(fields: seq<(string, Json)>)

  /** `typeof v === 'object' && v !== null`: arrays and objects. */
  predicate IsObjectLike(v: Json) {
    v.JArr? || v.JObj?
  }

  predicate IsScalar(v: Json) {
    !IsObjectLike(v)
  }

  /** A flat dictionary: every value is a scalar. */
  predicate IsFlat(m: map<string, Json>) {
    forall k :: k in m ==> IsScalar(m[k])
  }

  /** A value JavaScript treats as false in `v || {}`. */
  predicate IsFalsy(v: Json) {
    v == JNull || v == JBool(false) || v == JNum(0) || v == JStr("")
  }

  /** The own enumerable properties `for (key in v) if (v.hasOwnProperty(key))`
      visits: an object's fields; an array's or a string's positions as
      0-based decimal keys; nothing for null, booleans and numbers. A
      string is walked one `char` (Unicode scalar value) at a time, where
      JavaScript walks UTF-16 code units. */
  function Entries(v: Json): (es: seq<(string, Json)>)
    ensures v.JObj? ==> es == v.fields
    ensures v.JArr? ==> |es| == |v.items|
    ensures v.JArr? ==> forall i :: 0 <= i < |es| ==> es[i] == (NatStr(i), v.items[i])
    ensures v.JStr? ==> |es| == |v.s|
    ensures v.JStr? ==> forall i :: 0 <= i < |es| ==> es[i] == (NatStr(i), JStr([v.s[i]]))
    ensures v.JNull? || v.JBool? || v.JNum? ==> es == []
  {
    match v
    case JObj(fs) => fs
    case JArr(items) => seq(|items|, i requires 0 <= i < |items| => (NatStr(i), items[i]))
    case JStr(s) => seq(|s|, i requires 0 <= i < |s| => (NatStr(i), JStr([s[i]])))
    case _ => []
  }

  /** The keys `for…in` gives an array's or a string's positions are the
      decimal numerals of the positions: pairwise distinct, and key `i`
      reads back as the number `i`. */
  lemma {:induction false} EntryKeysAreIndices(v: Json)
    ensures v.JArr? || v.JStr? ==> forall i :: 0 <= i < |Entries(v)| ==> ParseDigits(Entries(v)[i].0) == i
    ensures v.JArr? || v.JStr? ==> forall i, j :: 0 <= i < j < |Entries(v)| ==> Entries(v)[i].0 != Entries(v)[j].0
  {
    if v.JArr? || v.JStr? {
      forall i | 0 <= i < |Entries(v)|
        ensures ParseDigits(Entries(v)[i].0) == i
      {
        ParseNatStr(i);
      }
      forall i, j | 0 <= i < j < |Entries(v)|
        ensures Entries(v)[i].0 != Entries(v)[j].0
      {
        NatStrInjective(i, j);
      }
    }
  }
}
