/** The dynamically typed values the client receives from the document store and the callable
    function (Kotlin `Any?`), and their `toString`. */
module Dynamic {
  import opened Wrappers
  import opened Text

  /** A decoded value. A map lists its entries in iteration order; its keys are distinct.
      `KOther` is any other object (a geo point, a reference) with the text its `toString`
      gives. */
  datatype KValue =
    | KNull
    | KBool(b: bool)
    | KInt(i: int)
    | KLong(l: int)
    | KString(s: string)
    | KTimestamp(seconds: int, nanoseconds: int)
    | KList(items: seq<KValue>)
    | KMap(entries: seq<(string, KValue)>)
    | KOther(text: string)

  /** The value stored under `key`, if the map has that key. */
  function Lookup(entries: seq<(string, KValue)>, key: string): (r: Option<KValue>)
    ensures r.Some? <==> exists i :: 0 <= i < |entries| && entries[i].0 == key
    ensures r.Some? ==> (key, r.value) in entries
  {
    if entries == [] then None
    else if entries[0].0 == key then Some(entries[0].1)
    else Lookup(entries[1..], key)
  }

  /** The first value, when every key before it differs from its own. */
  lemma {:induction false} LookupDistinct(entries: seq<(string, KValue)>, i: nat)
    requires i < |entries|
    requires forall j | 0 <= j < i :: entries[j].0 != entries[i].0
    ensures Lookup(entries, entries[i].0) == Some(entries[i].1)
  {
    if i > 0 {
      LookupDistinct(entries[1..], i - 1);
    }
  }

  /** The parts with `sep` between neighbours. */
  function Join(parts: seq<string>, sep: string): string {
    if parts == [] then ""
    else if |parts| == 1 then parts[0]
    else parts[0] + sep + Join(parts[1..], sep)
  }

  /** Kotlin's `toString` of a decoded value. */
  function ToString(v: KValue): string
    decreases v
  {
    match v
    case KNull => "null"
    case KBool(b) => if b then "true" else "false"
    case KInt(i) => IntToDecimal(i)
    case KLong(l) => IntToDecimal(l)
    case KString(s) => s
    case KTimestamp(seconds, nanoseconds) =>
      "Timestamp(seconds=" + IntToDecimal(seconds) + ", nanoseconds=" + IntToDecimal(nanoseconds) + ")"
    case KList(items) =>
      "[" + Join(seq(|items|, i requires 0 <= i < |items| => ToString(items[i])), ", ") + "]"
    case KMap(entries) =>
      "{" + Join(seq(|entries|, i requires 0 <= i < |entries| =>
                   assert entries[i] in entries;
                   entries[i].0 + "=" + ToString(entries[i].1)), ", ") + "}"
    case KOther(text) => text
  }
}
