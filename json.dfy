// Jackson's tree model (JsonNode / ObjectNode / ArrayNode) as a value.
// An object keeps its fields in insertion order, as ObjectNode's
// LinkedHashMap does.
module Json {
  import opened Wrappers
  import opened Text

  datatype Json =
    | JNull
    | JBool(b: bool)
    | JInt(n: int)
    | JStr(s: string)
    | JArr(items: seq<Json>)
    | JObj(fields: seq<(string, Json)>)

  /** The keys of a field list, in order. */
  function Keys(fields: seq<(string, Json)>): (ks: seq<string>)
    ensures |ks| == |fields|
    ensures forall i :: 0 <= i < |fields| ==> ks[i] == fields[i].0
  {
    if |fields| == 0 then [] else [fields[0].0] + Keys(fields[1..])
  }

  /** ObjectNode.get on a field list: the first field with that key. */
  function Lookup(fields: seq<(string, Json)>, key: string): Option<Json>
  {
    if |fields| == 0 then None
    else if fields[0].0 == key then Some(fields[0].1)
    else Lookup(fields[1..], key)
  }

  /** A key is found exactly when some field carries it. */
  lemma {:induction false} LookupFound(fields: seq<(string, Json)>, key: string)
    ensures Lookup(fields, key).None? <==> key !in Keys(fields)
  {
    if |fields| > 0 {
      LookupFound(fields[1..], key);
      assert Keys(fields) == [fields[0].0] + Keys(fields[1..]);
    }
  }

  lemma {:induction false} LookupMissing(fields: seq<(string, Json)>, key: string)
    requires forall j :: 0 <= j < |fields| ==> fields[j].0 != key
    ensures Lookup(fields, key) == None
  {
    if |fields| > 0 {
      LookupMissing(fields[1..], key);
    }
  }

  /** The field found is the first one carrying the key. */
  lemma {:induction false} LookupAt(fields: seq<(string, Json)>, key: string, i: nat)
    requires i < |fields| && fields[i].0 == key
    requires forall j :: 0 <= j < i ==> fields[j].0 != key
    ensures Lookup(fields, key) == Some(fields[i].1)
  {
    if i > 0 {
      LookupAt(fields[1..], key, i - 1);
    }
  }

  /** JsonNode.get(key): null (None) on anything but an object or a missing key. */
  function Get(j: Json, key: string): Option<Json>
  {
    if j.JObj? then Lookup(j.fields, key) else None
  }

  /** JsonNode.has(key). */
  predicate Has(j: Json, key: string)
  {
    Get(j, key).Some?
  }

  /**
   * ObjectNode.put / set: a present key keeps its position and takes the new
   * value; a new key is appended.
   */
  function Put(fields: seq<(string, Json)>, key: string, value: Json): (r: seq<(string, Json)>)
    ensures Keys(r) == if key in Keys(fields) then Keys(fields) else Keys(fields) + [key]
  {
    if |fields| == 0 then [(key, value)]
    else if fields[0].0 == key then [(key, value)] + fields[1..]
    else [fields[0]] + Put(fields[1..], key, value)
  }

  lemma {:induction false} LookupPutSame(fields: seq<(string, Json)>, key: string, value: Json)
    ensures Lookup(Put(fields, key, value), key) == Some(value)
  {
    if |fields| > 0 && fields[0].0 != key {
      LookupPutSame(fields[1..], key, value);
    }
  }

  lemma {:induction false} LookupPutOther(fields: seq<(string, Json)>, key: string, value: Json, other: string)
    requires other != key
    ensures Lookup(Put(fields, key, value), other) == Lookup(fields, other)
  {
    if |fields| > 0 && fields[0].0 != key {
      LookupPutOther(fields[1..], key, value, other);
    }
  }

  /** Lookup on a field list that starts with a known field. */
  lemma LookupLiteral(k: string, v: Json, rest: seq<(string, Json)>, key: string)
    ensures Lookup([(k, v)] + rest, key) == if k == key then Some(v) else Lookup(rest, key)
  {
    assert ([(k, v)] + rest)[1..] == rest;
  }

  /** JsonNode.asText(). */
  function AsText(j: Json): string
  {
    match j
    case JNull => "null"
    case JBool(b) => if b then "true" else "false"
    case JInt(n) => IntToString(n)
    case JStr(s) => s
    case JArr(_) => ""
    case JObj(_) => ""
  }

  /**
   * JsonNode.asBoolean(): a boolean's value, a number other than zero, or
   * the text "true"; everything else is false.
   */
  function AsBoolean(j: Json): bool
  {
    match j
    case JBool(b) => b
    case JInt(n) => n != 0
    case JStr(s) => s == "true"
    case _ => false
  }

  const TwoTo32: int := 0x1_0000_0000

  /** The (int) cast of Java: the low 32 bits as a two's-complement value. */
  function ToInt32(n: int): (r: int)
    ensures -0x8000_0000 <= r < 0x8000_0000
    ensures (r - n) % TwoTo32 == 0
  {
    var m := n % TwoTo32;
    if m >= 0x8000_0000 then m - TwoTo32 else m
  }

  /**
   * JsonNode.asInt(), for the values this model has: numbers are cast to
   * int, booleans give 1 or 0, text of decimal digits (with an optional
   * sign) in the int range gives that value, and everything else the
   * default 0. Jackson also trims text and reads other numeric text as a
   * double cast to int; neither is modelled here.
   */
  function AsInt(j: Json): (r: int)
    ensures -0x8000_0000 <= r < 0x8000_0000
  {
    match j
    case JInt(n) => ToInt32(n)
    case JBool(b) => if b then 1 else 0
    case JStr(s) =>
      (match ParseLong(s)
       case Some(v) => if -0x8000_0000 <= v < 0x8000_0000 then v else 0
       case None => 0)
    case _ => 0
  }

  /** An id that fits an int comes back from asInt unchanged. */
  lemma AsIntOfInt(n: int)
    requires -0x8000_0000 <= n < 0x8000_0000
    ensures AsInt(JInt(n)) == n
  {
  }

  /** An array of text nodes. */
  function Strings(ss: seq<string>): (r: seq<Json>)
    ensures |r| == |ss|
    ensures forall i :: 0 <= i < |ss| ==> r[i] == JStr(ss[i])
  {
    if |ss| == 0 then [] else [JStr(ss[0])] + Strings(ss[1..])
  }
}
