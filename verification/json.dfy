/** Decoded JSON as PHP's `json_decode($text, true)` hands it over: objects
    become string-keyed arrays, lists become integer-indexed arrays. The
    encoder is not modelled; where the code serialises a value, the text is
    produced by a function passed in by the caller. */
module Json {
  import opened Wrappers
  import opened Php

  /** A floating-point number, carried opaquely as its literal text. */
  datatype Float = Float(literal: string)

  datatype Value =
    | JNull
    | JBool(b: bool)
    | JInt(i: int)
    | JFloat(f: Float)
    | JStr(s: string)
    | JArr(items: seq<Value>)
    | JObj(members: Assoc<Value>)
  {
    /** `is_array($v)`. */
    predicate IsArray() {
      JArr? || JObj?
    }

    /** `empty($v)` for a value already known to be an array. */
    predicate IsEmptyArray() {
      (JArr? && |items| == 0) || (JObj? && |members| == 0)
    }
  }

  /** One subscript of an `isset($v['a'][0]...)` chain. */
  datatype Step = Key(name: string) | Index(i: nat)

  /** One subscript: a string key reads an object member; an integer index
      reads a list element or, since PHP stores the object key "0" as the
      integer 0, the object member with that decimal name. Subscripting a
      scalar yields nothing (the paths used here never end in an integer
      index, so string offsets do not arise). */
  function Subscript(v: Value, step: Step): Option<Value> {
    match step
    case Key(k) => if v.JObj? then Get(v.members, k) else None
    case Index(i) =>
      if v.JArr? then (if i < |v.items| then Some(v.items[i]) else None)
      else if v.JObj? then Get(v.members, NatToDecimal(i))
      else None
  }

  /** `isset($v[s1][s2]...)` together with the value found: `Some(x)` exactly
      when every subscript exists and the final value is not `null`. */
  function Probe(v: Value, path: seq<Step>): (r: Option<Value>)
    ensures r.Some? ==> r.value != JNull
    ensures path == [] ==> r == (if v.JNull? then None else Some(v))
    ensures path != [] ==> r == match Subscript(v, path[0])
                                case Some(w) => Probe(w, path[1..])
                                case None => None
    decreases |path|
  {
    if |path| == 0 then (if v.JNull? then None else Some(v))
    else
      match Subscript(v, path[0])
      case None => None
      case Some(child) => Probe(child, path[1..])
  }

  /** Probing a literal object through one of its keys continues at that
      key's value. */
  lemma ProbeMember(ks: seq<string>, vs: seq<Value>, i: nat, rest: seq<Step>)
    requires |ks| == |vs| && Distinct(ks) && i < |ks|
    ensures Probe(JObj(Zip(ks, vs)), [Key(ks[i])] + rest) == Probe(vs[i], rest)
  {
    GetZip(ks, vs, i);
    assert ([Key(ks[i])] + rest)[1..] == rest;
  }

  /** Probing a literal list through one of its indices continues at that
      element. */
  lemma ProbeItem(items: seq<Value>, i: nat, rest: seq<Step>)
    requires i < |items|
    ensures Probe(JArr(items), [Index(i)] + rest) == Probe(items[i], rest)
  {
    assert ([Index(i)] + rest)[1..] == rest;
  }

  /** The string PHP produces when a decoded value is concatenated into a
      string: booleans as "1"/"", `null` as "", arrays as "Array". */
  function ToPhpString(v: Value): string {
    match v
    case JNull => ""
    case JBool(b) => if b then "1" else ""
    case JInt(i) => IntToDecimal(i)
    case JFloat(f) => f.literal
    case JStr(s) => s
    case JArr(_) => "Array"
    case JObj(_) => "Array"
  }
}
