/** JSON as the gateway uses it: decoded values, and a codec that is left open. Theorems that
    need the codec to behave like a JSON codec assume `Lawful`; the others hold for any codec. */
module Json {
  import opened Bytes
  import opened Strings

  datatype Option<+T> = None | Some(value: T)

  datatype Value =
    | Null
    | Bool(b: bool)
    | Num(n: real)
    | Str(s: string)
    | Arr(items: seq<Value>)
    | Obj(members: map<string, Value>)

  /** Values whose numbers are whole: those the gateway encodes itself. */
  ghost predicate Whole(v: Value) {
    match v
    case Num(n) => n == n.Floor as real
    case Arr(items) => forall i :: 0 <= i < |items| ==> Whole(items[i])
    case Obj(members) => forall k :: k in members ==> Whole(members[k])
    case _ => true
  }

  /** `parse` decodes a text, `members` decodes an object but keeps each member as raw text,
      `write` encodes raw members, `encode` encodes a value. */
  datatype Codec = Codec(
    parse: bytes -> Option<Value>,
    members: bytes -> Option<map<string, bytes>>,
    write: map<string, bytes> -> bytes,
    encode: Value -> bytes)
  {
    predicate Agree(raw: map<string, bytes>, decoded: map<string, Value>) {
      raw.Keys == decoded.Keys && forall k :: k in raw ==> parse(raw[k]) == Some(decoded[k])
    }

    /** Marks the texts a proof looks into. */
    predicate Inspected(t: bytes) {
      true
    }

    /** The laws of a JSON codec that the theorems rely on. */
    ghost predicate Lawful() {
      && (forall t {:trigger Inspected(t)} :: Inspected(t) && parse(t).Some? ==>
            if parse(t).value.Obj? then
              && members(t).Some? && Agree(members(t).value, parse(t).value.members)
              && TrimSpace(t) != [] && TrimSpace(t)[0] == BRACE && parse(TrimSpace(t)) == parse(t)
            else
              && (members(t).Some? ==> members(t).value == map[])
              && (TrimSpace(t) != [] ==> TrimSpace(t)[0] != BRACE))
      && (forall m, o :: Agree(m, o) ==> parse(write(m)) == Some(Obj(o)) && TrimSpace(write(m)) == write(m))
      && (forall v :: Whole(v) ==> parse(encode(v)) == Some(v) && TrimSpace(encode(v)) == encode(v))
    }

    lemma WriteReads(raw: map<string, bytes>, decoded: map<string, Value>)
      requires Lawful() && Agree(raw, decoded)
      ensures parse(write(raw)) == Some(Obj(decoded)) && TrimSpace(write(raw)) == write(raw)
    {
    }

    lemma RawMembers(t: bytes, decoded: map<string, Value>) returns (raw: map<string, bytes>)
      requires Lawful() && parse(t) == Some(Obj(decoded))
      ensures members(t) == Some(raw) && Agree(raw, decoded)
    {
      assert Inspected(t);
      raw := members(t).value;
    }

    lemma TrimObject(t: bytes)
      requires Lawful() && parse(t).Some? && parse(t).value.Obj?
      ensures TrimSpace(t) != [] && TrimSpace(t)[0] == BRACE && parse(TrimSpace(t)) == parse(t)
    {
      assert Inspected(t);
    }

    lemma NoObject(t: bytes)
      requires Lawful() && parse(t).Some? && !parse(t).value.Obj?
      ensures members(t).Some? ==> members(t).value == map[]
      ensures TrimSpace(t) != [] ==> TrimSpace(t)[0] != BRACE
    {
      assert Inspected(t);
    }

    lemma AgreeUpdate(raw: map<string, bytes>, decoded: map<string, Value>, k: string, text: bytes, v: Value)
      requires Agree(raw, decoded) && parse(text) == Some(v)
      ensures Agree(raw[k := text], decoded[k := v])
    {
    }

    lemma WriteUpdated(raw: map<string, bytes>, decoded: map<string, Value>, k: string, text: bytes, v: Value)
      requires Lawful() && Agree(raw, decoded) && parse(text) == Some(v)
      ensures parse(write(raw[k := text])) == Some(Obj(decoded[k := v]))
      ensures TrimSpace(write(raw[k := text])) == write(raw[k := text])
    {
      AgreeUpdate(raw, decoded, k, text, v);
      WriteReads(raw[k := text], decoded[k := v]);
    }

    lemma WriteEncoded(raw: map<string, bytes>, decoded: map<string, Value>, k: string, v: Value)
      requires Lawful() && Agree(raw, decoded) && Whole(v)
      ensures parse(write(raw[k := encode(v)])) == Some(Obj(decoded[k := v]))
      ensures TrimSpace(write(raw[k := encode(v)])) == write(raw[k := encode(v)])
    {
      WriteUpdated(raw, decoded, k, encode(v), v);
    }

    lemma WriteWithout(raw: map<string, bytes>, decoded: map<string, Value>, k: string)
      requires Lawful() && Agree(raw, decoded)
      ensures parse(write(raw - {k})) == Some(Obj(decoded - {k})) && TrimSpace(write(raw - {k})) == write(raw - {k})
    {
    }

    /** Decoding into a string-keyed map; a null decodes to the empty map. */
    function Fields(t: bytes): Option<map<string, Value>> {
      match parse(t)
      case Some(Obj(o)) => Some(o)
      case Some(Null) => Some(map[])
      case _ => None
    }
  }

  function Get(o: map<string, Value>, k: string): Value {
    if k in o then o[k] else Null
  }

  function AsMap(v: Value): Option<map<string, Value>> {
    if v.Obj? then Some(v.members) else None
  }

  /** Numbers are cut off toward zero; strings of digits are read; everything else is 0. */
  function AsInt(v: Value): int {
    match v
    case Num(n) => if n >= 0.0 then n.Floor else -((-n).Floor)
    case Str(s) => Digits(Trim(s), 0)
    case _ => 0
  }

  function Digits(s: string, acc: int): int {
    if s == [] then acc
    else if '0' <= s[0] <= '9' then Digits(s[1..], acc * 10 + (s[0] as int - '0' as int))
    else 0
  }
}
