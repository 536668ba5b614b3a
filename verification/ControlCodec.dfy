/** The tagged-bytes codec of the desktop control channel: byte arrays travel as one-key objects. */
module ControlCodec {
  import opened DepositTypes
  import B = Base64

  const TAG: string := "$rezU8"
  const PROTO: string := "__proto__"

  /** An acyclic JSON-like tree.  `Other` stands for null, numbers, booleans, undefined and non-plain objects, which
      both directions pass through.  An object is its own enumerable keys in order. */
  datatype Value =
    | Other(what: int)
    | Str(s: string)
    | Bytes(bs: seq<B.byte>)
    | Arr(items: seq<Value>)
    | Obj(fields: seq<Field>)

  datatype Field = Field(key: string, value: Value)

  predicate Has(fs: seq<Field>, key: string) {
    exists i :: 0 <= i < |fs| && fs[i].key == key
  }

  /** `out[key] = v` on a fresh object: the key `__proto__` goes to the prototype, so it is no own key afterwards. */
  function Assigned(out: seq<Field>, key: string, v: Value): seq<Field> {
    if key == PROTO then out else out + [Field(key, v)]
  }

  // ---- The two recursive walks ----

  /** Nothing when the encoder throws: somewhere an object uses the reserved key. */
  function Encode(v: Value): Option<Value>
    decreases v
  {
    match v
    case Bytes(bs) => Some(Obj([Field(TAG, Str(B.Padded(bs)))]))
    case Arr(items) =>
      var es := EncodeAll(items);
      if es.Some? then Some(Arr(es.value)) else None
    case Obj(fields) =>
      if Has(fields, TAG) then None
      else
        var es := EncodeFields(fields);
        if es.Some? then Some(Obj(es.value)) else None
    case _ => Some(v)
  }

  function EncodeAll(items: seq<Value>): Option<seq<Value>>
    decreases items
  {
    if items == [] then Some([])
    else
      var e := Encode(items[0]);
      var es := EncodeAll(items[1..]);
      if e.Some? && es.Some? then Some([e.value] + es.value) else None
  }

  function EncodeFields(fields: seq<Field>): Option<seq<Field>>
    decreases fields
  {
    if fields == [] then Some([])
    else
      var e := Encode(fields[0].value);
      var es := EncodeFields(fields[1..]);
      if e.Some? && es.Some? then Some(Assigned([], fields[0].key, e.value) + es.value) else None
  }

  function Decode(v: Value): Value
    decreases v
  {
    match v
    case Arr(items) => Arr(DecodeAll(items))
    case Obj(fields) =>
      if |fields| == 1 && fields[0].key == TAG && fields[0].value.Str? then Bytes(FromBase64(fields[0].value.s))
      else Obj(DecodeFields(fields))
    case _ => v
  }

  function DecodeAll(items: seq<Value>): seq<Value>
    decreases items
  {
    if items == [] then [] else [Decode(items[0])] + DecodeAll(items[1..])
  }

  function DecodeFields(fields: seq<Field>): seq<Field>
    decreases fields
  {
    if fields == [] then [] else Assigned([], fields[0].key, Decode(fields[0].value)) + DecodeFields(fields[1..])
  }

  /** The runtime's own decoder, on what the runtime's own encoder produced. */
  function FromBase64(s: string): seq<B.byte> {
    var d := B.Decoded(s);
    if d.Some? then d.value else []
  }

  // ---- What survives ----

  /** No object at any depth has an own key `__proto__`. */
  predicate NoProto(v: Value)
    decreases v
  {
    match v
    case Arr(items) => forall i :: 0 <= i < |items| ==> NoProto(items[i])
    case Obj(fields) => forall i :: 0 <= i < |fields| ==> fields[i].key != PROTO && NoProto(fields[i].value)
    case _ => true
  }

  /** No object at any depth, hidden under `__proto__` or not, uses the reserved key. */
  predicate NoTag(v: Value)
    decreases v
  {
    match v
    case Arr(items) => forall i :: 0 <= i < |items| ==> NoTag(items[i])
    case Obj(fields) => forall i :: 0 <= i < |fields| ==> fields[i].key != TAG && NoTag(fields[i].value)
    case _ => true
  }

  /** The tree without its `__proto__` entries. */
  function Stripped(v: Value): Value
    decreases v
  {
    match v
    case Arr(items) => Arr(StrippedAll(items))
    case Obj(fields) => Obj(StrippedFields(fields))
    case _ => v
  }

  function StrippedAll(items: seq<Value>): seq<Value>
    decreases items
  {
    if items == [] then [] else [Stripped(items[0])] + StrippedAll(items[1..])
  }

  function StrippedFields(fields: seq<Field>): seq<Field>
    decreases fields
  {
    if fields == [] then [] else Assigned([], fields[0].key, Stripped(fields[0].value)) + StrippedFields(fields[1..])
  }

  // ---- Exactly which trees encode ----

  lemma {:induction false} EncodesIffNoTag(v: Value)
    ensures Encode(v).Some? <==> NoTag(v)
    decreases v
  {
    match v
    case Arr(items) => EncodesAllIffNoTag(items);
    case Obj(fields) => EncodesFieldsIffNoTag(fields);
    case _ =>
  }

  lemma {:induction false} EncodesAllIffNoTag(items: seq<Value>)
    ensures EncodeAll(items).Some? <==> forall i :: 0 <= i < |items| ==> NoTag(items[i])
    decreases items
  {
    if items != [] {
      EncodesIffNoTag(items[0]);
      EncodesAllIffNoTag(items[1..]);
      assert forall i :: 0 < i < |items| ==> items[i] == items[1..][i - 1];
    }
  }

  lemma {:induction false} EncodesFieldsIffNoTag(fields: seq<Field>)
    ensures EncodeFields(fields).Some? <==> forall i :: 0 <= i < |fields| ==> NoTag(fields[i].value)
    decreases fields
  {
    if fields != [] {
      EncodesIffNoTag(fields[0].value);
      EncodesFieldsIffNoTag(fields[1..]);
      assert forall i :: 0 < i < |fields| ==> fields[i] == fields[1..][i - 1];
    }
  }

  // ---- What decoding an encoding gives ----

  lemma {:induction false} DecodeEncode(v: Value)
    requires Encode(v).Some?
    ensures Decode(Encode(v).value) == Stripped(v)
    decreases v
  {
    match v
    case Bytes(bs) => B.DecodeInvertsEncode(bs);
    case Arr(items) => DecodeEncodeAll(items);
    case Obj(fields) =>
      DecodeEncodeFields(fields);
      var es := EncodeFields(fields).value;
      if |es| == 1 && es[0].key == TAG {
        KeysComeFrom(fields);
        assert false;
      }
    case _ =>
  }

  /** Encoding a field list invents no key. */
  lemma {:induction false} KeysComeFrom(fields: seq<Field>)
    requires EncodeFields(fields).Some?
    ensures forall i :: 0 <= i < |EncodeFields(fields).value| ==> Has(fields, EncodeFields(fields).value[i].key)
    decreases fields
  {
    if fields != [] {
      KeysComeFrom(fields[1..]);
      var es := EncodeFields(fields[1..]).value;
      forall i | 0 <= i < |es| ensures Has(fields, es[i].key) {
        var j :| 0 <= j < |fields[1..]| && fields[1..][j].key == es[i].key;
        assert fields[j + 1].key == es[i].key;
      }
      assert Has(fields, fields[0].key);
    }
  }

  lemma {:induction false} DecodeEncodeAll(items: seq<Value>)
    requires EncodeAll(items).Some?
    ensures DecodeAll(EncodeAll(items).value) == StrippedAll(items)
    decreases items
  {
    if items != [] {
      DecodeEncode(items[0]);
      DecodeEncodeAll(items[1..]);
      assert EncodeAll(items).value[1..] == EncodeAll(items[1..]).value;
    }
  }

  lemma {:induction false} DecodeEncodeFields(fields: seq<Field>)
    requires EncodeFields(fields).Some?
    ensures DecodeFields(EncodeFields(fields).value) == StrippedFields(fields)
    decreases fields
  {
    if fields != [] {
      DecodeEncode(fields[0].value);
      DecodeEncodeFields(fields[1..]);
      var es := EncodeFields(fields).value;
      if fields[0].key == PROTO {
        assert es == EncodeFields(fields[1..]).value;
      } else {
        assert es[1..] == EncodeFields(fields[1..]).value;
      }
    }
  }

  lemma {:induction false} StrippedIsSameIffNoProto(v: Value)
    ensures Stripped(v) == v <==> NoProto(v)
    decreases v
  {
    match v
    case Arr(items) => StrippedAllSame(items);
    case Obj(fields) => StrippedFieldsSame(fields);
    case _ =>
  }

  lemma {:induction false} StrippedAllSame(items: seq<Value>)
    ensures |StrippedAll(items)| == |items|
    ensures StrippedAll(items) == items <==> forall i :: 0 <= i < |items| ==> NoProto(items[i])
    decreases items
  {
    if items != [] {
      StrippedIsSameIffNoProto(items[0]);
      StrippedAllSame(items[1..]);
      assert items == [items[0]] + items[1..];
      assert forall i :: 0 < i < |items| ==> items[i] == items[1..][i - 1];
      assert StrippedAll(items)[1..] == StrippedAll(items[1..]);
    }
  }

  lemma {:induction false} StrippedFieldsSame(fields: seq<Field>)
    ensures |StrippedFields(fields)| <= |fields|
    ensures StrippedFields(fields) == fields <==>
      forall i :: 0 <= i < |fields| ==> fields[i].key != PROTO && NoProto(fields[i].value)
    decreases fields
  {
    if fields != [] {
      StrippedIsSameIffNoProto(fields[0].value);
      StrippedFieldsSame(fields[1..]);
      assert fields == [fields[0]] + fields[1..];
      assert forall i :: 0 < i < |fields| ==> fields[i] == fields[1..][i - 1];
      if fields[0].key != PROTO {
        assert StrippedFields(fields)[1..] == StrippedFields(fields[1..]);
      }
    }
  }

  /** The codec's promise, and exactly where it holds: a tree that encodes comes back the same if and only if it has no
      own `__proto__` key anywhere. */
  lemma RoundTripExactly(v: Value)
    ensures Encode(v).Some? <==> NoTag(v)
    ensures Encode(v).Some? ==> (Decode(Encode(v).value) == v <==> NoProto(v))
  {
    EncodesIffNoTag(v);
    if Encode(v).Some? {
      DecodeEncode(v);
      StrippedIsSameIffNoProto(v);
    }
  }

  /** The smallest tree that does not survive. */
  lemma ProtoKeyIsLost()
    ensures var v := Obj([Field(PROTO, Other(1))]);
      Encode(v).Some? && Decode(Encode(v).value) != v
  {
    var v := Obj([Field(PROTO, Other(1))]);
    assert |TAG| == 6 && |PROTO| == 9;
    assert v.fields[0].key == PROTO && NoTag(v);
    RoundTripExactly(v);
  }
}
