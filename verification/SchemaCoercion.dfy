/** The schema interpreter behind the wire records: when does a record that goes through JSON come back the same? */
module SchemaCoercion {
  import opened DepositTypes

  /** A raw field as it arrives; `Absent` is a missing property. */
  datatype Json =
    | Absent
    | Null
    | Bool(b: bool)
    | Num(x: real)
    | Text(s: string)
    | List(items: seq<Json>)
    | Object(fields: map<string, Json>)

  datatype Spec =
    | StringSpec(nullable: bool, text: Option<string>, trims: bool, lowers: bool)
    | IntSpec(nullable: bool, start: Option<real>, clamp: bool, low: Option<int>, high: Option<int>)
    | NumberSpec(nullable: bool, start: Option<real>, clamp: bool, least: Option<real>, most: Option<real>)
    | BooleanSpec(on: bool)
    | ObjectSpec(nullable: bool, value: Json)
    | ListSpec
    | RecordListSpec(schema: Schema)
    | RecordSpec(nullable: bool, schema: Schema)
    | EnumSpec(nullable: bool, values: seq<string>, text: Option<string>)

  datatype Entry = Entry(name: string, spec: Spec)

  type Schema = seq<Entry>

  /** The host's own conversions, of which only the laws below are used. */
  datatype Host = Host(trim: string -> string, lower: string -> string, number: Json -> Option<real>) {
    ghost predicate Lawful() {
      && (forall s :: trim(trim(s)) == trim(s))
      && (forall s :: lower(lower(s)) == lower(s))
      && (forall s :: trim(lower(trim(s))) == lower(trim(s)))
      && trim("") == "" && lower("") == ""
    }
  }

  // ---- Coercion ----

  function Normal(h: Host, trims: bool, lowers: bool, s: string): string {
    var t := if trims then h.trim(s) else s;
    if lowers then h.lower(t) else t
  }

  function Fallback(nullable: bool, text: Option<string>): Json {
    if nullable then Null else if text.Some? then Text(text.value) else Text("")
  }

  function ToNumber(h: Host, raw: Json): Option<real> {
    match raw
    case Absent => None
    case Null => Some(0.0)
    case Bool(b) => Some(if b then 1.0 else 0.0)
    case Num(x) => Some(x)
    case _ => h.number(raw)
  }

  function Trunc(x: real): int {
    if x >= 0.0 then x.Floor else -((-x).Floor)
  }

  function ClampInt(v: int, low: Option<int>, high: Option<int>): int {
    var w := if low.Some? && v < low.value then low.value else v;
    if high.Some? && w > high.value then high.value else w
  }

  function ClampReal(v: real, least: Option<real>, most: Option<real>): real {
    var w := if least.Some? && v < least.value then least.value else v;
    if most.Some? && w > most.value then most.value else w
  }

  function Start(o: Option<real>): real {
    if o.Some? then o.value else 0.0
  }

  function Coerce(h: Host, spec: Spec, raw: Json): Json
    decreases spec, 0, raw
  {
    match spec
    case StringSpec(nullable, text, trims, lowers) =>
      if !raw.Text? then Fallback(nullable, text)
      else if !trims then Text(Normal(h, false, lowers, raw.s))
      else if Normal(h, true, lowers, raw.s) == "" then Fallback(nullable, text)
      else Text(Normal(h, true, lowers, raw.s))
    case IntSpec(nullable, start, clamp, low, high) =>
      var n := ToNumber(h, raw);
      if n.None? then (if nullable then Null else Num(Trunc(Start(start)) as real))
      else if clamp then Num(ClampInt(Trunc(n.value), low, high) as real)
      else Num(Trunc(n.value) as real)
    case NumberSpec(nullable, start, clamp, least, most) =>
      var n := ToNumber(h, raw);
      if n.None? then (if nullable then Null else Num(Start(start)))
      else if clamp then Num(ClampReal(n.value, least, most))
      else Num(n.value)
    case BooleanSpec(on) => if raw.Bool? then raw else Bool(on)
    case ObjectSpec(nullable, value) =>
      if raw.Object? then raw else if nullable || value.Absent? then Null else value
    case ListSpec => if raw.List? then raw else List([])
    case RecordListSpec(schema) => if raw.List? then List(CoerceItems(h, schema, raw.items)) else List([])
    case RecordSpec(nullable, schema) =>
      if (raw.Absent? || raw.Null?) && nullable then Null else Object(CoerceRecord(h, schema, raw))
    case EnumSpec(nullable, values, text) =>
      if raw.Text? && raw.s in values then raw
      else if text.Some? && text.value in values then Text(text.value)
      else if nullable then Null
      else if values != [] then Text(values[0]) else Text("")
  }

  function Get(raw: Json, name: string): Json {
    if raw.Object? && name in raw.fields then raw.fields[name] else Absent
  }

  function CoerceRecord(h: Host, schema: Schema, raw: Json): map<string, Json>
    decreases schema, 0, raw
  {
    if schema == [] then map[]
    else
      CoerceRecord(h, schema[1..], raw)[schema[0].name := Coerce(h, schema[0].spec, Get(raw, schema[0].name))]
  }

  function CoerceItems(h: Host, schema: Schema, items: seq<Json>): seq<Json>
    decreases schema, 1, items
  {
    if items == [] then []
    else [Object(CoerceRecord(h, schema, items[0]))] + CoerceItems(h, schema, items[1..])
  }

  /** Field names of one schema are distinct, at every depth. */
  predicate WellNamed(spec: Spec)
    decreases spec, 0
  {
    (spec.RecordListSpec? || spec.RecordSpec?) ==> WellNamedAll(spec.schema)
  }

  predicate WellNamedAll(schema: Schema)
    decreases schema, 0
  {
    schema != [] ==>
      && WellNamed(schema[0].spec) && WellNamedAll(schema[1..])
      && forall i :: 0 < i < |schema| ==> schema[i].name != schema[0].name
  }

  // ---- Which schemas are stable ----

  /** What a schema author can check: no nullable numbers, numeric starting values that survive their own clamp, string
      defaults already in normal form (or trimmed to nothing), and the same for every nested record. */
  predicate Stable(h: Host, spec: Spec)
    decreases spec, 0
  {
    match spec
    case StringSpec(nullable, text, trims, lowers) =>
      || nullable || text.None?
      || Normal(h, trims, lowers, text.value) == text.value
      || (trims && Normal(h, trims, lowers, text.value) == "")
    case IntSpec(nullable, start, clamp, low, high) =>
      !nullable && (clamp ==> ClampInt(Trunc(Start(start)), low, high) == Trunc(Start(start)))
    case NumberSpec(nullable, start, clamp, least, most) =>
      !nullable && (clamp ==> ClampReal(Start(start), least, most) == Start(start))
    case RecordListSpec(schema) => StableAll(h, schema)
    case RecordSpec(_, schema) => StableAll(h, schema)
    case _ => true
  }

  predicate StableAll(h: Host, schema: Schema)
    decreases schema, 0
  {
    schema == [] || (Stable(h, schema[0].spec) && StableAll(h, schema[1..]))
  }

  predicate Settles(h: Host, spec: Spec, raw: Json) {
    Coerce(h, spec, Coerce(h, spec, raw)) == Coerce(h, spec, raw)
  }

  predicate RecordSettles(h: Host, schema: Schema, raw: Json) {
    CoerceRecord(h, schema, Object(CoerceRecord(h, schema, raw))) == CoerceRecord(h, schema, raw)
  }
  // ---- Records, field by field ----

  lemma {:induction false} RecordAt(h: Host, schema: Schema, raw: Json, i: nat)
    requires WellNamedAll(schema) && i < |schema|
    ensures schema[i].name in CoerceRecord(h, schema, raw)
    ensures CoerceRecord(h, schema, raw)[schema[i].name] == Coerce(h, schema[i].spec, Get(raw, schema[i].name))
    ensures WellNamed(schema[i].spec)
    decreases |schema|
  {
    if i > 0 { RecordAt(h, schema[1..], raw, i - 1); }
  }

  lemma {:induction false} RecordsAgree(h: Host, schema: Schema, a: Json, b: Json)
    requires forall i :: 0 <= i < |schema| ==>
      Coerce(h, schema[i].spec, Get(a, schema[i].name)) == Coerce(h, schema[i].spec, Get(b, schema[i].name))
    ensures CoerceRecord(h, schema, a) == CoerceRecord(h, schema, b)
    decreases |schema|
  {
    if schema != [] {
      forall i | 0 <= i < |schema[1..]|
        ensures Coerce(h, schema[1..][i].spec, Get(a, schema[1..][i].name)) == Coerce(h, schema[1..][i].spec, Get(b, schema[1..][i].name))
      {
        assert schema[1..][i] == schema[i + 1];
      }
      RecordsAgree(h, schema[1..], a, b);
    }
  }

  lemma {:induction false} StableAt(h: Host, schema: Schema, i: nat)
    requires StableAll(h, schema) && i < |schema|
    ensures Stable(h, schema[i].spec)
    decreases |schema|
  {
    if i > 0 { StableAt(h, schema[1..], i - 1); }
  }

  // ---- Stable schemas settle ----

  lemma TruncOfWhole(n: int)
    ensures Trunc(n as real) == n
  {
  }

  lemma NormalIsIdempotent(h: Host, trims: bool, lowers: bool, s: string)
    requires h.Lawful()
    ensures Normal(h, trims, lowers, Normal(h, trims, lowers, s)) == Normal(h, trims, lowers, s)
    ensures Normal(h, trims, lowers, "") == ""
  {
  }

  lemma ClampIsIdempotent(v: int, low: Option<int>, high: Option<int>, x: real, least: Option<real>, most: Option<real>)
    ensures ClampInt(ClampInt(v, low, high), low, high) == ClampInt(v, low, high)
    ensures ClampReal(ClampReal(x, least, most), least, most) == ClampReal(x, least, most)
  {
  }

  lemma {:induction false} StableSettles(h: Host, spec: Spec, raw: Json)
    requires h.Lawful() && WellNamed(spec) && Stable(h, spec)
    ensures Settles(h, spec, raw)
    decreases spec, 0, raw
  {
    match spec
    case StringSpec(nullable, text, trims, lowers) =>
      NormalIsIdempotent(h, trims, lowers, if raw.Text? then raw.s else "");
    case IntSpec(nullable, start, clamp, low, high) =>
      var n := ToNumber(h, raw);
      if n.Some? {
        ClampIsIdempotent(Trunc(n.value), low, high, 0.0, None, None);
        TruncOfWhole(ClampInt(Trunc(n.value), low, high));
        TruncOfWhole(Trunc(n.value));
      } else {
        TruncOfWhole(Trunc(Start(start)));
      }
    case NumberSpec(nullable, start, clamp, least, most) =>
      var n := ToNumber(h, raw);
      if n.Some? { ClampIsIdempotent(0, None, None, n.value, least, most); }
    case RecordListSpec(schema) => if raw.List? { ItemsSettle(h, schema, raw.items); }
    case RecordSpec(nullable, schema) => RecordStableSettles(h, schema, raw);
    case _ =>
  }

  lemma {:induction false} ItemsSettle(h: Host, schema: Schema, items: seq<Json>)
    requires h.Lawful() && WellNamedAll(schema) && StableAll(h, schema)
    ensures CoerceItems(h, schema, CoerceItems(h, schema, items)) == CoerceItems(h, schema, items)
    decreases schema, 1, items
  {
    if items != [] {
      RecordStableSettles(h, schema, items[0]);
      ItemsSettle(h, schema, items[1..]);
      assert CoerceItems(h, schema, items)[1..] == CoerceItems(h, schema, items[1..]);
    }
  }

  lemma {:induction false} RecordStableSettles(h: Host, schema: Schema, raw: Json)
    requires h.Lawful() && WellNamedAll(schema) && StableAll(h, schema)
    ensures RecordSettles(h, schema, raw)
    decreases schema, 0, raw
  {
    var once := Object(CoerceRecord(h, schema, raw));
    forall i | 0 <= i < |schema|
      ensures Coerce(h, schema[i].spec, Get(once, schema[i].name)) == Coerce(h, schema[i].spec, Get(raw, schema[i].name))
    {
      RecordAt(h, schema, raw, i);
      StableAt(h, schema, i);
      StableSettles(h, schema[i].spec, Get(raw, schema[i].name));
    }
    RecordsAgree(h, schema, once, raw);
  }

  // ---- Unstable ones do not ----

  lemma OneItem(h: Host, schema: Schema, r: Json)
    ensures CoerceItems(h, schema, [r]) == [Object(CoerceRecord(h, schema, r))]
  {
    assert [r][1..] == [];
    assert CoerceItems(h, schema, []) == [];
  }

  /** An input that changes on its second trip.  For a nullable number it is the missing one: absent, null, zero. */
  lemma {:induction false} UnstableChanges(h: Host, spec: Spec) returns (raw: Json)
    requires h.Lawful() && WellNamed(spec) && !Stable(h, spec)
    ensures !Settles(h, spec, raw)
    decreases spec, 0
  {
    raw := Absent;
    match spec
    case StringSpec(nullable, text, trims, lowers) =>
    case IntSpec(nullable, start, clamp, low, high) => TruncOfWhole(Trunc(Start(start)));
    case NumberSpec(nullable, start, clamp, least, most) =>
    case RecordListSpec(schema) =>
      var r := RecordUnstableChanges(h, schema);
      raw := List([r]);
      var once := Object(CoerceRecord(h, schema, r));
      OneItem(h, schema, r);
      OneItem(h, schema, once);
      assert List([Object(CoerceRecord(h, schema, once))]).items[0] != List([once]).items[0];
    case RecordSpec(nullable, schema) => raw := RecordUnstableChanges(h, schema);
  }

  lemma {:induction false} RecordUnstableChanges(h: Host, schema: Schema) returns (raw: Json)
    requires h.Lawful() && WellNamedAll(schema) && !StableAll(h, schema)
    ensures raw.Object? && !RecordSettles(h, schema, raw)
    decreases schema, 0
  {
    var i := FirstUnstable(h, schema);
    RecordAt(h, schema, Absent, i);
    var field := UnstableChanges(h, schema[i].spec);
    var name := schema[i].name;
    raw := if field.Absent? then Object(map[]) else Object(map[name := field]);
    assert Get(raw, name) == field;
    RecordAt(h, schema, raw, i);
    RecordAt(h, schema, Object(CoerceRecord(h, schema, raw)), i);
  }

  lemma {:induction false} FirstUnstable(h: Host, schema: Schema) returns (i: nat)
    requires !StableAll(h, schema)
    ensures i < |schema| && !Stable(h, schema[i].spec)
    decreases |schema|
  {
    if Stable(h, schema[0].spec) {
      i := FirstUnstable(h, schema[1..]);
      i := i + 1;
    } else {
      i := 0;
    }
  }

  /** A record class gives every input back unchanged after JSON exactly when its schema is stable. */
  lemma SettlesIffStable(h: Host, schema: Schema)
    requires h.Lawful() && WellNamedAll(schema)
    ensures (forall raw :: RecordSettles(h, schema, raw)) <==> StableAll(h, schema)
  {
    if StableAll(h, schema) {
      forall raw ensures RecordSettles(h, schema, raw) { RecordStableSettles(h, schema, raw); }
    } else {
      var raw := RecordUnstableChanges(h, schema);
    }
  }
}
