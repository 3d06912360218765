/** The type-directed wire codec: tagged records and foreign values, closed
    unions, and the canonical envelope text. A schema lists the record classes
    with their fields; what the field validators, the foreign packages' own wires
    and the float and time texts accept are parameters of it. */
module WireCodec {
  import opened Options
  import opened JsonText
  import opened Text

  datatype Moment = DateTimeText | DateText

  /** The annotation of a field. */
  datatype Type =
    | TNone
    | TStr
    | TInt
    | TBool
    | TFloat
    | TObject
    | TMoment(moment: Moment)
    | TEnum(enum: string)
    | TForeign(tag: string)
    | TRecord(cls: string)
    | TTuple(item: Type)
    | TFixed(types: seq<Type>)
    | TMapping(value: Type)
    | TUnion(options: seq<Type>)

  datatype Value =
    | VNone
    | VStr(s: string)
    | VInt(i: int)
    | VBool(b: bool)
    | VFloat(text: string)
    | VMoment(moment: Moment, text: string)
    | VEnum(enum: string, member: string)
    | VForeign(tag: string, wire: string)
    | VTuple(items: seq<Value>)
    | VMapping(entries: seq<Entry>)
    | VRecord(cls: string, fields: seq<Value>)

  datatype Entry = Entry(key: string, value: Value)

  /** A field; one that is not on the wire must be none. */
  datatype Field = Field(name: string, annotation: Type, onWire: bool)

  /** A record class: its tag, and its fields by name. */
  datatype Record = Record(tag: string, fields: seq<Field>)

  datatype Schema = Schema(
    records: map<string, Record>,
    enums: map<string, set<string>>,
    valid: (string, seq<Value>) -> bool,
    foreign: (string, string) -> Option<string>,
    momentText: (Moment, string) -> bool,
    floats: FloatTexts)

  // -------------------------------------------------------------- decoding

  function Plain(s: Schema, j: Json): Option<Value> {
    match j
    case JNull => Some(VNone)
    case JBool(b) => Some(VBool(b))
    case JInt(i) => Some(VInt(i))
    case JFloat(t) => if s.floats(t) then Some(VFloat(t)) else None
    case JStr(t) => Some(VStr(t))
    case JArr(items) =>
      if forall i :: 0 <= i < |items| ==> Plain(s, items[i]).Some?
      then Some(VTuple(seq(|items|, i requires 0 <= i < |items| && Plain(s, items[i]).Some? => Plain(s, items[i]).value)))
      else None
    case JObj(members) =>
      if forall i :: 0 <= i < |members| ==> Plain(s, members[i].value).Some?
      then Some(VMapping(seq(|members|, i requires 0 <= i < |members| && Plain(s, members[i].value).Some? =>
        Entry(members[i].key, Plain(s, members[i].value).value))))
      else None
  }

  /** `_decode_tagged`: an object with exactly the tag and one other key. */
  function Tagged(j: Json, tag: string, key: string): (r: Option<Json>)
    ensures r.Some? ==> r.value < j
  {
    if j.JObj? && |j.members| == 2 && j.members[0].key == "$type" && j.members[1].key == key
       && j.members[0].value == JStr(tag)
    then Some(j.members[1].value) else None
  }

  function OnWire(fields: seq<Field>): seq<Field> {
    if fields == [] then []
    else (if fields[0].onWire then [fields[0]] else []) + OnWire(fields[1..])
  }

  /** The object has exactly the record's wire fields. */
  predicate FieldsPresent(fields: seq<Field>, members: seq<Member>) {
    && |members| == |OnWire(fields)|
    && forall i :: 0 <= i < |members| ==> members[i].key == OnWire(fields)[i].name
  }

  /** All fields in order, with none for those that are not on the wire. */
  function Filled(fields: seq<Field>, values: seq<Value>): (r: seq<Value>)
    requires |values| == |OnWire(fields)|
    ensures |r| == |fields|
  {
    if fields == [] then []
    else if fields[0].onWire then [values[0]] + Filled(fields[1..], values[1..])
    else [VNone] + Filled(fields[1..], values)
  }

  /** `_decode_dataclass`. */
  function DecodeRecord(s: Schema, cls: string, j: Json): Option<Value>
    decreases j, 0
  {
    if cls !in s.records || !j.JObj? || !FieldsPresent(s.records[cls].fields, j.members) then None
    else
      var fields := s.records[cls].fields;
      var wire := OnWire(fields);
      if forall i :: 0 <= i < |wire| ==> Decode(s, wire[i].annotation, j.members[i].value).Some? then
        var values := seq(|wire|, i requires 0 <= i < |wire| && Decode(s, wire[i].annotation, j.members[i].value).Some? =>
          Decode(s, wire[i].annotation, j.members[i].value).value);
        if s.valid(cls, Filled(fields, values)) then Some(VRecord(cls, Filled(fields, values))) else None
      else None
  }

  /** How many options other than none decode the value. */
  function Successes(s: Schema, options: seq<Type>, j: Json): (n: nat)
    decreases j, 1, options
  {
    if options == [] then 0
    else (if options[0] != TNone && Decode(s, options[0], j).Some? then 1 else 0) + Successes(s, options[1..], j)
  }

  function FirstSuccess(s: Schema, options: seq<Type>, j: Json): Option<Value>
    decreases j, 1, options
  {
    if options == [] then None
    else if options[0] != TNone && Decode(s, options[0], j).Some? then Decode(s, options[0], j)
    else FirstSuccess(s, options[1..], j)
  }

  /** `_decode_value`. */
  function Decode(s: Schema, t: Type, j: Json): Option<Value>
    decreases j, 1, t
  {
    match t
    case TNone => None
    case TStr => if j.JStr? then Some(VStr(j.s)) else None
    case TInt => if j.JInt? then Some(VInt(j.i)) else None
    case TBool => if j.JBool? then Some(VBool(j.b)) else None
    case TFloat => if j.JFloat? && s.floats(j.text) then Some(VFloat(j.text)) else None
    case TObject => Plain(s, j)
    case TMoment(m) => if j.JStr? && s.momentText(m, j.s) then Some(VMoment(m, j.s)) else None
    case TEnum(e) => if j.JStr? && e in s.enums && j.s in s.enums[e] then Some(VEnum(e, j.s)) else None
    case TForeign(tag) =>
      var wire := Tagged(j, tag, "wire");
      if wire.None? || !wire.value.JStr? then None
      else
        var canonical := s.foreign(tag, wire.value.s);
        if canonical.Some? then Some(VForeign(tag, canonical.value)) else None
    case TRecord(cls) =>
      if cls !in s.records then None
      else
        var data := Tagged(j, s.records[cls].tag, "data");
        if data.None? then None else DecodeRecord(s, cls, data.value)
    case TTuple(item) =>
      if j.JArr? && forall i :: 0 <= i < |j.items| ==> Decode(s, item, j.items[i]).Some?
      then Some(VTuple(seq(|j.items|, i requires 0 <= i < |j.items| && Decode(s, item, j.items[i]).Some? =>
        Decode(s, item, j.items[i]).value)))
      else None
    case TFixed(types) =>
      if j.JArr? && |j.items| == |types| && forall i :: 0 <= i < |types| ==> Decode(s, types[i], j.items[i]).Some?
      then Some(VTuple(seq(|types|, i requires 0 <= i < |types| && Decode(s, types[i], j.items[i]).Some? =>
        Decode(s, types[i], j.items[i]).value)))
      else None
    case TMapping(value) =>
      if j.JObj? && forall i :: 0 <= i < |j.members| ==> Decode(s, value, j.members[i].value).Some?
      then Some(VMapping(seq(|j.members|, i requires 0 <= i < |j.members| && Decode(s, value, j.members[i].value).Some? =>
        Entry(j.members[i].key, Decode(s, value, j.members[i].value).value))))
      else None
    case TUnion(options) =>
      if j.JNull? && TNone in options then Some(VNone)
      else if Successes(s, options, j) == 1 then FirstSuccess(s, options, j)
      else None
  }

  // ------------------------------------------------- the loops of decoding

  /** `_decode_union`: every option is tried, and exactly one must succeed. */
  method DecodeUnion(s: Schema, options: seq<Type>, j: Json) returns (v: Option<Value>)
    ensures v == Decode(s, TUnion(options), j)
  {
    if j.JNull? && TNone in options { return Some(VNone); }
    var successes: seq<Value> := [];
    for i := 0 to |options|
      invariant |successes| + Successes(s, options[i..], j) == Successes(s, options, j)
      invariant successes == [] ==> FirstSuccess(s, options[i..], j) == FirstSuccess(s, options, j)
      invariant successes != [] ==> FirstSuccess(s, options, j) == Some(successes[0])
    {
      assert options[i..][0] == options[i] && options[i..][1..] == options[i + 1..];
      if options[i] != TNone {
        var decoded := Decode(s, options[i], j);
        if decoded.Some? { successes := successes + [decoded.value]; }
      }
    }
    return if |successes| == 1 then Some(successes[0]) else None;
  }

  /** `_unique_object`: the pairs of an object literal, unless a key comes twice. */
  method UniqueObject(pairs: seq<Member>) returns (o: Option<map<string, Json>>)
    ensures o.Some? <==> (forall i, k :: 0 <= i < k < |pairs| ==> pairs[i].key != pairs[k].key)
    ensures o.Some? ==>
              && (forall i :: 0 <= i < |pairs| ==>
                    pairs[i].key in o.value && o.value[pairs[i].key] == pairs[i].value)
              && forall key :: key in o.value ==> exists i :: 0 <= i < |pairs| && pairs[i].key == key
  {
    var result: map<string, Json> := map[];
    for i := 0 to |pairs|
      invariant forall k :: 0 <= k < i ==> pairs[k].key in result && result[pairs[k].key] == pairs[k].value
      invariant forall key :: key in result ==> exists k :: 0 <= k < i && pairs[k].key == key
      invariant forall k, l :: 0 <= k < l < i ==> pairs[k].key != pairs[l].key
    {
      if pairs[i].key in result { return None; }
      result := result[pairs[i].key := pairs[i].value];
    }
    return Some(result);
  }

  // -------------------------------------------------------------- encoding

  /** The values of the fields that are on the wire. */
  function Sent(fields: seq<Field>, values: seq<Value>): (r: seq<Value>)
    requires |values| == |fields|
    ensures |r| == |OnWire(fields)|
    ensures forall i :: 0 <= i < |r| ==> r[i] in values
  {
    if fields == [] then []
    else (if fields[0].onWire then [values[0]] else []) + Sent(fields[1..], values[1..])
  }

  predicate UnsentAreNone(fields: seq<Field>, values: seq<Value>)
    requires |values| == |fields|
  {
    forall i :: 0 <= i < |fields| && !fields[i].onWire ==> values[i] == VNone
  }

  function Envelope(tag: string, key: string, j: Json): Json {
    JObj([Member("$type", JStr(tag)), Member(key, j)])
  }

  predicate SortedEntries(entries: seq<Entry>) {
    forall i :: 0 < i < |entries| ==> Less(entries[i - 1].key, entries[i].key)
  }

  /** `_encode_dataclass` without its self-check. */
  function RecordData(s: Schema, cls: string, values: seq<Value>): Option<Json>
    decreases values, 1
  {
    if cls !in s.records || |values| != |s.records[cls].fields| || !UnsentAreNone(s.records[cls].fields, values) then None
    else
      var wire, sent := OnWire(s.records[cls].fields), Sent(s.records[cls].fields, values);
      if forall i :: 0 <= i < |sent| ==> Encode(s, sent[i]).Some?
      then Some(JObj(seq(|sent|, i requires 0 <= i < |sent| && Encode(s, sent[i]).Some? =>
        Member(wire[i].name, Encode(s, sent[i]).value))))
      else None
  }

  /** `_encode_dataclass`: the encoder decodes what it made and compares. */
  function EncodeRecord(s: Schema, cls: string, values: seq<Value>): Option<Json>
    decreases values, 2
  {
    var data := RecordData(s, cls, values);
    if data.Some? && DecodeRecord(s, cls, data.value) == Some(VRecord(cls, values)) then data else None
  }

  /** `_encode_value`, which looks at the value alone. */
  function Encode(s: Schema, v: Value): Option<Json>
    decreases v, 0
  {
    match v
    case VNone => Some(JNull)
    case VStr(t) => Some(JStr(t))
    case VInt(i) => Some(JInt(i))
    case VBool(b) => Some(JBool(b))
    case VFloat(t) => if s.floats(t) then Some(JFloat(t)) else None
    case VMoment(m, t) => Some(JStr(t))
    case VEnum(e, member) => Some(JStr(member))
    case VForeign(tag, wire) => Some(Envelope(tag, "wire", JStr(wire)))
    case VTuple(items) =>
      if forall i :: 0 <= i < |items| ==> Encode(s, items[i]).Some?
      then Some(JArr(seq(|items|, i requires 0 <= i < |items| && Encode(s, items[i]).Some? => Encode(s, items[i]).value)))
      else None
    case VMapping(entries) =>
      if SortedEntries(entries) && forall i :: 0 <= i < |entries| ==> Encode(s, entries[i].value).Some?
      then Some(JObj(seq(|entries|, i requires 0 <= i < |entries| && Encode(s, entries[i].value).Some? =>
        Member(entries[i].key, Encode(s, entries[i].value).value))))
      else None
    case VRecord(cls, fields) =>
      var data := EncodeRecord(s, cls, fields);
      if data.Some? then Some(Envelope(s.records[cls].tag, "data", data.value)) else None
  }

  // ------------------------------------------------------------- envelopes

  const SCHEMA_VERSION: int := 1

  /** The public envelope types and their tags. */
  type Public = map<string, string>

  function Payload(tag: string, data: Json): Json {
    JObj([Member("data", data), Member("schema_version", JInt(SCHEMA_VERSION)), Member("type", JStr(tag))])
  }

  function ToWire(s: Schema, public: Public, v: Value): Option<string> {
    if !v.VRecord? || v.cls !in public then None
    else
      var data := EncodeRecord(s, v.cls, v.fields);
      if data.None? then None else Some(Print(Payload(public[v.cls], data.value)))
  }

  function FromWire(s: Schema, public: Public, cls: string, text: string): Option<Value> {
    if cls !in public then None
    else
      var payload := Parse(s.floats, text);
      if payload.None? || !payload.value.JObj? || |payload.value.members| != 3 then None
      else
        var m := payload.value.members;
        if m[0].key != "data" || m[1] != Member("schema_version", JInt(SCHEMA_VERSION))
           || m[2] != Member("type", JStr(public[cls])) then None
        else
          var v := DecodeRecord(s, cls, m[0].value);
          if v.Some? && ToWire(s, public, v.value) == Some(text) then v else None
  }
}
