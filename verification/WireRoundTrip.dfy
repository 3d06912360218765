/** The codec's laws: unions decode by exactly one member, typed values encode
    and decode back, and a text is accepted exactly when it is the canonical text
    of the value it yields. */
module WireRoundTrip {
  import opened Options
  import opened JsonText
  import opened Text
  import opened WireCodec

  // -------------------------------------------------- schemas and their types

  /** How a value of a type looks on the wire. */
  datatype Head = HText | HInt | HBool | HFloat | HList | HObject | HTag(tag: string) | HOther

  function HeadOf(s: Schema, t: Type): Head {
    match t
    case TStr => HText
    case TMoment(_) => HText
    case TEnum(_) => HText
    case TInt => HInt
    case TBool => HBool
    case TFloat => HFloat
    case TTuple(_) => HList
    case TFixed(_) => HList
    case TMapping(_) => HObject
    case TForeign(tag) => HTag(tag)
    case TRecord(cls) => if cls in s.records then HTag(s.records[cls].tag) else HOther
    case _ => HOther
  }

  /** No wire value looks like both. */
  predicate Apart(a: Head, b: Head) {
    a != b && !a.HOther? && !b.HOther? && !(a.HObject? && b.HTag?) && !(a.HTag? && b.HObject?)
  }

  predicate Fits(j: Json, h: Head) {
    match h
    case HText => j.JStr?
    case HInt => j.JInt?
    case HBool => j.JBool?
    case HFloat => j.JFloat?
    case HList => j.JArr?
    case HObject => j.JObj?
    case HTag(tag) => j.JObj? && |j.members| == 2 && j.members[0] == Member("$type", JStr(tag))
    case HOther => true
  }

  /** A closed type: the members of its unions look different from one another. */
  predicate Closed(s: Schema, t: Type) {
    match t
    case TTuple(item) => Closed(s, item)
    case TFixed(types) => forall i :: 0 <= i < |types| ==> Closed(s, types[i])
    case TMapping(value) => Closed(s, value)
    case TUnion(options) =>
      && (forall i :: 0 <= i < |options| && options[i] != TNone ==>
            Closed(s, options[i]) && !HeadOf(s, options[i]).HOther?)
      && (forall i, k :: 0 <= i < k < |options| && options[i] != TNone && options[k] != TNone ==>
            Apart(HeadOf(s, options[i]), HeadOf(s, options[k])))
    case _ => true
  }

  predicate SortedNames(fields: seq<Field>) {
    forall i :: 0 < i < |fields| ==> Less(fields[i - 1].name, fields[i].name)
  }

  ghost predicate SchemaOk(s: Schema) {
    && FloatsOk(s.floats)
    && forall cls :: cls in s.records ==>
         SortedNames(OnWire(s.records[cls].fields))
         && forall i :: 0 <= i < |OnWire(s.records[cls].fields)| ==> Closed(s, OnWire(s.records[cls].fields)[i].annotation)
  }

  // ------------------------------------------------------------ typed values

  predicate IsPlain(s: Schema, v: Value) {
    match v
    case VNone => true
    case VStr(_) => true
    case VInt(_) => true
    case VBool(_) => true
    case VFloat(t) => s.floats(t)
    case VTuple(items) => forall i :: 0 <= i < |items| ==> IsPlain(s, items[i])
    case VMapping(entries) => SortedEntries(entries) && forall i :: 0 <= i < |entries| ==> IsPlain(s, entries[i].value)
    case _ => false
  }

  /** The value is one that a field of this annotation holds. */
  predicate HasType(s: Schema, t: Type, v: Value)
    decreases v, 1, t
  {
    match t
    case TNone => false
    case TStr => v.VStr?
    case TInt => v.VInt?
    case TBool => v.VBool?
    case TFloat => v.VFloat? && s.floats(v.text)
    case TObject => IsPlain(s, v)
    case TMoment(m) => v.VMoment? && v.moment == m && s.momentText(m, v.text)
    case TEnum(e) => v.VEnum? && v.enum == e && e in s.enums && v.member in s.enums[e]
    case TForeign(tag) => v.VForeign? && v.tag == tag && s.foreign(tag, v.wire) == Some(v.wire)
    case TRecord(cls) => v.VRecord? && v.cls == cls && RecordTyped(s, cls, v.fields)
    case TTuple(item) => v.VTuple? && forall i :: 0 <= i < |v.items| ==> HasType(s, item, v.items[i])
    case TFixed(types) => v.VTuple? && |v.items| == |types| && forall i :: 0 <= i < |types| ==> HasType(s, types[i], v.items[i])
    case TMapping(value) =>
      v.VMapping? && SortedEntries(v.entries) && forall i :: 0 <= i < |v.entries| ==> HasType(s, value, v.entries[i].value)
    case TUnion(options) =>
      (v == VNone && TNone in options)
      || exists i :: 0 <= i < |options| && options[i] != TNone && HasType(s, options[i], v)
  }

  /** The fields of a record: typed, valid, and none where they are not sent. */
  predicate RecordTyped(s: Schema, cls: string, values: seq<Value>)
    decreases values, 2
  {
    && cls in s.records && |values| == |s.records[cls].fields|
    && UnsentAreNone(s.records[cls].fields, values) && s.valid(cls, values)
    && var wire, sent := OnWire(s.records[cls].fields), Sent(s.records[cls].fields, values);
       forall i :: 0 <= i < |sent| ==> HasType(s, wire[i].annotation, sent[i])
  }

  // ------------------------------------------------------------------ unions

  /** What decodes under a type looks like that type. */
  lemma DecodedFits(s: Schema, t: Type, j: Json)
    requires Decode(s, t, j).Some?
    ensures Fits(j, HeadOf(s, t))
  {
  }

  lemma ApartDecodesOnce(s: Schema, a: Type, b: Type, j: Json)
    requires Apart(HeadOf(s, a), HeadOf(s, b)) && Decode(s, a, j).Some?
    ensures Decode(s, b, j).None?
  {
    DecodedFits(s, a, j);
    if Decode(s, b, j).Some? { DecodedFits(s, b, j); }
  }

  predicate Decodes(s: Schema, t: Type, j: Json) {
    t != TNone && Decode(s, t, j).Some?
  }

  /** A union of tagged members, optional or not, is closed when the tags differ. */
  lemma TaggedUnionIsClosed(s: Schema, options: seq<Type>)
    requires forall i :: 0 <= i < |options| ==>
               options[i] == TNone || options[i].TForeign? || (options[i].TRecord? && options[i].cls in s.records)
    requires forall i, k :: 0 <= i < k < |options| && options[i] != TNone && options[k] != TNone ==>
               HeadOf(s, options[i]) != HeadOf(s, options[k])
    ensures Closed(s, TUnion(options))
  {
    forall i | 0 <= i < |options| && options[i] != TNone ensures HeadOf(s, options[i]).HTag? {}
  }

  /** If one option decodes and no other does, the union decodes by that option. */
  lemma {:induction false} OneSuccess(s: Schema, options: seq<Type>, j: Json, i: nat)
    requires i < |options| && Decodes(s, options[i], j)
    requires forall k :: 0 <= k < |options| && k != i ==> !Decodes(s, options[k], j)
    ensures Successes(s, options, j) == 1 && FirstSuccess(s, options, j) == Decode(s, options[i], j)
  {
    assert Decodes(s, options[0], j) <==> i == 0;
    if i == 0 {
      forall k | 0 <= k < |options[1..]| ensures !Decodes(s, options[1..][k], j) {
        assert options[1..][k] == options[k + 1];
      }
      NoSuccess(s, options[1..], j);
    } else {
      forall k | 0 <= k < |options[1..]| && k != i - 1 ensures !Decodes(s, options[1..][k], j) {
        assert options[1..][k] == options[k + 1];
      }
      OneSuccess(s, options[1..], j, i - 1);
    }
  }

  lemma {:induction false} NoSuccess(s: Schema, options: seq<Type>, j: Json)
    requires forall k :: 0 <= k < |options| ==> !Decodes(s, options[k], j)
    ensures Successes(s, options, j) == 0
  {
    if options != [] {
      assert !Decodes(s, options[0], j);
      forall k | 0 <= k < |options[1..]| ensures !Decodes(s, options[1..][k], j) {
        assert options[1..][k] == options[k + 1];
      }
      NoSuccess(s, options[1..], j);
    }
  }

  /** In a closed union, at most one member decodes any wire value whatsoever. */
  lemma ClosedUnionIsExclusive(s: Schema, options: seq<Type>, j: Json, i: nat, k: nat)
    requires Closed(s, TUnion(options)) && i < |options| && k < |options|
    requires Decodes(s, options[i], j) && Decodes(s, options[k], j)
    ensures i == k
  {
    if i < k { ApartDecodesOnce(s, options[i], options[k], j); }
    if k < i { ApartDecodesOnce(s, options[k], options[i], j); }
  }

  /** So a closed union decodes exactly when one member does, and by that member. */
  lemma UnionDecodesByMember(s: Schema, options: seq<Type>, j: Json, i: nat)
    requires Closed(s, TUnion(options)) && i < |options| && Decodes(s, options[i], j)
    ensures Decode(s, TUnion(options), j) == Decode(s, options[i], j)
  {
    forall k | 0 <= k < |options| && k != i ensures !Decodes(s, options[k], j) {
      if Decodes(s, options[k], j) { ClosedUnionIsExclusive(s, options, j, i, k); }
    }
    OneSuccess(s, options, j, i);
    DecodedFits(s, options[i], j);
    assert !HeadOf(s, options[i]).HOther?;
  }

  // -------------------------------------------------------------- round trip

  lemma {:induction false} FilledSent(fields: seq<Field>, values: seq<Value>)
    requires |values| == |fields| && UnsentAreNone(fields, values)
    ensures Filled(fields, Sent(fields, values)) == values
  {
    if fields != [] {
      forall i | 0 <= i < |fields[1..]| && !fields[1..][i].onWire ensures values[1..][i] == VNone {
        assert !fields[i + 1].onWire;
      }
      FilledSent(fields[1..], values[1..]);
      assert values == [values[0]] + values[1..];
      assert Sent(fields, values) == (if fields[0].onWire then [values[0]] else []) + Sent(fields[1..], values[1..]);
      if fields[0].onWire {
        assert Sent(fields, values)[1..] == Sent(fields[1..], values[1..]);
      } else {
        assert Sent(fields, values) == Sent(fields[1..], values[1..]) && values[0] == VNone;
      }
    }
  }

  // Sequences decode element by element.

  lemma PlainTuple(s: Schema, items: seq<Json>, values: seq<Value>)
    requires |items| == |values| && forall i :: 0 <= i < |items| ==> Plain(s, items[i]) == Some(values[i])
    ensures Plain(s, JArr(items)) == Some(VTuple(values))
  {
    assert seq(|items|, i requires 0 <= i < |items| && Plain(s, items[i]).Some? => Plain(s, items[i]).value) == values;
  }

  lemma PlainMapping(s: Schema, members: seq<Member>, entries: seq<Entry>)
    requires |members| == |entries|
    requires forall i :: 0 <= i < |members| ==>
               members[i].key == entries[i].key && Plain(s, members[i].value) == Some(entries[i].value)
    ensures Plain(s, JObj(members)) == Some(VMapping(entries))
  {
    assert seq(|members|, i requires 0 <= i < |members| && Plain(s, members[i].value).Some? =>
      Entry(members[i].key, Plain(s, members[i].value).value)) == entries;
  }

  lemma TupleDecodes(s: Schema, item: Type, items: seq<Json>, values: seq<Value>)
    requires |items| == |values| && forall i :: 0 <= i < |items| ==> Decode(s, item, items[i]) == Some(values[i])
    ensures Decode(s, TTuple(item), JArr(items)) == Some(VTuple(values))
  {
    var j := JArr(items);
    assert seq(|j.items|, i requires 0 <= i < |j.items| && Decode(s, item, j.items[i]).Some? =>
      Decode(s, item, j.items[i]).value) == values;
  }

  lemma FixedDecodes(s: Schema, types: seq<Type>, items: seq<Json>, values: seq<Value>)
    requires |items| == |values| == |types| && forall i :: 0 <= i < |items| ==> Decode(s, types[i], items[i]) == Some(values[i])
    ensures Decode(s, TFixed(types), JArr(items)) == Some(VTuple(values))
  {
    var j := JArr(items);
    assert seq(|types|, i requires 0 <= i < |types| && Decode(s, types[i], j.items[i]).Some? =>
      Decode(s, types[i], j.items[i]).value) == values;
  }

  lemma MappingDecodes(s: Schema, value: Type, members: seq<Member>, entries: seq<Entry>)
    requires |members| == |entries|
    requires forall i :: 0 <= i < |members| ==>
               members[i].key == entries[i].key && Decode(s, value, members[i].value) == Some(entries[i].value)
    ensures Decode(s, TMapping(value), JObj(members)) == Some(VMapping(entries))
  {
    var j := JObj(members);
    assert seq(|j.members|, i requires 0 <= i < |j.members| && Decode(s, value, j.members[i].value).Some? =>
      Entry(j.members[i].key, Decode(s, value, j.members[i].value).value)) == entries;
  }

  /** Plain values survive an untyped field. */
  lemma {:induction false} PlainRoundTrip(s: Schema, v: Value)
    requires IsPlain(s, v)
    ensures Encode(s, v).Some? && Plain(s, Encode(s, v).value) == Some(v)
  {
    match v
    case VTuple(items) =>
      forall i | 0 <= i < |items| ensures Encode(s, items[i]).Some? && Plain(s, Encode(s, items[i]).value) == Some(items[i]) {
        PlainRoundTrip(s, items[i]);
      }
      PlainTuple(s, Encode(s, v).value.items, items);
    case VMapping(entries) =>
      forall i | 0 <= i < |entries|
        ensures Encode(s, entries[i].value).Some? && Plain(s, Encode(s, entries[i].value).value) == Some(entries[i].value)
      {
        PlainRoundTrip(s, entries[i].value);
      }
      PlainMapping(s, Encode(s, v).value.members, entries);
    case _ =>
  }

  /** Every typed value encodes, and its encoding decodes to it; in particular no
      self-check of the encoder ever fires on one. */
  lemma {:induction false} RoundTrip(s: Schema, t: Type, v: Value)
    requires SchemaOk(s) && Closed(s, t) && HasType(s, t, v)
    ensures Encode(s, v).Some? && Decode(s, t, Encode(s, v).value) == Some(v)
    decreases v, 1, t
  {
    match t
    case TObject => PlainRoundTrip(s, v);
    case TRecord(cls) =>
      RecordRoundTrip(s, cls, v.fields);
    case TTuple(item) =>
      forall i | 0 <= i < |v.items|
        ensures Encode(s, v.items[i]).Some? && Decode(s, item, Encode(s, v.items[i]).value) == Some(v.items[i])
      {
        RoundTrip(s, item, v.items[i]);
      }
      TupleDecodes(s, item, Encode(s, v).value.items, v.items);
    case TFixed(types) =>
      forall i | 0 <= i < |v.items|
        ensures Encode(s, v.items[i]).Some? && Decode(s, types[i], Encode(s, v.items[i]).value) == Some(v.items[i])
      {
        RoundTrip(s, types[i], v.items[i]);
      }
      FixedDecodes(s, types, Encode(s, v).value.items, v.items);
    case TMapping(value) =>
      forall i | 0 <= i < |v.entries|
        ensures Encode(s, v.entries[i].value).Some?
                && Decode(s, value, Encode(s, v.entries[i].value).value) == Some(v.entries[i].value)
      {
        RoundTrip(s, value, v.entries[i].value);
      }
      MappingDecodes(s, value, Encode(s, v).value.members, v.entries);
    case TUnion(options) =>
      if !(v == VNone && TNone in options) {
        var i :| 0 <= i < |options| && options[i] != TNone && HasType(s, options[i], v);
        RoundTrip(s, options[i], v);
        UnionDecodesByMember(s, options, Encode(s, v).value, i);
      }
    case _ =>
  }

  lemma {:induction false} RecordRoundTrip(s: Schema, cls: string, values: seq<Value>)
    requires SchemaOk(s) && RecordTyped(s, cls, values)
    ensures EncodeRecord(s, cls, values).Some?
    ensures DecodeRecord(s, cls, EncodeRecord(s, cls, values).value) == Some(VRecord(cls, values))
    decreases values, 2
  {
    var fields := s.records[cls].fields;
    var wire, sent := OnWire(fields), Sent(fields, values);
    forall i | 0 <= i < |sent|
      ensures Encode(s, sent[i]).Some? && Decode(s, wire[i].annotation, Encode(s, sent[i]).value) == Some(sent[i])
    {
      RoundTrip(s, wire[i].annotation, sent[i]);
    }
    var data := RecordData(s, cls, values);
    var members := data.value.members;
    forall i | 0 <= i < |sent|
      ensures members[i].key == wire[i].name && Decode(s, wire[i].annotation, members[i].value) == Some(sent[i])
    {
    }
    FilledSent(fields, values);
    DecodesTo(s, cls, members, sent);
  }

  lemma DecodesTo(s: Schema, cls: string, members: seq<Member>, sent: seq<Value>)
    requires cls in s.records && FieldsPresent(s.records[cls].fields, members)
    requires |sent| == |members| && s.valid(cls, Filled(s.records[cls].fields, sent))
    requires forall i :: 0 <= i < |members| ==>
               Decode(s, OnWire(s.records[cls].fields)[i].annotation, members[i].value) == Some(sent[i])
    ensures DecodeRecord(s, cls, JObj(members)) == Some(VRecord(cls, Filled(s.records[cls].fields, sent)))
  {
    var wire := OnWire(s.records[cls].fields);
    var values := seq(|wire|, i requires 0 <= i < |wire| && Decode(s, wire[i].annotation, members[i].value).Some? =>
      Decode(s, wire[i].annotation, members[i].value).value);
    assert values == sent;
  }

  // ------------------------------------------------------- canonical texts

  /** Whatever the encoder produces, the printer can print exactly. */
  lemma {:induction false} EncodedPrintable(s: Schema, v: Value)
    requires SchemaOk(s) && Encode(s, v).Some?
    ensures Printable(s.floats, Encode(s, v).value)
    decreases v, 0
  {
    match v
    case VTuple(items) =>
      forall i | 0 <= i < |items| ensures Printable(s.floats, Encode(s, items[i]).value) { EncodedPrintable(s, items[i]); }
    case VMapping(entries) =>
      forall i | 0 <= i < |entries| ensures Printable(s.floats, Encode(s, entries[i].value).value) {
        EncodedPrintable(s, entries[i].value);
      }
    case VRecord(cls, fields) =>
      RecordPrintable(s, cls, fields);
      TagFirst();
    case VForeign(_, _) => TagFirst();
    case _ =>
  }

  /** `$` sorts before every letter. */
  lemma TagFirst()
    ensures Less("$type", "data") && Less("$type", "wire")
    ensures Less("data", "schema_version") && Less("schema_version", "type")
  {
    assert "$type"[0] == '$' && "data"[0] == 'd' && "wire"[0] == 'w' && "schema_version"[0] == 's' && "type"[0] == 't';
  }

  lemma {:induction false} RecordPrintable(s: Schema, cls: string, values: seq<Value>)
    requires SchemaOk(s) && RecordData(s, cls, values).Some?
    ensures Printable(s.floats, RecordData(s, cls, values).value)
    decreases values, 1
  {
    var wire, sent := OnWire(s.records[cls].fields), Sent(s.records[cls].fields, values);
    var members := RecordData(s, cls, values).value.members;
    forall i | 0 <= i < |members| ensures Printable(s.floats, members[i].value) {
      assert sent[i] in values;
      EncodedPrintable(s, sent[i]);
    }
    forall i | 0 < i < |members| ensures Less(members[i - 1].key, members[i].key) {
      assert members[i - 1].key == wire[i - 1].name && members[i].key == wire[i].name;
    }
  }

  lemma PayloadParses(s: Schema, tag: string, data: Json)
    requires FloatsOk(s.floats) && Printable(s.floats, data)
    ensures Parse(s.floats, Print(Payload(tag, data))) == Some(Payload(tag, data))
  {
    TagFirst();
    PrintParses(s.floats, Payload(tag, data));
  }

  /** `from_wire_json` yields a value from a text exactly when the value is of the
      expected type and the text is its canonical print. */
  lemma AcceptsExactlyCanonicalTexts(s: Schema, public: Public, cls: string, text: string, v: Value)
    requires SchemaOk(s)
    ensures FromWire(s, public, cls, text) == Some(v) <==>
              v.VRecord? && v.cls == cls && ToWire(s, public, v) == Some(text)
  {
    if v.VRecord? && v.cls == cls && ToWire(s, public, v) == Some(text) {
      var data := EncodeRecord(s, cls, v.fields).value;
      RecordPrintable(s, cls, v.fields);
      PayloadParses(s, public[cls], data);
    }
  }

  /** Every typed envelope has a wire text, and the text yields it back. */
  lemma EnvelopeRoundTrip(s: Schema, public: Public, cls: string, values: seq<Value>)
    requires SchemaOk(s) && cls in public && RecordTyped(s, cls, values)
    ensures ToWire(s, public, VRecord(cls, values)).Some?
    ensures FromWire(s, public, cls, ToWire(s, public, VRecord(cls, values)).value) == Some(VRecord(cls, values))
  {
    RecordRoundTrip(s, cls, values);
    AcceptsExactlyCanonicalTexts(s, public, cls, ToWire(s, public, VRecord(cls, values)).value, VRecord(cls, values));
  }

  // ------------------------------------------------------- what is accepted

  lemma {:induction false} SentFilled(fields: seq<Field>, values: seq<Value>)
    requires |values| == |OnWire(fields)|
    ensures Sent(fields, Filled(fields, values)) == values
  {
    if fields != [] {
      SentFilled(fields[1..], if fields[0].onWire then values[1..] else values);
      assert Filled(fields, values)[1..] == Filled(fields[1..], if fields[0].onWire then values[1..] else values);
    }
  }

  /** An untyped field takes plain values only. */
  lemma {:induction false} PlainOnly(s: Schema, v: Value)
    requires Encode(s, v).Some? && Plain(s, Encode(s, v).value) == Some(v)
    ensures IsPlain(s, v)
  {
    var j := Encode(s, v).value;
    match v
    case VTuple(items) =>
      forall i | 0 <= i < |items| ensures IsPlain(s, items[i]) {
        assert Plain(s, j).value.items[i] == Plain(s, j.items[i]).value;
        PlainOnly(s, items[i]);
      }
    case VMapping(entries) =>
      forall i | 0 <= i < |entries| ensures IsPlain(s, entries[i].value) {
        assert Plain(s, j).value.entries[i].value == Plain(s, j.members[i].value).value;
        PlainOnly(s, entries[i].value);
      }
    case _ =>
  }

  lemma {:induction false} FirstSuccessIs(s: Schema, options: seq<Type>, j: Json) returns (i: nat)
    requires FirstSuccess(s, options, j).Some?
    ensures i < |options| && options[i] != TNone && Decode(s, options[i], j) == FirstSuccess(s, options, j)
  {
    if options[0] != TNone && Decode(s, options[0], j).Some? {
      i := 0;
    } else {
      var k := FirstSuccessIs(s, options[1..], j);
      i := k + 1;
    }
  }

  /** The converse of the round trip, for any schema: what comes back from its own
      encoding has the type. */
  lemma {:induction false} TypedOnly(s: Schema, t: Type, v: Value)
    requires Encode(s, v).Some? && Decode(s, t, Encode(s, v).value) == Some(v)
    ensures HasType(s, t, v)
    decreases v, 1, t
  {
    var j := Encode(s, v).value;
    match t
    case TObject => PlainOnly(s, v);
    case TRecord(cls) => RecordTypedOnly(s, cls, v.fields);
    case TTuple(item) =>
      forall i | 0 <= i < |v.items| ensures HasType(s, item, v.items[i]) {
        assert Decode(s, t, j).value.items[i] == Decode(s, item, j.items[i]).value;
        TypedOnly(s, item, v.items[i]);
      }
    case TFixed(types) =>
      forall i | 0 <= i < |v.items| ensures HasType(s, types[i], v.items[i]) {
        assert Decode(s, t, j).value.items[i] == Decode(s, types[i], j.items[i]).value;
        TypedOnly(s, types[i], v.items[i]);
      }
    case TMapping(value) =>
      forall i | 0 <= i < |v.entries| ensures HasType(s, value, v.entries[i].value) {
        assert Decode(s, t, j).value.entries[i].value == Decode(s, value, j.members[i].value).value;
        TypedOnly(s, value, v.entries[i].value);
      }
    case TUnion(options) =>
      if !(v == VNone && TNone in options) {
        var i := FirstSuccessIs(s, options, j);
        TypedOnly(s, options[i], v);
      }
    case _ =>
  }

  lemma {:induction false} RecordTypedOnly(s: Schema, cls: string, values: seq<Value>)
    requires EncodeRecord(s, cls, values).Some?
    ensures RecordTyped(s, cls, values)
    decreases values, 2
  {
    var fields, j := s.records[cls].fields, RecordData(s, cls, values).value;
    var wire, sent := OnWire(fields), Sent(fields, values);
    var decoded := seq(|wire|, i requires 0 <= i < |wire| && Decode(s, wire[i].annotation, j.members[i].value).Some? =>
      Decode(s, wire[i].annotation, j.members[i].value).value);
    assert Filled(fields, decoded) == values;
    SentFilled(fields, decoded);
    forall i | 0 <= i < |sent| ensures HasType(s, wire[i].annotation, sent[i]) {
      assert sent[i] == decoded[i] && sent[i] in values;
      TypedOnly(s, wire[i].annotation, sent[i]);
    }
  }

  /** A value survives the wire exactly when it has the type. */
  lemma SurvivesExactly(s: Schema, t: Type, v: Value)
    requires SchemaOk(s) && Closed(s, t)
    ensures Encode(s, v).Some? && Decode(s, t, Encode(s, v).value) == Some(v) <==> HasType(s, t, v)
  {
    if HasType(s, t, v) {
      RoundTrip(s, t, v);
    } else if Encode(s, v).Some? && Decode(s, t, Encode(s, v).value) == Some(v) {
      TypedOnly(s, t, v);
    }
  }

  /** Exactly the typed envelopes have a wire text, and nothing else is ever read
      from one. */
  lemma EnvelopesAreTyped(s: Schema, public: Public, cls: string, values: seq<Value>)
    requires SchemaOk(s)
    ensures ToWire(s, public, VRecord(cls, values)).Some? <==> cls in public && RecordTyped(s, cls, values)
    ensures (exists text :: FromWire(s, public, cls, text) == Some(VRecord(cls, values))) <==>
              cls in public && RecordTyped(s, cls, values)
  {
    if ToWire(s, public, VRecord(cls, values)).Some? { RecordTypedOnly(s, cls, values); }
    if cls in public && RecordTyped(s, cls, values) { EnvelopeRoundTrip(s, public, cls, values); }
    if text :| FromWire(s, public, cls, text) == Some(VRecord(cls, values)) {
      AcceptsExactlyCanonicalTexts(s, public, cls, text, VRecord(cls, values));
    }
  }

  /** Every wire text reads as an object of the record's data, schema version 1 and the
      class's tag, and nothing else. */
  lemma WireTextIs(s: Schema, public: Public, v: Value)
    requires SchemaOk(s) && ToWire(s, public, v).Some?
    ensures v.VRecord? && v.cls in public && EncodeRecord(s, v.cls, v.fields).Some?
    ensures Parse(s.floats, ToWire(s, public, v).value) ==
            Some(JObj([Member("data", EncodeRecord(s, v.cls, v.fields).value), Member("schema_version", JInt(1)),
                       Member("type", JStr(public[v.cls]))]))
  {
    RecordPrintable(s, v.cls, v.fields);
    PayloadParses(s, public[v.cls], EncodeRecord(s, v.cls, v.fields).value);
  }

  /** Two values of one type with the same text are the same value, so a digest of
      the text identifies the value. */
  lemma TextIdentifiesValue(s: Schema, public: Public, v: Value, w: Value)
    requires SchemaOk(s) && v.VRecord? && w.VRecord? && v.cls == w.cls
    requires ToWire(s, public, v).Some? && ToWire(s, public, v) == ToWire(s, public, w)
    ensures v == w
  {
    AcceptsExactlyCanonicalTexts(s, public, v.cls, ToWire(s, public, v).value, v);
    AcceptsExactlyCanonicalTexts(s, public, v.cls, ToWire(s, public, v).value, w);
  }
}
