/**
  The Singer message model: the five message kinds of the Singer specification's "Output"
  section, their JSON form (`Message::to_string`) and the decoder serde derives for them
  (`Message::from_string`), at the level of JSON values.

  The wire form is an object discriminated by its "type" member (serde's internally tagged
  representation): the tag comes first, then the variant's fields in declaration order.
*/
module MessageTypes {
  import opened Wrappers
  import opened Json

  /** Rust's u64. */
  type u64 = x: int | 0 <= x < 0x1_0000_0000_0000_0000

  datatype BatchEncoding = BatchEncoding(format: string, compression: string)

  datatype Message =
    | ACTIVATE_VERSION(stream: string, version: u64)
    | BATCH(stream: string, manifest: seq<string>, encoding: BatchEncoding)
    | RECORD(stream: string, record: Value, timeExtracted: Option<string>, version: u64)
    | SCHEMA(stream: string, schema: Value, keyProperties: seq<string>, bookmarkProperties: seq<string>)
    | STATE(value: Value)

  /** The `serde_json::Error` kinds that decoding raises; hooks may raise `Custom` ones. */
  datatype JsonError =
    | NotAnObject
    | MissingField(field: string)
    | DuplicateField(field: string)
    | InvalidType(field: string)
    | InvalidValue(field: string)
    | InvalidLength(field: string)
    | UnknownVariant(tag: string)
    | Custom(msg: string)

  const VariantNames: seq<string> := ["ACTIVATE_VERSION", "BATCH", "RECORD", "SCHEMA", "STATE"]

  /** The wire tag of a message. */
  function TypeName(m: Message): (t: string)
    ensures t in VariantNames
  {
    match m
    case ACTIVATE_VERSION(_, _) => "ACTIVATE_VERSION"
    case BATCH(_, _, _) => "BATCH"
    case RECORD(_, _, _, _) => "RECORD"
    case SCHEMA(_, _, _, _) => "SCHEMA"
    case STATE(_) => "STATE"
  }

  /** The variant's fields, in declaration order, as they are named on the wire. */
  function FieldNames(tag: string): seq<string>
  {
    if tag == "ACTIVATE_VERSION" then ["stream", "version"]
    else if tag == "BATCH" then ["stream", "manifest", "encoding"]
    else if tag == "RECORD" then ["stream", "record", "time_extracted", "version"]
    else if tag == "SCHEMA" then ["stream", "schema", "key_properties", "bookmark_properties"]
    else if tag == "STATE" then ["value"]
    else []
  }

  /** The fields that have neither an `Option` type nor `#[serde(default)]`. */
  function RequiredFieldNames(tag: string): seq<string>
  {
    if tag == "ACTIVATE_VERSION" then ["stream", "version"]
    else if tag == "BATCH" then ["stream", "manifest", "encoding"]
    else if tag == "RECORD" then ["stream", "record"]
    else if tag == "SCHEMA" then ["stream", "schema"]
    else if tag == "STATE" then ["value"]
    else []
  }

  function Keys(members: seq<(string, Value)>): (ks: seq<string>)
    ensures |ks| == |members|
    ensures forall i :: 0 <= i < |members| ==> ks[i] == members[i].0
  {
    seq(|members|, i requires 0 <= i < |members| => members[i].0)
  }

  // ---------------------------------------------------------------------------------------
  // Encoding (the Serialize half of the derive)

  function Strings(xs: seq<string>): (v: Value)
    ensures v.Array? && |v.items| == |xs|
    ensures forall i :: 0 <= i < |xs| ==> v.items[i] == String(xs[i])
  {
    Array(seq(|xs|, i requires 0 <= i < |xs| => String(xs[i])))
  }

  function EncodeEncoding(e: BatchEncoding): Value
  {
    Object([("format", String(e.format)), ("compression", String(e.compression))])
  }

  /** The encoded object: "type" first with the variant's name, then exactly the variant's
      fields, each once, in declaration order. */
  function Encode(m: Message): (v: Value)
    ensures v.Object?
    ensures Keys(v.members) == ["type"] + FieldNames(TypeName(m))
    ensures v.members[0] == ("type", String(TypeName(m)))
    ensures DistinctKeys(v.members)
  {
    var tag := ("type", String(TypeName(m)));
    match m
    case ACTIVATE_VERSION(stream, version) =>
      Object([tag, ("stream", String(stream)), ("version", Number(version))])
    case BATCH(stream, manifest, encoding) =>
      Object([tag, ("stream", String(stream)), ("manifest", Strings(manifest)),
              ("encoding", EncodeEncoding(encoding))])
    case RECORD(stream, record, timeExtracted, version) =>
      Object([tag, ("stream", String(stream)), ("record", record),
              ("time_extracted", if timeExtracted.Some? then String(timeExtracted.value) else Null),
              ("version", Number(version))])
    case SCHEMA(stream, schema, keyProperties, bookmarkProperties) =>
      Object([tag, ("stream", String(stream)), ("schema", schema),
              ("key_properties", Strings(keyProperties)),
              ("bookmark_properties", Strings(bookmarkProperties))])
    case STATE(value) =>
      Object([tag, ("value", value)])
  }

  /** `Message::to_string`: serialising a message cannot fail, so the text is total. */
  function ToString(m: Message): (text: string)
    ensures '\n' !in text
  {
    CompactNoNewline(Encode(m));
    Compact(Encode(m))
  }

  /** A message whose JSON values are values serde_json can hold. */
  ghost predicate CanonicalMessage(m: Message)
  {
    match m
    case RECORD(_, record, _, _) => Canonical(record)
    case SCHEMA(_, schema, _, _) => Canonical(schema)
    case STATE(value) => Canonical(value)
    case _ => true
  }

  // ---------------------------------------------------------------------------------------
  // Decoding (the Deserialize half of the derive)

  /** How often a key occurs among an object's members, and with what value if once. */
  datatype Occurrence = Absent | Once(value: Value) | Repeated

  function Find(members: seq<(string, Value)>, key: string): Occurrence
  {
    if members == [] then Absent
    else
      var rest := Find(members[1..], key);
      if members[0].0 != key then rest
      else if rest.Absent? then Once(members[0].1)
      else Repeated
  }

  /** A key is reported Absent exactly when no member has it. */
  lemma {:induction false} FindAbsent(members: seq<(string, Value)>, key: string)
    ensures Find(members, key).Absent? <==> key !in Keys(members)
  {
    if members != [] {
      FindAbsent(members[1..], key);
      assert Keys(members) == [members[0].0] + Keys(members[1..]);
    }
  }

  /** A key that occurs exactly once is found with its value. */
  lemma {:induction false} FindUnique(members: seq<(string, Value)>, key: string, i: nat)
    requires i < |members| && members[i].0 == key
    requires forall j :: 0 <= j < |members| && j != i ==> members[j].0 != key
    ensures Find(members, key) == Once(members[i].1)
  {
    var rest := members[1..];
    if i == 0 {
      forall j | 0 <= j < |rest| ensures Keys(rest)[j] != key {
        assert rest[j] == members[j + 1];
      }
      FindAbsent(rest, key);
    } else {
      forall j | 0 <= j < |rest| && j != i - 1 ensures rest[j].0 != key {
        assert rest[j] == members[j + 1];
      }
      FindUnique(rest, key, i - 1);
    }
  }

  /** What Find reports Once occurs exactly once. */
  lemma {:induction false} FindOnce(members: seq<(string, Value)>, key: string)
    requires Find(members, key).Once?
    ensures exists i :: 0 <= i < |members| && members[i] == (key, Find(members, key).value)
                        && forall j :: 0 <= j < |members| && j != i ==> members[j].0 != key
  {
    var rest := members[1..];
    if members[0].0 != key {
      FindOnce(rest, key);
      var i :| 0 <= i < |rest| && rest[i] == (key, Find(rest, key).value)
               && forall j :: 0 <= j < |rest| && j != i ==> rest[j].0 != key;
      assert members[i + 1] == rest[i];
      forall j | 0 <= j < |members| && j != i + 1 ensures members[j].0 != key {
        if j > 0 {
          assert members[j] == rest[j - 1];
        }
      }
    } else {
      FindAbsent(rest, key);
      forall j | 0 < j < |members| ensures members[j].0 != key {
        assert Keys(rest)[j - 1] == members[j].0;
      }
    }
  }


  /** A `String` field: present once, as a JSON string. */
  function StringField(ms: seq<(string, Value)>, name: string): (r: Result<string, JsonError>)
    ensures r.Ok? <==> Find(ms, name).Once? && Find(ms, name).value.String?
    ensures r.Ok? ==> Find(ms, name) == Once(String(r.value))
  {
    match Find(ms, name)
    case Absent => Err(MissingField(name))
    case Repeated => Err(DuplicateField(name))
    case Once(v) => if v.String? then Ok(v.s) else Err(InvalidType(name))
  }

  /** A `serde_json::Value` field: present, any value, read into serde_json's maps. */
  function ValueField(ms: seq<(string, Value)>, name: string): (r: Result<Value, JsonError>)
    ensures r.Ok? <==> Find(ms, name).Once?
    ensures r.Ok? ==> r.value == Normalize(Find(ms, name).value) && Canonical(r.value)
  {
    match Find(ms, name)
    case Absent => Err(MissingField(name))
    case Repeated => Err(DuplicateField(name))
    case Once(v) => Ok(Normalize(v))
  }

  predicate AllStrings(items: seq<Value>) {
    forall i :: 0 <= i < |items| ==> items[i].String?
  }

  /** A `Vec<String>` field; `defaulted` is `#[serde(default)]`, which covers absence only. */
  function StringListField(ms: seq<(string, Value)>, name: string, defaulted: bool): (r: Result<seq<string>, JsonError>)
    ensures r.Ok? <==> (Find(ms, name).Absent? && defaulted)
                       || (Find(ms, name).Once? && Find(ms, name).value.Array? && AllStrings(Find(ms, name).value.items))
    ensures r.Ok? && Find(ms, name).Absent? ==> r.value == []
    ensures r.Ok? && !Find(ms, name).Absent? ==> Find(ms, name) == Once(Strings(r.value))
  {
    match Find(ms, name)
    case Absent => if defaulted then Ok([]) else Err(MissingField(name))
    case Repeated => Err(DuplicateField(name))
    case Once(v) =>
      if v.Array? && AllStrings(v.items) then
        var xs := seq(|v.items|, i requires 0 <= i < |v.items| => v.items[i].s);
        assert Strings(xs).items == v.items;
        Ok(xs)
      else Err(InvalidType(name))
  }

  /** A `u64` field: a JSON integer in 0..2^64-1; `defaulted` is `#[serde(default)]` (zero). */
  function U64Field(ms: seq<(string, Value)>, name: string, defaulted: bool): (r: Result<u64, JsonError>)
    ensures r.Ok? <==> (Find(ms, name).Absent? && defaulted)
                       || (Find(ms, name).Once? && Find(ms, name).value.Number?
                           && 0 <= Find(ms, name).value.n < 0x1_0000_0000_0000_0000)
    ensures r.Ok? && Find(ms, name).Absent? ==> r.value == 0
    ensures r.Ok? && !Find(ms, name).Absent? ==> Find(ms, name) == Once(Number(r.value))
  {
    match Find(ms, name)
    case Absent => if defaulted then Ok(0) else Err(MissingField(name))
    case Repeated => Err(DuplicateField(name))
    case Once(v) =>
      if !v.Number? then Err(InvalidType(name))
      else if 0 <= v.n < 0x1_0000_0000_0000_0000 then Ok(v.n)
      else Err(InvalidValue(name))
  }

  /** An `Option<String>` field: absent or null is None. */
  function OptionalStringField(ms: seq<(string, Value)>, name: string): (r: Result<Option<string>, JsonError>)
    ensures r.Ok? <==> Find(ms, name).Absent?
                       || (Find(ms, name).Once? && (Find(ms, name).value.Null? || Find(ms, name).value.String?))
    ensures r.Ok? && (Find(ms, name).Absent? || Find(ms, name) == Once(Null)) ==> r.value == None
    ensures r.Ok? && Find(ms, name).Once? && Find(ms, name).value.String? ==>
              r.value == Some(Find(ms, name).value.s)
  {
    match Find(ms, name)
    case Absent => Ok(None)
    case Repeated => Err(DuplicateField(name))
    case Once(v) =>
      if v.Null? then Ok(None)
      else if v.String? then Ok(Some(v.s))
      else Err(InvalidType(name))
  }

  /** The `BatchEncoding` struct: an object with its two fields, or, as serde accepts for a
      struct, an array of exactly two elements in field order. */
  function EncodingField(ms: seq<(string, Value)>, name: string): (r: Result<BatchEncoding, JsonError>)
    ensures r.Ok? ==> Find(ms, name).Once?
    ensures r.Ok? && Find(ms, name).value.Object? ==>
              var em := Find(ms, name).value.members;
              Find(em, "format") == Once(String(r.value.format))
              && Find(em, "compression") == Once(String(r.value.compression))
    ensures r.Ok? && !Find(ms, name).value.Object? ==>
              Find(ms, name).value == Array([String(r.value.format), String(r.value.compression)])
    ensures forall f, c :: Find(ms, name) == Once(Array([String(f), String(c)])) ==> r == Ok(BatchEncoding(f, c))
    ensures forall items :: Find(ms, name) == Once(Array(items)) && |items| != 2 ==> r.Err?
  {
    match Find(ms, name)
    case Absent => Err(MissingField(name))
    case Repeated => Err(DuplicateField(name))
    case Once(v) =>
      if v.Object? then
        var format :- StringField(v.members, "format");
        var compression :- StringField(v.members, "compression");
        Ok(BatchEncoding(format, compression))
      else if v.Array? then
        var items := v.items;
        if |items| < 1 then Err(InvalidLength(name))
        else if !items[0].String? then Err(InvalidType(name))
        else if |items| < 2 then Err(InvalidLength(name))
        else if !items[1].String? then Err(InvalidType(name))
        else if |items| > 2 then Err(InvalidLength(name))
        else Ok(BatchEncoding(items[0].s, items[1].s))
      else Err(InvalidType(name))
  }

  /** The fields of each variant, read in declaration order; members not among them are
      ignored. A decoded message carries the members it was read from, and a required field
      that is absent or repeated, or any field that is repeated, is an error. */
  function DecodeActivateVersion(ms: seq<(string, Value)>): (r: Result<Message, JsonError>)
    ensures r.Ok? ==> r.value.ACTIVATE_VERSION?
                      && Find(ms, "stream") == Once(String(r.value.stream))
                      && Find(ms, "version") == Once(Number(r.value.version))
    ensures !Find(ms, "stream").Once? || !Find(ms, "version").Once? ==> r.Err?
  {
    var stream :- StringField(ms, "stream");
    var version :- U64Field(ms, "version", false);
    Ok(ACTIVATE_VERSION(stream, version))
  }

  function DecodeBatch(ms: seq<(string, Value)>): (r: Result<Message, JsonError>)
    ensures r.Ok? ==> r.value.BATCH? && Find(ms, "stream") == Once(String(r.value.stream))
                      && Find(ms, "manifest") == Once(Strings(r.value.manifest))
                      && EncodingField(ms, "encoding") == Ok(r.value.encoding)
    ensures !Find(ms, "stream").Once? || !Find(ms, "manifest").Once? || !Find(ms, "encoding").Once? ==> r.Err?
  {
    var stream :- StringField(ms, "stream");
    var manifest :- StringListField(ms, "manifest", false);
    var encoding :- EncodingField(ms, "encoding");
    Ok(BATCH(stream, manifest, encoding))
  }

  function DecodeRecord(ms: seq<(string, Value)>): (r: Result<Message, JsonError>)
    ensures r.Ok? ==> r.value.RECORD? && Find(ms, "stream") == Once(String(r.value.stream))
                      && Find(ms, "record").Once? && r.value.record == Normalize(Find(ms, "record").value)
                      && (Find(ms, "version").Once? ==> Find(ms, "version") == Once(Number(r.value.version)))
                      && (Find(ms, "version").Absent? ==> r.value.version == 0)
                      && (Find(ms, "time_extracted").Absent? ==> r.value.timeExtracted == None)
                      && (Find(ms, "time_extracted") == Once(Null) ==> r.value.timeExtracted == None)
                      && (forall t :: Find(ms, "time_extracted") == Once(String(t)) ==> r.value.timeExtracted == Some(t))
    ensures !Find(ms, "stream").Once? || !Find(ms, "record").Once? ==> r.Err?
    ensures Find(ms, "time_extracted").Repeated? || Find(ms, "version").Repeated? ==> r.Err?
    ensures (Find(ms, "time_extracted").Once? && !Find(ms, "time_extracted").value.Null?
             && !Find(ms, "time_extracted").value.String?) ==> r.Err?
  {
    var stream :- StringField(ms, "stream");
    var record :- ValueField(ms, "record");
    var timeExtracted :- OptionalStringField(ms, "time_extracted");
    var version :- U64Field(ms, "version", true);
    Ok(RECORD(stream, record, timeExtracted, version))
  }

  function DecodeSchema(ms: seq<(string, Value)>): (r: Result<Message, JsonError>)
    ensures r.Ok? ==> r.value.SCHEMA? && Find(ms, "stream") == Once(String(r.value.stream))
                      && Find(ms, "schema").Once? && r.value.schema == Normalize(Find(ms, "schema").value)
                      && (Find(ms, "key_properties").Absent? ==> r.value.keyProperties == [])
                      && (Find(ms, "bookmark_properties").Absent? ==> r.value.bookmarkProperties == [])
                      && (!Find(ms, "key_properties").Absent? ==>
                            Find(ms, "key_properties") == Once(Strings(r.value.keyProperties)))
                      && (!Find(ms, "bookmark_properties").Absent? ==>
                            Find(ms, "bookmark_properties") == Once(Strings(r.value.bookmarkProperties)))
    ensures !Find(ms, "stream").Once? || !Find(ms, "schema").Once? ==> r.Err?
    ensures Find(ms, "key_properties").Repeated? || Find(ms, "bookmark_properties").Repeated? ==> r.Err?
  {
    var stream :- StringField(ms, "stream");
    var schema :- ValueField(ms, "schema");
    var keyProperties :- StringListField(ms, "key_properties", true);
    var bookmarkProperties :- StringListField(ms, "bookmark_properties", true);
    Ok(SCHEMA(stream, schema, keyProperties, bookmarkProperties))
  }

  function DecodeState(ms: seq<(string, Value)>): (r: Result<Message, JsonError>)
    ensures r.Ok? <==> Find(ms, "value").Once?
    ensures r.Ok? ==> r == Ok(STATE(Normalize(Find(ms, "value").value)))
  {
    var value :- ValueField(ms, "value");
    Ok(STATE(value))
  }

  /** The variant named by the tag; any other name is an unknown variant. */
  function DecodeVariant(tag: string, ms: seq<(string, Value)>): (r: Result<Message, JsonError>)
    ensures r.Ok? ==> TypeName(r.value) == tag && CanonicalMessage(r.value)
    ensures tag !in VariantNames ==> r == Err(UnknownVariant(tag))
  {
    if tag == "ACTIVATE_VERSION" then DecodeActivateVersion(ms)
    else if tag == "BATCH" then DecodeBatch(ms)
    else if tag == "RECORD" then DecodeRecord(ms)
    else if tag == "SCHEMA" then DecodeSchema(ms)
    else if tag == "STATE" then DecodeState(ms)
    else Err(UnknownVariant(tag))
  }

  /** `Message::from_string`, after the text has been parsed into a JSON value: the variant is
      the one the "type" member names, and the message holds serde_json values. */
  function Decode(v: Value): (r: Result<Message, JsonError>)
    ensures r.Ok? ==> v.Object? && Find(v.members, "type") == Once(String(TypeName(r.value)))
    ensures r.Ok? ==> CanonicalMessage(r.value)
  {
    if !v.Object? then Err(NotAnObject)
    else
      match Find(v.members, "type")
      case Absent => Err(MissingField("type"))
      case Repeated => Err(DuplicateField("type"))
      case Once(tag) =>
        if tag.String? then DecodeVariant(tag.s, v.members) else Err(InvalidType("type"))
  }

  // ---------------------------------------------------------------------------------------
  // Properties

  lemma FindDistinct(members: seq<(string, Value)>, i: nat)
    requires DistinctKeys(members) && i < |members|
    ensures Find(members, members[i].0) == Once(members[i].1)
  {
    FindUnique(members, members[i].0, i);
  }

  /** The versions the encoder writes are u64 integers. */
  lemma EncodedVersionInRange(m: Message)
    requires m.ACTIVATE_VERSION? || m.RECORD?
    ensures Find(Encode(m).members, "version") == Once(Number(m.version))
    ensures 0 <= m.version < 0x1_0000_0000_0000_0000
  {
    FindDistinct(Encode(m).members, |Encode(m).members| - 1);
  }

  /** Every member of an encoded message is found once, with its value. */
  lemma FindEncoded(m: Message, key: string, i: nat)
    requires i < |Encode(m).members| && Encode(m).members[i].0 == key
    ensures Find(Encode(m).members, key) == Once(Encode(m).members[i].1)
  {
    FindDistinct(Encode(m).members, i);
  }

  lemma StringListRoundTrip(ms: seq<(string, Value)>, name: string, xs: seq<string>, defaulted: bool)
    requires Find(ms, name) == Once(Strings(xs))
    ensures StringListField(ms, name, defaulted) == Ok(xs)
  {
    var items := Strings(xs).items;
    assert AllStrings(items);
    assert seq(|items|, i requires 0 <= i < |items| => items[i].s) == xs;
  }

  lemma RoundTripActivateVersion(m: Message)
    requires m.ACTIVATE_VERSION?
    ensures DecodeVariant("ACTIVATE_VERSION", Encode(m).members) == Ok(m)
  {
    FindEncoded(m, "stream", 1);
    FindEncoded(m, "version", 2);
  }

  lemma RoundTripBatch(m: Message)
    requires m.BATCH?
    ensures DecodeVariant("BATCH", Encode(m).members) == Ok(m)
  {
    var ms := Encode(m).members;
    FindEncoded(m, "stream", 1);
    FindEncoded(m, "manifest", 2);
    FindEncoded(m, "encoding", 3);
    StringListRoundTrip(ms, "manifest", m.manifest, false);
    var em := EncodeEncoding(m.encoding).members;
    FindDistinct(em, 0);
    FindDistinct(em, 1);
    assert EncodingField(ms, "encoding") == Ok(m.encoding);
  }

  lemma RoundTripRecord(m: Message)
    requires m.RECORD? && Canonical(m.record)
    ensures DecodeVariant("RECORD", Encode(m).members) == Ok(m)
  {
    NormalizeCanonical(m.record);
    var ms := Encode(m).members;
    FindEncoded(m, "stream", 1);
    FindEncoded(m, "record", 2);
    FindEncoded(m, "time_extracted", 3);
    FindEncoded(m, "version", 4);
    assert StringField(ms, "stream") == Ok(m.stream);
    assert ValueField(ms, "record") == Ok(m.record);
    assert OptionalStringField(ms, "time_extracted") == Ok(m.timeExtracted);
    assert U64Field(ms, "version", true) == Ok(m.version);
  }

  lemma RoundTripSchema(m: Message)
    requires m.SCHEMA? && Canonical(m.schema)
    ensures DecodeVariant("SCHEMA", Encode(m).members) == Ok(m)
  {
    NormalizeCanonical(m.schema);
    var ms := Encode(m).members;
    FindEncoded(m, "stream", 1);
    FindEncoded(m, "schema", 2);
    FindEncoded(m, "key_properties", 3);
    FindEncoded(m, "bookmark_properties", 4);
    StringListRoundTrip(ms, "key_properties", m.keyProperties, true);
    StringListRoundTrip(ms, "bookmark_properties", m.bookmarkProperties, true);
  }

  /** `from_string(to_string(m)) == m`, at the level of JSON values, for every message whose
      JSON values serde_json can hold (which every `Message` in Rust does). */
  lemma RoundTrip(m: Message)
    requires CanonicalMessage(m)
    ensures Decode(Encode(m)) == Ok(m)
  {
    FindEncoded(m, "type", 0);
    assert Decode(Encode(m)) == DecodeVariant(TypeName(m), Encode(m).members);
    match m
    case ACTIVATE_VERSION(_, _) => RoundTripActivateVersion(m);
    case BATCH(_, _, _) => RoundTripBatch(m);
    case RECORD(_, _, _, _) => RoundTripRecord(m);
    case SCHEMA(_, _, _, _) => RoundTripSchema(m);
    case STATE(_) =>
      FindEncoded(m, "value", 1);
      NormalizeCanonical(m.value);
  }

  /** The variant is chosen by the "type" member alone, which must be one of the five names. */
  lemma DecodeChoosesByTag(v: Value)
    ensures Decode(v).Ok? ==>
              v.Object? && Find(v.members, "type") == Once(String(TypeName(Decode(v).value)))
    ensures Decode(v).Ok? <==>
              v.Object? && Find(v.members, "type").Once? && Find(v.members, "type").value.String?
              && Find(v.members, "type").value.s in VariantNames
              && DecodeVariant(Find(v.members, "type").value.s, v.members).Ok?
  {
    if v.Object? && Find(v.members, "type").Once? && Find(v.members, "type").value.String? {
      var tag := Find(v.members, "type").value.s;
      var r := DecodeVariant(tag, v.members);
      assert r.Ok? ==> TypeName(r.value) == tag;
    }
  }

  /** Every way the tag can be wrong is a decode error, never a default variant. */
  lemma DecodeTagErrors(v: Value)
    ensures !v.Object? ==> Decode(v) == Err(NotAnObject)
    ensures v.Object? && Find(v.members, "type").Absent? ==> Decode(v) == Err(MissingField("type"))
    ensures v.Object? && Find(v.members, "type").Repeated? ==> Decode(v) == Err(DuplicateField("type"))
    ensures v.Object? && Find(v.members, "type").Once? && !Find(v.members, "type").value.String? ==>
              Decode(v) == Err(InvalidType("type"))
    ensures forall t :: v.Object? && Find(v.members, "type") == Once(String(t)) && t !in VariantNames ==>
              Decode(v) == Err(UnknownVariant(t))
  {
  }

  /** A required field that is absent, or given twice, makes the decode fail. */
  lemma MissingRequiredFieldFails(v: Value, field: string)
    requires v.Object? && Find(v.members, "type").Once? && Find(v.members, "type").value.String?
    requires field in RequiredFieldNames(Find(v.members, "type").value.s)
    requires !Find(v.members, field).Once?
    ensures Decode(v).Err?
  {
    var tag := Find(v.members, "type").value.s;
    var ms := v.members;
    if tag == "ACTIVATE_VERSION" {
      assert Decode(v) == DecodeActivateVersion(ms);
    } else if tag == "BATCH" {
      assert Decode(v) == DecodeBatch(ms);
    } else if tag == "RECORD" {
      assert Decode(v) == DecodeRecord(ms);
    } else if tag == "SCHEMA" {
      assert Decode(v) == DecodeSchema(ms);
    } else {
      assert Decode(v) == DecodeVariant(tag, ms);
    }
  }

  /** A field of the variant given twice makes the decode fail. */
  lemma DuplicateFieldFails(v: Value, field: string)
    requires v.Object? && Find(v.members, "type").Once? && Find(v.members, "type").value.String?
    requires field in FieldNames(Find(v.members, "type").value.s)
    requires Find(v.members, field).Repeated?
    ensures Decode(v).Err?
  {
    var tag := Find(v.members, "type").value.s;
    var ms := v.members;
    if tag == "ACTIVATE_VERSION" {
      assert Decode(v) == DecodeActivateVersion(ms);
    } else if tag == "BATCH" {
      assert Decode(v) == DecodeBatch(ms);
    } else if tag == "RECORD" {
      assert Decode(v) == DecodeRecord(ms);
    } else if tag == "SCHEMA" {
      assert Decode(v) == DecodeSchema(ms);
    } else {
      assert Decode(v) == DecodeVariant(tag, ms);
    }
  }

  /** `key_properties` and `bookmark_properties` default to the empty list when absent. */
  lemma SchemaDefaults(v: Value)
    requires Decode(v).Ok? && Decode(v).value.SCHEMA?
    ensures Find(v.members, "key_properties").Absent? ==> Decode(v).value.keyProperties == []
    ensures Find(v.members, "bookmark_properties").Absent? ==> Decode(v).value.bookmarkProperties == []
  {
    DecodeChoosesByTag(v);
  }

  /** `version` defaults to 0; `time_extracted` is None when absent or null, Some(text) otherwise. */
  lemma RecordDefaults(v: Value)
    requires Decode(v).Ok? && Decode(v).value.RECORD?
    ensures Find(v.members, "version").Absent? ==> Decode(v).value.version == 0
    ensures Find(v.members, "time_extracted").Absent? ==> Decode(v).value.timeExtracted == None
    ensures Find(v.members, "time_extracted") == Once(Null) ==> Decode(v).value.timeExtracted == None
    ensures forall t :: Find(v.members, "time_extracted") == Once(String(t)) ==>
              Decode(v).value.timeExtracted == Some(t)
  {
    DecodeChoosesByTag(v);
  }

  /** A version outside 0..2^64-1 is rejected. */
  lemma VersionOutOfRangeFails(v: Value, n: int)
    requires v.Object? && Find(v.members, "type").Once?
    requires Find(v.members, "type").value in [String("ACTIVATE_VERSION"), String("RECORD")]
    requires Find(v.members, "version") == Once(Number(n))
    requires n < 0 || n >= 0x1_0000_0000_0000_0000
    ensures Decode(v).Err?
  {
    var tag := Find(v.members, "type").value.s;
    assert Decode(v) == DecodeVariant(tag, v.members);
    assert U64Field(v.members, "version", tag == "RECORD").Err?;
  }

  /** A decoded message carries the members of the object: the strings, numbers and string
      lists as they are, the encoding as `EncodingField` reads it, `time_extracted` as an
      option, and the JSON values as the maps serde_json reads them into. */
  lemma DecodedFields(v: Value)
    requires Decode(v).Ok?
    ensures !Decode(v).value.STATE? ==> Find(v.members, "stream") == Once(String(Decode(v).value.stream))
    ensures Decode(v).value.RECORD? ==>
              Find(v.members, "record").Once? && Decode(v).value.record == Normalize(Find(v.members, "record").value)
    ensures Decode(v).value.SCHEMA? ==>
              Find(v.members, "schema").Once? && Decode(v).value.schema == Normalize(Find(v.members, "schema").value)
    ensures Decode(v).value.STATE? ==>
              Find(v.members, "value").Once? && Decode(v).value.value == Normalize(Find(v.members, "value").value)
    ensures (Decode(v).value.ACTIVATE_VERSION? || Decode(v).value.RECORD?) && Find(v.members, "version").Once? ==>
              Find(v.members, "version") == Once(Number(Decode(v).value.version))
    ensures Decode(v).value.RECORD? ==>
              && (Find(v.members, "time_extracted").Absent? || Find(v.members, "time_extracted") == Once(Null) ==>
                    Decode(v).value.timeExtracted == None)
              && forall t :: Find(v.members, "time_extracted") == Once(String(t)) ==>
                    Decode(v).value.timeExtracted == Some(t)
    ensures Decode(v).value.BATCH? ==>
              && Find(v.members, "manifest") == Once(Strings(Decode(v).value.manifest))
              && EncodingField(v.members, "encoding") == Ok(Decode(v).value.encoding)
    ensures Decode(v).value.SCHEMA? && !Find(v.members, "key_properties").Absent? ==>
              Find(v.members, "key_properties") == Once(Strings(Decode(v).value.keyProperties))
    ensures Decode(v).value.SCHEMA? && !Find(v.members, "bookmark_properties").Absent? ==>
              Find(v.members, "bookmark_properties") == Once(Strings(Decode(v).value.bookmarkProperties))
  {
    var tag := Find(v.members, "type").value.s;
    var ms := v.members;
    if tag == "ACTIVATE_VERSION" {
      assert Decode(v) == DecodeActivateVersion(ms);
    } else if tag == "BATCH" {
      assert Decode(v) == DecodeBatch(ms);
    } else if tag == "RECORD" {
      assert Decode(v) == DecodeRecord(ms);
    } else if tag == "SCHEMA" {
      assert Decode(v) == DecodeSchema(ms);
    } else {
      assert Decode(v) == DecodeVariant(tag, ms);
    }
  }

  /** The encoding of a BATCH may be given as the array of its two fields. */
  lemma EncodingAsArray()
    ensures Decode(Object([("type", String("BATCH")), ("stream", String("s")), ("manifest", Array([])),
                           ("encoding", Array([String("parquet"), String("gzip")]))]))
            == Ok(BATCH("s", [], BatchEncoding("parquet", "gzip")))
  {
    var ms := [("type", String("BATCH")), ("stream", String("s")), ("manifest", Array([])),
               ("encoding", Array([String("parquet"), String("gzip")]))];
    FindDistinct(ms, 0);
    FindDistinct(ms, 1);
    FindDistinct(ms, 2);
    FindDistinct(ms, 3);
    assert Find(ms, "manifest") == Once(Strings([]));
    StringListRoundTrip(ms, "manifest", [], false);
  }

  /** Inside a record, the last of two members with one key is the one kept. */
  lemma RepeatedRecordKeyLastWins()
    ensures Decode(Object([("type", String("RECORD")), ("stream", String("s")),
                           ("record", Object([("id", Number(1)), ("id", Number(2))]))]))
            == Ok(RECORD("s", Object([("id", Number(2))]), None, 0))
  {
    var ms := [("type", String("RECORD")), ("stream", String("s")),
               ("record", Object([("id", Number(1)), ("id", Number(2))]))];
    FindDistinct(ms, 0);
    FindDistinct(ms, 1);
    FindDistinct(ms, 2);
    FindAbsent(ms, "time_extracted");
    FindAbsent(ms, "version");
    var inner := [("id", Number(1)), ("id", Number(2))];
    var normal := seq(|inner|, i requires 0 <= i < |inner| => (inner[i].0, Normalize(inner[i].1)));
    assert normal == inner;
    assert inner[..1] == [("id", Number(1))] && inner[..1][..0] == [];
    assert BuildMap(inner[..1]) == [("id", Number(1))];
    assert BuildMap(inner) == [("id", Number(2))];
  }

  /** The number of RECORD messages in a sequence. */
  function CountRecords(msgs: seq<Message>): nat
  {
    if msgs == [] then 0 else (if msgs[0].RECORD? then 1 else 0) + CountRecords(msgs[1..])
  }

  lemma {:induction false} CountRecordsAppend(a: seq<Message>, b: seq<Message>)
    ensures CountRecords(a + b) == CountRecords(a) + CountRecords(b)
  {
    if a != [] {
      assert (a + b)[1..] == a[1..] + b;
      CountRecordsAppend(a[1..], b);
    } else {
      assert a + b == b;
    }
  }

  lemma {:induction false} CountAllRecords(msgs: seq<Message>)
    requires forall i :: 0 <= i < |msgs| ==> msgs[i].RECORD?
    ensures CountRecords(msgs) == |msgs|
  {
    if msgs != [] {
      CountAllRecords(msgs[1..]);
    }
  }
}
