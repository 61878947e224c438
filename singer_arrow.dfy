/**
  Translation of a Singer SCHEMA into an Arrow schema, and assembly of an Arrow record batch
  from RECORD messages (`singer_arrow/src/lib.rs`).

  An Arrow schema is its list of fields; a column is the list of its cells, each the JSON
  text of a value or null. `RecordBatch::try_new` belongs to the Arrow library and is a
  parameter (`TryNew`): it may reject the columns with an Arrow error message.
*/
module SingerArrow {
  import opened Wrappers
  import opened Json
  import opened MessageTypes

  /** `singer_arrow::Error`; each case carries its message. */
  datatype Error =
    | Arrow(msg: string)
    | Schema(msg: string)
    | TypeConversion(msg: string)
    | Io(msg: string)
    | Parquet(msg: string)

  datatype DataType = Utf8 | Int64 | Float64 | Boolean

  datatype Field = Field(name: string, dataType: DataType, nullable: bool)

  type ArrowSchema = seq<Field>

  predicate DistinctNames(schema: ArrowSchema) {
    forall i, j :: 0 <= i < j < |schema| ==> schema[i].name != schema[j].name
  }

  // ---------------------------------------------------------------------------------------
  // Schema translation

  /** The JSON-schema type name that stands for an Arrow type. */
  function JsonTypeName(t: DataType): string
  {
    match t
    case Utf8 => "string"
    case Int64 => "integer"
    case Float64 => "number"
    case Boolean => "boolean"
  }

  const SupportedTypeNames: seq<string> := ["string", "integer", "number", "boolean"]

  /** `json_type_to_arrow`: the four scalar type names, and nothing else. */
  function JsonTypeToArrow(typeObj: Value): (r: Result<DataType, Error>)
    ensures r.Ok? <==> typeObj.String? && typeObj.s in SupportedTypeNames
    ensures r.Ok? ==> typeObj == String(JsonTypeName(r.value))
    ensures !typeObj.String? ==> r == Err(TypeConversion("Type must be a string"))
    ensures typeObj.String? && r.Err? ==> r == Err(TypeConversion("Unsupported type: " + typeObj.s))
  {
    if !typeObj.String? then Err(TypeConversion("Type must be a string"))
    else if typeObj.s == "string" then Ok(Utf8)
    else if typeObj.s == "integer" then Ok(Int64)
    else if typeObj.s == "number" then Ok(Float64)
    else if typeObj.s == "boolean" then Ok(Boolean)
    else Err(TypeConversion("Unsupported type: " + typeObj.s))
  }

  /** Every Arrow type is reached from its name. */
  lemma JsonTypeNameRoundTrip(t: DataType)
    ensures JsonTypeToArrow(String(JsonTypeName(t))) == Ok(t)
  {
  }

  /** The field for one property: its "type" translated, never nullable. */
  function PropertyField(name: string, prop: Value): (r: Result<Field, Error>)
    ensures r.Ok? <==> Get(prop, "type").Some? && JsonTypeToArrow(Get(prop, "type").value).Ok?
    ensures r.Ok? ==> r.value == Field(name, JsonTypeToArrow(Get(prop, "type").value).value, false)
    ensures Get(prop, "type").None? ==> r == Err(Schema("Property " + name + " missing type"))
    ensures Get(prop, "type").Some? && r.Err? ==> r == Err(JsonTypeToArrow(Get(prop, "type").value).error)
  {
    match Get(prop, "type")
    case None => Err(Schema("Property " + name + " missing type"))
    case Some(t) =>
      var dataType :- JsonTypeToArrow(t);
      Ok(Field(name, dataType, false))
  }

  /** The `map` and `collect` over the properties: one field per property, in order, or the
      error of the first property that fails. */
  function PropertyFields(props: seq<(string, Value)>): (r: Result<seq<Field>, Error>)
    ensures r.Ok? <==> forall i :: 0 <= i < |props| ==> PropertyField(props[i].0, props[i].1).Ok?
    ensures r.Ok? ==> |r.value| == |props|
    ensures r.Ok? ==> forall i :: 0 <= i < |props| ==> PropertyField(props[i].0, props[i].1) == Ok(r.value[i])
    ensures r.Err? ==> exists i :: 0 <= i < |props|
                          && (forall j :: 0 <= j < i ==> PropertyField(props[j].0, props[j].1).Ok?)
                          && PropertyField(props[i].0, props[i].1) == Err(r.error)
  {
    if props == [] then Ok([])
    else
      match PropertyField(props[0].0, props[0].1)
      case Err(e) => Err(e)
      case Ok(field) =>
        match PropertyFields(props[1..])
        case Err(e) =>
          assert forall i :: 1 <= i < |props| ==> props[i] == props[1..][i - 1];
          Err(e)
        case Ok(fields) =>
          assert forall i :: 1 <= i < |props| ==> props[i] == props[1..][i - 1];
          Ok([field] + fields)
  }

  /** `singer_schema_to_arrow`. */
  function SingerSchemaToArrow(schemaMsg: Message): (r: Result<ArrowSchema, Error>)
    ensures !schemaMsg.SCHEMA? ==> r == Err(Schema("Not a SCHEMA message"))
    ensures schemaMsg.SCHEMA? && Get(schemaMsg.schema, "properties").None? ==>
              r == Err(Schema("Schema missing properties"))
    ensures schemaMsg.SCHEMA? && Get(schemaMsg.schema, "properties").Some? &&
            !Get(schemaMsg.schema, "properties").value.Object? ==>
              r == Err(Schema("Properties must be an object"))
    ensures r.Ok? ==> schemaMsg.SCHEMA? && Get(schemaMsg.schema, "properties").Some?
                      && Get(schemaMsg.schema, "properties").value.Object?
                      && r == PropertyFields(Get(schemaMsg.schema, "properties").value.members)
  {
    match schemaMsg
    case SCHEMA(_, schema, _, _) =>
      (match Get(schema, "properties")
       case None => Err(Schema("Schema missing properties"))
       case Some(properties) =>
         if !properties.Object? then Err(Schema("Properties must be an object"))
         else PropertyFields(properties.members))
    case _ => Err(Schema("Not a SCHEMA message"))
  }

  /** On success: one non-nullable field per property, with the property's name and in the
      properties' order, typed by its "type". */
  lemma SchemaFields(schemaMsg: Message)
    requires SingerSchemaToArrow(schemaMsg).Ok?
    ensures var props := Get(schemaMsg.schema, "properties").value.members;
            var fields := SingerSchemaToArrow(schemaMsg).value;
            && |fields| == |props|
            && forall i :: 0 <= i < |props| ==>
                 && fields[i].name == props[i].0
                 && !fields[i].nullable
                 && Get(props[i].1, "type").Some?
                 && JsonTypeToArrow(Get(props[i].1, "type").value) == Ok(fields[i].dataType)
  {
    var props := Get(schemaMsg.schema, "properties").value.members;
    var fields := SingerSchemaToArrow(schemaMsg).value;
    forall i | 0 <= i < |props|
      ensures fields[i].name == props[i].0 && !fields[i].nullable
      ensures Get(props[i].1, "type").Some? && JsonTypeToArrow(Get(props[i].1, "type").value) == Ok(fields[i].dataType)
    {
      assert PropertyField(props[i].0, props[i].1) == Ok(fields[i]);
    }
  }

  /** A schema from a well-formed JSON value names each field once. */
  lemma SchemaNamesDistinct(schemaMsg: Message)
    requires schemaMsg.SCHEMA? && Canonical(schemaMsg.schema)
    requires SingerSchemaToArrow(schemaMsg).Ok?
    ensures DistinctNames(SingerSchemaToArrow(schemaMsg).value)
  {
    var props := Get(schemaMsg.schema, "properties").value;
    var ms := schemaMsg.schema.members;
    var k :| 0 <= k < |ms| && ms[k] == ("properties", props);
    assert Canonical(ms[k].1);
    SortedDistinct(props.members);
    SchemaFields(schemaMsg);
    var fields := SingerSchemaToArrow(schemaMsg).value;
    forall i, j | 0 <= i < j < |fields| ensures fields[i].name != fields[j].name {
      assert fields[i].name == props.members[i].0 && fields[j].name == props.members[j].0;
    }
  }

  // ---------------------------------------------------------------------------------------
  // Record batches

  type Column = seq<Option<string>>

  datatype RecordBatch = RecordBatch(schema: ArrowSchema, columns: seq<Column>)

  function NumRows(b: RecordBatch): nat
  {
    if |b.columns| == 0 then 0 else |b.columns[0]|
  }

  /** `RecordBatch::try_new`'s validation: None accepts the columns, Some(msg) rejects them. */
  type TryNew = (ArrowSchema, seq<Column>) -> Option<string>

  /** The documents of the RECORD messages, in order; other messages contribute none. */
  function RecordsOf(msgs: seq<Message>): seq<Value>
  {
    if msgs == [] then []
    else
      var last := msgs[|msgs| - 1];
      RecordsOf(msgs[..|msgs| - 1]) + (if last.RECORD? then [last.record] else [])
  }

  /** One row per RECORD message. */
  lemma {:induction false} RecordsOfCount(msgs: seq<Message>)
    ensures |RecordsOf(msgs)| == CountRecords(msgs)
  {
    if msgs != [] {
      var n := |msgs| - 1;
      RecordsOfCount(msgs[..n]);
      CountRecordsAppend(msgs[..n], [msgs[n]]);
      assert msgs[..n] + [msgs[n]] == msgs;
    }
  }

  /** The cell of one record under one field: the JSON text of the member, or null. */
  function Cell(record: Value, name: string): (c: Option<string>)
    ensures c.None? <==> Get(record, name).None?
    ensures c.Some? ==> c.value == Compact(Get(record, name).value)
  {
    match Get(record, name)
    case Some(v) => Some(Compact(v))
    case None => None
  }

  function ColumnOf(records: seq<Value>, name: string): (col: Column)
    ensures |col| == |records|
    ensures forall j :: 0 <= j < |records| ==> col[j] == Cell(records[j], name)
  {
    seq(|records|, j requires 0 <= j < |records| => Cell(records[j], name))
  }

  function EmptyColumns(n: nat): seq<Column>
  {
    seq(n, _ => [])
  }

  /** The conversion `to_record_batch` computes. An empty message list gives an empty batch
      with the schema, without calling try_new. Otherwise the batch carries the given schema,
      one column per field in field order, one row per RECORD, and in each cell the field's
      member of that record as JSON text, or null; the only error is try_new's. */
  function Converted(msgs: seq<Message>, schema: ArrowSchema, tryNew: TryNew): (r: Result<RecordBatch, Error>)
    ensures msgs == [] ==> r == Ok(RecordBatch(schema, EmptyColumns(|schema|)))
    ensures |RecordsOf(msgs)| == CountRecords(msgs)
    ensures r.Ok? ==>
              && r.value.schema == schema
              && |r.value.columns| == |schema|
              && (forall i :: 0 <= i < |schema| ==> |r.value.columns[i]| == CountRecords(msgs))
              && (forall i, j :: 0 <= i < |schema| && 0 <= j < |RecordsOf(msgs)| ==>
                    r.value.columns[i][j] == Cell(RecordsOf(msgs)[j], schema[i].name))
    ensures r.Err? ==> r.error.Arrow?
  {
    RecordsOfCount(msgs);
    if msgs == [] then Ok(RecordBatch(schema, EmptyColumns(|schema|)))
    else
      var records := RecordsOf(msgs);
      var arrays := seq(|schema|, i requires 0 <= i < |schema| => ColumnOf(records, schema[i].name));
      match tryNew(schema, arrays)
      case Some(msg) => Err(Arrow(msg))
      case None => Ok(RecordBatch(schema, arrays))
  }

  /** Every column built here is a string column. When try_new rejects a column whose type
      differs from its field's, as the Arrow library does, any non-empty batch for a schema
      with a non-string field is rejected. */
  ghost predicate ChecksColumnTypes(tryNew: TryNew)
  {
    forall schema: ArrowSchema, columns: seq<Column> ::
      (exists i :: 0 <= i < |schema| && schema[i].dataType != Utf8) ==> tryNew(schema, columns).Some?
  }

  lemma NonStringFieldRejected(msgs: seq<Message>, schema: ArrowSchema, tryNew: TryNew, i: nat)
    requires ChecksColumnTypes(tryNew)
    requires msgs != [] && i < |schema| && schema[i].dataType != Utf8
    ensures Converted(msgs, schema, tryNew).Err?
  {
    var arrays := seq(|schema|, k requires 0 <= k < |schema| => ColumnOf(RecordsOf(msgs), schema[k].name));
    assert tryNew(schema, arrays).Some?;
  }

  // ---------------------------------------------------------------------------------------
  // Worked examples

  function IdNameProperties(idType: string): seq<(string, Value)>
  {
    [("id", Object([("type", String(idType))])), ("name", Object([("type", String("string"))]))]
  }

  function IdNameSchema(idType: string): Message
  {
    SCHEMA("s", Object([("properties", Object(IdNameProperties(idType)))]), [], [])
  }

  lemma IdNamePropertyFields(idType: string)
    ensures PropertyFields(IdNameProperties(idType)) ==
      match JsonTypeToArrow(String(idType))
      case Err(e) => Err(e)
      case Ok(t) => Ok([Field("id", t, false), Field("name", Utf8, false)])
  {
    var props := IdNameProperties(idType);
    assert Get(props[0].1, "type") == Some(String(idType));
    assert Get(props[1].1, "type") == Some(String("string"));
    assert JsonTypeToArrow(String("string")) == Ok(Utf8);
    assert PropertyField(props[1].0, props[1].1) == Ok(Field("name", Utf8, false));
    var rest := props[1..];
    assert rest == [props[1]] && rest[1..] == [];
    assert PropertyFields(rest[1..]) == Ok([]);
    assert rest != [];
    assert PropertyField(rest[0].0, rest[0].1) == Ok(Field("name", Utf8, false));
    assert PropertyFields(rest) == Ok([Field("name", Utf8, false)] + []);
    assert [Field("name", Utf8, false)] + [] == [Field("name", Utf8, false)];
    match JsonTypeToArrow(String(idType)) {
      case Err(e) =>
        assert PropertyField(props[0].0, props[0].1) == Err(e);
      case Ok(t) =>
        assert PropertyField(props[0].0, props[0].1) == Ok(Field("id", t, false));
        assert PropertyFields(props) == Ok([Field("id", t, false)] + [Field("name", Utf8, false)]);
        assert [Field("id", t, false)] + [Field("name", Utf8, false)] == [Field("id", t, false), Field("name", Utf8, false)];
    }
  }

  /** An integer "id" and a string "name" give two non-nullable fields, Int64 then Utf8. */
  lemma TwoPropertySchema()
    ensures SingerSchemaToArrow(IdNameSchema("integer")) == Ok([Field("id", Int64, false), Field("name", Utf8, false)])
  {
    IdNamePropertyFields("integer");
    assert Get(IdNameSchema("integer").schema, "properties") == Some(Object(IdNameProperties("integer")));
  }

  /** A property whose "type" names no supported type reports that name. */
  lemma UnsupportedPropertyType()
    ensures SingerSchemaToArrow(IdNameSchema("date")) == Err(TypeConversion("Unsupported type: date"))
  {
    IdNamePropertyFields("date");
    assert "Unsupported type: " + "date" == "Unsupported type: date";
    assert Get(IdNameSchema("date").schema, "properties") == Some(Object(IdNameProperties("date")));
  }

  function TestRecord(id: string, name: string): Message
  {
    RECORD("test", Object([("id", String(id)), ("name", String(name))]), None, 1)
  }

  /** The records of the conversion test: two rows, two string columns, and in each cell the
      quoted JSON text of the record's member. */
  lemma TwoRecordColumns(tryNew: TryNew)
    requires tryNew([Field("id", Utf8, false), Field("name", Utf8, true)],
                    [[Some("\"1\""), Some("\"2\"")], [Some("\"Alice\""), Some("\"Bob\"")]]).None?
    ensures Converted([TestRecord("1", "Alice"), TestRecord("2", "Bob")],
                      [Field("id", Utf8, false), Field("name", Utf8, true)], tryNew)
            == Ok(RecordBatch([Field("id", Utf8, false), Field("name", Utf8, true)],
                              [[Some("\"1\""), Some("\"2\"")], [Some("\"Alice\""), Some("\"Bob\"")]]))
  {
    var msgs := [TestRecord("1", "Alice"), TestRecord("2", "Bob")];
    var schema := [Field("id", Utf8, false), Field("name", Utf8, true)];
    RecordsOfTwo(TestRecord("1", "Alice"), TestRecord("2", "Bob"));
    TestColumns();
    var records := RecordsOf(msgs);
    var arrays := seq(|schema|, i requires 0 <= i < |schema| => ColumnOf(records, schema[i].name));
    assert arrays == [ColumnOf(records, "id"), ColumnOf(records, "name")];
  }

  lemma TestColumns()
    ensures ColumnOf([TestRecord("1", "Alice").record, TestRecord("2", "Bob").record], "id")
            == [Some("\"1\""), Some("\"2\"")]
    ensures ColumnOf([TestRecord("1", "Alice").record, TestRecord("2", "Bob").record], "name")
            == [Some("\"Alice\""), Some("\"Bob\"")]
  {
    var r1 := TestRecord("1", "Alice").record;
    var r2 := TestRecord("2", "Bob").record;
    TestRecordCells("1", "Alice");
    TestRecordCells("2", "Bob");
    QuoteLiterals();
    ColumnOfTwo(r1, r2, "id");
    ColumnOfTwo(r1, r2, "name");
  }

  lemma RecordsOfTwo(m1: Message, m2: Message)
    requires m1.RECORD? && m2.RECORD?
    ensures RecordsOf([m1, m2]) == [m1.record, m2.record]
  {
    var msgs := [m1, m2];
    assert msgs[..1] == [m1] && msgs[..1][..0] == [];
    assert RecordsOf(msgs[..1]) == [] + [m1.record];
  }

  lemma QuoteLiterals()
    ensures "\"" + "1" + "\"" == "\"1\"" && "\"" + "2" + "\"" == "\"2\""
    ensures "\"" + "Alice" + "\"" == "\"Alice\"" && "\"" + "Bob" + "\"" == "\"Bob\""
  {
  }

  lemma ColumnOfTwo(r1: Value, r2: Value, name: string)
    ensures ColumnOf([r1, r2], name) == [Cell(r1, name), Cell(r2, name)]
  {
  }

  lemma TestRecordCells(id: string, name: string)
    requires forall k :: 0 <= k < |id| ==> Plain(id[k])
    requires forall k :: 0 <= k < |name| ==> Plain(name[k])
    ensures Cell(TestRecord(id, name).record, "id") == Some("\"" + id + "\"")
    ensures Cell(TestRecord(id, name).record, "name") == Some("\"" + name + "\"")
  {
    var ms := TestRecord(id, name).record.members;
    assert Lookup(ms, "id") == Some(String(id));
    assert Lookup(ms, "name") == Some(String(name));
    QuotedPlain(id);
    QuotedPlain(name);
  }

  /** The names of a schema's fields. */
  function Names(schema: ArrowSchema): set<string>
  {
    set i | 0 <= i < |schema| :: schema[i].name
  }

  /** One empty string builder per field name. */
  method NewBuilders(schema: ArrowSchema) returns (builders: map<string, Column>)
    ensures builders.Keys == Names(schema)
    ensures forall n :: n in builders ==> builders[n] == []
  {
    builders := map[];
    var k := 0;
    while k < |schema|
      invariant 0 <= k <= |schema|
      invariant builders.Keys == set i | 0 <= i < k :: schema[i].name
      invariant forall n :: n in builders ==> builders[n] == []
    {
      builders := builders[schema[k].name := []];
      k := k + 1;
    }
  }

  /** Appends one record's cell to every builder, visiting the builders in any order. */
  method AppendRecord(builders: map<string, Column>, record: Value) returns (result: map<string, Column>)
    ensures result.Keys == builders.Keys
    ensures forall n :: n in result ==> result[n] == builders[n] + [Cell(record, n)]
  {
    result := builders;
    var pending := builders.Keys;
    while pending != {}
      invariant pending <= result.Keys && result.Keys == builders.Keys
      invariant forall n :: n in pending ==> result[n] == builders[n]
      invariant forall n :: n in result && n !in pending ==> result[n] == builders[n] + [Cell(record, n)]
      decreases pending
    {
      var name :| name in pending;
      var cell: Option<string>;
      match Get(record, name) {
        case Some(v) => cell := Some(Compact(v));
        case None => cell := None;
      }
      result := result[name := result[name] + [cell]];
      pending := pending - {name};
    }
  }

  /** Removes the builders in field order and finishes each into its column. */
  method FinishColumns(builders: map<string, Column>, schema: ArrowSchema) returns (arrays: seq<Column>)
    requires DistinctNames(schema)
    requires builders.Keys == Names(schema)
    ensures |arrays| == |schema|
    ensures forall i :: 0 <= i < |schema| ==> arrays[i] == builders[schema[i].name]
  {
    var remaining := builders;
    arrays := [];
    var f := 0;
    while f < |schema|
      invariant 0 <= f <= |schema|
      invariant |arrays| == f
      invariant forall i :: 0 <= i < f ==> arrays[i] == builders[schema[i].name]
      invariant remaining.Keys == set i | f <= i < |schema| :: schema[i].name
      invariant forall n :: n in remaining ==> remaining[n] == builders[n]
    {
      var name := schema[f].name;
      arrays := arrays + [remaining[name]];
      remaining := remaining - {name};
      assert forall i :: f + 1 <= i < |schema| ==> schema[i].name != name;
      f := f + 1;
    }
  }

  /** `to_record_batch`: a builder per field name, filled record by record, then finished in
      field order and handed to try_new. */
  method ToRecordBatch(msgs: seq<Message>, schema: ArrowSchema, tryNew: TryNew) returns (r: Result<RecordBatch, Error>)
    requires DistinctNames(schema)
    ensures r == Converted(msgs, schema, tryNew)
  {
    if |msgs| == 0 {
      return Ok(RecordBatch(schema, EmptyColumns(|schema|)));
    }
    var builders := NewBuilders(schema);
    var idx := 0;
    while idx < |msgs|
      invariant 0 <= idx <= |msgs|
      invariant builders.Keys == Names(schema)
      invariant forall n :: n in builders ==> builders[n] == ColumnOf(RecordsOf(msgs[..idx]), n)
    {
      assert msgs[..idx + 1][..idx] == msgs[..idx];
      if msgs[idx].RECORD? {
        builders := AppendRecord(builders, msgs[idx].record);
        assert RecordsOf(msgs[..idx + 1]) == RecordsOf(msgs[..idx]) + [msgs[idx].record];
      } else {
        assert RecordsOf(msgs[..idx + 1]) == RecordsOf(msgs[..idx]);
      }
      idx := idx + 1;
    }
    assert msgs[..idx] == msgs;
    var arrays := FinishColumns(builders, schema);
    assert arrays == seq(|schema|, i requires 0 <= i < |schema| => ColumnOf(RecordsOf(msgs), schema[i].name));
    var rejected := tryNew(schema, arrays);
    if rejected.Some? {
      return Err(Arrow(rejected.value));
    }
    return Ok(RecordBatch(schema, arrays));
  }
}
