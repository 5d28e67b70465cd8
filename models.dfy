/**
 * The records the pipeline exchanges with Benchling and IgBLAST, reduced to the
 * attributes the core reads or writes, and the external services it calls.
 * The services have no model of their own: each is a function parameter whose
 * result the environment chooses.
 */
module Models {
  import opened Wrappers
  import opened Values

  /** A Benchling field: its raw value and its display text. */
  datatype Field = Field(value: Value, textValue: Option<string>)

  type Fields = map<string, Field>

  /** `entity.fields.get(key).value if key in entity.fields else None`. */
  function FieldValue(fields: Fields, key: string): (v: Value)
    ensures key !in fields ==> v == Null
    ensures key in fields ==> v == fields[key].value
  {
    if key in fields then fields[key].value else Null
  }

  /** `entity.fields.get(key).text_value if key in entity.fields else None`. */
  function FieldText(fields: Fields, key: string): (t: Option<string>)
    ensures key !in fields ==> t == None
    ensures key in fields ==> t == fields[key].textValue
  {
    if key in fields then fields[key].textValue else None
  }

  /** The entity carried by a registration event. */
  datatype GenericEntity = GenericEntity(id: string, name: string, schemaId: string, fields: Fields)

  /** `EntityRegisteredEvent`. */
  datatype Event = Event(entity: GenericEntity)

  datatype DnaSequence = DnaSequence(
    id: string,
    name: string,
    bases: string,
    folderId: Option<string>,
    isCircular: bool,
    fields: Fields,
    customFields: Fields)

  datatype CustomEntity = CustomEntity(id: string, fields: Fields)

  datatype AaSequence = AaSequence(
    id: string,
    name: string,
    aminoAcids: string,
    registryId: Option<string>,
    folderId: Option<string>,
    schemaId: string,
    aliases: seq<string>,
    customFields: Fields)

  datatype AaAnnotation = AaAnnotation(color: string, kind: string, name: Value, start: int, end: int)

  /** `AaSequenceCreate | AaSequenceUpdate`; payload fields carry a value only. */
  datatype AaSequenceRequest =
    | AaSequenceCreate(
        name: string,
        aminoAcids: Option<string>,
        annotations: seq<AaAnnotation>,
        fields: map<string, Value>,
        customFields: map<string, Value>,
        registryId: Option<string>,
        folderId: Option<string>,
        schemaId: string,
        namingStrategy: string,
        authorIds: seq<string>)
    | AaSequenceUpdate(
        name: string,
        aminoAcids: Option<string>,
        annotations: seq<AaAnnotation>,
        fields: map<string, Value>,
        registryId: Option<string>,
        folderId: Option<string>,
        schemaId: string,
        aliases: seq<string>,
        existingCustomFields: Fields,
        authorIds: seq<string>)

  datatype DnaSequenceBulkUpdate = DnaSequenceBulkUpdate(
    id: string,
    name: string,
    bases: string,
    fields: map<string, Value>,
    customFields: map<string, Value>,
    folderId: Option<string>,
    isCircular: bool)

  datatype DnaSequenceBulkCreate = DnaSequenceBulkCreate(
    name: string,
    bases: Option<string>,
    isCircular: bool,
    folderId: Option<string>,
    customFields: map<string, Value>)

  /** The key of one entry of an async task's errors. */
  datatype ErrorKey = IntKey(n: int) | TextKey(text: string) | NullKey

  /** One element of a list-shaped error payload; `message` is absent when the element has no 'message'. */
  datatype ErrorEntry = ErrorEntry(index: ErrorKey, message: Option<string>)

  /**
   * `task.errors`: absent (the SDK raises NotPresentError), None, a list of
   * entries, a dict, or any other object, of which only the size is observed.
   */
  datatype ErrorPayload =
    | NotPresent
    | NullErrors
    | ListErrors(entries: seq<ErrorEntry>)
    | DictErrors(pairs: seq<(ErrorKey, string)>)
    | OtherShape(size: nat)

  /** A Benchling bulk task once finished; `response` holds the created sequences. */
  datatype AsyncTask = AsyncTask(errors: ErrorPayload, message: string, response: seq<DnaSequence>)

  /** An IgBLAST result row, a column name to value map. */
  type Row = map<string, Value>

  /** `row.get(key)`. */
  function RowGet(row: Row, key: string): (v: Value)
    ensures key !in row ==> v == Null
    ensures key in row ==> v == row[key]
  {
    if key in row then row[key] else Null
  }

  const NoneHasNoGet: string := "'NoneType' object has no attribute 'get'"

  const NoneHasNoId: string := "'NoneType' object has no attribute 'id'"

  const NoneHasNoName: string := "'NoneType' object has no attribute 'name'"

  const NoneHasNoFields: string := "'NoneType' object has no attribute 'fields'"

  const NoneHasNoComputedFields: string := "'NoneType' object has no attribute 'get_computed_fields'"

  const NoneHasNoValue: string := "'NoneType' object has no attribute 'value'"

  /** `set()` of values one of which is a list. */
  const UnhashableList: string := "unhashable type: 'list'"

  datatype Organism = Human | Mouse | Rat | Rabbit | RhesusMonkey

  datatype DomainSystem = Imgt | Kabat

  /** `igblast.Sequence`. */
  datatype IgSequence = IgSequence(id: string, bases: string)

  /** `GetResultResponse` with the report already parsed into rows. */
  datatype IgBlastResponse = IgBlastResponse(returncode: int, error: string, imgtVersion: Option<string>, rows: seq<Row>)

  /** `BenchlingConfig`, without the credentials. */
  datatype Config = Config(
    registryId: string,
    dnaSequenceSchemaId: string,
    dnaFeatureSchemaId: string,
    aaSequenceSchemaId: string,
    authorIds: seq<string>)

  /**
   * The external calls the steps make. Bulk calls return the finished task.
   * The first five calls are total: the exceptions the SDK and IgBLAST
   * clients can raise there, which no step catches, are not modelled.
   * `createAaSequence` may raise (Err holds the text of the exception);
   * `createTemplateAlignment` returns the text of the exception it raised, if any.
   */
  datatype Services = Services(
    config: Config,
    getDnaSequencesById: seq<string> -> seq<DnaSequence>,
    getCustomEntitiesById: set<Value> -> seq<CustomEntity>,
    postSequencesSync: (seq<IgSequence>, Organism, DomainSystem) -> IgBlastResponse,
    updateDnaSequences: seq<DnaSequenceBulkUpdate> -> AsyncTask,
    createDnaSequences: seq<DnaSequenceBulkCreate> -> AsyncTask,
    createAaSequence: AaSequenceRequest -> Result<AaSequence>,
    createTemplateAlignment: (string, string, string) -> Option<string>)
}
