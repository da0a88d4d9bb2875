/**
 * Enrolling a patient in a program, or updating the enrolment: a program document named after
 * the patient and the program type is submitted to the document service after validation.
 */
module ProgramUpsert {
  import opened Wrappers
  import opened Repository
  import opened Documents

  datatype UpsertProgramError =
    | InvalidPatientId
    | InvalidParentId
    | ProgramExists
    | InvalidDataSchema(errors: seq<string>)
    | InternalError(message: string)
    | DatabaseError(error: RepositoryError)

  /** The input; with no parent the enrolment is new, otherwise `parent` is the version it updates. */
  datatype UpsertProgram = UpsertProgram(
    patientId: string,
    programType: string,
    data: Json,
    schemaId: string,
    parent: Option<string>)

  /**
   * The document names (`patient_doc_name`, `patient_program_doc_name`), the parse of the data
   * against the default program schema, answering the parse error's text, and which documents the
   * document repository's store-scoped lookups by name see for a store id (the repository's store
   * filter itself is not part of this model).
   */
  datatype ProgramNaming = ProgramNaming(
    patientDocName: string -> string,
    patientProgramDocName: (string, string) -> string,
    parseProgram: Json -> Result<(), string>,
    inStore: (string, Document) -> bool)

  /** The errors of the document service's update; the variants not named here are `OtherInsertError`. */
  datatype DocumentInsertError =
    | InsertInvalidDataSchema(errors: seq<string>)
    | InsertDatabaseError(error: RepositoryError)
    | InsertInternalError(message: string)
    | OtherInsertError(debug: string)

  /** `find_one_by_name(store_id, name)` / `get_document(ctx, store_id, name)` finds a document. */
  predicate HasDocumentNamed(docs: seq<Document>, naming: ProgramNaming, storeId: string, name: string)
  {
    exists i :: 0 <= i < |docs| && naming.inStore(storeId, docs[i]) && docs[i].name == name
  }

  /** `find_one_by_id(id)` finds a document; this lookup is not scoped to a store. */
  predicate HasDocumentWithId(docs: seq<Document>, id: string)
  {
    exists i :: 0 <= i < |docs| && docs[i].id == id
  }

  /** The message a data-schema failure carries. */
  function InvalidProgramData(parseError: string): string
  {
    "Invalid program data: " + parseError
  }

  /**
   * `validate` for the store `storeId`: the patient's document must exist in the store, the data
   * must parse as a program, and then a new enrolment must not exist in the store yet while an
   * update must name an existing parent version, in any store.
   */
  function Validate(docs: seq<Document>, naming: ProgramNaming, storeId: string, input: UpsertProgram): (r: Result<(), UpsertProgramError>)
    ensures r == Err(InvalidPatientId) <==> !HasDocumentNamed(docs, naming, storeId, naming.patientDocName(input.patientId))
    ensures r.Err? && r.error.InvalidDataSchema? <==>
      HasDocumentNamed(docs, naming, storeId, naming.patientDocName(input.patientId)) && naming.parseProgram(input.data).Err?
    ensures r.Err? && r.error.InvalidDataSchema? ==>
      r.error.errors == [InvalidProgramData(naming.parseProgram(input.data).error)]
    ensures r == Err(ProgramExists) ==>
      input.parent.None? && HasDocumentNamed(docs, naming, storeId, naming.patientProgramDocName(input.patientId, input.programType))
    ensures r == Err(InvalidParentId) ==>
      input.parent.Some? && !HasDocumentWithId(docs, input.parent.value)
    ensures r.Ok? <==>
      (&& HasDocumentNamed(docs, naming, storeId, naming.patientDocName(input.patientId))
       && naming.parseProgram(input.data).Ok?
       && match input.parent
          case None => !HasDocumentNamed(docs, naming, storeId, naming.patientProgramDocName(input.patientId, input.programType))
          case Some(p) => HasDocumentWithId(docs, p))
  {
    if !HasDocumentNamed(docs, naming, storeId, naming.patientDocName(input.patientId)) then Err(InvalidPatientId)
    else if naming.parseProgram(input.data).Err? then
      Err(InvalidDataSchema([InvalidProgramData(naming.parseProgram(input.data).error)]))
    else
      match input.parent
      case None =>
        if HasDocumentNamed(docs, naming, storeId, naming.patientProgramDocName(input.patientId, input.programType)) then Err(ProgramExists)
        else Ok(())
      case Some(p) =>
        if !HasDocumentWithId(docs, p) then Err(InvalidParentId) else Ok(())
  }

  /**
   * `generate`: the program document of the patient and type, authored by the user at `now`,
   * whose parents are the input's parent if any.
   */
  function Generate(naming: ProgramNaming, userId: string, now: int, input: UpsertProgram): (r: RawDocument)
    ensures r.name == naming.patientProgramDocName(input.patientId, input.programType)
    ensures |r.parents| <= 1
    ensures r.parents == [] <==> input.parent.None?
    ensures input.parent.Some? ==> r.parents[0] == input.parent.value
    ensures r.author == userId && r.timestamp == now
    ensures r.docType == input.programType && r.data == input.data && r.schemaId == Some(input.schemaId)
  {
    RawDocument(
      naming.patientProgramDocName(input.patientId, input.programType),
      match input.parent case Some(p) => [p] case None => [],
      userId,
      now,
      input.programType,
      input.data,
      Some(input.schemaId))
  }

  /** The mapping of the document service's errors: three pass through, the rest become internal errors. */
  function MapDocumentInsertError(e: DocumentInsertError): (r: UpsertProgramError)
    ensures r.InvalidDataSchema? <==> e.InsertInvalidDataSchema?
    ensures r.DatabaseError? <==> e.InsertDatabaseError?
    ensures r.InternalError? <==> e.InsertInternalError? || e.OtherInsertError?
    ensures r !in {InvalidPatientId, InvalidParentId, ProgramExists}
  {
    match e
    case InsertInvalidDataSchema(errors) => InvalidDataSchema(errors)
    case InsertDatabaseError(error) => DatabaseError(error)
    case InsertInternalError(message) => InternalError(message)
    case OtherInsertError(debug) => InternalError(debug)
  }

  /** No information is lost for the errors that pass through. */
  lemma MapDocumentInsertErrorKeepsPayload(e: DocumentInsertError)
    ensures e.InsertInvalidDataSchema? ==> MapDocumentInsertError(e) == InvalidDataSchema(e.errors)
    ensures e.InsertDatabaseError? ==> MapDocumentInsertError(e) == DatabaseError(e.error)
    ensures e.InsertInternalError? ==> MapDocumentInsertError(e) == InternalError(e.message)
  {
  }

  /**
   * `upsert_program`: validate, generate, and submit through the document service, whose answer
   * for the store and the generated document is `updateDocument`.
   */
  function UpsertProgramDocument(docs: seq<Document>, naming: ProgramNaming, storeId: string, userId: string, now: int,
                                 input: UpsertProgram,
                                 updateDocument: (string, RawDocument) -> Result<Document, DocumentInsertError>)
    : (r: Result<Document, UpsertProgramError>)
    ensures Validate(docs, naming, storeId, input).Err? ==> r == Err(Validate(docs, naming, storeId, input).error)
    ensures Validate(docs, naming, storeId, input).Ok? ==>
      var u := updateDocument(storeId, Generate(naming, userId, now, input));
      r == if u.Ok? then Ok(u.value) else Err(MapDocumentInsertError(u.error))
  {
    match Validate(docs, naming, storeId, input)
    case Err(e) => Err(e)
    case Ok(_) =>
      match updateDocument(storeId, Generate(naming, userId, now, input))
      case Ok(d) => Ok(d)
      case Err(e) => Err(MapDocumentInsertError(e))
  }

  /**
   * The names and the program schema parse of the test: its first data is not a program. Every
   * document of the test is written through `store_a`, so that store sees all of them.
   */
  function TestNaming(): ProgramNaming
  {
    ProgramNaming(
      (patientId: string) => patientId,
      (patientId: string, programType: string) => patientId + "/" + programType,
      (data: Json) => if data == Json("{\"enrolment_datetime\": true}") then Err("invalid type: boolean") else Ok(()),
      (storeId: string, d: Document) => storeId == "store_a")
  }

  function TestStoredDocument(id: string, name: string, docType: string): Document
  {
    Document(id, name, [], "user", 0, docType, Json("{}"), Some("schema"), None, "")
  }

  /**
   * The upsert test: an unknown patient is refused (also for the second call, because the patient
   * check comes before the data check); once the patient and a first enrolment are stored, a
   * second enrolment without a parent is refused, an unknown parent is refused, and the first
   * version as parent is accepted.
   */
  lemma UpsertProgramExamples()
    ensures var bad := UpsertProgram("some_id", "SomeType", Json("{\"enrolment_datetime\": true}"), "schema", None);
      Validate([], TestNaming(), "store_a", bad) == Err(InvalidPatientId)
    ensures var bad := UpsertProgram("some_id", "SomeType", Json("{\"enrolment_datetime\": true}"), "schema", None);
      Validate([TestStoredDocument("d1", "patient_1", "Patient")], TestNaming(), "store_a", bad) == Err(InvalidPatientId)
    ensures var docs := [TestStoredDocument("d1", "patient_1", "Patient")];
      Validate(docs, TestNaming(), "store_a", UpsertProgram("patient_1", "ProgramType", Json("{}"), "schema", None)) == Ok(())
    ensures var docs := [TestStoredDocument("d1", "patient_1", "Patient")] +
                        [TestStoredDocument("v0", "patient_1/ProgramType", "ProgramType")];
      && Validate(docs, TestNaming(), "store_a", UpsertProgram("patient_1", "ProgramType", Json("{}"), "schema", None)) == Err(ProgramExists)
      && Validate(docs, TestNaming(), "store_a", UpsertProgram("patient_1", "ProgramType", Json("{}"), "schema", Some("invalid")))
         == Err(InvalidParentId)
      && Validate(docs, TestNaming(), "store_a", UpsertProgram("patient_1", "ProgramType", Json("{}"), "schema", Some("v0"))) == Ok(())
  {
    var programName := TestNaming().patientProgramDocName("patient_1", "ProgramType");
    assert programName == "patient_1/ProgramType";
    assert |programName| != |"patient_1"|;
    var docs1 := [TestStoredDocument("d1", "patient_1", "Patient")];
    assert docs1[0].name == TestNaming().patientDocName("patient_1");
    assert !HasDocumentNamed(docs1, TestNaming(), "store_a", programName);
    var docs := docs1 + [TestStoredDocument("v0", "patient_1/ProgramType", "ProgramType")];
    assert docs[0].name == TestNaming().patientDocName("patient_1");
    assert docs[1].name == programName;
    assert docs[1].id == "v0";
  }

  /**
   * A successful new enrolment, once stored under the generated name where the store sees it,
   * blocks a second new enrolment of the same patient in the same program.
   */
  lemma SecondEnrolmentIsRefused(docs: seq<Document>, naming: ProgramNaming, storeId: string, userId: string, now: int,
                                 input: UpsertProgram, stored: Document)
    requires input.parent.None?
    requires Validate(docs, naming, storeId, input).Ok?
    requires stored.name == Generate(naming, userId, now, input).name && naming.inStore(storeId, stored)
    ensures Validate(docs + [stored], naming, storeId, input) == Err(ProgramExists)
  {
    var docs' := docs + [stored];
    assert docs'[|docs|] == stored;
    var j :| 0 <= j < |docs| && naming.inStore(storeId, docs[j]) && docs[j].name == naming.patientDocName(input.patientId);
    assert docs'[j] == docs[j];
  }

  /**
   * Documents the store does not see leave the patient and program checks alone, but a parent
   * version is found in any store: with other stores' documents added, a new enrolment is
   * validated exactly as before, and an update refused only for its parent becomes valid once
   * the parent is among them.
   */
  lemma {:induction false} OtherStoresOnlyProvideParents(docs: seq<Document>, other: seq<Document>, naming: ProgramNaming,
                                                         storeId: string, input: UpsertProgram)
    requires forall j :: 0 <= j < |other| ==> !naming.inStore(storeId, other[j])
    ensures input.parent.None? ==> Validate(docs + other, naming, storeId, input) == Validate(docs, naming, storeId, input)
    ensures (&& input.parent.Some?
             && Validate(docs, naming, storeId, input) == Err(InvalidParentId)
             && HasDocumentWithId(other, input.parent.value))
            ==> Validate(docs + other, naming, storeId, input) == Ok(())
  {
    var all := docs + other;
    forall name: string
      ensures HasDocumentNamed(all, naming, storeId, name) == HasDocumentNamed(docs, naming, storeId, name)
    {
      if HasDocumentNamed(all, naming, storeId, name) {
        var i :| 0 <= i < |all| && naming.inStore(storeId, all[i]) && all[i].name == name;
        assert docs[i] == all[i];
      }
      if HasDocumentNamed(docs, naming, storeId, name) {
        var i :| 0 <= i < |docs| && naming.inStore(storeId, docs[i]) && docs[i].name == name;
        assert all[i] == docs[i];
      }
    }
    if input.parent.Some? && HasDocumentWithId(other, input.parent.value) {
      var i :| 0 <= i < |other| && other[i].id == input.parent.value;
      assert all[|docs| + i] == other[i];
    }
  }
}
