/**
 * Integrating a document received by synchronisation: the document is stored, and when the
 * document registry knows its type, the patient, program-enrolment or encounter row derived from
 * it is updated.
 */
module IntegrateDocument {
  import opened Wrappers
  import opened Repository
  import opened Documents
  import opened Sequences

  datatype DocumentRegistryType = Patient | ProgramEnrolment | Encounter | Custom

  datatype DocumentRegistry = DocumentRegistry(id: string, documentType: string, registryType: DocumentRegistryType)

  datatype Clinician = Clinician(id: Option<string>)

  /** The part of a validated encounter document this model follows. */
  datatype SchemaEncounter = SchemaEncounter(clinician: Option<Clinician>)

  /** A row update derived from a document, with the arguments it is made with. */
  datatype RowUpdate =
    | PatientRowUpdate(documentId: string, datetime: int)
    | ProgramEnrolmentRowUpdate(documentId: string, patientId: string)
    | EncounterRowUpdate(documentId: string, patientId: string, context: string, clinicianId: Option<string>)

  /**
   * The schema parses (answering the parse error's text on failure), and the row updates'
   * failures, given as the debug text of the error each update would return.
   */
  datatype IntegrationEnv = IntegrationEnv(
    parsePatient: Json -> Result<(), string>,
    parseProgramEnrolment: Json -> Result<(), string>,
    validateEncounter: Json -> Result<SchemaEncounter, string>,
    rowUpdateError: RowUpdate -> Option<string>)

  /** The error every failure of this integration is reported as. */
  function DbError(message: string): RepositoryError
  {
    DBError(message, "")
  }

  const OwnerIdExpected := "Document owner id expected"

  /** `clinician.id`, when the encounter names a clinician and the clinician has an id. */
  function ClinicianId(encounter: SchemaEncounter): (r: Option<string>)
    ensures r.Some? <==> encounter.clinician.Some? && encounter.clinician.value.id.Some?
    ensures r.Some? ==> r.value == encounter.clinician.value.id.value
  {
    match encounter.clinician
    case Some(c) => c.id
    case None => None
  }

  /** The outcome of an integration step: its result and the rows it updated. */
  datatype Integration = Integration(result: Result<(), RepositoryError>, updates: seq<RowUpdate>)

  /** Applying one row update: recorded on success, the error's debug text otherwise. */
  function ApplyRowUpdate(update: RowUpdate, env: IntegrationEnv): (r: Integration)
    ensures r.result.Ok? <==> env.rowUpdateError(update).None?
    ensures r.result.Ok? ==> r.updates == [update]
    ensures r.result.Err? ==> r.updates == [] && r.result.error == DbError(env.rowUpdateError(update).value)
  {
    match env.rowUpdateError(update)
    case None => Integration(Ok(()), [update])
    case Some(debug) => Integration(Err(DbError(debug)), [])
  }

  function UpdatePatient(document: Document, env: IntegrationEnv): Integration
  {
    match env.parsePatient(document.data)
    case Err(e) => Integration(Err(DbError("Invalid patient data: " + e)), [])
    case Ok(_) => ApplyRowUpdate(PatientRowUpdate(document.id, document.datetime), env)
  }

  function UpdateProgramEnrolment(document: Document, env: IntegrationEnv): Integration
  {
    match document.ownerNameId
    case None => Integration(Err(DbError(OwnerIdExpected)), [])
    case Some(patientId) =>
      match env.parseProgramEnrolment(document.data)
      case Err(e) => Integration(Err(DbError("Invalid program enrolment data: " + e)), [])
      case Ok(_) => ApplyRowUpdate(ProgramEnrolmentRowUpdate(document.id, patientId), env)
  }

  function UpdateEncounter(document: Document, env: IntegrationEnv): Integration
  {
    match document.ownerNameId
    case None => Integration(Err(DbError(OwnerIdExpected)), [])
    case Some(patientId) =>
      match env.validateEncounter(document.data)
      case Err(e) => Integration(Err(DbError("Invalid encounter data: " + e)), [])
      case Ok(encounter) =>
        ApplyRowUpdate(EncounterRowUpdate(document.id, patientId, document.context, ClinicianId(encounter)), env)
  }

  /** The registry entry the document is integrated by: the last of those for its type. */
  function RegistryEntry(registry: seq<DocumentRegistry>, document: Document): Option<DocumentRegistry>
  {
    Pop(Filter(registry, (e: DocumentRegistry) => e.documentType == document.docType))
  }

  /** What `sync_upsert_document` does after storing the document. */
  function Integrate(document: Document, registry: seq<DocumentRegistry>, env: IntegrationEnv): (r: Integration)
    ensures RegistryEntry(registry, document).None? ==> r == Integration(Ok(()), [])
    ensures |r.updates| <= 1
    ensures r.result.Err? ==> r.updates == []
    ensures r.updates != [] ==> r.updates[0].documentId == document.id
  {
    match RegistryEntry(registry, document)
    case None => Integration(Ok(()), [])
    case Some(entry) =>
      match entry.registryType
      case Patient => UpdatePatient(document, env)
      case ProgramEnrolment => UpdateProgramEnrolment(document, env)
      case Encounter => UpdateEncounter(document, env)
      case Custom => Integration(Ok(()), [])
  }

  /**
   * The dispatch by the last registry entry of the document's type: a Custom entry, like no
   * entry, updates nothing; the other three update their own row kind; enrolments and encounters
   * without an owner fail with "Document owner id expected".
   */
  lemma IntegrateDispatch(document: Document, registry: seq<DocumentRegistry>, env: IntegrationEnv)
    ensures var entry := RegistryEntry(registry, document);
      && (entry.None? <==> forall i :: 0 <= i < |registry| ==> registry[i].documentType != document.docType)
      && (entry.Some? ==>
            (&& entry.value.documentType == document.docType
             && exists i :: 0 <= i < |registry| && registry[i] == entry.value
                  && forall j :: i < j < |registry| ==> registry[j].documentType != document.docType))
      && (entry.Some? && entry.value.registryType == Custom ==> Integrate(document, registry, env) == Integration(Ok(()), []))
      && (entry.Some? && entry.value.registryType in {ProgramEnrolment, Encounter} && document.ownerNameId.None? ==>
            Integrate(document, registry, env) == Integration(Err(DbError(OwnerIdExpected)), []))
      && (entry.Some? && Integrate(document, registry, env).updates != [] ==>
            var u := Integrate(document, registry, env).updates[0];
            match entry.value.registryType
            case Patient => u == PatientRowUpdate(document.id, document.datetime)
            case ProgramEnrolment => u == ProgramEnrolmentRowUpdate(document.id, document.ownerNameId.value)
            case Encounter =>
              && u.EncounterRowUpdate? && u.patientId == document.ownerNameId.value && u.context == document.context
              && u.clinicianId == ClinicianId(env.validateEncounter(document.data).value)
            case Custom => false)
  {
    var p := (e: DocumentRegistry) => e.documentType == document.docType;
    PopOfFilterIsLastMatch(registry, p);
    var entry := RegistryEntry(registry, document);
    if entry.Some? {
      var i :| LastMatchAt(registry, p, i) && registry[i] == entry.value;
    }
  }

  /** The tables sync integration writes: documents by id and the log of row updates made. */
  class DocumentSync {
    var documents: map<string, Document>
    var rowUpdates: seq<RowUpdate>
    const registry: seq<DocumentRegistry>

    constructor (documents: map<string, Document>, registry: seq<DocumentRegistry>)
      ensures this.documents == documents && this.registry == registry && rowUpdates == []
    {
      this.documents := documents;
      this.registry := registry;
      rowUpdates := [];
    }

    /**
     * `sync_upsert_document`: the document is inserted first, whatever follows; then the rows of
     * the integration are updated.
     */
    method SyncUpsertDocument(document: Document, env: IntegrationEnv) returns (r: Result<(), RepositoryError>)
      modifies this
      ensures documents == old(documents)[document.id := document]
      ensures r == Integrate(document, registry, env).result
      ensures rowUpdates == old(rowUpdates) + Integrate(document, registry, env).updates
    {
      documents := documents[document.id := document];
      var integration := Integrate(document, registry, env);
      rowUpdates := rowUpdates + integration.updates;
      r := integration.result;
    }
  }
}
