/**
 * Program documents: the stored, versioned JSON documents behind patients, program enrolments
 * and encounters, and the test of whether a document is the latest version under its name.
 */
module Documents {
  import opened Wrappers
  import opened Repository

  /** JSON data, kept as its text; what a schema accepts is decided by the parse functions passed in. */
  datatype Json = Json(text: string)

  /** A stored document version. Times are instants on one integer clock. */
  datatype Document = Document(
    id: string,
    name: string,
    parents: seq<string>,
    author: string,
    datetime: int,
    docType: string,
    data: Json,
    schemaId: Option<string>,
    ownerNameId: Option<string>,
    context: string)

  /** A document as a service submits it, before it is stored and given an id. */
  datatype RawDocument = RawDocument(
    name: string,
    parents: seq<string>,
    author: string,
    timestamp: int,
    docType: string,
    data: Json,
    schemaId: Option<string>)

  /**
   * `is_latest_doc`, given the answer of the latest-version lookup for the name: no stored version
   * means latest; otherwise the document is the latest exactly when the stored version is not
   * later. A lookup error is passed on unchanged.
   */
  function IsLatestDoc(latestExisting: Result<Option<Document>, RepositoryError>, docTimestamp: int)
    : (r: Result<bool, RepositoryError>)
    ensures latestExisting.Err? ==> r == Err(latestExisting.error)
    ensures latestExisting == Ok(None) ==> r == Ok(true)
    ensures latestExisting.Ok? && latestExisting.value.Some? ==>
      r == Ok(latestExisting.value.value.datetime <= docTimestamp)
  {
    match latestExisting
    case Err(e) => Err(e)
    case Ok(None) => Ok(true)
    case Ok(Some(latest)) => Ok(latest.datetime <= docTimestamp)
  }

  /** `d` is a version under `name` at least as recent as every stored version under that name. */
  ghost predicate IsLatestVersion(docs: seq<Document>, name: string, d: Document)
  {
    && d in docs && d.name == name
    && forall i :: 0 <= i < |docs| && docs[i].name == name ==> docs[i].datetime <= d.datetime
  }

  /** The lookup answers the latest stored version under `name`, or None when there is none. */
  ghost predicate AnswersLatest(docs: seq<Document>, name: string, latestExisting: Option<Document>)
  {
    match latestExisting
    case None => forall i :: 0 <= i < |docs| ==> docs[i].name != name
    case Some(d) => IsLatestVersion(docs, name, d)
  }

  /**
   * With a lookup that answers the latest stored version, a document is the latest exactly when
   * no stored version under its name is later than it.
   */
  lemma IsLatestDocMeansNoLaterVersion(docs: seq<Document>, name: string, latestExisting: Option<Document>, docTimestamp: int)
    requires AnswersLatest(docs, name, latestExisting)
    ensures IsLatestDoc(Ok(latestExisting), docTimestamp) == Ok(true) <==>
      forall i :: 0 <= i < |docs| && docs[i].name == name ==> docs[i].datetime <= docTimestamp
  {
    if latestExisting.Some? && IsLatestDoc(Ok(latestExisting), docTimestamp) != Ok(true) {
      var j :| 0 <= j < |docs| && docs[j] == latestExisting.value;
      assert docs[j].name == name && docs[j].datetime > docTimestamp;
    }
  }
}
