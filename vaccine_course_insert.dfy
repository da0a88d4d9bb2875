/**
 * Inserting a vaccine course: in one transaction, validate (the id is new, the program and the
 * demographic indicator exist), generate the row with its default rates, store it, log the
 * creation and read the course back.
 */
module VaccineCourseInsert {
  import opened Wrappers
  import opened Repository
  import opened ActivityLog
  import opened VaccineCourseRow

  datatype InsertVaccineCourseError =
    | VaccineCourseAlreadyExists
    | CreatedRecordNotFound
    | ProgramDoesNotExist
    | DemographicIndicatorDoesNotExist
    | DatabaseError(error: RepositoryError)

  datatype InsertVaccineCourse = InsertVaccineCourse(
    id: string, name: string, programId: string, demographicIndicatorId: string)

  /** The single-record lookup error of the query service. */
  datatype SingleRecordError = SingleRecordDatabaseError(error: RepositoryError) | NotFound(id: string)

  /**
   * `validate`: the first failing check wins: an existing course id, then a missing program,
   * then a missing demographic indicator. The `check_*_exists` helpers are lookups by id.
   */
  function Validate(input: InsertVaccineCourse, courses: Table, programIds: set<string>, indicatorIds: set<string>)
    : (r: Result<(), InsertVaccineCourseError>)
    ensures r.Ok? <==> input.id !in courses && input.programId in programIds && input.demographicIndicatorId in indicatorIds
    ensures r == Err(VaccineCourseAlreadyExists) <==> input.id in courses
    ensures r == Err(ProgramDoesNotExist) <==> input.id !in courses && input.programId !in programIds
    ensures r == Err(DemographicIndicatorDoesNotExist)
        <==> input.id !in courses && input.programId in programIds && input.demographicIndicatorId !in indicatorIds
  {
    if input.id in courses then Err(VaccineCourseAlreadyExists)
    else if input.programId !in programIds then Err(ProgramDoesNotExist)
    else if input.demographicIndicatorId !in indicatorIds then Err(DemographicIndicatorDoesNotExist)
    else Ok(())
  }

  /** `generate`: the input's four fields, full coverage, active, no wastage, one dose. */
  function Generate(input: InsertVaccineCourse): (row: VaccineCourseRow)
    ensures row.id == input.id && row.name == input.name
    ensures row.programId == input.programId && row.demographicIndicatorId == input.demographicIndicatorId
    ensures row.coverageRate == 100.0 && row.isActive && row.wastageRate == 0.0 && row.doses == 1
  {
    VaccineCourseRow(input.id, input.name, input.programId, input.demographicIndicatorId, 100.0, true, 0.0, 1)
  }

  /** `From<SingleRecordError>`: a missing record becomes `CreatedRecordNotFound`. */
  function FromSingleRecordError(e: SingleRecordError): (r: InsertVaccineCourseError)
    ensures e.NotFound? <==> r == CreatedRecordNotFound
    ensures e.SingleRecordDatabaseError? ==> r == DatabaseError(e.error)
  {
    match e
    case SingleRecordDatabaseError(err) => DatabaseError(err)
    case NotFound(_) => CreatedRecordNotFound
  }

  /** `get_vaccine_course` (not part of this model): a lookup by id that fails with NotFound. */
  function GetVaccineCourse(courses: Table, id: string): (r: Result<VaccineCourseRow, SingleRecordError>)
    requires KeyedById(courses)
    ensures r.Ok? <==> FindOneById(courses, id).Some?
    ensures r.Ok? ==> r.value == courses[id]
  {
    if id in courses then Ok(courses[id]) else Err(SingleRecordError.NotFound(id))
  }

  /** Validation that passes leads to a row that the read-back finds, so `CreatedRecordNotFound` cannot arise. */
  lemma ReadBackFindsGenerated(input: InsertVaccineCourse, courses: Table)
    requires KeyedById(courses)
    ensures KeyedById(courses[input.id := Generate(input)])
    ensures GetVaccineCourse(courses[input.id := Generate(input)], input.id) == Ok(Generate(input))
  {
  }

  /** The part of the database the insert reads and writes. */
  class VaccineCourseDatabase {
    const courses: VaccineCourseRowRepository
    const programIds: set<string>
    const indicatorIds: set<string>
    var activityLog: seq<ActivityLogEntry>

    ghost predicate Valid()
      reads this, courses
    {
      courses.Valid()
    }

    constructor (courses: VaccineCourseRowRepository, programIds: set<string>, indicatorIds: set<string>)
      requires courses.Valid()
      ensures Valid() && this.courses == courses && activityLog == []
      ensures this.programIds == programIds && this.indicatorIds == indicatorIds
    {
      this.courses := courses;
      this.programIds := programIds;
      this.indicatorIds := indicatorIds;
      activityLog := [];
    }

    /**
     * `insert_vaccine_course`: a failed validation changes nothing; otherwise the generated row
     * is stored, a `VaccineCourseCreated` entry for its id is logged, and the row is returned.
     */
    method InsertVaccineCourse(input: InsertVaccineCourse) returns (r: Result<VaccineCourseRow, InsertVaccineCourseError>)
      requires Valid()
      modifies this, courses
      ensures Valid()
      ensures var v := Validate(input, old(courses.rows), programIds, indicatorIds);
        if v.Err? then r == Err(v.error) && courses.rows == old(courses.rows) && activityLog == old(activityLog)
        else
          && r == Ok(Generate(input))
          && courses.rows == old(courses.rows)[input.id := Generate(input)]
          && activityLog == old(activityLog) + [ActivityLogEntry(VaccineCourseCreated, Some(input.id))]
    {
      var v := Validate(input, courses.rows, programIds, indicatorIds);
      if v.Err? {
        return Err(v.error);
      }
      var row := Generate(input);
      courses.UpsertOne(row);
      activityLog := activityLog + [ActivityLogEntry(VaccineCourseCreated, Some(row.id))];
      var readBack := GetVaccineCourse(courses.rows, row.id);
      r := match readBack
        case Ok(course) => Ok(course)
        case Err(e) => Err(FromSingleRecordError(e));
    }
  }
}
