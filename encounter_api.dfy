/**
 * The GraphQL types of encounters: their status, sort and filter inputs in GraphQL terms and in
 * repository terms, and the query for the active program events of an encounter.
 */
module EncounterApi {
  import opened Wrappers
  import opened Repository

  datatype EncounterNodeStatus = Pending | Visited | Cancelled

  /** The repository's encounter status. */
  datatype EncounterStatus = Pending | Visited | Cancelled

  function StatusToDomain(s: EncounterNodeStatus): EncounterStatus
  {
    match s
    case Pending => EncounterStatus.Pending
    case Visited => EncounterStatus.Visited
    case Cancelled => EncounterStatus.Cancelled
  }

  function StatusFromDomain(s: EncounterStatus): EncounterNodeStatus
  {
    match s
    case Pending => EncounterNodeStatus.Pending
    case Visited => EncounterNodeStatus.Visited
    case Cancelled => EncounterNodeStatus.Cancelled
  }

  /** The two status mappings are inverse to each other. */
  lemma StatusRoundTrips(n: EncounterNodeStatus, d: EncounterStatus)
    ensures StatusFromDomain(StatusToDomain(n)) == n
    ensures StatusToDomain(StatusFromDomain(d)) == d
  {
  }

  datatype EncounterSortFieldInput = Type | PatientId | Program | CreatedDatetime | StartDatetime | EndDatetime | Status

  datatype EncounterSortField = DocumentType | PatientId | Context | CreatedDatetime | StartDatetime | EndDatetime | Status

  datatype EncounterSortInput = EncounterSortInput(key: EncounterSortFieldInput, desc: Option<bool>)

  datatype EncounterSort = EncounterSort(key: EncounterSortField, desc: Option<bool>)

  /** The repository sort key of each GraphQL sort key; `SortFieldFromDomain` undoes it. */
  function SortFieldToDomain(k: EncounterSortFieldInput): (r: EncounterSortField)
    ensures SortFieldFromDomain(r) == k
    ensures k == Type <==> r == DocumentType
    ensures k == Program <==> r == Context
  {
    match k
    case Type => DocumentType
    case PatientId => EncounterSortField.PatientId
    case Program => Context
    case CreatedDatetime => EncounterSortField.CreatedDatetime
    case StartDatetime => EncounterSortField.StartDatetime
    case EndDatetime => EncounterSortField.EndDatetime
    case Status => EncounterSortField.Status
  }

  /** The GraphQL sort key each repository sort key comes from. */
  function SortFieldFromDomain(k: EncounterSortField): (r: EncounterSortFieldInput)
    ensures k == DocumentType <==> r == Type
    ensures k == Context <==> r == Program
  {
    match k
    case DocumentType => Type
    case PatientId => EncounterSortFieldInput.PatientId
    case Context => Program
    case CreatedDatetime => EncounterSortFieldInput.CreatedDatetime
    case StartDatetime => EncounterSortFieldInput.StartDatetime
    case EndDatetime => EncounterSortFieldInput.EndDatetime
    case Status => EncounterSortFieldInput.Status
  }

  /** `EncounterSortInput::to_domain`: the key renamed, the direction copied. */
  function SortToDomain(s: EncounterSortInput): (r: EncounterSort)
    ensures r.desc == s.desc
    ensures s.key == Type <==> r.key == DocumentType
    ensures s.key == Program <==> r.key == Context
    ensures SortFieldFromDomain(r.key) == s.key
  {
    EncounterSort(SortFieldToDomain(s.key), s.desc)
  }

  /** Every repository sort is reached from exactly one GraphQL sort. */
  lemma SortToDomainIsBijective(s: EncounterSortInput, t: EncounterSortInput, d: EncounterSort)
    ensures SortToDomain(s) == SortToDomain(t) ==> s == t
    ensures SortToDomain(EncounterSortInput(SortFieldFromDomain(d.key), d.desc)) == d
  {
  }

  /** `EqualFilterEncounterStatusInput`. */
  datatype EqualFilterEncounterStatusInput = EqualFilterEncounterStatusInput(
    equalTo: Option<EncounterNodeStatus>,
    equalAny: Option<seq<EncounterNodeStatus>>,
    notEqualTo: Option<EncounterNodeStatus>)

  /** The GraphQL status filter as a predicate on GraphQL statuses. */
  predicate StatusInputMatches(f: EqualFilterEncounterStatusInput, s: EncounterNodeStatus)
  {
    && (f.equalTo.Some? ==> s == f.equalTo.value)
    && (f.equalAny.Some? ==> s in f.equalAny.value)
    && (f.notEqualTo.Some? ==> s != f.notEqualTo.value)
  }

  function StatusesToDomain(ss: seq<EncounterNodeStatus>): (r: seq<EncounterStatus>)
    ensures |r| == |ss|
    ensures forall i :: 0 <= i < |ss| ==> r[i] == StatusToDomain(ss[i])
  {
    seq(|ss|, (i: int) requires 0 <= i < |ss| => StatusToDomain(ss[i]))
  }

  /** `map_filter!(s, EncounterNodeStatus::to_domain)`: each value of the filter mapped. */
  function StatusFilterToDomain(f: EqualFilterEncounterStatusInput): EqualFilter<EncounterStatus>
  {
    NoEqualFilter().(
      equalTo := match f.equalTo case Some(s) => Some(StatusToDomain(s)) case None => None,
      equalAny := match f.equalAny case Some(ss) => Some(StatusesToDomain(ss)) case None => None,
      notEqualTo := match f.notEqualTo case Some(s) => Some(StatusToDomain(s)) case None => None)
  }

  /**
   * Filtering encounters by the mapped status filter selects exactly the encounters whose status
   * the GraphQL filter selects, and never an encounter without a status.
   */
  lemma StatusFilterToDomainSelectsTheSame(f: EqualFilterEncounterStatusInput, s: EncounterNodeStatus)
    ensures MatchesEqual(StatusFilterToDomain(f), Some(StatusToDomain(s))) <==> StatusInputMatches(f, s)
    ensures !MatchesEqual(StatusFilterToDomain(f), None) || f == EqualFilterEncounterStatusInput(None, None, None)
  {
    var g := StatusFilterToDomain(f);
    if f.equalAny.Some? {
      var ss := f.equalAny.value;
      var ds := StatusesToDomain(ss);
      if s in ss {
        var i :| 0 <= i < |ss| && ss[i] == s;
        assert ds[i] == StatusToDomain(s);
      }
      if StatusToDomain(s) in ds {
        var i :| 0 <= i < |ds| && ds[i] == StatusToDomain(s);
        StatusRoundTrips(ss[i], ds[i]);
        StatusRoundTrips(s, ds[i]);
        assert ss[i] == s;
      }
    }
  }

  /** The repository's string filter on JSON document data; its own fields are not followed. */
  datatype StringFilter = StringFilter(equalTo: Option<string>, like: Option<string>)

  /** `EncounterFilterInput`; the generic GraphQL filters arrive already converted. */
  datatype EncounterFilterInput = EncounterFilterInput(
    id: Option<EqualFilter<string>>,
    encounterType: Option<EqualFilter<string>>,
    patientId: Option<EqualFilter<string>>,
    program: Option<EqualFilter<string>>,
    createdDatetime: Option<DatetimeFilter>,
    startDatetime: Option<DatetimeFilter>,
    endDatetime: Option<DatetimeFilter>,
    status: Option<EqualFilterEncounterStatusInput>,
    clinicianId: Option<EqualFilter<string>>,
    documentName: Option<EqualFilter<string>>,
    documentData: Option<StringFilter>)

  datatype EncounterFilter = EncounterFilter(
    id: Option<EqualFilter<string>>,
    patientId: Option<EqualFilter<string>>,
    context: Option<EqualFilter<string>>,
    createdDatetime: Option<DatetimeFilter>,
    startDatetime: Option<DatetimeFilter>,
    status: Option<EqualFilter<EncounterStatus>>,
    endDatetime: Option<DatetimeFilter>,
    clinicianId: Option<EqualFilter<string>>,
    documentType: Option<EqualFilter<string>>,
    documentName: Option<EqualFilter<string>>,
    documentData: Option<StringFilter>)

  /** `EncounterFilterInput::to_domain_filter`: `program` becomes `context`, `type` becomes `document_type`. */
  function FilterToDomain(f: EncounterFilterInput): (r: EncounterFilter)
    ensures r.context == f.program && r.documentType == f.encounterType
    ensures r.id == f.id && r.patientId == f.patientId && r.clinicianId == f.clinicianId
    ensures r.documentName == f.documentName && r.documentData == f.documentData
    ensures r.createdDatetime == f.createdDatetime && r.startDatetime == f.startDatetime && r.endDatetime == f.endDatetime
    ensures r.status.None? <==> f.status.None?
    ensures r.status.Some? ==> r.status.value == StatusFilterToDomain(f.status.value)
  {
    EncounterFilter(
      f.id, f.patientId, f.program, f.createdDatetime, f.startDatetime,
      match f.status case Some(s) => Some(StatusFilterToDomain(s)) case None => None,
      f.endDatetime, f.clinicianId, f.encounterType, f.documentName, f.documentData)
  }

  /** Distinct GraphQL filters give distinct repository filters: no field is dropped or merged. */
  lemma FilterToDomainInjective(f: EncounterFilterInput, g: EncounterFilterInput)
    requires FilterToDomain(f) == FilterToDomain(g)
    ensures f == g
  {
    if f.status.Some? {
      var a := f.status.value;
      var b := g.status.value;
      var da := StatusFilterToDomain(a);
      assert da == StatusFilterToDomain(b);
      if a.equalTo.Some? { StatusRoundTrips(a.equalTo.value, da.equalTo.value); StatusRoundTrips(b.equalTo.value, da.equalTo.value); }
      if a.notEqualTo.Some? { StatusRoundTrips(a.notEqualTo.value, da.notEqualTo.value); StatusRoundTrips(b.notEqualTo.value, da.notEqualTo.value); }
      if a.equalAny.Some? {
        var xs := a.equalAny.value;
        var ys := b.equalAny.value;
        assert |xs| == |ys|;
        forall i | 0 <= i < |xs| ensures xs[i] == ys[i] {
          StatusRoundTrips(xs[i], StatusToDomain(xs[i]));
          StatusRoundTrips(ys[i], StatusToDomain(ys[i]));
          assert StatusesToDomain(xs)[i] == StatusesToDomain(ys)[i];
        }
        assert xs == ys;
      }
      assert a == b;
    }
  }

  /** The program-event filter; `eventType` is its `type` field. */
  datatype ProgramEventFilter = ProgramEventFilter(
    datetime: Option<DatetimeFilter>,
    activeStartDatetime: Option<DatetimeFilter>,
    activeEndDatetime: Option<DatetimeFilter>,
    patientId: Option<EqualFilter<string>>,
    documentType: Option<EqualFilter<string>>,
    documentName: Option<EqualFilter<string>>,
    eventType: Option<EqualFilter<string>>,
    context: Option<EqualFilter<string>>)

  function NewProgramEventFilter(): ProgramEventFilter
  {
    ProgramEventFilter(None, None, None, None, None, None, None, None)
  }

  datatype EncounterEventFilterInput = EncounterEventFilterInput(eventType: Option<EqualFilter<string>>, isCurrentEncounter: Option<bool>)

  /** `EncounterEventFilterInput::to_domain`: only the event type is constrained. */
  function EventFilterToDomain(f: EncounterEventFilterInput): (r: ProgramEventFilter)
    ensures r == NewProgramEventFilter().(eventType := f.eventType)
    ensures r.patientId.None? && r.documentType.None? && r.documentName.None? && r.context.None?
  {
    NewProgramEventFilter().(eventType := f.eventType)
  }

  datatype EncounterRow = EncounterRow(
    id: string,
    documentType: string,
    documentName: string,
    patientId: string,
    context: string,
    createdDatetime: int,
    startDatetime: int,
    endDatetime: Option<int>,
    status: Option<EncounterStatus>,
    clinicianId: Option<string>)

  /** The `status` field of an encounter node. */
  function NodeStatus(row: EncounterRow): (r: Option<EncounterNodeStatus>)
    ensures r.None? <==> row.status.None?
    ensures r.Some? ==> StatusToDomain(r.value) == row.status.value
  {
    match row.status
    case Some(s) => Some(StatusFromDomain(s))
    case None => None
  }

  datatype ProgramEventSortField = Datetime

  datatype ProgramEventSort = ProgramEventSort(key: ProgramEventSortField, desc: Option<bool>)

  /** The request `active_program_events` sends to the program event service. */
  datatype ActiveEventsRequest = ActiveEventsRequest(at: int, filter: ProgramEventFilter, sort: ProgramEventSort)

  /**
   * `active_program_events`, up to the service call: the caller's event filter (or none),
   * narrowed to the encounter's patient and document type, and to the encounter's own document
   * when `is_current_encounter` is set; at `at`, or `now` when no time is given; newest first.
   */
  function ActiveProgramEventsRequest(row: EncounterRow, at: Option<int>, now: int, filter: Option<EncounterEventFilterInput>)
    : (r: ActiveEventsRequest)
    ensures r.filter.patientId == Some(EqualTo(row.patientId))
    ensures r.filter.documentType == Some(EqualTo(row.documentType))
    ensures r.filter.eventType == (if filter.Some? then filter.value.eventType else None)
    ensures (filter.Some? && filter.value.isCurrentEncounter == Some(true)) ==> r.filter.documentName == Some(EqualTo(row.documentName))
    ensures !(filter.Some? && filter.value.isCurrentEncounter == Some(true)) ==> r.filter.documentName.None?
    ensures r.at == (if at.Some? then at.value else now)
    ensures r.sort == ProgramEventSort(Datetime, Some(true))
  {
    var programFilter :=
      (match filter case Some(f) => EventFilterToDomain(f) case None => NewProgramEventFilter())
      .(patientId := Some(EqualTo(row.patientId)), documentType := Some(EqualTo(row.documentType)));
    var programFilter :=
      if (match filter case Some(f) => f.isCurrentEncounter.UnwrapOr(false) case None => false) then
        programFilter.(documentName := Some(EqualTo(row.documentName)))
      else programFilter;
    ActiveEventsRequest(at.UnwrapOr(now), programFilter, ProgramEventSort(Datetime, Some(true)))
  }

  /** A program event, with the columns the request filters on. */
  datatype ProgramEventRow = ProgramEventRow(
    patientId: Option<string>,
    documentType: string,
    documentName: Option<string>,
    eventType: string,
    context: string)

  predicate MatchesEqualOpt(f: Option<EqualFilter<string>>, v: Option<string>)
  {
    f.None? || MatchesEqual(f.value, v)
  }

  predicate EventMatches(f: ProgramEventFilter, e: ProgramEventRow)
  {
    && MatchesEqualOpt(f.patientId, e.patientId)
    && MatchesEqualOpt(f.documentType, Some(e.documentType))
    && MatchesEqualOpt(f.documentName, e.documentName)
    && MatchesEqualOpt(f.eventType, Some(e.eventType))
    && MatchesEqualOpt(f.context, Some(e.context))
  }

  /**
   * Every event the request selects is the encounter patient's, of the encounter's document type,
   * and, for the current encounter only, of the encounter's own document.
   */
  lemma ActiveEventsBelongToEncounter(row: EncounterRow, at: Option<int>, now: int, filter: Option<EncounterEventFilterInput>,
                                      e: ProgramEventRow)
    requires EventMatches(ActiveProgramEventsRequest(row, at, now, filter).filter, e)
    ensures e.patientId == Some(row.patientId) && e.documentType == row.documentType
    ensures filter.Some? && filter.value.isCurrentEncounter == Some(true) ==> e.documentName == Some(row.documentName)
  {
  }
}
