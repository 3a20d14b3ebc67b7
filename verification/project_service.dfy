/**
 * The project service of the national API: building the credit-calculator
 * request for a sub-sector, the project creation protocol, versioned
 * calculator constants, and the paging of project queries.
 *
 * The calculator, the serial-number generator, the year derivation and the
 * ledger are outside this model: the calculator, the generator and the year
 * are parameters (`Collaborators`), and `Create` returns the project record
 * that is handed to the ledger.
 */
module ProjectService {
  import opened Optional
  import opened Decimal
  import opened Counter

  /** The sub-sector tag of a project; any other tag value is `OtherSubSector`. */
  datatype SubSector = Agriculture | Solar | OtherSubSector(name: string)

  datatype AgricultureProperties = AgricultureProperties(landArea: real, landAreaUnit: string)

  datatype SolarProperties = SolarProperties(consumerGroup: string, energyGeneration: real, energyGenerationUnit: string)

  /** The creation request as received; start and end times are in seconds. */
  datatype ProjectDto = ProjectDto(
    subSector: SubSector,
    startTime: int,
    endTime: int,
    agricultureProperties: Option<AgricultureProperties>,
    solarProperties: Option<SolarProperties>,
    countryCodeA2: string,
    sectoralScope: string)

  /** A calculator constants payload: field name to numeric value. */
  type Config = map<string, real>

  /** One stored version of the constants of a sub-sector; `data` is absent when none was built. */
  datatype ConstantRow = ConstantRow(id: SubSector, version: nat, data: Option<Config>)

  /** The calculator request of each sub-sector. */
  datatype CreditRequest =
    | AgricultureRequest(duration: int, durationUnit: string, landArea: real, landAreaUnit: string,
                         agricultureConstants: Option<Config>)
    | SolarRequest(buildingType: string, energyGeneration: real, energyGenerationUnit: string,
                   solarConstants: Option<Config>)

  /** The status a project is created with; later status changes are not part of this model. */
  datatype ProjectStatus = Registered

  /** The project record handed to the ledger: the request's fields plus what creation assigns. */
  datatype Project = Project(
    details: ProjectDto,
    projectId: string,
    numberOfITMO: nat,
    constantVersion: string,
    serialNo: string,
    status: ProjectStatus)

  /**
   * What creation fails with: the "Unknown sub sector" error, the type error
   * raised when the sub-sector's properties object is missing, or a failure
   * thrown by the calculator.
   */
  datatype CreateError = UnknownSubSector(tag: string) | MissingProperties | CalculationFailed

  /**
   * The collaborators whose source is not part of this model.
   * `calculateCredit` yields `None` when it throws; `yearOf` maps a start
   * time in seconds to its calendar year.
   */
  datatype Collaborators = Collaborators(
    calculateCredit: CreditRequest -> Option<nat>,
    generateSerialNumber: (string, string, string, int, nat, nat) -> string,
    yearOf: int -> int)

  /** The outcome of `create`, with the counters as they stand afterwards. */
  datatype CreateResult =
    | Created(project: Project, startBlock: nat, endBlock: nat, counters: Counters)
    | Failed(error: CreateError, counters: Counters)

  // ---------------------------------------------------------------------------
  // Constants registry

  /**
   * `getLatestConstant`: the stored row of the sub-sector with the highest
   * version, or nothing when the sub-sector has no row.
   */
  function GetLatestConstant(rows: seq<ConstantRow>, t: SubSector): (r: Option<ConstantRow>)
    ensures r.None? <==> forall i :: 0 <= i < |rows| ==> rows[i].id != t
    ensures r.Some? ==> r.value in rows && r.value.id == t
    ensures r.Some? ==> forall i :: 0 <= i < |rows| && rows[i].id == t ==> rows[i].version <= r.value.version
  {
    if |rows| == 0 then None
    else
      var last := rows[|rows| - 1];
      var earlier := GetLatestConstant(rows[..|rows| - 1], t);
      assert forall i :: 0 <= i < |rows| - 1 ==> rows[i] == rows[..|rows| - 1][i];
      if last.id == t && (earlier.None? || earlier.value.version < last.version) then Some(last)
      else earlier
  }

  /** A received constants field: `undefined`, `null` or a number. */
  datatype Field = Undefined | Null | Value(v: real)

  /** The received constants of one sub-sector, as a plain object. */
  type Received = map<string, Field>

  /** The body of a constants update; either part may be missing. */
  datatype ConstantUpdate = ConstantUpdate(agricultureConstants: Option<Received>, solarConstants: Option<Received>)

  /** The calculator's default constants of each sub-sector. */
  datatype Defaults = Defaults(agriculture: Config, solar: Config)

  /** Whether a received field overrides the default: neither `undefined` nor `null`. */
  predicate Defined(recv: Received, k: string) {
    k in recv && recv[k].Value?
  }

  /** Copies every defined received field over the defaults. */
  function MergeDefined(defaults: Config, recv: Received): (config: Config)
    ensures config.Keys == defaults.Keys + set k | k in recv.Keys && Defined(recv, k)
    ensures forall k :: Defined(recv, k) ==> config[k] == recv[k].v
    ensures forall k :: k in defaults && !Defined(recv, k) ==> config[k] == defaults[k]
  {
    defaults + map k | k in recv.Keys && Defined(recv, k) :: recv[k].v
  }

  /** The config `updateCustomConstants` builds; none for a sub-sector other than the two. */
  function MergedConfig(defaults: Defaults, t: SubSector, update: ConstantUpdate): Option<Config> {
    match t
    case Agriculture => Some(MergeDefined(defaults.agriculture, update.agricultureConstants.GetOr(map[])))
    case Solar => Some(MergeDefined(defaults.solar, update.solarConstants.GetOr(map[])))
    case OtherSubSector(_) => None
  }

  /** The outcome of a constants update: the stored rows after saving and the saved row, or a rejection. */
  datatype UpdateResult =
    | Saved(rows: seq<ConstantRow>, row: ConstantRow)
    | BadRequest(message: string)

  const NoDifferenceMessage := "Not difference in the config from the previous version"

  /**
   * `updateCustomConstants`: merges the defined received fields over the
   * defaults, refuses a config equal to the latest stored one, and
   * otherwise stores it as the sub-sector's next version.
   */
  function UpdateCustomConstants(defaults: Defaults, rows: seq<ConstantRow>, t: SubSector, update: ConstantUpdate): (r: UpdateResult)
    ensures var existing := GetLatestConstant(rows, t);
      r.BadRequest? <==> existing.Some? && existing.value.data == MergedConfig(defaults, t, update)
    ensures r.BadRequest? ==> r.message == NoDifferenceMessage
    ensures r.Saved? ==> r.rows == rows + [r.row] && r.row.id == t && r.row.data == MergedConfig(defaults, t, update)
    ensures r.Saved? ==> GetLatestConstant(r.rows, t) == Some(r.row)
    ensures r.Saved? ==> forall i :: 0 <= i < |rows| && rows[i].id == t ==> rows[i].version < r.row.version
  {
    var config := MergedConfig(defaults, t, update);
    var existing := GetLatestConstant(rows, t);
    if existing.Some? && existing.value.data == config then
      BadRequest(NoDifferenceMessage)
    else
      var version := if existing.Some? then existing.value.version + 1 else 1;
      var row := ConstantRow(t, version, config);
      assert (rows + [row])[..|rows|] == rows;
      Saved(rows + [row], row)
  }

  /**
   * Sending the same update twice: the second is refused and stores
   * nothing, and the latest version is still the one the first stored.
   */
  lemma RepeatedUpdateRejected(defaults: Defaults, rows: seq<ConstantRow>, t: SubSector, update: ConstantUpdate)
    requires UpdateCustomConstants(defaults, rows, t, update).Saved?
    ensures var first := UpdateCustomConstants(defaults, rows, t, update);
      && UpdateCustomConstants(defaults, first.rows, t, update).BadRequest?
      && GetLatestConstant(first.rows, t) == Some(first.row)
  {
  }

  // ---------------------------------------------------------------------------
  // Creation

  /**
   * `getCreditRequest`: the calculator request of the project's sub-sector,
   * with the stored constants attached when a constants row exists.
   */
  function GetCreditRequest(dto: ProjectDto, constants: Option<ConstantRow>): (r: Result<CreditRequest, CreateError>)
    ensures dto.subSector.Agriculture? && dto.agricultureProperties.Some? <==> r.Ok? && r.value.AgricultureRequest?
    ensures dto.subSector.Solar? && dto.solarProperties.Some? <==> r.Ok? && r.value.SolarRequest?
    ensures dto.subSector.OtherSubSector? <==> r.Err? && r.error.UnknownSubSector?
    ensures dto.subSector.OtherSubSector? ==> r == Err(UnknownSubSector(dto.subSector.name))
    // reading the properties of a project that has none fails before the calculator runs
    ensures dto.subSector.Agriculture? && dto.agricultureProperties.None? ==> r == Err(MissingProperties)
    ensures dto.subSector.Solar? && dto.solarProperties.None? ==> r == Err(MissingProperties)
    ensures r.Ok? && r.value.AgricultureRequest? ==>
      && r.value.duration == dto.endTime - dto.startTime
      && r.value.durationUnit == "s"
      && r.value.landArea == dto.agricultureProperties.value.landArea
      && r.value.landAreaUnit == dto.agricultureProperties.value.landAreaUnit
      && (r.value.agricultureConstants.Some? ==> constants.Some? && r.value.agricultureConstants == constants.value.data)
      && (constants.Some? ==> r.value.agricultureConstants == constants.value.data)
    ensures r.Ok? && r.value.SolarRequest? ==>
      && r.value.buildingType == dto.solarProperties.value.consumerGroup
      && r.value.energyGeneration == dto.solarProperties.value.energyGeneration
      && r.value.energyGenerationUnit == dto.solarProperties.value.energyGenerationUnit
      && (r.value.solarConstants.Some? ==> constants.Some? && r.value.solarConstants == constants.value.data)
      && (constants.Some? ==> r.value.solarConstants == constants.value.data)
  {
    var attached := if constants.Some? then constants.value.data else None;
    match dto.subSector
    case Agriculture =>
      if dto.agricultureProperties.None? then Err(MissingProperties)
      else
        var p := dto.agricultureProperties.value;
        Ok(AgricultureRequest(dto.endTime - dto.startTime, "s", p.landArea, p.landAreaUnit, attached))
    case Solar =>
      if dto.solarProperties.None? then Err(MissingProperties)
      else
        var p := dto.solarProperties.value;
        Ok(SolarRequest(p.consumerGroup, p.energyGeneration, p.energyGenerationUnit, attached))
    case OtherSubSector(name) => Err(UnknownSubSector(name))
  }

  /** `String(version)` of the constants row used, or "default" when there was none. */
  function ConstantVersionTag(constants: Option<ConstantRow>): (tag: string)
    ensures constants.None? <==> tag == "default"
    ensures constants.Some? ==> AllDigits(tag) && ParseDigits(tag) == constants.value.version
    ensures constants.Some? ==> tag == ToDecimal(constants.value.version)
  {
    if constants.Some? then
      ParseToDecimal(constants.value.version);
      ToDecimal(constants.value.version)
    else
      "default"
  }

  /** The zero-padding width of project ids. */
  const ProjectIdWidth: nat := 4

  /**
   * `create`: draws the project id, reads the ITMO counter, builds and runs
   * the calculator request, advances the ITMO counter by the credit, and
   * assembles the registered project with its serial number.
   */
  function Create(collab: Collaborators, counters: Counters, rows: seq<ConstantRow>, dto: ProjectDto): (r: CreateResult)
    // the project id is drawn first, so every attempt consumes one
    ensures r.counters.project == counters.project + 1
    // the ITMO counter only moves once the credit is known
    ensures r.Failed? ==> r.counters.itmo == counters.itmo
    ensures dto.subSector.OtherSubSector? ==> r.Failed? && r.error == UnknownSubSector(dto.subSector.name)
    ensures r.Failed? && r.error == CalculationFailed <==>
      var req := GetCreditRequest(dto, GetLatestConstant(rows, dto.subSector));
      req.Ok? && collab.calculateCredit(req.value).None?
    // creation succeeds exactly when the request builds and the calculator gives a credit
    ensures r.Created? <==>
      var req := GetCreditRequest(dto, GetLatestConstant(rows, dto.subSector));
      req.Ok? && collab.calculateCredit(req.value).Some?
    // any other failure is the request's own error
    ensures r.Failed? && r.error != CalculationFailed ==>
      var req := GetCreditRequest(dto, GetLatestConstant(rows, dto.subSector));
      req.Err? && r.error == req.error
    ensures r.Created? ==>
      var p := r.project;
      var constants := GetLatestConstant(rows, dto.subSector);
      var req := GetCreditRequest(dto, constants);
      && req.Ok? && collab.calculateCredit(req.value) == Some(p.numberOfITMO)
      && p.details == dto
      && |p.projectId| >= ProjectIdWidth && AllDigits(p.projectId)
      && ParseDigits(p.projectId) == counters.project + 1
      && r.startBlock == counters.itmo + 1
      && r.endBlock == counters.itmo + p.numberOfITMO
      && r.counters.itmo == r.endBlock
      && p.serialNo == collab.generateSerialNumber(dto.countryCodeA2, dto.sectoralScope, p.projectId,
                                                   collab.yearOf(dto.startTime), r.startBlock, r.endBlock)
      && (p.constantVersion == "default" <==> constants.None?)
      && (constants.Some? ==> p.constantVersion == ToDecimal(constants.value.version))
      && (constants.Some? ==> AllDigits(p.constantVersion) && ParseDigits(p.constantVersion) == constants.value.version)
      && p.status == Registered
  {
    var drawn := IncrementCount(counters, CounterType.Project, ProjectIdWidth, 1);
    var year := collab.yearOf(dto.startTime);
    var startBlock := GetCount(drawn.0, Itmo) + 1;
    var constants := GetLatestConstant(rows, dto.subSector);
    var req := GetCreditRequest(dto, constants);
    if req.Err? then Failed(req.error, drawn.0)
    else
      var credit := collab.calculateCredit(req.value);
      if credit.None? then Failed(CalculationFailed, drawn.0)
      else
        Issue(collab, drawn.0, drawn.1, dto, constants, year, startBlock, credit.value)
  }

  /**
   * The steps of `create` once the credit is known: advance the ITMO
   * counter by it, record the constants tag, build the serial number.
   */
  function Issue(collab: Collaborators, counters: Counters, projectId: string, dto: ProjectDto,
                 constants: Option<ConstantRow>, year: int, startBlock: nat, numberOfITMO: nat): (r: CreateResult)
    requires startBlock == counters.itmo + 1
    ensures r.Created? && r.counters == counters.(itmo := counters.itmo + numberOfITMO)
    ensures r.startBlock == startBlock && r.endBlock == counters.itmo + numberOfITMO
    ensures r.project == Project.Project(dto, projectId, numberOfITMO, ConstantVersionTag(constants),
      collab.generateSerialNumber(dto.countryCodeA2, dto.sectoralScope, projectId, year, startBlock, r.endBlock),
      Registered)
  {
    var constantVersion := ConstantVersionTag(constants);
    var advanced := IncrementCount(counters, Itmo, 0, numberOfITMO);
    assert GetCount(advanced.0, CounterType.Project) == counters.project;
    var endBlock := ParseDigits(advanced.1);
    assert endBlock == counters.itmo + numberOfITMO;
    var serialNo := collab.generateSerialNumber(dto.countryCodeA2, dto.sectoralScope, projectId, year, startBlock, endBlock);
    Created(Project.Project(dto, projectId, numberOfITMO, constantVersion, serialNo, Registered), startBlock, endBlock, advanced.0)
  }

  /**
   * Two creations one after the other get different project ids and
   * credit blocks that do not overlap: the second block starts right
   * after the first ends.
   */
  lemma SequentialCreationsDoNotOverlap(collab: Collaborators, counters: Counters, rows: seq<ConstantRow>, a: ProjectDto, b: ProjectDto)
    requires Create(collab, counters, rows, a).Created?
    requires Create(collab, Create(collab, counters, rows, a).counters, rows, b).Created?
    ensures var first := Create(collab, counters, rows, a);
      var second := Create(collab, first.counters, rows, b);
      && first.project.projectId != second.project.projectId
      && first.endBlock < second.startBlock
      && second.startBlock == first.endBlock + 1
  {
  }

  // ---------------------------------------------------------------------------
  // Query paging

  /** The number of rows `query` skips: `size * page - size`. */
  function Skip(size: int, page: int): (skip: int)
    ensures skip == (page - 1) * size
    ensures page >= 1 && size >= 0 ==> skip >= 0
  {
    size * page - size
  }

  /** The rows of one page: skip `Skip(size, page)` rows, then take `size`. */
  function QueryPage<T>(rows: seq<T>, size: nat, page: nat): (r: seq<T>)
    requires page >= 1
    ensures |r| <= size
    ensures var s := Skip(size, page); s <= |rows| ==> r == rows[s..if s + size <= |rows| then s + size else |rows|]
    ensures Skip(size, page) >= |rows| ==> r == []
  {
    var skip := Skip(size, page);
    if skip >= |rows| then []
    else if skip + size <= |rows| then rows[skip..skip + size]
    else rows[skip..]
  }

  /** The first `pages` pages of `rows`, one after the other. */
  function PagesUpTo<T>(rows: seq<T>, size: nat, pages: nat): seq<T> {
    if pages == 0 then [] else PagesUpTo(rows, size, pages - 1) + QueryPage(rows, size, pages)
  }

  /**
   * Paging neither skips nor repeats a row: pages 1 to `pages` read in
   * order are exactly the first `pages * size` rows.
   */
  lemma {:induction false} PagesTileRows<T>(rows: seq<T>, size: nat, pages: nat)
    ensures PagesUpTo(rows, size, pages) == rows[..if pages * size <= |rows| then pages * size else |rows|]
  {
    if pages > 0 {
      PagesTileRows(rows, size, pages - 1);
      var lo := (pages - 1) * size;
      var hi := pages * size;
      assert hi == lo + size;
      if lo <= |rows| {
        var end := if hi <= |rows| then hi else |rows|;
        assert rows[..end] == rows[..lo] + rows[lo..end];
      }
    }
  }
}
