/** The resource-validation HTTP handler: it checks that a resource group
    (and optionally a virtual machine in it) exists and is configured as
    policy demands, and reports a compliance score.

    The two management-API calls are injected as total functions that return
    a lookup outcome; everything else is the handler's own decision logic. */
module ResourceValidator {

  datatype Option<T> = None | Some(value: T)

  /** A value, or the message of an error that was thrown. */
  datatype Result<T> = Ok(value: T) | Thrown(message: string)

  // ---------------------------------------------------------------------
  // Requests and parameter extraction
  // ---------------------------------------------------------------------

  /** Query string or body fields; a key that is absent reads as undefined. */
  type Fields = map<string, string>

  /** An inbound request: its query string and, when there is one, its body. */
  datatype Request = Request(query: Fields, body: Option<Fields>)

  const ResourceGroupKey: string := "resourceGroupName"
  const VmKey: string := "vmName"

  function Field(m: Fields, key: string): Option<string>
  {
    if key in m then Some(m[key]) else None
  }

  /** JavaScript truthiness of a string-or-undefined value. */
  predicate Truthy(v: Option<string>)
  {
    v.Some? && v.value != ""
  }

  /** The parameter `key`: the query's value when it is truthy, otherwise the
      body's value; every falsy outcome (no body, an undefined field or the
      empty string) is None. */
  function Param(req: Request, key: string): (r: Option<string>)
    ensures r.Some? ==> r.value != ""
    ensures Truthy(Field(req.query, key)) ==> r == Field(req.query, key)
    ensures !Truthy(Field(req.query, key)) ==>
              (r.Some? <==> req.body.Some? && Truthy(Field(req.body.value, key)))
    ensures !Truthy(Field(req.query, key)) && r.Some? ==>
              r == Field(req.body.value, key)
  {
    var q := Field(req.query, key);
    if Truthy(q) then q
    else match req.body
      case None => None
      case Some(b) => if Truthy(Field(b, key)) then Field(b, key) else None
  }

  // ---------------------------------------------------------------------
  // Collaborators: the two directory lookups
  // ---------------------------------------------------------------------

  /** Outcome of a management-API `get`: the record, an error whose
      `statusCode` is 404, or any other error with its message. */
  datatype Lookup<R> = Found(record: R) | NotFound | Failure(message: string)

  /** The parts of a virtual-machine record the handler reads; a field that
      the API left undefined is None. */
  datatype OsDisk = OsDisk(osType: Option<string>)
  datatype StorageProfile = StorageProfile(osDisk: Option<OsDisk>)
  datatype HardwareProfile = HardwareProfile(vmSize: Option<string>)
  datatype VirtualMachine = VirtualMachine(
    name: Option<string>,
    storageProfile: Option<StorageProfile>,
    hardwareProfile: Option<HardwareProfile>)

  /** The message of the TypeError a JavaScript engine (V8) throws when a
      property is read from undefined. */
  function ReadError(property: string): string
  {
    "Cannot read properties of undefined (reading '" + property + "')"
  }

  /** The OS type under the storage profile's OS disk; reading through a
      missing profile or disk throws. */
  function ReadOsType(vm: VirtualMachine): Result<Option<string>>
  {
    match vm.storageProfile
    case None => Thrown(ReadError("osDisk"))
    case Some(sp) =>
      match sp.osDisk
      case None => Thrown(ReadError("osType"))
      case Some(disk) => Ok(disk.osType)
  }

  /** The size under the hardware profile; a missing profile throws. */
  function ReadVmSize(vm: VirtualMachine): Result<Option<string>>
  {
    match vm.hardwareProfile
    case None => Thrown(ReadError("vmSize"))
    case Some(hp) => Ok(hp.vmSize)
  }

  /** A call the handler makes to a collaborator, in the order made. */
  datatype Call =
    | GetResourceGroup(resourceGroupName: string)
    | GetVirtualMachine(resourceGroupName: string, vmName: string)

  // ---------------------------------------------------------------------
  // Scoring policy
  // ---------------------------------------------------------------------

  const MaxPointsPerCheck: int := 10
  const ValidVmSizes: seq<string> := ["Standard_DC2ds_v3", "Standard_B2s", "Standard_D2s_v3"]

  /** The OS types policy accepts, compared exactly and case-sensitively. */
  predicate ValidOsType(osType: Option<string>)
  {
    osType == Some("Linux") || osType == Some("Windows")
  }

  /** Membership in the size allow-list; an undefined size is never allowed. */
  predicate ValidVmSize(vmSize: Option<string>)
  {
    vmSize.Some? && vmSize.value in ValidVmSizes
  }

  datatype CheckKind = ResourceGroupExists | VmExists | OsTypeAllowed | VmSizeAllowed

  /** One scored check and whether it passed. */
  datatype Check = Check(kind: CheckKind, passed: bool)

  function Points(c: Check): int
  {
    if c.passed then MaxPointsPerCheck else -MaxPointsPerCheck
  }

  /** The score of a sequence of checks. */
  function Total(cs: seq<Check>): int
  {
    if cs == [] then 0 else Points(cs[0]) + Total(cs[1..])
  }

  /** The checks scored for the virtual-machine lookup outcome, or the error
      the handler rethrows. A found VM earns nothing for existing; its OS type
      and size are scored. A VM that is not found costs points once and is not
      inspected further. */
  function VmChecks(o: Lookup<VirtualMachine>): Result<seq<Check>>
  {
    match o
    case NotFound => Ok([Check(VmExists, false)])
    case Failure(m) => Thrown(m)
    case Found(vm) =>
      match ReadOsType(vm)
      case Thrown(m) => Thrown(m)
      case Ok(osType) =>
        match ReadVmSize(vm)
        case Thrown(m) => Thrown(m)
        case Ok(vmSize) =>
          Ok([Check(OsTypeAllowed, ValidOsType(osType)), Check(VmSizeAllowed, ValidVmSize(vmSize))])
  }

  /** The check scored for a resource-group lookup that did not fail: passed
      when the group was found, failed on 404. */
  function ResourceGroupCheck<G>(o: Lookup<G>): Check
  {
    Check(ResourceGroupExists, o.Found?)
  }

  /** Every check scored for one request, in order, or the error that aborts it. */
  function Checks<G>(rgOutcome: Lookup<G>, vmName: Option<string>,
                     vmOutcome: Lookup<VirtualMachine>): Result<seq<Check>>
  {
    if rgOutcome.Failure? then Thrown(rgOutcome.message)
    else
      var rgCheck := ResourceGroupCheck(rgOutcome);
      if vmName.None? then Ok([rgCheck])
      else match VmChecks(vmOutcome)
        case Thrown(m) => Thrown(m)
        case Ok(cs) => Ok([rgCheck] + cs)
  }

  // ---------------------------------------------------------------------
  // Responses
  // ---------------------------------------------------------------------

  /** The projection of a found VM that the report carries. */
  datatype VmSummary = VmSummary(name: Option<string>, osType: Option<string>, vmSize: Option<string>)

  /** The JSON body of a 200 response; None marks a field that is not set. */
  datatype Report<G> = Report(
    message: string,
    resourceGroupStatus: string,
    vmStatus: string,
    totalPoints: int,
    resourceGroupDetails: Option<G>,
    vmDetails: Option<VmSummary>)

  datatype Body<G> = Text(text: string) | Json(report: Report<G>)

  datatype HttpResponse<G> = HttpResponse(status: int, body: Body<G>)

  const MissingNameMessage: string :=
    "Please provide a 'resourceGroupName' in the query string or request body."
  const ReportMessage: string := "Validation results"

  function ServerError<G>(message: string): HttpResponse<G>
  {
    HttpResponse(500, Text("Error: " + message))
  }

  /** The summary of a VM whose nested fields could be read. */
  function Summary(vm: VirtualMachine): Option<VmSummary>
  {
    match (ReadOsType(vm), ReadVmSize(vm))
    case (Ok(osType), Ok(vmSize)) => Some(VmSummary(vm.name, osType, vmSize))
    case _ => None
  }

  /** Reference definition of the handler's response, phase by phase. */
  function Expected<G>(req: Request, rgDir: string -> Lookup<G>,
                       vmDir: (string, string) -> Lookup<VirtualMachine>): HttpResponse<G>
  {
    var rgName := Param(req, ResourceGroupKey);
    var vmName := Param(req, VmKey);
    if rgName.None? then HttpResponse(400, Text(MissingNameMessage))
    else
      var rgOutcome := rgDir(rgName.value);
      var vmOutcome := if vmName.Some? then vmDir(rgName.value, vmName.value) else NotFound;
      match Checks(rgOutcome, vmName, vmOutcome)
      case Thrown(m) => ServerError(m)
      case Ok(cs) =>
        var vmFound := vmName.Some? && vmOutcome.Found?;
        HttpResponse(200, Json(Report(
          ReportMessage,
          if rgOutcome.Found? then "Validated" else "Not Found",
          if vmFound then "Validated" else if vmName.Some? then "Not Found" else "Not Checked",
          Total(cs),
          if rgOutcome.Found? then Some(rgOutcome.record) else None,
          if vmFound then Summary(vmOutcome.record) else None)))
  }

  /** Reference definition of the collaborator calls the handler makes. */
  function Lookups<G>(req: Request, rgDir: string -> Lookup<G>): seq<Call>
  {
    var rgName := Param(req, ResourceGroupKey);
    var vmName := Param(req, VmKey);
    if rgName.None? then []
    else if rgDir(rgName.value).Failure? || vmName.None? then [GetResourceGroup(rgName.value)]
    else [GetResourceGroup(rgName.value), GetVirtualMachine(rgName.value, vmName.value)]
  }

  // ---------------------------------------------------------------------
  // The handler
  // ---------------------------------------------------------------------

  /** The request handler: extracts the parameters, rejects a request without
      a resource-group name, then scores the lookups step by step into a
      local accumulator and builds the response. `res` is what the handler
      assigns to `context.res`; `calls` lists the lookups it performed. */
  method Handle<G>(req: Request, rgDir: string -> Lookup<G>,
                   vmDir: (string, string) -> Lookup<VirtualMachine>)
    returns (res: HttpResponse<G>, calls: seq<Call>)
    ensures res == Expected(req, rgDir, vmDir)
    ensures calls == Lookups(req, rgDir)
    ensures res.status == 400 <==> Param(req, ResourceGroupKey).None?
    ensures res.status == 400 ==> res.body == Text(MissingNameMessage) && calls == []
  {
    var resourceGroupName := Param(req, ResourceGroupKey);
    var vmName := Param(req, VmKey);
    calls := [];

    if resourceGroupName.None? {
      res := HttpResponse(400, Text(MissingNameMessage));
      return;
    }
    var rg := resourceGroupName.value;

    var totalPoints := 0;
    // the checks scored so far, kept beside the accumulator
    ghost var rgCheck: Check;
    ghost var vmScored: seq<Check> := [];

    calls := calls + [GetResourceGroup(rg)];
    var resourceGroupDetails: Option<G> := None;
    match rgDir(rg) {
      case Found(g) =>
        resourceGroupDetails := Some(g);
        totalPoints := totalPoints + MaxPointsPerCheck;
        rgCheck := Check(ResourceGroupExists, true);
      case NotFound =>
        totalPoints := totalPoints - MaxPointsPerCheck;
        rgCheck := Check(ResourceGroupExists, false);
      case Failure(m) =>
        res := ServerError(m);
        return;
    }

    var vmDetails: Option<VmSummary> := None;
    if vmName.Some? {
      calls := calls + [GetVirtualMachine(rg, vmName.value)];
      match vmDir(rg, vmName.value) {
        case Found(vm) =>
          var osType := ReadOsType(vm);
          if osType.Thrown? {
            res := ServerError(osType.message);
            return;
          }
          var vmSize := ReadVmSize(vm);
          if vmSize.Thrown? {
            res := ServerError(vmSize.message);
            return;
          }

          ghost var osCheck: Check;
          ghost var sizeCheck: Check;
          if osType.value == Some("Linux") || osType.value == Some("Windows") {
            totalPoints := totalPoints + MaxPointsPerCheck;
            osCheck := Check(OsTypeAllowed, true);
          } else {
            totalPoints := totalPoints - MaxPointsPerCheck;
            osCheck := Check(OsTypeAllowed, false);
          }

          if vmSize.value.Some? && vmSize.value.value in ValidVmSizes {
            totalPoints := totalPoints + MaxPointsPerCheck;
            sizeCheck := Check(VmSizeAllowed, true);
          } else {
            totalPoints := totalPoints - MaxPointsPerCheck;
            sizeCheck := Check(VmSizeAllowed, false);
          }
          vmDetails := Some(VmSummary(vm.name, osType.value, vmSize.value));
          vmScored := [osCheck, sizeCheck];
          assert vmScored[1..] == [sizeCheck] && [sizeCheck][1..] == [];
          assert Total([sizeCheck]) == Points(sizeCheck);
        case NotFound =>
          totalPoints := totalPoints - MaxPointsPerCheck;
          vmScored := [Check(VmExists, false)];
        case Failure(m) =>
          res := ServerError(m);
          return;
      }
    }

    ghost var scored := [rgCheck] + vmScored;
    assert vmName.None? ==> scored == [rgCheck];
    assert Checks(rgDir(rg), vmName, if vmName.Some? then vmDir(rg, vmName.value) else NotFound) == Ok(scored);
    assert scored[1..] == vmScored;
    assert totalPoints == Total(scored);
    var response := Report(
      ReportMessage,
      if resourceGroupDetails.Some? then "Validated" else "Not Found",
      if vmDetails.Some? then "Validated" else if vmName.Some? then "Not Found" else "Not Checked",
      totalPoints, None, None);
    if resourceGroupDetails.Some? {
      response := response.(resourceGroupDetails := resourceGroupDetails);
    }
    if vmDetails.Some? {
      response := response.(vmDetails := vmDetails);
    }
    res := HttpResponse(200, Json(response));
  }

  // ---------------------------------------------------------------------
  // Properties of the score
  // ---------------------------------------------------------------------

  /** Each check moves the score by exactly ten points either way, so n checks
      score a multiple of ten between -10n and 10n. */
  lemma {:induction false} TotalBounds(cs: seq<Check>)
    ensures Total(cs) % MaxPointsPerCheck == 0
    ensures -MaxPointsPerCheck * |cs| <= Total(cs) <= MaxPointsPerCheck * |cs|
  {
    if cs != [] {
      TotalBounds(cs[1..]);
    }
  }

  /** A 200 response always reports "Validation results" and a score that is a
      multiple of ten in [-30, 30]: one resource-group check plus at most two
      VM checks. */
  lemma ScoreBounds<G>(req: Request, rgDir: string -> Lookup<G>,
                       vmDir: (string, string) -> Lookup<VirtualMachine>)
    ensures var r := Expected(req, rgDir, vmDir);
      r.status == 200 ==>
        && r.body.Json?
        && r.body.report.message == ReportMessage
        && r.body.report.totalPoints % 10 == 0
        && -30 <= r.body.report.totalPoints <= 30
  {
    var rgName := Param(req, ResourceGroupKey);
    var vmName := Param(req, VmKey);
    if rgName.Some? {
      var vmOutcome := if vmName.Some? then vmDir(rgName.value, vmName.value) else NotFound;
      var checks := Checks(rgDir(rgName.value), vmName, vmOutcome);
      if checks.Ok? {
        TotalBounds(checks.value);
      }
    }
  }

  // ---------------------------------------------------------------------
  // The response on each path through the handler
  // ---------------------------------------------------------------------

  /** The report's resource-group fields for lookup outcome `o`: "Validated"
      with the record passed through, or "Not Found" with no details field. */
  ghost predicate ResourceGroupReported<G>(report: Report<G>, o: Lookup<G>)
  {
    match o
    case Found(g) => report.resourceGroupStatus == "Validated" && report.resourceGroupDetails == Some(g)
    case _ => report.resourceGroupStatus == "Not Found" && report.resourceGroupDetails == None
  }

  /** Status 200 with a JSON report whose message is "Validation results". */
  predicate Reported<G>(r: HttpResponse<G>)
  {
    r.status == 200 && r.body.Json? && r.body.report.message == ReportMessage
  }

  /** Every status the handler can produce, and when each is chosen. */
  lemma StatusSelection<G>(req: Request, rgDir: string -> Lookup<G>,
                           vmDir: (string, string) -> Lookup<VirtualMachine>)
    ensures var r := Expected(req, rgDir, vmDir);
      && (r.status == 200 || r.status == 400 || r.status == 500)
      && (r.status == 400 <==> Param(req, ResourceGroupKey).None?)
      && (r.status == 400 ==> r.body == Text(MissingNameMessage))
      && (r.status == 200 <==> r.body.Json?)
      && (r.status == 500 ==> exists m :: r == ServerError(m))
  {
  }

  /** A failing resource-group lookup (other than 404) aborts with a 500
      carrying its message, before any VM lookup. */
  lemma ResourceGroupFailure<G>(req: Request, rg: string, rgDir: string -> Lookup<G>,
                                vmDir: (string, string) -> Lookup<VirtualMachine>)
    requires Param(req, ResourceGroupKey) == Some(rg)
    requires rgDir(rg).Failure?
    ensures Expected(req, rgDir, vmDir) == ServerError(rgDir(rg).message)
    ensures Lookups(req, rgDir) == [GetResourceGroup(rg)]
  {
  }

  /** Without a VM name no VM lookup is made, the VM is "Not Checked", and the
      score is the resource-group check's +10 or -10 alone. */
  lemma NoVmName<G>(req: Request, rg: string, rgDir: string -> Lookup<G>,
                    vmDir: (string, string) -> Lookup<VirtualMachine>)
    requires Param(req, ResourceGroupKey) == Some(rg)
    requires Param(req, VmKey).None?
    requires !rgDir(rg).Failure?
    ensures var r := Expected(req, rgDir, vmDir);
      && Reported(r)
      && ResourceGroupReported(r.body.report, rgDir(rg))
      && r.body.report.vmStatus == "Not Checked"
      && r.body.report.vmDetails == None
      && r.body.report.totalPoints == Points(ResourceGroupCheck(rgDir(rg)))
    ensures Lookups(req, rgDir) == [GetResourceGroup(rg)]
  {
    var rgCheck := ResourceGroupCheck(rgDir(rg));
    assert Checks(rgDir(rg), None, NotFound) == Ok([rgCheck]);
    assert [rgCheck][1..] == [];
    assert Total([rgCheck]) == Points(ResourceGroupCheck(rgDir(rg)));
    var r := Expected(req, rgDir, vmDir);
    assert r.body.report.totalPoints == Total([rgCheck]);
  }

  /** A VM lookup that ends in 404 costs exactly ten points, marks the VM
      "Not Found" without details and runs no OS or size check. The lookup is
      made whether the resource group was found or not. */
  lemma VmNotFound<G>(req: Request, rg: string, vm: string, rgDir: string -> Lookup<G>,
                      vmDir: (string, string) -> Lookup<VirtualMachine>)
    requires Param(req, ResourceGroupKey) == Some(rg)
    requires Param(req, VmKey) == Some(vm)
    requires !rgDir(rg).Failure?
    requires vmDir(rg, vm).NotFound?
    ensures var r := Expected(req, rgDir, vmDir);
      && Reported(r)
      && ResourceGroupReported(r.body.report, rgDir(rg))
      && r.body.report.vmStatus == "Not Found"
      && r.body.report.vmDetails == None
      && r.body.report.totalPoints == Points(ResourceGroupCheck(rgDir(rg))) - MaxPointsPerCheck
    ensures Lookups(req, rgDir) == [GetResourceGroup(rg), GetVirtualMachine(rg, vm)]
  {
    var rgCheck := ResourceGroupCheck(rgDir(rg));
    var checks := [rgCheck] + [Check(VmExists, false)];
    assert Checks(rgDir(rg), Some(vm), NotFound) == Ok(checks);
    assert checks[1..] == [Check(VmExists, false)] && checks[1..][1..] == [];
    assert Total(checks) == Points(ResourceGroupCheck(rgDir(rg))) - MaxPointsPerCheck;
  }

  /** A found VM earns nothing for existing. Its OS type earns +10 iff it is
      exactly "Linux" or "Windows" and -10 otherwise; its size earns +10 iff it
      is on the allow-list and -10 otherwise. The report carries the projection
      {name, osType, vmSize}. */
  lemma VmFound<G>(req: Request, rg: string, vm: string, record: VirtualMachine,
                   osType: Option<string>, vmSize: Option<string>,
                   rgDir: string -> Lookup<G>, vmDir: (string, string) -> Lookup<VirtualMachine>)
    requires Param(req, ResourceGroupKey) == Some(rg)
    requires Param(req, VmKey) == Some(vm)
    requires !rgDir(rg).Failure?
    requires vmDir(rg, vm) == Found(record)
    requires ReadOsType(record) == Ok(osType) && ReadVmSize(record) == Ok(vmSize)
    ensures var r := Expected(req, rgDir, vmDir);
      && Reported(r)
      && ResourceGroupReported(r.body.report, rgDir(rg))
      && r.body.report.vmStatus == "Validated"
      && r.body.report.vmDetails == Some(VmSummary(record.name, osType, vmSize))
      && r.body.report.totalPoints ==
           Points(ResourceGroupCheck(rgDir(rg)))
           + (if osType == Some("Linux") || osType == Some("Windows") then 10 else -10)
           + (if vmSize.Some? && vmSize.value in ["Standard_DC2ds_v3", "Standard_B2s", "Standard_D2s_v3"]
              then 10 else -10)
    ensures Lookups(req, rgDir) == [GetResourceGroup(rg), GetVirtualMachine(rg, vm)]
  {
    var rgCheck := ResourceGroupCheck(rgDir(rg));
    var vmChecks := [Check(OsTypeAllowed, ValidOsType(osType)), Check(VmSizeAllowed, ValidVmSize(vmSize))];
    var checks := [rgCheck] + vmChecks;
    assert VmChecks(Found(record)) == Ok(vmChecks);
    assert Checks(rgDir(rg), Some(vm), Found(record)) == Ok(checks);
    assert checks[1..] == vmChecks && vmChecks[1..] == [vmChecks[1]] && [vmChecks[1]][1..] == [];
    assert Total([vmChecks[1]]) == Points(vmChecks[1]);
    assert Total(vmChecks) == Points(vmChecks[0]) + Points(vmChecks[1]);
    assert Total(checks) == Points(rgCheck) + Total(vmChecks);
  }

  /** A VM lookup that fails other than with 404, or a found VM record whose
      OS disk or hardware profile cannot be read, aborts with a 500 carrying
      the first error's message. */
  lemma VmFailure<G>(req: Request, rg: string, vm: string, rgDir: string -> Lookup<G>,
                     vmDir: (string, string) -> Lookup<VirtualMachine>)
    requires Param(req, ResourceGroupKey) == Some(rg)
    requires Param(req, VmKey) == Some(vm)
    requires !rgDir(rg).Failure?
    ensures vmDir(rg, vm).Failure? ==>
      Expected(req, rgDir, vmDir) == ServerError(vmDir(rg, vm).message)
    ensures vmDir(rg, vm).Found? && ReadOsType(vmDir(rg, vm).record).Thrown? ==>
      Expected(req, rgDir, vmDir) == ServerError(ReadOsType(vmDir(rg, vm).record).message)
    ensures vmDir(rg, vm).Found? && ReadOsType(vmDir(rg, vm).record).Ok?
            && ReadVmSize(vmDir(rg, vm).record).Thrown? ==>
      Expected(req, rgDir, vmDir) == ServerError(ReadVmSize(vmDir(rg, vm).record).message)
  {
  }

  /** The totals a 200 response can carry are exactly -30, -20, -10, 0, 10
      and 30: one resource-group check alone gives +-10, a VM 404 adds -10
      (0 or -20), and a found VM adds two checks (-30, -10, 10 or 30). A total
      of 20 never occurs. */
  lemma ScoreValues<G>(req: Request, rgDir: string -> Lookup<G>,
                       vmDir: (string, string) -> Lookup<VirtualMachine>)
    ensures var r := Expected(req, rgDir, vmDir);
      r.status == 200 ==>
        r.body.Json? &&
        var t := r.body.report.totalPoints;
        t == -30 || t == -20 || t == -10 || t == 0 || t == 10 || t == 30
  {
    var rgName := Param(req, ResourceGroupKey);
    var vmName := Param(req, VmKey);
    if rgName.Some? && !rgDir(rgName.value).Failure? {
      var rg := rgName.value;
      if vmName.None? {
        NoVmName(req, rg, rgDir, vmDir);
      } else {
        var vm := vmName.value;
        match vmDir(rg, vm)
        case NotFound =>
          VmNotFound(req, rg, vm, rgDir, vmDir);
        case Failure(_) =>
          VmFailure(req, rg, vm, rgDir, vmDir);
        case Found(record) =>
          VmFailure(req, rg, vm, rgDir, vmDir);
          if ReadOsType(record).Ok? && ReadVmSize(record).Ok? {
            VmFound(req, rg, vm, record, ReadOsType(record).value, ReadVmSize(record).value, rgDir, vmDir);
          }
      }
    }
  }

  /** The lowest and the highest score are both reachable. */
  lemma ScoreExtremes()
    ensures var req := Request(map[ResourceGroupKey := "rg", VmKey := "vm"], None);
      var noncompliant := VirtualMachine(Some("vm"),
        Some(StorageProfile(Some(OsDisk(Some("linux"))))), Some(HardwareProfile(Some("Standard_B1s"))));
      var compliant := VirtualMachine(Some("vm"),
        Some(StorageProfile(Some(OsDisk(Some("Linux"))))), Some(HardwareProfile(Some("Standard_B2s"))));
      && Expected<int>(req, _ => NotFound, (_, _) => Found(noncompliant)).body.report.totalPoints == -30
      && Expected<int>(req, _ => Found(7), (_, _) => Found(compliant)).body.report.totalPoints == 30
  {
    var req := Request(map[ResourceGroupKey := "rg", VmKey := "vm"], None);
    assert Param(req, ResourceGroupKey) == Some("rg");
    assert Param(req, VmKey) == Some("vm");
    var noncompliant := VirtualMachine(Some("vm"),
      Some(StorageProfile(Some(OsDisk(Some("linux"))))), Some(HardwareProfile(Some("Standard_B1s"))));
    var compliant := VirtualMachine(Some("vm"),
      Some(StorageProfile(Some(OsDisk(Some("Linux"))))), Some(HardwareProfile(Some("Standard_B2s"))));
    VmFound<int>(req, "rg", "vm", noncompliant, Some("linux"), Some("Standard_B1s"),
                 _ => NotFound, (_, _) => Found(noncompliant));
    VmFound<int>(req, "rg", "vm", compliant, Some("Linux"), Some("Standard_B2s"),
                 _ => Found(7), (_, _) => Found(compliant));
  }
}
