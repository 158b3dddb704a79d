/** Instance configurations (instance_configs.go): the create and update options derived from
    a config, the paged-response accumulator, and the create / update / rename calls. The
    endpoint lookup, the JSON encoder and the transport are parameters. */
module InstanceConfigs {
  import opened Results
  import opened RequestHelpers
  import opened RequestDispatch
  import opened DecimalFormat

  /** `InstanceConfigDevice` (lines 30-33). */
  datatype InstanceConfigDevice = InstanceConfigDevice(diskID: int, volumeID: int)

  /** `InstanceConfigDeviceMap` (lines 35-44): one optional device per slot. */
  datatype InstanceConfigDeviceMap = InstanceConfigDeviceMap(
    sda: Option<InstanceConfigDevice>, sdb: Option<InstanceConfigDevice>,
    sdc: Option<InstanceConfigDevice>, sdd: Option<InstanceConfigDevice>,
    sde: Option<InstanceConfigDevice>, sdf: Option<InstanceConfigDevice>,
    sdg: Option<InstanceConfigDevice>, sdh: Option<InstanceConfigDevice>)

  /** `InstanceConfigHelpers` (lines 46-52). */
  datatype InstanceConfigHelpers = InstanceConfigHelpers(
    updateDBDisabled: bool, distro: bool, modulesDep: bool, network: bool, devTmpFsAutomount: bool)

  /** `InstanceConfig` (lines 11-28); the parsed timestamps are kept as opaque instants. */
  datatype InstanceConfig = InstanceConfig(
    createdStr: string,
    updatedStr: string,
    id: int,
    configLabel: string,
    comments: string,
    devices: Option<InstanceConfigDeviceMap>,
    helpers: Option<InstanceConfigHelpers>,
    memoryLimit: int,
    kernel: string,
    initRD: int,
    rootDevice: string,
    runLevel: string,
    virtMode: string,
    created: Option<int>,
    updated: Option<int>)

  /** `InstanceConfigCreateOptions` (lines 61-72): the ten settable fields. */
  datatype InstanceConfigCreateOptions = InstanceConfigCreateOptions(
    configLabel: string,
    comments: string,
    devices: Option<InstanceConfigDeviceMap>,
    helpers: Option<InstanceConfigHelpers>,
    memoryLimit: int,
    kernel: string,
    initRD: int,
    rootDevice: string,
    runLevel: string,
    virtMode: string)

  /** `InstanceConfigUpdateOptions` (line 75): a distinct type over the same ten fields. */
  datatype InstanceConfigUpdateOptions = InstanceConfigUpdateOptions(
    configLabel: string,
    comments: string,
    devices: Option<InstanceConfigDeviceMap>,
    helpers: Option<InstanceConfigHelpers>,
    memoryLimit: int,
    kernel: string,
    initRD: int,
    rootDevice: string,
    runLevel: string,
    virtMode: string)

  /** Go's conversion `InstanceConfigUpdateOptions(o)` between the two option types. */
  function AsUpdateOptions(o: InstanceConfigCreateOptions): InstanceConfigUpdateOptions
  {
    InstanceConfigUpdateOptions(o.configLabel, o.comments, o.devices, o.helpers, o.memoryLimit,
                                o.kernel, o.initRD, o.rootDevice, o.runLevel, o.virtMode)
  }

  /** Go's conversion `InstanceConfigCreateOptions(o)`. */
  function AsCreateOptions(o: InstanceConfigUpdateOptions): InstanceConfigCreateOptions
  {
    InstanceConfigCreateOptions(o.configLabel, o.comments, o.devices, o.helpers, o.memoryLimit,
                                o.kernel, o.initRD, o.rootDevice, o.runLevel, o.virtMode)
  }

  /** The two conversions undo each other. */
  lemma ConversionsRoundTrip(c: InstanceConfigCreateOptions, u: InstanceConfigUpdateOptions)
    ensures AsCreateOptions(AsUpdateOptions(c)) == c
    ensures AsUpdateOptions(AsCreateOptions(u)) == u
  {
  }

  /** Two configs agree on the ten settable fields. */
  predicate SameSettings(a: InstanceConfig, b: InstanceConfig)
  {
    && a.configLabel == b.configLabel && a.comments == b.comments
    && a.devices == b.devices && a.helpers == b.helpers
    && a.memoryLimit == b.memoryLimit && a.kernel == b.kernel
    && a.initRD == b.initRD && a.rootDevice == b.rootDevice
    && a.runLevel == b.runLevel && a.virtMode == b.virtMode
  }

  /** `getCreateOptions` (lines 77-90): the ten settable fields, copied unchanged. */
  function GetCreateOptions(c: InstanceConfig): (o: InstanceConfigCreateOptions)
    ensures o.configLabel == c.configLabel && o.comments == c.comments
    ensures o.devices == c.devices && o.helpers == c.helpers
    ensures o.memoryLimit == c.memoryLimit && o.kernel == c.kernel
    ensures o.initRD == c.initRD && o.rootDevice == c.rootDevice
    ensures o.runLevel == c.runLevel && o.virtMode == c.virtMode
  {
    InstanceConfigCreateOptions(c.configLabel, c.comments, c.devices, c.helpers, c.memoryLimit,
                                c.kernel, c.initRD, c.rootDevice, c.runLevel, c.virtMode)
  }

  /** `getUpdateOptions` (lines 92-105): the same ten fields. */
  function GetUpdateOptions(c: InstanceConfig): (o: InstanceConfigUpdateOptions)
    ensures o.configLabel == c.configLabel && o.comments == c.comments
    ensures o.devices == c.devices && o.helpers == c.helpers
    ensures o.memoryLimit == c.memoryLimit && o.kernel == c.kernel
    ensures o.initRD == c.initRD && o.rootDevice == c.rootDevice
    ensures o.runLevel == c.runLevel && o.virtMode == c.virtMode
  {
    InstanceConfigUpdateOptions(c.configLabel, c.comments, c.devices, c.helpers, c.memoryLimit,
                                c.kernel, c.initRD, c.rootDevice, c.runLevel, c.virtMode)
  }

  /** The update options of a config are its create options, converted. */
  lemma UpdateOptionsAreCreateOptions(c: InstanceConfig)
    ensures GetUpdateOptions(c) == AsUpdateOptions(GetCreateOptions(c))
  {
  }

  /** The options see exactly the settable fields: two configs give the same create options
      if and only if they agree on those ten fields, whatever their ids, timestamps and
      timestamp strings. */
  lemma CreateOptionsSeeOnlySettings(a: InstanceConfig, b: InstanceConfig)
    ensures GetCreateOptions(a) == GetCreateOptions(b) <==> SameSettings(a, b)
    ensures GetUpdateOptions(a) == GetUpdateOptions(b) <==> SameSettings(a, b)
  {
  }

  /** `InstanceConfigsPagedResponse` (lines 55-58). */
  datatype InstanceConfigsPagedResponse = InstanceConfigsPagedResponse(pageOptions: Option<PageOptions>, data: seq<InstanceConfig>)

  /** `AppendData` (lines 117-119): the other response's configs go after this one's, and
      the page options stay as they were. */
  function AppendData(resp: InstanceConfigsPagedResponse, r: InstanceConfigsPagedResponse): (d: InstanceConfigsPagedResponse)
    ensures |d.data| == |resp.data| + |r.data|
    ensures d.data[..|resp.data|] == resp.data
    ensures d.data[|resp.data|..] == r.data
    ensures d.pageOptions == resp.pageOptions
  {
    resp.(data := resp.data + r.data)
  }

  /** Appending page by page gives the same list whichever way the appends are grouped. */
  lemma AppendDataAssociative(a: InstanceConfigsPagedResponse, b: InstanceConfigsPagedResponse, c: InstanceConfigsPagedResponse)
    ensures AppendData(AppendData(a, b), c) == AppendData(a, AppendData(b, c))
  {
    assert (a.data + b.data) + c.data == a.data + (b.data + c.data);
  }

  /** `fmt.Sprintf("%s/%d", e, configID)` (line 192). */
  function ConfigPath(e: string, configID: int): (p: string)
    ensures |p| > |e| + 1 && p[..|e|] == e && p[|e|] == '/'
    ensures p[|e| + 1..] == DecimalString(configID)
    ensures ParseDecimal(p[|e| + 1..]) == configID
    ensures p[|e| + 1] == '-' <==> configID < 0
  {
    DecimalRoundTrip(configID);
    e + "/" + DecimalString(configID)
  }

  /** Different config ids under one endpoint give different paths. */
  lemma ConfigPathsDistinct(e: string, a: int, b: int)
    requires a != b
    ensures ConfigPath(e, a) != ConfigPath(e, b)
  {
    assert ConfigPath(e, a)[|e| + 1..] == DecimalString(a);
    assert ConfigPath(e, b)[|e| + 1..] == DecimalString(b);
    if DecimalString(a) == DecimalString(b) {
      DecimalStringInjective(a, b);
    }
  }

  /** `CreateInstanceConfig` (lines 158-183): an endpoint or encoding error is returned before
      anything is sent; otherwise the encoded options are POSTed to the instance's endpoint. */
  function CreateInstanceConfig(linodeID: int, createOpts: InstanceConfigCreateOptions,
                                endpointWithID: int -> Result<string>,
                                encode: InstanceConfigCreateOptions -> Result<string>,
                                send: Request -> Result<InstanceConfig>): (d: Dispatched<InstanceConfig>)
    ensures endpointWithID(linodeID).Failure? ==> d == Dispatched(Failure(endpointWithID(linodeID).error), None)
    ensures endpointWithID(linodeID).Success? && encode(createOpts).Failure? ==>
      d == Dispatched(Failure(encode(createOpts).error), None)
    ensures d.sent.Some? <==> endpointWithID(linodeID).Success? && encode(createOpts).Success?
    ensures d.sent.Some? ==>
      && d.sent.value == Request(Post, endpointWithID(linodeID).value, Some(encode(createOpts).value))
      && d.result == send(d.sent.value)
  {
    match endpointWithID(linodeID)
    case Failure(e) => Dispatched(Failure(e), None)
    case Success(endpoint) =>
      match encode(createOpts)
      case Failure(e) => Dispatched(Failure(e), None)
      case Success(body) =>
        var request := Request(Post, endpoint, Some(body));
        Dispatched(send(request), Some(request))
  }

  /** `UpdateInstanceConfig` (lines 186-211): as for create, but the encoded options are PUT
      to the config's own path under the instance's endpoint. */
  function UpdateInstanceConfig(linodeID: int, configID: int, updateOpts: InstanceConfigUpdateOptions,
                                endpointWithID: int -> Result<string>,
                                encode: InstanceConfigUpdateOptions -> Result<string>,
                                send: Request -> Result<InstanceConfig>): (d: Dispatched<InstanceConfig>)
    ensures endpointWithID(linodeID).Failure? ==> d == Dispatched(Failure(endpointWithID(linodeID).error), None)
    ensures endpointWithID(linodeID).Success? && encode(updateOpts).Failure? ==>
      d == Dispatched(Failure(encode(updateOpts).error), None)
    ensures d.sent.Some? <==> endpointWithID(linodeID).Success? && encode(updateOpts).Success?
    ensures d.sent.Some? ==>
      && d.sent.value == Request(Put, ConfigPath(endpointWithID(linodeID).value, configID), Some(encode(updateOpts).value))
      && d.result == send(d.sent.value)
  {
    match endpointWithID(linodeID)
    case Failure(e) => Dispatched(Failure(e), None)
    case Success(endpoint) =>
      var path := ConfigPath(endpoint, configID);
      match encode(updateOpts)
      case Failure(e) => Dispatched(Failure(e), None)
      case Success(body) =>
        var request := Request(Put, path, Some(body));
        Dispatched(send(request), Some(request))
  }

  /** The update options `RenameInstanceConfig` sends: the new label, and every other field zero. */
  function RenameOptions(newLabel: string): (o: InstanceConfigUpdateOptions)
    ensures o.configLabel == newLabel
    ensures o.comments == "" && o.devices.None? && o.helpers.None? && o.memoryLimit == 0
    ensures o.kernel == "" && o.initRD == 0 && o.rootDevice == "" && o.runLevel == "" && o.virtMode == ""
  {
    InstanceConfigUpdateOptions(newLabel, "", None, None, 0, "", 0, "", "", "")
  }

  /** `RenameInstanceConfig` (lines 214-216). */
  function RenameInstanceConfig(linodeID: int, configID: int, newLabel: string,
                                endpointWithID: int -> Result<string>,
                                encode: InstanceConfigUpdateOptions -> Result<string>,
                                send: Request -> Result<InstanceConfig>): (d: Dispatched<InstanceConfig>)
    ensures d == UpdateInstanceConfig(linodeID, configID, RenameOptions(newLabel), endpointWithID, encode, send)
  {
    UpdateInstanceConfig(linodeID, configID, InstanceConfigUpdateOptions(newLabel, "", None, None, 0, "", 0, "", "", ""),
                         endpointWithID, encode, send)
  }

  /** Renaming sends the same request as updating with a config's options whose settable
      fields are all zero but the label. */
  lemma RenameIsUpdateOfZeroedConfig(linodeID: int, configID: int, c: InstanceConfig,
                                     endpointWithID: int -> Result<string>,
                                     encode: InstanceConfigUpdateOptions -> Result<string>,
                                     send: Request -> Result<InstanceConfig>)
    requires c.comments == "" && c.devices.None? && c.helpers.None? && c.memoryLimit == 0
    requires c.kernel == "" && c.initRD == 0 && c.rootDevice == "" && c.runLevel == "" && c.virtMode == ""
    ensures RenameInstanceConfig(linodeID, configID, c.configLabel, endpointWithID, encode, send)
         == UpdateInstanceConfig(linodeID, configID, GetUpdateOptions(c), endpointWithID, encode, send)
  {
  }
}
