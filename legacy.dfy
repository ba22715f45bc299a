/** The older Rock-on schema of rockon.go (package `main`, not used by the
    validator). It differs from the current one in that the numbers are
    plain Go `int`s with no string form, `UISlug` has only a slug, `volumes`
    is always written, `custom_config` is a pointer to a map, there are no
    container links and no environment default, and the document is
    indented by two spaces.

    A Go nil map, nil slice or nil pointer is `None`. */
module Legacy {
  import opened Wrappers
  import opened StrConv
  import opened Text
  import opened Json
  import opened JsonParser
  import opened GoJson
  import opened PostPass

  /** Go's `int` (64 bits). */
  type Int = n: int | MinInt <= n <= MaxInt

  datatype UISlug = UISlug(slug: string)

  datatype Port = Port(description: string, shortLabel: string, hostDefault: Int, protocol: string, ui: bool)

  datatype Volume = Volume(description: string, shortLabel: string, minSize: Int)

  /** `Option` and `CmdArgument`, both a Go `[2]string`. */
  datatype Pair = Pair(first: string, second: string)

  datatype EnvironmentVar = EnvironmentVar(description: string, shortLabel: string, index: Int)

  datatype Device = Device(description: string, shortLabel: string, index: Int)

  datatype CustomConfig = CustomConfig(description: string, shortLabel: string)

  datatype Container = Container(
    image: string,
    tag: string,
    launchOrder: Int,
    ports: Option<map<string, Port>>,
    volumes: Option<map<string, Volume>>,
    opts: Option<seq<Pair>>,
    cmdArguments: Option<seq<Pair>>,
    environment: Option<map<string, EnvironmentVar>>,
    devices: Option<map<string, Device>>)

  /** `customConfig` is a `*map`: the outer `None` is the nil pointer, the
      inner one a pointer to a nil map. */
  datatype RockonDetails = RockonDetails(
    description: string,
    version: string,
    website: string,
    icon: string,
    moreInfo: string,
    ui: Option<UISlug>,
    volumeAddSupport: bool,
    containers: Option<map<string, Container>>,
    customConfig: Option<Option<map<string, CustomConfig>>>)

  type RockOn = Option<map<string, RockonDetails>>

  const ZeroUISlug := UISlug("")
  const ZeroPort := Port("", "", 0, "", false)
  const ZeroVolume := Volume("", "", 0)
  const ZeroPair := Pair("", "")
  const ZeroEnvironmentVar := EnvironmentVar("", "", 0)
  const ZeroDevice := Device("", "", 0)
  const ZeroCustomConfig := CustomConfig("", "")
  const ZeroContainer := Container("", "", 0, None, None, None, None, None, None)
  const ZeroDetails := RockonDetails("", "", "", "", "", None, false, None, None)

  // ---------------------------------------------------------------------
  // Field names (the `json:"…"` tags)

  datatype PortField = PortDescription | PortLabel | PortHostDefault | PortProtocol | PortUI

  function PortNamed(k: string): Option<PortField> {
    if k == "description" then Some(PortDescription)
    else if k == "label" then Some(PortLabel)
    else if k == "host_default" then Some(PortHostDefault)
    else if k == "protocol" then Some(PortProtocol)
    else if k == "ui" then Some(PortUI)
    else None
  }

  datatype VolumeField = VolumeDescription | VolumeLabel | VolumeMinSize

  function VolumeNamed(k: string): Option<VolumeField> {
    if k == "description" then Some(VolumeDescription)
    else if k == "label" then Some(VolumeLabel)
    else if k == "min_size" then Some(VolumeMinSize)
    else None
  }

  /** Description, label and index: the fields of `EnvironmentVar` and of
      `Device`. */
  datatype IndexedField = IndexedDescription | IndexedLabel | IndexedIndex

  function IndexedNamed(k: string): Option<IndexedField> {
    if k == "description" then Some(IndexedDescription)
    else if k == "label" then Some(IndexedLabel)
    else if k == "index" then Some(IndexedIndex)
    else None
  }

  datatype CustomConfigField = ConfigDescription | ConfigLabel

  function CustomConfigNamed(k: string): Option<CustomConfigField> {
    if k == "description" then Some(ConfigDescription)
    else if k == "label" then Some(ConfigLabel)
    else None
  }

  function UISlugNamed(k: string): Option<()> {
    if k == "slug" then Some(()) else None
  }

  datatype ContainerField =
    | ContainerImage | ContainerTag | ContainerLaunchOrder | ContainerPorts | ContainerVolumes
    | ContainerOpts | ContainerCmdArguments | ContainerEnvironment | ContainerDevices

  function ContainerNamed(k: string): Option<ContainerField> {
    if k == "image" then Some(ContainerImage)
    else if k == "tag" then Some(ContainerTag)
    else if k == "launch_order" then Some(ContainerLaunchOrder)
    else if k == "ports" then Some(ContainerPorts)
    else if k == "volumes" then Some(ContainerVolumes)
    else if k == "opts" then Some(ContainerOpts)
    else if k == "cmd_arguments" then Some(ContainerCmdArguments)
    else if k == "environment" then Some(ContainerEnvironment)
    else if k == "devices" then Some(ContainerDevices)
    else None
  }

  datatype DetailsField =
    | DetailsDescription | DetailsVersion | DetailsWebsite | DetailsIcon | DetailsMoreInfo
    | DetailsUI | DetailsVolumeAddSupport | DetailsContainers | DetailsCustomConfig

  function DetailsNamed(k: string): Option<DetailsField> {
    if k == "description" then Some(DetailsDescription)
    else if k == "version" then Some(DetailsVersion)
    else if k == "website" then Some(DetailsWebsite)
    else if k == "icon" then Some(DetailsIcon)
    else if k == "more_info" then Some(DetailsMoreInfo)
    else if k == "ui" then Some(DetailsUI)
    else if k == "volume_add_support" then Some(DetailsVolumeAddSupport)
    else if k == "containers" then Some(DetailsContainers)
    else if k == "custom_config" then Some(DetailsCustomConfig)
    else None
  }

  // ---------------------------------------------------------------------
  // Decoding

  /** A Go `int`: `null` leaves it, a number must be an integer in range,
      anything else (a quoted number among them) does not fit. */
  function DecodeInt(prior: Int, v: JValue): Result<Int, Error> {
    match v
    case JNull => Ok(prior)
    case JNumber(l) => var n :- ParseInt(l); Ok(n as Int)
    case _ => Err(TypeError)
  }

  function UISlugStep(p: UISlug, m: Member): Result<UISlug, Error> {
    if FieldOf(UISlugNamed, m.key).None? then Ok(p)
    else var x :- DecodeString(p.slug, m.value); Ok(p.(slug := x))
  }

  function PortStep(p: Port, m: Member): Result<Port, Error> {
    var f := FieldOf(PortNamed, m.key);
    if f.None? then Ok(p)
    else match f.value
    case PortDescription => var x :- DecodeString(p.description, m.value); Ok(p.(description := x))
    case PortLabel => var x :- DecodeString(p.shortLabel, m.value); Ok(p.(shortLabel := x))
    case PortHostDefault => var x :- DecodeInt(p.hostDefault, m.value); Ok(p.(hostDefault := x))
    case PortProtocol => var x :- DecodeString(p.protocol, m.value); Ok(p.(protocol := x))
    case PortUI => var x :- DecodeBool(p.ui, m.value); Ok(p.(ui := x))
  }

  function VolumeStep(p: Volume, m: Member): Result<Volume, Error> {
    var f := FieldOf(VolumeNamed, m.key);
    if f.None? then Ok(p)
    else match f.value
    case VolumeDescription => var x :- DecodeString(p.description, m.value); Ok(p.(description := x))
    case VolumeLabel => var x :- DecodeString(p.shortLabel, m.value); Ok(p.(shortLabel := x))
    case VolumeMinSize => var x :- DecodeInt(p.minSize, m.value); Ok(p.(minSize := x))
  }

  function EnvironmentStep(p: EnvironmentVar, m: Member): Result<EnvironmentVar, Error> {
    var f := FieldOf(IndexedNamed, m.key);
    if f.None? then Ok(p)
    else match f.value
    case IndexedDescription => var x :- DecodeString(p.description, m.value); Ok(p.(description := x))
    case IndexedLabel => var x :- DecodeString(p.shortLabel, m.value); Ok(p.(shortLabel := x))
    case IndexedIndex => var x :- DecodeInt(p.index, m.value); Ok(p.(index := x))
  }

  function DeviceStep(p: Device, m: Member): Result<Device, Error> {
    var f := FieldOf(IndexedNamed, m.key);
    if f.None? then Ok(p)
    else match f.value
    case IndexedDescription => var x :- DecodeString(p.description, m.value); Ok(p.(description := x))
    case IndexedLabel => var x :- DecodeString(p.shortLabel, m.value); Ok(p.(shortLabel := x))
    case IndexedIndex => var x :- DecodeInt(p.index, m.value); Ok(p.(index := x))
  }

  function CustomConfigStep(p: CustomConfig, m: Member): Result<CustomConfig, Error> {
    var f := FieldOf(CustomConfigNamed, m.key);
    if f.None? then Ok(p)
    else match f.value
    case ConfigDescription => var x :- DecodeString(p.description, m.value); Ok(p.(description := x))
    case ConfigLabel => var x :- DecodeString(p.shortLabel, m.value); Ok(p.(shortLabel := x))
  }

  /** A `[2]string`, as in the current schema. */
  function DecodePair(prior: Pair, v: JValue): Result<Pair, Error> {
    match v
    case JNull => Ok(prior)
    case JArray(xs) =>
      var a :- if |xs| > 0 then DecodeString(prior.first, xs[0]) else Ok("");
      var b :- if |xs| > 1 then DecodeString(prior.second, xs[1]) else Ok("");
      Ok(Pair(a, b))
    case _ => Err(TypeError)
  }

  function DecodePort(v: JValue): Result<Port, Error> { DecodeStruct(ZeroPort, v, PortStep) }
  function DecodeVolume(v: JValue): Result<Volume, Error> { DecodeStruct(ZeroVolume, v, VolumeStep) }
  function DecodeEnvironment(v: JValue): Result<EnvironmentVar, Error> { DecodeStruct(ZeroEnvironmentVar, v, EnvironmentStep) }
  function DecodeDevice(v: JValue): Result<Device, Error> { DecodeStruct(ZeroDevice, v, DeviceStep) }
  function DecodeCustomConfig(v: JValue): Result<CustomConfig, Error> { DecodeStruct(ZeroCustomConfig, v, CustomConfigStep) }

  /** A pointer to a map: `null` makes the pointer nil; anything else is
      decoded into the map it points to, made when the pointer is nil. */
  function DecodeMapPointer(prior: Option<Option<map<string, CustomConfig>>>, v: JValue): Result<Option<Option<map<string, CustomConfig>>>, Error> {
    if v.JNull? then Ok(None)
    else
      var m :- DecodeMap(if prior.Some? then prior.value else None, v, DecodeCustomConfig);
      Ok(Some(m))
  }

  function ContainerStep(p: Container, m: Member): Result<Container, Error> {
    var f := FieldOf(ContainerNamed, m.key);
    if f.None? then Ok(p)
    else match f.value
    case ContainerImage => var x :- DecodeString(p.image, m.value); Ok(p.(image := x))
    case ContainerTag => var x :- DecodeString(p.tag, m.value); Ok(p.(tag := x))
    case ContainerLaunchOrder => var x :- DecodeInt(p.launchOrder, m.value); Ok(p.(launchOrder := x))
    case ContainerPorts => var x :- DecodeMap(p.ports, m.value, DecodePort); Ok(p.(ports := x))
    case ContainerVolumes => var x :- DecodeMap(p.volumes, m.value, DecodeVolume); Ok(p.(volumes := x))
    case ContainerOpts => var x :- DecodeSlice(p.opts, m.value, ZeroPair, DecodePair); Ok(p.(opts := x))
    case ContainerCmdArguments =>
      var x :- DecodeSlice(p.cmdArguments, m.value, ZeroPair, DecodePair); Ok(p.(cmdArguments := x))
    case ContainerEnvironment =>
      var x :- DecodeMap(p.environment, m.value, DecodeEnvironment); Ok(p.(environment := x))
    case ContainerDevices => var x :- DecodeMap(p.devices, m.value, DecodeDevice); Ok(p.(devices := x))
  }

  function DecodeContainer(v: JValue): Result<Container, Error> { DecodeStruct(ZeroContainer, v, ContainerStep) }

  function DetailsStep(p: RockonDetails, m: Member): Result<RockonDetails, Error> {
    var f := FieldOf(DetailsNamed, m.key);
    if f.None? then Ok(p)
    else match f.value
    case DetailsDescription => var x :- DecodeString(p.description, m.value); Ok(p.(description := x))
    case DetailsVersion => var x :- DecodeString(p.version, m.value); Ok(p.(version := x))
    case DetailsWebsite => var x :- DecodeString(p.website, m.value); Ok(p.(website := x))
    case DetailsIcon => var x :- DecodeString(p.icon, m.value); Ok(p.(icon := x))
    case DetailsMoreInfo => var x :- DecodeString(p.moreInfo, m.value); Ok(p.(moreInfo := x))
    case DetailsUI => var x :- DecodePointer(p.ui, m.value, ZeroUISlug, UISlugStep); Ok(p.(ui := x))
    case DetailsVolumeAddSupport =>
      var x :- DecodeBool(p.volumeAddSupport, m.value); Ok(p.(volumeAddSupport := x))
    case DetailsContainers => var x :- DecodeMap(p.containers, m.value, DecodeContainer); Ok(p.(containers := x))
    case DetailsCustomConfig => var x :- DecodeMapPointer(p.customConfig, m.value); Ok(p.(customConfig := x))
  }

  function DecodeDetails(v: JValue): Result<RockonDetails, Error> { DecodeStruct(ZeroDetails, v, DetailsStep) }

  function DecodeRockOn(v: JValue): Result<RockOn, Error> {
    DecodeMap(None, v, DecodeDetails)
  }

  function Unmarshal(text: string): Result<RockOn, Error> {
    match Parse(text)
    case None => Err(SyntaxError)
    case Some(v) => DecodeRockOn(v)
  }

  // ---------------------------------------------------------------------
  // Encoding

  /** An `int` is written in decimal. */
  function EncodeInt(n: Int): JValue {
    JNumber(Itoa(n))
  }

  function EncodeUISlug(u: UISlug): JValue {
    JObject(OmitEmpty(u.slug == "", "slug", JString(u.slug), []))
  }

  function EncodePort(p: Port): JValue {
    JObject(
      Field("description", JString(p.description),
      Field("label", JString(p.shortLabel),
      Field("host_default", EncodeInt(p.hostDefault),
      OmitEmpty(p.protocol == "", "protocol", JString(p.protocol),
      OmitEmpty(!p.ui, "ui", JBool(p.ui), []))))))
  }

  function EncodeVolume(p: Volume): JValue {
    JObject(
      Field("description", JString(p.description),
      Field("label", JString(p.shortLabel),
      OmitEmpty(p.minSize == 0, "min_size", EncodeInt(p.minSize), []))))
  }

  function EncodePair(p: Pair): JValue {
    JArray([JString(p.first), JString(p.second)])
  }

  function EncodeEnvironment(p: EnvironmentVar): JValue {
    JObject(
      Field("description", JString(p.description),
      Field("label", JString(p.shortLabel),
      OmitEmpty(p.index == 0, "index", EncodeInt(p.index), []))))
  }

  function EncodeDevice(p: Device): JValue {
    JObject(
      Field("description", JString(p.description),
      Field("label", JString(p.shortLabel),
      OmitEmpty(p.index == 0, "index", EncodeInt(p.index), []))))
  }

  function EncodeCustomConfig(p: CustomConfig): JValue {
    JObject(
      Field("description", JString(p.description),
      Field("label", JString(p.shortLabel), [])))
  }

  function EncodeContainer(c: Container): JValue {
    JObject(
      Field("image", JString(c.image),
      OmitEmpty(c.tag == "", "tag", JString(c.tag),
      Field("launch_order", EncodeInt(c.launchOrder),
      Field("ports", EncodeMap(c.ports, EncodePort),
      Field("volumes", EncodeMap(c.volumes, EncodeVolume),
      OmitEmpty(EmptySlice(c.opts), "opts", EncodeSlice(c.opts, EncodePair),
      OmitEmpty(EmptySlice(c.cmdArguments), "cmd_arguments", EncodeSlice(c.cmdArguments, EncodePair),
      OmitEmpty(EmptyMap(c.environment), "environment", EncodeMap(c.environment, EncodeEnvironment),
      OmitEmpty(EmptyMap(c.devices), "devices", EncodeMap(c.devices, EncodeDevice), []))))))))))
  }

  /** A pointer is written as what it points to; `omitempty` drops only the
      nil pointer. */
  function EncodeCustomConfigs(p: Option<map<string, CustomConfig>>): JValue {
    EncodeMap(p, EncodeCustomConfig)
  }

  function EncodeDetailsFields(d: RockonDetails): JValue {
    JObject(
      Field("description", JString(d.description),
      Field("version", JString(d.version),
      Field("website", JString(d.website),
      OmitEmpty(d.icon == "", "icon", JString(d.icon),
      OmitEmpty(d.moreInfo == "", "more_info", JString(d.moreInfo),
      OmitEmpty(d.ui.None?, "ui", if d.ui.Some? then EncodeUISlug(d.ui.value) else JNull,
      OmitEmpty(!d.volumeAddSupport, "volume_add_support", JBool(d.volumeAddSupport),
      Field("containers", EncodeMap(d.containers, EncodeContainer),
      OmitEmpty(d.customConfig.None?, "custom_config",
                if d.customConfig.Some? then EncodeCustomConfigs(d.customConfig.value) else JNull, []))))))))))
  }

  /** `RockonDetails.MarshalJSON`: a `ui` whose slug is empty is dropped. */
  function MarshalDetails(d: RockonDetails): JValue {
    EncodeDetailsFields(if d.ui.Some? && d.ui.value.slug == "" then d.(ui := None) else d)
  }

  function EncodeRockOn(r: RockOn): JValue {
    EncodeMap(r, MarshalDetails)
  }

  /** The encoder's text: two-space indentation, the details as
      `json.Marshal` escaped them, and a final newline. */
  function Encoded(r: RockOn): string {
    Print(EncodeRockOn(r), "  ", 0, NoHtmlEscaping, HtmlEscaping) + "\n"
  }

  /** `RockOn.ToJSON` of rockon.go: the same post-pass as the current one. */
  function ToJSON(r: RockOn): string {
    ReplaceAll(ReplaceAll(ReplaceAll(Encoded(r), Escaped('&'), "&"), Escaped('<'), "<"), Escaped('>'), ">")
  }

  // ---------------------------------------------------------------------
  // The canonical form

  function CanonUI(u: Option<UISlug>): Option<UISlug> {
    if u.Some? && u.value.slug == "" then None else u
  }

  function CanonContainer(c: Container): Container {
    c.(opts := NilIfEmptySlice(c.opts),
       cmdArguments := NilIfEmptySlice(c.cmdArguments),
       environment := NilIfEmpty(c.environment),
       devices := NilIfEmpty(c.devices))
  }

  /** A pointer to a nil map is written `null`, which reads back as the nil
      pointer. */
  function CanonCustomConfig(p: Option<Option<map<string, CustomConfig>>>): Option<Option<map<string, CustomConfig>>> {
    if p == Some(None) then None else p
  }

  function CanonDetails(d: RockonDetails): RockonDetails {
    d.(ui := CanonUI(d.ui),
       containers := MapValues(d.containers, CanonContainer),
       customConfig := CanonCustomConfig(d.customConfig))
  }

  function Canon(r: RockOn): RockOn {
    MapValues(r, CanonDetails)
  }
}
