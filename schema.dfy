/** The Rock-on schema of model/rockon.go: the Go types, how
    `json.Unmarshal` fills them, how `RockOn.ToJSON` writes them back.

    A Go nil map, nil slice or nil pointer is `None`. */
module Schema {
  import opened Wrappers
  import opened StrConv
  import opened Text
  import opened Json
  import opened JsonParser
  import opened Scalars
  import opened GoJson

  /** Go's `uint` (64 bits), the representation of `UintValue`. */
  type Uint = n: nat | n <= MaxUint

  datatype UISlug = UISlug(https: bool, slug: string)

  datatype Port = Port(description: string, shortLabel: string, hostDefault: Uint, protocol: string, ui: bool)

  datatype Volume = Volume(description: string, shortLabel: string, minSize: Uint)

  /** `Option` and `CmdArgument`, both a Go `[2]string`. */
  datatype Pair = Pair(first: string, second: string)

  datatype EnvironmentVar = EnvironmentVar(description: string, shortLabel: string, index: Uint, defaultValue: string)

  datatype Device = Device(description: string, shortLabel: string, index: Uint)

  datatype CustomConfig = CustomConfig(description: string, shortLabel: string)

  datatype ContainerLink = ContainerLink(name: string, sourceContainer: string)

  datatype Container = Container(
    image: string,
    tag: string,
    launchOrder: Uint,
    ports: Option<map<string, Port>>,
    volumes: Option<map<string, Volume>>,
    opts: Option<seq<Pair>>,
    cmdArguments: Option<seq<Pair>>,
    environment: Option<map<string, EnvironmentVar>>,
    devices: Option<map<string, Device>>)

  datatype RockonDetails = RockonDetails(
    description: string,
    version: string,
    website: string,
    icon: string,
    moreInfo: string,
    ui: Option<UISlug>,
    volumeAddSupport: bool,
    containers: Option<map<string, Container>>,
    containerLinks: Option<map<string, Option<seq<ContainerLink>>>>,
    customConfig: Option<map<string, CustomConfig>>)

  /** A map with, normally, a single entry: the Rock-on's name. */
  type RockOn = Option<map<string, RockonDetails>>

  const ZeroUISlug := UISlug(false, "")
  const ZeroPort := Port("", "", 0, "", false)
  const ZeroVolume := Volume("", "", 0)
  const ZeroPair := Pair("", "")
  const ZeroEnvironmentVar := EnvironmentVar("", "", 0, "")
  const ZeroDevice := Device("", "", 0)
  const ZeroCustomConfig := CustomConfig("", "")
  const ZeroContainerLink := ContainerLink("", "")
  const ZeroContainer := Container("", "", 0, None, None, None, None, None, None)
  const ZeroDetails := RockonDetails("", "", "", "", "", None, false, None, None, None)

  // ---------------------------------------------------------------------
  // Field names (the `json:"…"` tags)

  datatype UISlugField = UIHttps | UISlugName

  function UISlugNamed(k: string): Option<UISlugField> {
    if k == "https" then Some(UIHttps)
    else if k == "slug" then Some(UISlugName)
    else None
  }

  datatype PortField = PortDescription | PortLabel | PortHostDefault | PortProtocol | PortUI

  function PortNamed(k: string): Option<PortField> {
    if k == "description" then Some(PortDescription)
    else if k == "label" then Some(PortLabel)
    else if k == "host_default" then Some(PortHostDefault)
    else if k == "protocol" then Some(PortProtocol)
    else if k == "ui" then Some(PortUI)
    else None
  }

  datatype VolumeField = VolumeDescription | VolumeLabel | VolumeMinSize

  function VolumeNamed(k: string): Option<VolumeField> {
    if k == "description" then Some(VolumeDescription)
    else if k == "label" then Some(VolumeLabel)
    else if k == "min_size" then Some(VolumeMinSize)
    else None
  }

  datatype EnvironmentField = EnvDescription | EnvLabel | EnvIndex | EnvDefault

  function EnvironmentNamed(k: string): Option<EnvironmentField> {
    if k == "description" then Some(EnvDescription)
    else if k == "label" then Some(EnvLabel)
    else if k == "index" then Some(EnvIndex)
    else if k == "default" then Some(EnvDefault)
    else None
  }

  datatype DeviceField = DeviceDescription | DeviceLabel | DeviceIndex

  function DeviceNamed(k: string): Option<DeviceField> {
    if k == "description" then Some(DeviceDescription)
    else if k == "label" then Some(DeviceLabel)
    else if k == "index" then Some(DeviceIndex)
    else None
  }

  datatype CustomConfigField = ConfigDescription | ConfigLabel

  function CustomConfigNamed(k: string): Option<CustomConfigField> {
    if k == "description" then Some(ConfigDescription)
    else if k == "label" then Some(ConfigLabel)
    else None
  }

  datatype LinkField = LinkName | LinkSourceContainer

  function LinkNamed(k: string): Option<LinkField> {
    if k == "name" then Some(LinkName)
    else if k == "source_container" then Some(LinkSourceContainer)
    else None
  }

  datatype ContainerField =
    | ContainerImage | ContainerTag | ContainerLaunchOrder | ContainerPorts | ContainerVolumes
    | ContainerOpts | ContainerCmdArguments | ContainerEnvironment | ContainerDevices

  function ContainerNamed(k: string): Option<ContainerField> {
    if k == "image" then Some(ContainerImage)
    else if k == "tag" then Some(ContainerTag)
    else if k == "launch_order" then Some(ContainerLaunchOrder)
    else if k == "ports" then Some(ContainerPorts)
    else if k == "volumes" then Some(ContainerVolumes)
    else if k == "opts" then Some(ContainerOpts)
    else if k == "cmd_arguments" then Some(ContainerCmdArguments)
    else if k == "environment" then Some(ContainerEnvironment)
    else if k == "devices" then Some(ContainerDevices)
    else None
  }

  datatype DetailsField =
    | DetailsDescription | DetailsVersion | DetailsWebsite | DetailsIcon | DetailsMoreInfo
    | DetailsUI | DetailsVolumeAddSupport | DetailsContainers | DetailsContainerLinks | DetailsCustomConfig

  function DetailsNamed(k: string): Option<DetailsField> {
    if k == "description" then Some(DetailsDescription)
    else if k == "version" then Some(DetailsVersion)
    else if k == "website" then Some(DetailsWebsite)
    else if k == "icon" then Some(DetailsIcon)
    else if k == "more_info" then Some(DetailsMoreInfo)
    else if k == "ui" then Some(DetailsUI)
    else if k == "volume_add_support" then Some(DetailsVolumeAddSupport)
    else if k == "containers" then Some(DetailsContainers)
    else if k == "container_links" then Some(DetailsContainerLinks)
    else if k == "custom_config" then Some(DetailsCustomConfig)
    else None
  }

  // ---------------------------------------------------------------------
  // Decoding: one member of an object into the struct decoded so far

  /** A `UintValue` field (its `UnmarshalJSON`, which also sees `null`). */
  function DecodeUint(v: JValue): Result<Uint, Error> {
    var n :- UintOfJson(v);
    Ok(n as Uint)
  }

  function UISlugStep(p: UISlug, m: Member): Result<UISlug, Error> {
    var f := FieldOf(UISlugNamed, m.key);
    if f.None? then Ok(p)
    else match f.value
    case UIHttps => var x :- DecodeBool(p.https, m.value); Ok(p.(https := x))
    case UISlugName => var x :- DecodeString(p.slug, m.value); Ok(p.(slug := x))
  }

  function PortStep(p: Port, m: Member): Result<Port, Error> {
    var f := FieldOf(PortNamed, m.key);
    if f.None? then Ok(p)
    else match f.value
    case PortDescription => var x :- DecodeString(p.description, m.value); Ok(p.(description := x))
    case PortLabel => var x :- DecodeString(p.shortLabel, m.value); Ok(p.(shortLabel := x))
    case PortHostDefault => var x :- DecodeUint(m.value); Ok(p.(hostDefault := x))
    case PortProtocol => var x :- DecodeString(p.protocol, m.value); Ok(p.(protocol := x))
    case PortUI => var x :- DecodeBool(p.ui, m.value); Ok(p.(ui := x))
  }

  function VolumeStep(p: Volume, m: Member): Result<Volume, Error> {
    var f := FieldOf(VolumeNamed, m.key);
    if f.None? then Ok(p)
    else match f.value
    case VolumeDescription => var x :- DecodeString(p.description, m.value); Ok(p.(description := x))
    case VolumeLabel => var x :- DecodeString(p.shortLabel, m.value); Ok(p.(shortLabel := x))
    case VolumeMinSize => var x :- DecodeUint(m.value); Ok(p.(minSize := x))
  }

  function EnvironmentStep(p: EnvironmentVar, m: Member): Result<EnvironmentVar, Error> {
    var f := FieldOf(EnvironmentNamed, m.key);
    if f.None? then Ok(p)
    else match f.value
    case EnvDescription => var x :- DecodeString(p.description, m.value); Ok(p.(description := x))
    case EnvLabel => var x :- DecodeString(p.shortLabel, m.value); Ok(p.(shortLabel := x))
    case EnvIndex => var x :- DecodeUint(m.value); Ok(p.(index := x))
    case EnvDefault => var x :- StrOfJson(m.value); Ok(p.(defaultValue := x))
  }

  function DeviceStep(p: Device, m: Member): Result<Device, Error> {
    var f := FieldOf(DeviceNamed, m.key);
    if f.None? then Ok(p)
    else match f.value
    case DeviceDescription => var x :- DecodeString(p.description, m.value); Ok(p.(description := x))
    case DeviceLabel => var x :- DecodeString(p.shortLabel, m.value); Ok(p.(shortLabel := x))
    case DeviceIndex => var x :- DecodeUint(m.value); Ok(p.(index := x))
  }

  function CustomConfigStep(p: CustomConfig, m: Member): Result<CustomConfig, Error> {
    var f := FieldOf(CustomConfigNamed, m.key);
    if f.None? then Ok(p)
    else match f.value
    case ConfigDescription => var x :- DecodeString(p.description, m.value); Ok(p.(description := x))
    case ConfigLabel => var x :- DecodeString(p.shortLabel, m.value); Ok(p.(shortLabel := x))
  }

  function LinkStep(p: ContainerLink, m: Member): Result<ContainerLink, Error> {
    var f := FieldOf(LinkNamed, m.key);
    if f.None? then Ok(p)
    else match f.value
    case LinkName => var x :- DecodeString(p.name, m.value); Ok(p.(name := x))
    case LinkSourceContainer => var x :- DecodeString(p.sourceContainer, m.value); Ok(p.(sourceContainer := x))
  }

  /** A `[2]string`: a shorter array leaves the missing places empty, a
      longer one has its extra elements ignored. */
  function DecodePair(prior: Pair, v: JValue): Result<Pair, Error> {
    match v
    case JNull => Ok(prior)
    case JArray(xs) =>
      var a :- if |xs| > 0 then DecodeString(prior.first, xs[0]) else Ok("");
      var b :- if |xs| > 1 then DecodeString(prior.second, xs[1]) else Ok("");
      Ok(Pair(a, b))
    case _ => Err(TypeError)
  }

  function DecodePort(v: JValue): Result<Port, Error> { DecodeStruct(ZeroPort, v, PortStep) }
  function DecodeVolume(v: JValue): Result<Volume, Error> { DecodeStruct(ZeroVolume, v, VolumeStep) }
  function DecodeEnvironment(v: JValue): Result<EnvironmentVar, Error> { DecodeStruct(ZeroEnvironmentVar, v, EnvironmentStep) }
  function DecodeDevice(v: JValue): Result<Device, Error> { DecodeStruct(ZeroDevice, v, DeviceStep) }
  function DecodeCustomConfig(v: JValue): Result<CustomConfig, Error> { DecodeStruct(ZeroCustomConfig, v, CustomConfigStep) }

  /** A `[]ContainerLink` map element, decoded from nil. */
  function DecodeLinks(v: JValue): Result<Option<seq<ContainerLink>>, Error> {
    DecodeSlice(None, v, ZeroContainerLink, (p, x) => DecodeStruct(p, x, LinkStep))
  }

  function ContainerStep(p: Container, m: Member): Result<Container, Error> {
    var f := FieldOf(ContainerNamed, m.key);
    if f.None? then Ok(p)
    else match f.value
    case ContainerImage => var x :- DecodeString(p.image, m.value); Ok(p.(image := x))
    case ContainerTag => var x :- DecodeString(p.tag, m.value); Ok(p.(tag := x))
    case ContainerLaunchOrder => var x :- DecodeUint(m.value); Ok(p.(launchOrder := x))
    case ContainerPorts => var x :- DecodeMap(p.ports, m.value, DecodePort); Ok(p.(ports := x))
    case ContainerVolumes => var x :- DecodeMap(p.volumes, m.value, DecodeVolume); Ok(p.(volumes := x))
    case ContainerOpts => var x :- DecodeSlice(p.opts, m.value, ZeroPair, DecodePair); Ok(p.(opts := x))
    case ContainerCmdArguments =>
      var x :- DecodeSlice(p.cmdArguments, m.value, ZeroPair, DecodePair); Ok(p.(cmdArguments := x))
    case ContainerEnvironment =>
      var x :- DecodeMap(p.environment, m.value, DecodeEnvironment); Ok(p.(environment := x))
    case ContainerDevices => var x :- DecodeMap(p.devices, m.value, DecodeDevice); Ok(p.(devices := x))
  }

  function DecodeContainer(v: JValue): Result<Container, Error> { DecodeStruct(ZeroContainer, v, ContainerStep) }

  function DetailsStep(p: RockonDetails, m: Member): Result<RockonDetails, Error> {
    var f := FieldOf(DetailsNamed, m.key);
    if f.None? then Ok(p)
    else match f.value
    case DetailsDescription => var x :- DecodeString(p.description, m.value); Ok(p.(description := x))
    case DetailsVersion => var x :- DecodeString(p.version, m.value); Ok(p.(version := x))
    case DetailsWebsite => var x :- DecodeString(p.website, m.value); Ok(p.(website := x))
    case DetailsIcon => var x :- DecodeString(p.icon, m.value); Ok(p.(icon := x))
    case DetailsMoreInfo => var x :- DecodeString(p.moreInfo, m.value); Ok(p.(moreInfo := x))
    case DetailsUI => var x :- DecodePointer(p.ui, m.value, ZeroUISlug, UISlugStep); Ok(p.(ui := x))
    case DetailsVolumeAddSupport =>
      var x :- DecodeBool(p.volumeAddSupport, m.value); Ok(p.(volumeAddSupport := x))
    case DetailsContainers => var x :- DecodeMap(p.containers, m.value, DecodeContainer); Ok(p.(containers := x))
    case DetailsContainerLinks =>
      var x :- DecodeMap(p.containerLinks, m.value, DecodeLinks); Ok(p.(containerLinks := x))
    case DetailsCustomConfig =>
      var x :- DecodeMap(p.customConfig, m.value, DecodeCustomConfig); Ok(p.(customConfig := x))
  }

  function DecodeDetails(v: JValue): Result<RockonDetails, Error> { DecodeStruct(ZeroDetails, v, DetailsStep) }

  /** `json.Unmarshal` into a nil `RockOn`. */
  function DecodeRockOn(v: JValue): Result<RockOn, Error> {
    DecodeMap(None, v, DecodeDetails)
  }

  /** The same from the file's text; text that is not JSON is a syntax error. */
  function Unmarshal(text: string): Result<RockOn, Error> {
    match Parse(text)
    case None => Err(SyntaxError)
    case Some(v) => DecodeRockOn(v)
  }

  // ---------------------------------------------------------------------
  // Encoding: fields in declaration order, `omitempty` ones only when set

  function EncodeUISlug(u: UISlug): JValue {
    JObject(
      OmitEmpty(!u.https, "https", JBool(u.https),
      OmitEmpty(u.slug == "", "slug", JString(u.slug), [])))
  }

  function EncodePort(p: Port): JValue {
    JObject(
      Field("description", JString(p.description),
      Field("label", JString(p.shortLabel),
      Field("host_default", UintToJson(p.hostDefault),
      OmitEmpty(p.protocol == "", "protocol", JString(p.protocol),
      OmitEmpty(!p.ui, "ui", JBool(p.ui), []))))))
  }

  function EncodeVolume(p: Volume): JValue {
    JObject(
      Field("description", JString(p.description),
      Field("label", JString(p.shortLabel),
      OmitEmpty(p.minSize == 0, "min_size", UintToJson(p.minSize), []))))
  }

  function EncodePair(p: Pair): JValue {
    JArray([JString(p.first), JString(p.second)])
  }

  function EncodeEnvironment(p: EnvironmentVar): JValue {
    JObject(
      Field("description", JString(p.description),
      Field("label", JString(p.shortLabel),
      OmitEmpty(p.index == 0, "index", UintToJson(p.index),
      OmitEmpty(p.defaultValue == "", "default", StrToJson(p.defaultValue), [])))))
  }

  function EncodeDevice(p: Device): JValue {
    JObject(
      Field("description", JString(p.description),
      Field("label", JString(p.shortLabel),
      OmitEmpty(p.index == 0, "index", UintToJson(p.index), []))))
  }

  function EncodeCustomConfig(p: CustomConfig): JValue {
    JObject(
      Field("description", JString(p.description),
      Field("label", JString(p.shortLabel), [])))
  }

  function EncodeLink(p: ContainerLink): JValue {
    JObject(
      Field("name", JString(p.name),
      Field("source_container", JString(p.sourceContainer), [])))
  }

  function EncodeLinks(s: Option<seq<ContainerLink>>): JValue {
    EncodeSlice(s, EncodeLink)
  }

  function EncodeContainer(c: Container): JValue {
    JObject(
      Field("image", JString(c.image),
      OmitEmpty(c.tag == "", "tag", JString(c.tag),
      Field("launch_order", UintToJson(c.launchOrder),
      Field("ports", EncodeMap(c.ports, EncodePort),
      OmitEmpty(EmptyMap(c.volumes), "volumes", EncodeMap(c.volumes, EncodeVolume),
      OmitEmpty(EmptySlice(c.opts), "opts", EncodeSlice(c.opts, EncodePair),
      OmitEmpty(EmptySlice(c.cmdArguments), "cmd_arguments", EncodeSlice(c.cmdArguments, EncodePair),
      OmitEmpty(EmptyMap(c.environment), "environment", EncodeMap(c.environment, EncodeEnvironment),
      OmitEmpty(EmptyMap(c.devices), "devices", EncodeMap(c.devices, EncodeDevice), []))))))))))
  }

  /** The fields of `RockonDetails` as `json.Marshal` writes them. */
  function EncodeDetailsFields(d: RockonDetails): JValue {
    JObject(
      Field("description", JString(d.description),
      Field("version", JString(d.version),
      Field("website", JString(d.website),
      OmitEmpty(d.icon == "", "icon", JString(d.icon),
      OmitEmpty(d.moreInfo == "", "more_info", JString(d.moreInfo),
      OmitEmpty(d.ui.None?, "ui", if d.ui.Some? then EncodeUISlug(d.ui.value) else JNull,
      OmitEmpty(!d.volumeAddSupport, "volume_add_support", JBool(d.volumeAddSupport),
      Field("containers", EncodeMap(d.containers, EncodeContainer),
      OmitEmpty(EmptyMap(d.containerLinks), "container_links", EncodeMap(d.containerLinks, EncodeLinks),
      OmitEmpty(EmptyMap(d.customConfig), "custom_config", EncodeMap(d.customConfig, EncodeCustomConfig), [])))))))))))
  }

  /** `RockonDetails.MarshalJSON`: a `ui` pointing at an empty `UISlug` is
      dropped before the fields are written. */
  function MarshalDetails(d: RockonDetails): JValue {
    EncodeDetailsFields(if d.ui == Some(ZeroUISlug) then d.(ui := None) else d)
  }

  function EncodeRockOn(r: RockOn): JValue {
    EncodeMap(r, MarshalDetails)
  }

  /** The three escapes the post-pass of `ToJSON` turns back into the
      characters `&`, `<` and `>`. */
  const EscapedAmp := UnicodeEscape(0x26)
  const EscapedLt := UnicodeEscape(0x3C)
  const EscapedGt := UnicodeEscape(0x3E)

  /** What the `Encoder` writes: four-space indentation, the top-level keys
      without HTML escaping, the details as `json.Marshal` escaped them,
      and a final newline. */
  function Encoded(r: RockOn): string {
    Print(EncodeRockOn(r), "    ", 0, NoHtmlEscaping, HtmlEscaping) + "\n"
  }

  /** `RockOn.ToJSON`: the encoder's text with every escaped `&`, `<` and
      `>` written back as the character itself. Encoding a `RockOn`
      cannot fail, so the error result is not modelled. */
  function ToJSON(r: RockOn): string {
    ReplaceAll(ReplaceAll(ReplaceAll(Encoded(r), EscapedAmp, "&"), EscapedLt, "<"), EscapedGt, ">")
  }

  // ---------------------------------------------------------------------
  // The canonical form: what a value reads back as after being written

  function CanonUI(u: Option<UISlug>): Option<UISlug> {
    if u == Some(ZeroUISlug) then None else u
  }

  function CanonContainer(c: Container): Container {
    c.(volumes := NilIfEmpty(c.volumes),
       opts := NilIfEmptySlice(c.opts),
       cmdArguments := NilIfEmptySlice(c.cmdArguments),
       environment := NilIfEmpty(c.environment),
       devices := NilIfEmpty(c.devices))
  }

  function CanonDetails(d: RockonDetails): RockonDetails {
    d.(ui := CanonUI(d.ui),
       containers := MapValues(d.containers, CanonContainer),
       containerLinks := NilIfEmpty(d.containerLinks),
       customConfig := NilIfEmpty(d.customConfig))
  }

  function Canon(r: RockOn): RockOn {
    MapValues(r, CanonDetails)
  }
}
