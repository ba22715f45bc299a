/** Reading back what the legacy `ToJSON` writes: decoding the encoding of
    a Rock-on gives its canonical form, which encodes like the original. */
module LegacyRoundTrip {
  import opened Wrappers
  import opened Text
  import opened StrConv
  import opened Json
  import opened GoJson
  import opened Legacy

  /** An `int` read back from its decimal form, whatever it held before. */
  lemma IntRoundTrip(prior: Int, n: Int)
    ensures DecodeInt(prior, EncodeInt(n)) == Ok(n)
  {
    ParseIntItoa(n);
  }

  /** The keys of the small structs, each naming its own field. */
  lemma PortTags()
    ensures FieldOf(PortNamed, "description") == Some(PortDescription)
    ensures FieldOf(PortNamed, "label") == Some(PortLabel)
    ensures FieldOf(PortNamed, "host_default") == Some(PortHostDefault)
    ensures FieldOf(PortNamed, "protocol") == Some(PortProtocol)
    ensures FieldOf(PortNamed, "ui") == Some(PortUI)
  {
  }

  lemma VolumeTags()
    ensures FieldOf(VolumeNamed, "description") == Some(VolumeDescription)
    ensures FieldOf(VolumeNamed, "label") == Some(VolumeLabel)
    ensures FieldOf(VolumeNamed, "min_size") == Some(VolumeMinSize)
  {
  }

  lemma IndexedTags()
    ensures FieldOf(IndexedNamed, "description") == Some(IndexedDescription)
    ensures FieldOf(IndexedNamed, "label") == Some(IndexedLabel)
    ensures FieldOf(IndexedNamed, "index") == Some(IndexedIndex)
  {
  }

  lemma CustomConfigTags()
    ensures FieldOf(CustomConfigNamed, "description") == Some(ConfigDescription)
    ensures FieldOf(CustomConfigNamed, "label") == Some(ConfigLabel)
  {
  }

  lemma UISlugRoundTrip(u: UISlug)
    ensures DecodeStruct(ZeroUISlug, EncodeUISlug(u), UISlugStep) == Ok(u)
  {
    if u.slug != "" {
      FoldFirst(ZeroUISlug, Member("slug", JString(u.slug)), [], UISlugStep);
    }
  }

  /** The fold over the members `EncodePort` writes, field by field. */
  lemma PortFold(p: Port, t1: seq<Member>, t2: seq<Member>, t3: seq<Member>, t4: seq<Member>)
    requires t4 == OmitEmpty(!p.ui, "ui", JBool(p.ui), [])
    requires t3 == OmitEmpty(p.protocol == "", "protocol", JString(p.protocol), t4)
    requires t2 == Field("host_default", EncodeInt(p.hostDefault), t3)
    requires t1 == Field("label", JString(p.shortLabel), t2)
    ensures FoldMembers(ZeroPort, Field("description", JString(p.description), t1), PortStep) == Ok(p)
  {
    PortTags();
    IntRoundTrip(0, p.hostDefault);
    var p1 := ZeroPort.(description := p.description);
    var p2 := p1.(shortLabel := p.shortLabel);
    var p3 := p2.(hostDefault := p.hostDefault);
    var p4 := p3.(protocol := p.protocol);
    FoldFirst(ZeroPort, Member("description", JString(p.description)), t1, PortStep);
    FoldFirst(p1, Member("label", JString(p.shortLabel)), t2, PortStep);
    FoldFirst(p2, Member("host_default", EncodeInt(p.hostDefault)), t3, PortStep);
    if p.protocol != "" {
      FoldFirst(p3, Member("protocol", JString(p.protocol)), t4, PortStep);
    }
    if p.ui {
      FoldFirst(p4, Member("ui", JBool(p.ui)), [], PortStep);
    }
  }

  /** The members `EncodePort` writes, with their tails named. */
  lemma PortShape(p: Port, t1: seq<Member>, t2: seq<Member>, t3: seq<Member>, t4: seq<Member>)
    requires t4 == OmitEmpty(!p.ui, "ui", JBool(p.ui), [])
    requires t3 == OmitEmpty(p.protocol == "", "protocol", JString(p.protocol), t4)
    requires t2 == Field("host_default", EncodeInt(p.hostDefault), t3)
    requires t1 == Field("label", JString(p.shortLabel), t2)
    ensures EncodePort(p) == JObject(Field("description", JString(p.description), t1))
  {
  }

  lemma PortRoundTrip(p: Port)
    ensures DecodePort(EncodePort(p)) == Ok(p)
  {
    var t4 := OmitEmpty(!p.ui, "ui", JBool(p.ui), []);
    var t3 := OmitEmpty(p.protocol == "", "protocol", JString(p.protocol), t4);
    var t2 := Field("host_default", EncodeInt(p.hostDefault), t3);
    var t1 := Field("label", JString(p.shortLabel), t2);
    PortFold(p, t1, t2, t3, t4);
    PortShape(p, t1, t2, t3, t4);
    DecodeStructFrom(ZeroPort, EncodePort(p), Field("description", JString(p.description), t1), PortStep, Ok(p));
  }

  lemma VolumeRoundTrip(p: Volume)
    ensures DecodeVolume(EncodeVolume(p)) == Ok(p)
  {
    VolumeTags();
    IntRoundTrip(0, p.minSize);
    var t2 := OmitEmpty(p.minSize == 0, "min_size", EncodeInt(p.minSize), []);
    var t1 := Field("label", JString(p.shortLabel), t2);
    var p1 := ZeroVolume.(description := p.description);
    var p2 := p1.(shortLabel := p.shortLabel);
    FoldFirst(ZeroVolume, Member("description", JString(p.description)), t1, VolumeStep);
    FoldFirst(p1, Member("label", JString(p.shortLabel)), t2, VolumeStep);
    if p.minSize != 0 {
      FoldFirst(p2, Member("min_size", EncodeInt(p.minSize)), [], VolumeStep);
    }
  }

  lemma EnvironmentRoundTrip(p: EnvironmentVar)
    ensures DecodeEnvironment(EncodeEnvironment(p)) == Ok(p)
  {
    IndexedTags();
    IntRoundTrip(0, p.index);
    var t2 := OmitEmpty(p.index == 0, "index", EncodeInt(p.index), []);
    var t1 := Field("label", JString(p.shortLabel), t2);
    var p1 := ZeroEnvironmentVar.(description := p.description);
    var p2 := p1.(shortLabel := p.shortLabel);
    FoldFirst(ZeroEnvironmentVar, Member("description", JString(p.description)), t1, EnvironmentStep);
    FoldFirst(p1, Member("label", JString(p.shortLabel)), t2, EnvironmentStep);
    if p.index != 0 {
      FoldFirst(p2, Member("index", EncodeInt(p.index)), [], EnvironmentStep);
    }
  }

  lemma DeviceRoundTrip(p: Device)
    ensures DecodeDevice(EncodeDevice(p)) == Ok(p)
  {
    IndexedTags();
    IntRoundTrip(0, p.index);
    var t2 := OmitEmpty(p.index == 0, "index", EncodeInt(p.index), []);
    var t1 := Field("label", JString(p.shortLabel), t2);
    var p1 := ZeroDevice.(description := p.description);
    var p2 := p1.(shortLabel := p.shortLabel);
    FoldFirst(ZeroDevice, Member("description", JString(p.description)), t1, DeviceStep);
    FoldFirst(p1, Member("label", JString(p.shortLabel)), t2, DeviceStep);
    if p.index != 0 {
      FoldFirst(p2, Member("index", EncodeInt(p.index)), [], DeviceStep);
    }
  }

  lemma CustomConfigRoundTrip(p: CustomConfig)
    ensures DecodeCustomConfig(EncodeCustomConfig(p)) == Ok(p)
  {
    CustomConfigTags();
    var t1 := Field("label", JString(p.shortLabel), []);
    var p1 := ZeroCustomConfig.(description := p.description);
    FoldFirst(ZeroCustomConfig, Member("description", JString(p.description)), t1, CustomConfigStep);
    FoldFirst(p1, Member("label", JString(p.shortLabel)), [], CustomConfigStep);
  }

  lemma PortsRoundTrip(m: Option<map<string, Port>>)
    ensures DecodeMap(None, EncodeMap(m, EncodePort), DecodePort) == Ok(m)
  {
    forall x ensures DecodePort(EncodePort(x)) == Ok(x) { PortRoundTrip(x); }
    DecodeEncodeMap(m, EncodePort, DecodePort, Same);
    MapValuesIdentity(m);
  }

  lemma VolumesRoundTrip(m: Option<map<string, Volume>>)
    ensures DecodeMap(None, EncodeMap(m, EncodeVolume), DecodeVolume) == Ok(m)
  {
    forall x ensures DecodeVolume(EncodeVolume(x)) == Ok(x) { VolumeRoundTrip(x); }
    DecodeEncodeMap(m, EncodeVolume, DecodeVolume, Same);
    MapValuesIdentity(m);
  }

  lemma EnvironmentsRoundTrip(m: Option<map<string, EnvironmentVar>>)
    ensures DecodeMap(None, EncodeMap(m, EncodeEnvironment), DecodeEnvironment) == Ok(m)
  {
    forall x ensures DecodeEnvironment(EncodeEnvironment(x)) == Ok(x) { EnvironmentRoundTrip(x); }
    DecodeEncodeMap(m, EncodeEnvironment, DecodeEnvironment, Same);
    MapValuesIdentity(m);
  }

  lemma DevicesRoundTrip(m: Option<map<string, Device>>)
    ensures DecodeMap(None, EncodeMap(m, EncodeDevice), DecodeDevice) == Ok(m)
  {
    forall x ensures DecodeDevice(EncodeDevice(x)) == Ok(x) { DeviceRoundTrip(x); }
    DecodeEncodeMap(m, EncodeDevice, DecodeDevice, Same);
    MapValuesIdentity(m);
  }

  lemma CustomConfigsRoundTrip(m: Option<map<string, CustomConfig>>)
    ensures DecodeMap(None, EncodeCustomConfigs(m), DecodeCustomConfig) == Ok(m)
  {
    forall x ensures DecodeCustomConfig(EncodeCustomConfig(x)) == Ok(x) { CustomConfigRoundTrip(x); }
    DecodeEncodeMap(m, EncodeCustomConfig, DecodeCustomConfig, Same);
    MapValuesIdentity(m);
  }

  lemma PairsRoundTrip(s: Option<seq<Pair>>)
    ensures DecodeSlice(None, EncodeSlice(s, EncodePair), ZeroPair, DecodePair) == Ok(s)
  {
    DecodeEncodeSlice(s, EncodePair, ZeroPair, DecodePair);
  }

  lemma ContainerTags()
    ensures FieldOf(ContainerNamed, "image") == Some(ContainerImage)
    ensures FieldOf(ContainerNamed, "tag") == Some(ContainerTag)
    ensures FieldOf(ContainerNamed, "launch_order") == Some(ContainerLaunchOrder)
    ensures FieldOf(ContainerNamed, "ports") == Some(ContainerPorts)
    ensures FieldOf(ContainerNamed, "volumes") == Some(ContainerVolumes)
    ensures FieldOf(ContainerNamed, "opts") == Some(ContainerOpts)
    ensures FieldOf(ContainerNamed, "cmd_arguments") == Some(ContainerCmdArguments)
    ensures FieldOf(ContainerNamed, "environment") == Some(ContainerEnvironment)
    ensures FieldOf(ContainerNamed, "devices") == Some(ContainerDevices)
  {
  }

  lemma DetailsTags()
    ensures FieldOf(DetailsNamed, "description") == Some(DetailsDescription)
    ensures FieldOf(DetailsNamed, "version") == Some(DetailsVersion)
    ensures FieldOf(DetailsNamed, "website") == Some(DetailsWebsite)
    ensures FieldOf(DetailsNamed, "icon") == Some(DetailsIcon)
    ensures FieldOf(DetailsNamed, "more_info") == Some(DetailsMoreInfo)
    ensures FieldOf(DetailsNamed, "ui") == Some(DetailsUI)
    ensures FieldOf(DetailsNamed, "volume_add_support") == Some(DetailsVolumeAddSupport)
    ensures FieldOf(DetailsNamed, "containers") == Some(DetailsContainers)
    ensures FieldOf(DetailsNamed, "custom_config") == Some(DetailsCustomConfig)
  {
  }

  lemma ContainerImageMember(p: Container, v: JValue, y: string)
    requires DecodeString(p.image, v) == Ok(y)
    ensures ContainerStep(p, Member("image", v)) == Ok(p.(image := y))
  {
    ContainerTags();
  }

  lemma ContainerImageStep(p: Container, x: string, rest: seq<Member>)
    ensures FoldMembers(p, Field("image", JString(x), rest), ContainerStep)
         == FoldMembers(p.(image := x), rest, ContainerStep)
  {
    ContainerImageMember(p, JString(x), x);
    FoldField(p, "image", JString(x), rest, ContainerStep, p.(image := x));
  }

  lemma ContainerTagMember(p: Container, v: JValue, y: string)
    requires DecodeString(p.tag, v) == Ok(y)
    ensures ContainerStep(p, Member("tag", v)) == Ok(p.(tag := y))
  {
    ContainerTags();
  }

  lemma ContainerTagStep(p: Container, x: string, rest: seq<Member>)
    requires p.tag == ""
    ensures FoldMembers(p, OmitEmpty(x == "", "tag", JString(x), rest), ContainerStep)
         == FoldMembers(p.(tag := x), rest, ContainerStep)
  {
    if !(x == "") { ContainerTagMember(p, JString(x), x); }
    FoldOmitEmpty(p, x == "", "tag", JString(x), rest, ContainerStep, p.(tag := x));
  }

  lemma ContainerLaunchOrderMember(p: Container, v: JValue, y: Int)
    requires DecodeInt(p.launchOrder, v) == Ok(y)
    ensures ContainerStep(p, Member("launch_order", v)) == Ok(p.(launchOrder := y))
  {
    ContainerTags();
  }

  lemma ContainerLaunchOrderStep(p: Container, x: Int, rest: seq<Member>)
    ensures FoldMembers(p, Field("launch_order", EncodeInt(x), rest), ContainerStep)
         == FoldMembers(p.(launchOrder := x), rest, ContainerStep)
  {
    IntRoundTrip(p.launchOrder, x);
    ContainerLaunchOrderMember(p, EncodeInt(x), x);
    FoldField(p, "launch_order", EncodeInt(x), rest, ContainerStep, p.(launchOrder := x));
  }

  lemma ContainerPortsMember(p: Container, v: JValue, y: Option<map<string, Port>>)
    requires DecodeMap(p.ports, v, DecodePort) == Ok(y)
    ensures ContainerStep(p, Member("ports", v)) == Ok(p.(ports := y))
  {
    ContainerTags();
  }

  lemma ContainerPortsStep(p: Container, x: Option<map<string, Port>>, rest: seq<Member>)
    requires p.ports.None?
    ensures FoldMembers(p, Field("ports", EncodeMap(x, EncodePort), rest), ContainerStep)
         == FoldMembers(p.(ports := x), rest, ContainerStep)
  {
    PortsRoundTrip(x);
    ContainerPortsMember(p, EncodeMap(x, EncodePort), x);
    FoldField(p, "ports", EncodeMap(x, EncodePort), rest, ContainerStep, p.(ports := x));
  }

  lemma ContainerVolumesMember(p: Container, v: JValue, y: Option<map<string, Volume>>)
    requires DecodeMap(p.volumes, v, DecodeVolume) == Ok(y)
    ensures ContainerStep(p, Member("volumes", v)) == Ok(p.(volumes := y))
  {
    ContainerTags();
  }

  lemma ContainerVolumesStep(p: Container, x: Option<map<string, Volume>>, rest: seq<Member>)
    requires p.volumes.None?
    ensures FoldMembers(p, Field("volumes", EncodeMap(x, EncodeVolume), rest), ContainerStep)
         == FoldMembers(p.(volumes := x), rest, ContainerStep)
  {
    VolumesRoundTrip(x);
    ContainerVolumesMember(p, EncodeMap(x, EncodeVolume), x);
    FoldField(p, "volumes", EncodeMap(x, EncodeVolume), rest, ContainerStep, p.(volumes := x));
  }

  lemma ContainerOptsMember(p: Container, v: JValue, y: Option<seq<Pair>>)
    requires DecodeSlice(p.opts, v, ZeroPair, DecodePair) == Ok(y)
    ensures ContainerStep(p, Member("opts", v)) == Ok(p.(opts := y))
  {
    ContainerTags();
  }

  lemma ContainerOptsStep(p: Container, x: Option<seq<Pair>>, rest: seq<Member>)
    requires p.opts.None?
    ensures FoldMembers(p, OmitEmpty(EmptySlice(x), "opts", EncodeSlice(x, EncodePair), rest), ContainerStep)
         == FoldMembers(p.(opts := NilIfEmptySlice(x)), rest, ContainerStep)
  {
    PairsRoundTrip(x);
    if !(EmptySlice(x)) { ContainerOptsMember(p, EncodeSlice(x, EncodePair), NilIfEmptySlice(x)); }
    FoldOmitEmpty(p, EmptySlice(x), "opts", EncodeSlice(x, EncodePair), rest, ContainerStep, p.(opts := NilIfEmptySlice(x)));
  }

  lemma ContainerCmdArgumentsMember(p: Container, v: JValue, y: Option<seq<Pair>>)
    requires DecodeSlice(p.cmdArguments, v, ZeroPair, DecodePair) == Ok(y)
    ensures ContainerStep(p, Member("cmd_arguments", v)) == Ok(p.(cmdArguments := y))
  {
    ContainerTags();
  }

  lemma ContainerCmdArgumentsStep(p: Container, x: Option<seq<Pair>>, rest: seq<Member>)
    requires p.cmdArguments.None?
    ensures FoldMembers(p, OmitEmpty(EmptySlice(x), "cmd_arguments", EncodeSlice(x, EncodePair), rest), ContainerStep)
         == FoldMembers(p.(cmdArguments := NilIfEmptySlice(x)), rest, ContainerStep)
  {
    PairsRoundTrip(x);
    if !(EmptySlice(x)) { ContainerCmdArgumentsMember(p, EncodeSlice(x, EncodePair), NilIfEmptySlice(x)); }
    FoldOmitEmpty(p, EmptySlice(x), "cmd_arguments", EncodeSlice(x, EncodePair), rest, ContainerStep, p.(cmdArguments := NilIfEmptySlice(x)));
  }

  lemma ContainerEnvironmentMember(p: Container, v: JValue, y: Option<map<string, EnvironmentVar>>)
    requires DecodeMap(p.environment, v, DecodeEnvironment) == Ok(y)
    ensures ContainerStep(p, Member("environment", v)) == Ok(p.(environment := y))
  {
    ContainerTags();
  }

  lemma ContainerEnvironmentStep(p: Container, x: Option<map<string, EnvironmentVar>>, rest: seq<Member>)
    requires p.environment.None?
    ensures FoldMembers(p, OmitEmpty(EmptyMap(x), "environment", EncodeMap(x, EncodeEnvironment), rest), ContainerStep)
         == FoldMembers(p.(environment := NilIfEmpty(x)), rest, ContainerStep)
  {
    EnvironmentsRoundTrip(x);
    if !(EmptyMap(x)) { ContainerEnvironmentMember(p, EncodeMap(x, EncodeEnvironment), NilIfEmpty(x)); }
    FoldOmitEmpty(p, EmptyMap(x), "environment", EncodeMap(x, EncodeEnvironment), rest, ContainerStep, p.(environment := NilIfEmpty(x)));
  }

  lemma ContainerDevicesMember(p: Container, v: JValue, y: Option<map<string, Device>>)
    requires DecodeMap(p.devices, v, DecodeDevice) == Ok(y)
    ensures ContainerStep(p, Member("devices", v)) == Ok(p.(devices := y))
  {
    ContainerTags();
  }

  lemma ContainerDevicesStep(p: Container, x: Option<map<string, Device>>, rest: seq<Member>)
    requires p.devices.None?
    ensures FoldMembers(p, OmitEmpty(EmptyMap(x), "devices", EncodeMap(x, EncodeDevice), rest), ContainerStep)
         == FoldMembers(p.(devices := NilIfEmpty(x)), rest, ContainerStep)
  {
    DevicesRoundTrip(x);
    if !(EmptyMap(x)) { ContainerDevicesMember(p, EncodeMap(x, EncodeDevice), NilIfEmpty(x)); }
    FoldOmitEmpty(p, EmptyMap(x), "devices", EncodeMap(x, EncodeDevice), rest, ContainerStep, p.(devices := NilIfEmpty(x)));
  }

  lemma DetailsDescriptionMember(p: RockonDetails, v: JValue, y: string)
    requires DecodeString(p.description, v) == Ok(y)
    ensures DetailsStep(p, Member("description", v)) == Ok(p.(description := y))
  {
    DetailsTags();
  }

  lemma DetailsDescriptionStep(p: RockonDetails, x: string, rest: seq<Member>)
    ensures FoldMembers(p, Field("description", JString(x), rest), DetailsStep)
         == FoldMembers(p.(description := x), rest, DetailsStep)
  {
    DetailsDescriptionMember(p, JString(x), x);
    FoldField(p, "description", JString(x), rest, DetailsStep, p.(description := x));
  }

  lemma DetailsVersionMember(p: RockonDetails, v: JValue, y: string)
    requires DecodeString(p.version, v) == Ok(y)
    ensures DetailsStep(p, Member("version", v)) == Ok(p.(version := y))
  {
    DetailsTags();
  }

  lemma DetailsVersionStep(p: RockonDetails, x: string, rest: seq<Member>)
    ensures FoldMembers(p, Field("version", JString(x), rest), DetailsStep)
         == FoldMembers(p.(version := x), rest, DetailsStep)
  {
    DetailsVersionMember(p, JString(x), x);
    FoldField(p, "version", JString(x), rest, DetailsStep, p.(version := x));
  }

  lemma DetailsWebsiteMember(p: RockonDetails, v: JValue, y: string)
    requires DecodeString(p.website, v) == Ok(y)
    ensures DetailsStep(p, Member("website", v)) == Ok(p.(website := y))
  {
    DetailsTags();
  }

  lemma DetailsWebsiteStep(p: RockonDetails, x: string, rest: seq<Member>)
    ensures FoldMembers(p, Field("website", JString(x), rest), DetailsStep)
         == FoldMembers(p.(website := x), rest, DetailsStep)
  {
    DetailsWebsiteMember(p, JString(x), x);
    FoldField(p, "website", JString(x), rest, DetailsStep, p.(website := x));
  }

  lemma DetailsIconMember(p: RockonDetails, v: JValue, y: string)
    requires DecodeString(p.icon, v) == Ok(y)
    ensures DetailsStep(p, Member("icon", v)) == Ok(p.(icon := y))
  {
    DetailsTags();
  }

  lemma DetailsIconStep(p: RockonDetails, x: string, rest: seq<Member>)
    requires p.icon == ""
    ensures FoldMembers(p, OmitEmpty(x == "", "icon", JString(x), rest), DetailsStep)
         == FoldMembers(p.(icon := x), rest, DetailsStep)
  {
    if !(x == "") { DetailsIconMember(p, JString(x), x); }
    FoldOmitEmpty(p, x == "", "icon", JString(x), rest, DetailsStep, p.(icon := x));
  }

  lemma DetailsMoreInfoMember(p: RockonDetails, v: JValue, y: string)
    requires DecodeString(p.moreInfo, v) == Ok(y)
    ensures DetailsStep(p, Member("more_info", v)) == Ok(p.(moreInfo := y))
  {
    DetailsTags();
  }

  lemma DetailsMoreInfoStep(p: RockonDetails, x: string, rest: seq<Member>)
    requires p.moreInfo == ""
    ensures FoldMembers(p, OmitEmpty(x == "", "more_info", JString(x), rest), DetailsStep)
         == FoldMembers(p.(moreInfo := x), rest, DetailsStep)
  {
    if !(x == "") { DetailsMoreInfoMember(p, JString(x), x); }
    FoldOmitEmpty(p, x == "", "more_info", JString(x), rest, DetailsStep, p.(moreInfo := x));
  }

  lemma DetailsUIMember(p: RockonDetails, v: JValue, y: Option<UISlug>)
    requires DecodePointer(p.ui, v, ZeroUISlug, UISlugStep) == Ok(y)
    ensures DetailsStep(p, Member("ui", v)) == Ok(p.(ui := y))
  {
    DetailsTags();
  }

  lemma DetailsUIStep(p: RockonDetails, x: Option<UISlug>, rest: seq<Member>)
    requires p.ui.None?
    ensures FoldMembers(p, OmitEmpty(x.None?, "ui", if x.Some? then EncodeUISlug(x.value) else JNull, rest), DetailsStep)
         == FoldMembers(p.(ui := x), rest, DetailsStep)
  {
    if x.Some? { UISlugRoundTrip(x.value); }
    if !(x.None?) { DetailsUIMember(p, if x.Some? then EncodeUISlug(x.value) else JNull, x); }
    FoldOmitEmpty(p, x.None?, "ui", if x.Some? then EncodeUISlug(x.value) else JNull, rest, DetailsStep, p.(ui := x));
  }

  lemma DetailsVolumeAddSupportMember(p: RockonDetails, v: JValue, y: bool)
    requires DecodeBool(p.volumeAddSupport, v) == Ok(y)
    ensures DetailsStep(p, Member("volume_add_support", v)) == Ok(p.(volumeAddSupport := y))
  {
    DetailsTags();
  }

  lemma DetailsVolumeAddSupportStep(p: RockonDetails, x: bool, rest: seq<Member>)
    requires !p.volumeAddSupport
    ensures FoldMembers(p, OmitEmpty(!x, "volume_add_support", JBool(x), rest), DetailsStep)
         == FoldMembers(p.(volumeAddSupport := x), rest, DetailsStep)
  {
    if !(!x) { DetailsVolumeAddSupportMember(p, JBool(x), x); }
    FoldOmitEmpty(p, !x, "volume_add_support", JBool(x), rest, DetailsStep, p.(volumeAddSupport := x));
  }

  lemma DetailsContainersMember(p: RockonDetails, v: JValue, y: Option<map<string, Container>>)
    requires DecodeMap(p.containers, v, DecodeContainer) == Ok(y)
    ensures DetailsStep(p, Member("containers", v)) == Ok(p.(containers := y))
  {
    DetailsTags();
  }

  lemma DetailsContainersStep(p: RockonDetails, x: Option<map<string, Container>>, rest: seq<Member>)
    requires p.containers.None?
    ensures FoldMembers(p, Field("containers", EncodeMap(x, EncodeContainer), rest), DetailsStep)
         == FoldMembers(p.(containers := MapValues(x, CanonContainer)), rest, DetailsStep)
  {
    ContainersRoundTrip(x);
    DetailsContainersMember(p, EncodeMap(x, EncodeContainer), MapValues(x, CanonContainer));
    FoldField(p, "containers", EncodeMap(x, EncodeContainer), rest, DetailsStep, p.(containers := MapValues(x, CanonContainer)));
  }

  lemma DetailsCustomConfigMember(p: RockonDetails, v: JValue, y: Option<Option<map<string, CustomConfig>>>)
    requires DecodeMapPointer(p.customConfig, v) == Ok(y)
    ensures DetailsStep(p, Member("custom_config", v)) == Ok(p.(customConfig := y))
  {
    DetailsTags();
  }

  lemma DetailsCustomConfigStep(p: RockonDetails, x: Option<Option<map<string, CustomConfig>>>, rest: seq<Member>)
    requires p.customConfig.None?
    ensures FoldMembers(p, OmitEmpty(x.None?, "custom_config", if x.Some? then EncodeCustomConfigs(x.value) else JNull, rest), DetailsStep)
         == FoldMembers(p.(customConfig := CanonCustomConfig(x)), rest, DetailsStep)
  {
    if x.Some? { CustomConfigsRoundTrip(x.value); }
    if !(x.None?) { DetailsCustomConfigMember(p, if x.Some? then EncodeCustomConfigs(x.value) else JNull, CanonCustomConfig(x)); }
    FoldOmitEmpty(p, x.None?, "custom_config", if x.Some? then EncodeCustomConfigs(x.value) else JNull, rest, DetailsStep, p.(customConfig := CanonCustomConfig(x)));
  }

  lemma ContainerFold(c: Container, t1: seq<Member>, t2: seq<Member>, t3: seq<Member>, t4: seq<Member>, t5: seq<Member>,
                      t6: seq<Member>, t7: seq<Member>, t8: seq<Member>)
    requires t8 == OmitEmpty(EmptyMap(c.devices), "devices", EncodeMap(c.devices, EncodeDevice), [])
    requires t7 == OmitEmpty(EmptyMap(c.environment), "environment", EncodeMap(c.environment, EncodeEnvironment), t8)
    requires t6 == OmitEmpty(EmptySlice(c.cmdArguments), "cmd_arguments", EncodeSlice(c.cmdArguments, EncodePair), t7)
    requires t5 == OmitEmpty(EmptySlice(c.opts), "opts", EncodeSlice(c.opts, EncodePair), t6)
    requires t4 == Field("volumes", EncodeMap(c.volumes, EncodeVolume), t5)
    requires t3 == Field("ports", EncodeMap(c.ports, EncodePort), t4)
    requires t2 == Field("launch_order", EncodeInt(c.launchOrder), t3)
    requires t1 == OmitEmpty(c.tag == "", "tag", JString(c.tag), t2)
    ensures FoldMembers(ZeroContainer, Field("image", JString(c.image), t1), ContainerStep) == Ok(CanonContainer(c))
  {
    var d := CanonContainer(c);
    var p1 := ZeroContainer.(image := c.image);
    var p2 := p1.(tag := c.tag);
    var p3 := p2.(launchOrder := c.launchOrder);
    var p4 := p3.(ports := c.ports);
    var p5 := p4.(volumes := c.volumes);
    var p6 := p5.(opts := d.opts);
    var p7 := p6.(cmdArguments := d.cmdArguments);
    var p8 := p7.(environment := d.environment);
    ContainerImageStep(ZeroContainer, c.image, t1);
    ContainerTagStep(p1, c.tag, t2);
    ContainerLaunchOrderStep(p2, c.launchOrder, t3);
    ContainerPortsStep(p3, c.ports, t4);
    ContainerVolumesStep(p4, c.volumes, t5);
    ContainerOptsStep(p5, c.opts, t6);
    ContainerCmdArgumentsStep(p6, c.cmdArguments, t7);
    ContainerEnvironmentStep(p7, c.environment, t8);
    ContainerDevicesStep(p8, c.devices, []);
    assert p8.(devices := d.devices) == d;
  }

  /** The members `EncodeContainer` writes, with their tails named. */
  lemma ContainerShape(c: Container, t1: seq<Member>, t2: seq<Member>, t3: seq<Member>, t4: seq<Member>, t5: seq<Member>,
                       t6: seq<Member>, t7: seq<Member>, t8: seq<Member>)
    requires t8 == OmitEmpty(EmptyMap(c.devices), "devices", EncodeMap(c.devices, EncodeDevice), [])
    requires t7 == OmitEmpty(EmptyMap(c.environment), "environment", EncodeMap(c.environment, EncodeEnvironment), t8)
    requires t6 == OmitEmpty(EmptySlice(c.cmdArguments), "cmd_arguments", EncodeSlice(c.cmdArguments, EncodePair), t7)
    requires t5 == OmitEmpty(EmptySlice(c.opts), "opts", EncodeSlice(c.opts, EncodePair), t6)
    requires t4 == Field("volumes", EncodeMap(c.volumes, EncodeVolume), t5)
    requires t3 == Field("ports", EncodeMap(c.ports, EncodePort), t4)
    requires t2 == Field("launch_order", EncodeInt(c.launchOrder), t3)
    requires t1 == OmitEmpty(c.tag == "", "tag", JString(c.tag), t2)
    ensures EncodeContainer(c) == JObject(Field("image", JString(c.image), t1))
  {
  }

  /** A `Container` read back from its encoding: its canonical form. */
  lemma ContainerRoundTrip(c: Container)
    ensures DecodeContainer(EncodeContainer(c)) == Ok(CanonContainer(c))
  {
    var t8 := OmitEmpty(EmptyMap(c.devices), "devices", EncodeMap(c.devices, EncodeDevice), []);
    var t7 := OmitEmpty(EmptyMap(c.environment), "environment", EncodeMap(c.environment, EncodeEnvironment), t8);
    var t6 := OmitEmpty(EmptySlice(c.cmdArguments), "cmd_arguments", EncodeSlice(c.cmdArguments, EncodePair), t7);
    var t5 := OmitEmpty(EmptySlice(c.opts), "opts", EncodeSlice(c.opts, EncodePair), t6);
    var t4 := Field("volumes", EncodeMap(c.volumes, EncodeVolume), t5);
    var t3 := Field("ports", EncodeMap(c.ports, EncodePort), t4);
    var t2 := Field("launch_order", EncodeInt(c.launchOrder), t3);
    var t1 := OmitEmpty(c.tag == "", "tag", JString(c.tag), t2);
    ContainerFold(c, t1, t2, t3, t4, t5, t6, t7, t8);
    ContainerShape(c, t1, t2, t3, t4, t5, t6, t7, t8);
    DecodeStructFrom(ZeroContainer, EncodeContainer(c), Field("image", JString(c.image), t1), ContainerStep, Ok(CanonContainer(c)));
  }

  lemma ContainersRoundTrip(m: Option<map<string, Container>>)
    ensures DecodeMap(None, EncodeMap(m, EncodeContainer), DecodeContainer) == Ok(MapValues(m, CanonContainer))
  {
    forall x ensures DecodeContainer(EncodeContainer(x)) == Ok(CanonContainer(x)) { ContainerRoundTrip(x); }
    DecodeEncodeMap(m, EncodeContainer, DecodeContainer, CanonContainer);
  }

  lemma DetailsFold(d: RockonDetails, t1: seq<Member>, t2: seq<Member>, t3: seq<Member>, t4: seq<Member>, t5: seq<Member>,
                    t6: seq<Member>, t7: seq<Member>, t8: seq<Member>)
    requires CanonUI(d.ui) == d.ui
    requires t8 == OmitEmpty(d.customConfig.None?, "custom_config",
                             if d.customConfig.Some? then EncodeCustomConfigs(d.customConfig.value) else JNull, [])
    requires t7 == Field("containers", EncodeMap(d.containers, EncodeContainer), t8)
    requires t6 == OmitEmpty(!d.volumeAddSupport, "volume_add_support", JBool(d.volumeAddSupport), t7)
    requires t5 == OmitEmpty(d.ui.None?, "ui", if d.ui.Some? then EncodeUISlug(d.ui.value) else JNull, t6)
    requires t4 == OmitEmpty(d.moreInfo == "", "more_info", JString(d.moreInfo), t5)
    requires t3 == OmitEmpty(d.icon == "", "icon", JString(d.icon), t4)
    requires t2 == Field("website", JString(d.website), t3)
    requires t1 == Field("version", JString(d.version), t2)
    ensures FoldMembers(ZeroDetails, Field("description", JString(d.description), t1), DetailsStep) == Ok(CanonDetails(d))
  {
    var canon := CanonDetails(d);
    var p1 := ZeroDetails.(description := d.description);
    var p2 := p1.(version := d.version);
    var p3 := p2.(website := d.website);
    var p4 := p3.(icon := d.icon);
    var p5 := p4.(moreInfo := d.moreInfo);
    var p6 := p5.(ui := d.ui);
    var p7 := p6.(volumeAddSupport := d.volumeAddSupport);
    var p8 := p7.(containers := canon.containers);
    DetailsDescriptionStep(ZeroDetails, d.description, t1);
    DetailsVersionStep(p1, d.version, t2);
    DetailsWebsiteStep(p2, d.website, t3);
    DetailsIconStep(p3, d.icon, t4);
    DetailsMoreInfoStep(p4, d.moreInfo, t5);
    DetailsUIStep(p5, d.ui, t6);
    DetailsVolumeAddSupportStep(p6, d.volumeAddSupport, t7);
    DetailsContainersStep(p7, d.containers, t8);
    DetailsCustomConfigStep(p8, d.customConfig, []);
    assert p8.(customConfig := canon.customConfig) == canon;
  }

  /** The members `EncodeDetailsFields` writes, with their tails named. */
  lemma DetailsShape(d: RockonDetails, t1: seq<Member>, t2: seq<Member>, t3: seq<Member>, t4: seq<Member>, t5: seq<Member>,
                     t6: seq<Member>, t7: seq<Member>, t8: seq<Member>)
    requires t8 == OmitEmpty(d.customConfig.None?, "custom_config",
                              if d.customConfig.Some? then EncodeCustomConfigs(d.customConfig.value) else JNull, [])
    requires t7 == Field("containers", EncodeMap(d.containers, EncodeContainer), t8)
    requires t6 == OmitEmpty(!d.volumeAddSupport, "volume_add_support", JBool(d.volumeAddSupport), t7)
    requires t5 == OmitEmpty(d.ui.None?, "ui", if d.ui.Some? then EncodeUISlug(d.ui.value) else JNull, t6)
    requires t4 == OmitEmpty(d.moreInfo == "", "more_info", JString(d.moreInfo), t5)
    requires t3 == OmitEmpty(d.icon == "", "icon", JString(d.icon), t4)
    requires t2 == Field("website", JString(d.website), t3)
    requires t1 == Field("version", JString(d.version), t2)
    ensures EncodeDetailsFields(d) == JObject(Field("description", JString(d.description), t1))
  {
  }

  lemma DetailsFieldsRoundTrip(d: RockonDetails)
    requires CanonUI(d.ui) == d.ui
    ensures DecodeDetails(EncodeDetailsFields(d)) == Ok(CanonDetails(d))
  {
    var t8 := OmitEmpty(d.customConfig.None?, "custom_config",
                        if d.customConfig.Some? then EncodeCustomConfigs(d.customConfig.value) else JNull, []);
    var t7 := Field("containers", EncodeMap(d.containers, EncodeContainer), t8);
    var t6 := OmitEmpty(!d.volumeAddSupport, "volume_add_support", JBool(d.volumeAddSupport), t7);
    var t5 := OmitEmpty(d.ui.None?, "ui", if d.ui.Some? then EncodeUISlug(d.ui.value) else JNull, t6);
    var t4 := OmitEmpty(d.moreInfo == "", "more_info", JString(d.moreInfo), t5);
    var t3 := OmitEmpty(d.icon == "", "icon", JString(d.icon), t4);
    var t2 := Field("website", JString(d.website), t3);
    var t1 := Field("version", JString(d.version), t2);
    DetailsFold(d, t1, t2, t3, t4, t5, t6, t7, t8);
    DetailsShape(d, t1, t2, t3, t4, t5, t6, t7, t8);
    DecodeStructFrom(ZeroDetails, EncodeDetailsFields(d), Field("description", JString(d.description), t1), DetailsStep, Ok(CanonDetails(d)));
  }

  /** `RockonDetails` read back from what `MarshalJSON` writes: its
      canonical form. */
  lemma DetailsRoundTrip(r: RockonDetails)
    ensures DecodeDetails(MarshalDetails(r)) == Ok(CanonDetails(r))
  {
    var d := if r.ui.Some? && r.ui.value.slug == "" then r.(ui := None) else r;
    assert CanonDetails(d) == CanonDetails(r);
    DetailsFieldsRoundTrip(d);
  }

  /** Decoding the encoding of a legacy Rock-on gives its canonical form. */
  lemma RockOnRoundTrip(r: RockOn)
    ensures DecodeRockOn(EncodeRockOn(r)) == Ok(Canon(r))
  {
    forall x ensures DecodeDetails(MarshalDetails(x)) == Ok(CanonDetails(x)) { DetailsRoundTrip(x); }
    DecodeEncodeMap(r, MarshalDetails, DecodeDetails, CanonDetails);
  }

  lemma ContainerCanonEncodes(c: Container)
    ensures EncodeContainer(CanonContainer(c)) == EncodeContainer(c)
  {
  }

  /** A pointer to a nil `custom_config` map is written `null` and reads
      back as the nil pointer, so it is excluded here. */
  lemma DetailsCanonEncodes(d: RockonDetails)
    requires d.customConfig != Some(None)
    ensures MarshalDetails(CanonDetails(d)) == MarshalDetails(d)
  {
    forall x ensures EncodeContainer(CanonContainer(x)) == EncodeContainer(x) { ContainerCanonEncodes(x); }
    EncodeMapValues(d.containers, EncodeContainer, CanonContainer);
  }

  /** No Rock-on's `custom_config` is a pointer to a nil map. */
  predicate NoNilPointer(r: RockOn) {
    r.Some? ==> forall k | k in r.value :: r.value[k].customConfig != Some(None)
  }

  /** The canonical form of such a Rock-on encodes exactly as the value
      itself. */
  lemma CanonEncodes(r: RockOn)
    requires NoNilPointer(r)
    ensures EncodeRockOn(Canon(r)) == EncodeRockOn(r)
  {
    if r.Some? {
      var m := r.value;
      var m' := Canon(r).value;
      forall k | k in m ensures MarshalDetails(m'[k]) == MarshalDetails(m[k]) {
        DetailsCanonEncodes(m[k]);
      }
      SortedKeysOfKeys(m', m);
      EntriesOfValues(SortedKeys(m), m, m', MarshalDetails);
    }
  }

  /** A step on any field but `custom_config` leaves that field as it was. */
  lemma DetailsStepOther(p: RockonDetails, m: Member)
    requires FieldOf(DetailsNamed, m.key) != Some(DetailsCustomConfig) && DetailsStep(p, m).Ok?
    ensures DetailsStep(p, m).value.customConfig == p.customConfig
  {
  }

  /** A step on `custom_config` stores what `DecodeMapPointer` made. */
  lemma DetailsStepConfig(p: RockonDetails, m: Member)
    requires FieldOf(DetailsNamed, m.key) == Some(DetailsCustomConfig) && DetailsStep(p, m).Ok?
    ensures DecodeMapPointer(p.customConfig, m.value).Ok?
    ensures DetailsStep(p, m).value.customConfig == DecodeMapPointer(p.customConfig, m.value).value
  {
  }

  /** `null` makes the pointer nil, an object makes the map. */
  lemma MapPointerNotNil(prior: Option<Option<map<string, CustomConfig>>>, v: JValue)
    requires DecodeMapPointer(prior, v).Ok?
    ensures DecodeMapPointer(prior, v).value != Some(None)
  {
  }

  /** Decoding never makes a pointer to a nil map. */
  lemma DetailsStepNoNil(p: RockonDetails, m: Member)
    requires p.customConfig != Some(None) && DetailsStep(p, m).Ok?
    ensures DetailsStep(p, m).value.customConfig != Some(None)
  {
    if FieldOf(DetailsNamed, m.key) == Some(DetailsCustomConfig) {
      DetailsStepConfig(p, m);
      MapPointerNotNil(p.customConfig, m.value);
    } else {
      DetailsStepOther(p, m);
    }
  }

  lemma {:induction false} FoldNoNil(p: RockonDetails, ms: seq<Member>)
    requires p.customConfig != Some(None) && FoldMembers(p, ms, DetailsStep).Ok?
    ensures FoldMembers(p, ms, DetailsStep).value.customConfig != Some(None)
    decreases |ms|
  {
    if ms != [] {
      DetailsStepNoNil(p, ms[0]);
      FoldNoNil(DetailsStep(p, ms[0]).value, ms[1..]);
    }
  }

  lemma {:induction false} EntriesNoNil(acc: map<string, RockonDetails>, ms: seq<Member>)
    requires forall k | k in acc :: acc[k].customConfig != Some(None)
    requires DecodeEntries(acc, ms, DecodeDetails).Ok?
    ensures NoNilPointer(Some(DecodeEntries(acc, ms, DecodeDetails).value))
    decreases |ms|
  {
    if ms != [] {
      var x := DecodeDetails(ms[0].value).value;
      if ms[0].value.JObject? {
        FoldNoNil(ZeroDetails, ms[0].value.members);
      }
      EntriesNoNil(acc[ms[0].key := x], ms[1..]);
    }
  }

  /** Every Rock-on the decoder produces is one of those. */
  lemma DecodedNoNil(v: JValue)
    requires DecodeRockOn(v).Ok?
    ensures NoNilPointer(DecodeRockOn(v).value)
  {
    if v.JObject? {
      EntriesNoNil(map[], v.members);
    }
  }

  lemma DetailsCanonIdempotent(d: RockonDetails)
    ensures CanonDetails(CanonDetails(d)) == CanonDetails(d)
  {
    if d.containers.Some? {
      var m := d.containers.value;
      assert MapValues(MapValues(d.containers, CanonContainer), CanonContainer).value == MapValues(d.containers, CanonContainer).value;
    }
  }

  /** Reading back is a projection: the canonical form is its own. */
  lemma CanonIdempotent(r: RockOn)
    ensures Canon(Canon(r)) == Canon(r)
  {
    if r.Some? {
      forall k | k in r.value ensures CanonDetails(CanonDetails(r.value[k])) == CanonDetails(r.value[k]) {
        DetailsCanonIdempotent(r.value[k]);
      }
      assert Canon(Canon(r)).value == Canon(r).value;
    }
  }
}
