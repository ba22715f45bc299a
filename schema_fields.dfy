/** Which keys `ToJSON` writes for each struct of the current schema, and in
    which order: every field in declaration order, an `omitempty` one only
    when it is set, `launch_order` and `host_default` always, and `ui` only
    when it points at a `UISlug` that is not empty. */
module SchemaFields {
  import opened Wrappers
  import opened Json
  import opened Scalars
  import opened GoJson
  import opened Schema

  lemma UISlugKeys(u: UISlug)
    ensures MemberKeys(EncodeUISlug(u).members) == IfSet(u.https, "https") + IfSet(u.slug != "", "slug")
  {
    OmitEmptyKeys(u.slug == "", "slug", JString(u.slug), []);
    OmitEmptyKeys(!u.https, "https", JBool(u.https), OmitEmpty(u.slug == "", "slug", JString(u.slug), []));
  }

  lemma PortKeys(p: Port)
    ensures MemberKeys(EncodePort(p).members)
         == ["description", "label", "host_default"] + IfSet(p.protocol != "", "protocol") + IfSet(p.ui, "ui")
  {
    var t4 := OmitEmpty(!p.ui, "ui", JBool(p.ui), []);
    var t3 := OmitEmpty(p.protocol == "", "protocol", JString(p.protocol), t4);
    var t2 := Field("host_default", UintToJson(p.hostDefault), t3);
    var t1 := Field("label", JString(p.shortLabel), t2);
    OmitEmptyKeys(!p.ui, "ui", JBool(p.ui), []);
    OmitEmptyKeys(p.protocol == "", "protocol", JString(p.protocol), t4);
    FieldKeys("host_default", UintToJson(p.hostDefault), t3);
    FieldKeys("label", JString(p.shortLabel), t2);
    FieldKeys("description", JString(p.description), t1);
  }

  lemma VolumeKeys(p: Volume)
    ensures MemberKeys(EncodeVolume(p).members) == ["description", "label"] + IfSet(p.minSize != 0, "min_size")
  {
    var t2 := OmitEmpty(p.minSize == 0, "min_size", UintToJson(p.minSize), []);
    var t1 := Field("label", JString(p.shortLabel), t2);
    OmitEmptyKeys(p.minSize == 0, "min_size", UintToJson(p.minSize), []);
    FieldKeys("label", JString(p.shortLabel), t2);
    FieldKeys("description", JString(p.description), t1);
  }

  lemma EnvironmentKeys(p: EnvironmentVar)
    ensures MemberKeys(EncodeEnvironment(p).members)
         == ["description", "label"] + IfSet(p.index != 0, "index") + IfSet(p.defaultValue != "", "default")
  {
    var t3 := OmitEmpty(p.defaultValue == "", "default", StrToJson(p.defaultValue), []);
    var t2 := OmitEmpty(p.index == 0, "index", UintToJson(p.index), t3);
    var t1 := Field("label", JString(p.shortLabel), t2);
    OmitEmptyKeys(p.defaultValue == "", "default", StrToJson(p.defaultValue), []);
    OmitEmptyKeys(p.index == 0, "index", UintToJson(p.index), t3);
    FieldKeys("label", JString(p.shortLabel), t2);
    FieldKeys("description", JString(p.description), t1);
  }

  lemma DeviceKeys(p: Device)
    ensures MemberKeys(EncodeDevice(p).members) == ["description", "label"] + IfSet(p.index != 0, "index")
  {
    var t2 := OmitEmpty(p.index == 0, "index", UintToJson(p.index), []);
    var t1 := Field("label", JString(p.shortLabel), t2);
    OmitEmptyKeys(p.index == 0, "index", UintToJson(p.index), []);
    FieldKeys("label", JString(p.shortLabel), t2);
    FieldKeys("description", JString(p.description), t1);
  }

  /** The key list of a container's member list, whatever the values, in
      three stretches. */
  lemma ContainerTailKeys(c: Container, opts: JValue, cmdArguments: JValue, environment: JValue, devices: JValue,
                          t5: seq<Member>, t6: seq<Member>, t7: seq<Member>, t8: seq<Member>)
    requires t8 == OmitEmpty(EmptyMap(c.devices), "devices", devices, [])
    requires t7 == OmitEmpty(EmptyMap(c.environment), "environment", environment, t8)
    requires t6 == OmitEmpty(EmptySlice(c.cmdArguments), "cmd_arguments", cmdArguments, t7)
    requires t5 == OmitEmpty(EmptySlice(c.opts), "opts", opts, t6)
    ensures MemberKeys(t5)
         == IfSet(!EmptySlice(c.opts), "opts") + IfSet(!EmptySlice(c.cmdArguments), "cmd_arguments")
          + IfSet(!EmptyMap(c.environment), "environment") + IfSet(!EmptyMap(c.devices), "devices")
  {
    OmitEmptyKeys(EmptyMap(c.devices), "devices", devices, []);
    OmitEmptyKeys(EmptyMap(c.environment), "environment", environment, t8);
    OmitEmptyKeys(EmptySlice(c.cmdArguments), "cmd_arguments", cmdArguments, t7);
    OmitEmptyKeys(EmptySlice(c.opts), "opts", opts, t6);
  }

  lemma ContainerHeadKeys(c: Container, ports: JValue, volumes: JValue,
                          t1: seq<Member>, t2: seq<Member>, t3: seq<Member>, t4: seq<Member>, t5: seq<Member>)
    requires t4 == OmitEmpty(EmptyMap(c.volumes), "volumes", volumes, t5)
    requires t3 == Field("ports", ports, t4)
    requires t2 == Field("launch_order", UintToJson(c.launchOrder), t3)
    requires t1 == OmitEmpty(c.tag == "", "tag", JString(c.tag), t2)
    ensures MemberKeys(Field("image", JString(c.image), t1))
         == ["image"] + IfSet(c.tag != "", "tag") + ["launch_order", "ports"]
          + IfSet(!EmptyMap(c.volumes), "volumes") + MemberKeys(t5)
  {
    OmitEmptyKeys(EmptyMap(c.volumes), "volumes", volumes, t5);
    FieldKeys("ports", ports, t4);
    FieldKeys("launch_order", UintToJson(c.launchOrder), t3);
    OmitEmptyKeys(c.tag == "", "tag", JString(c.tag), t2);
    FieldKeys("image", JString(c.image), t1);
    var tag, volumes := IfSet(c.tag != "", "tag"), IfSet(!EmptyMap(c.volumes), "volumes");
    Cons2("launch_order", "ports", volumes + MemberKeys(t5));
    Regroup(["image"], tag, ["launch_order", "ports"], volumes, MemberKeys(t5));
  }

  lemma ContainerKeysOf(c: Container, ports: JValue, volumes: JValue, opts: JValue, cmdArguments: JValue,
                        environment: JValue, devices: JValue, t1: seq<Member>, t2: seq<Member>, t3: seq<Member>,
                        t4: seq<Member>, t5: seq<Member>, t6: seq<Member>, t7: seq<Member>, t8: seq<Member>)
    requires t8 == OmitEmpty(EmptyMap(c.devices), "devices", devices, [])
    requires t7 == OmitEmpty(EmptyMap(c.environment), "environment", environment, t8)
    requires t6 == OmitEmpty(EmptySlice(c.cmdArguments), "cmd_arguments", cmdArguments, t7)
    requires t5 == OmitEmpty(EmptySlice(c.opts), "opts", opts, t6)
    requires t4 == OmitEmpty(EmptyMap(c.volumes), "volumes", volumes, t5)
    requires t3 == Field("ports", ports, t4)
    requires t2 == Field("launch_order", UintToJson(c.launchOrder), t3)
    requires t1 == OmitEmpty(c.tag == "", "tag", JString(c.tag), t2)
    ensures MemberKeys(Field("image", JString(c.image), t1))
         == ["image"] + IfSet(c.tag != "", "tag") + ["launch_order", "ports"]
          + IfSet(!EmptyMap(c.volumes), "volumes") + IfSet(!EmptySlice(c.opts), "opts")
          + IfSet(!EmptySlice(c.cmdArguments), "cmd_arguments") + IfSet(!EmptyMap(c.environment), "environment")
          + IfSet(!EmptyMap(c.devices), "devices")
  {
    ContainerTailKeys(c, opts, cmdArguments, environment, devices, t5, t6, t7, t8);
    ContainerHeadKeys(c, ports, volumes, t1, t2, t3, t4, t5);
  }

  lemma ContainerKeys(c: Container)
    ensures MemberKeys(EncodeContainer(c).members)
         == ["image"] + IfSet(c.tag != "", "tag") + ["launch_order", "ports"]
          + IfSet(!EmptyMap(c.volumes), "volumes") + IfSet(!EmptySlice(c.opts), "opts")
          + IfSet(!EmptySlice(c.cmdArguments), "cmd_arguments") + IfSet(!EmptyMap(c.environment), "environment")
          + IfSet(!EmptyMap(c.devices), "devices")
  {
    var ports, volumes := EncodeMap(c.ports, EncodePort), EncodeMap(c.volumes, EncodeVolume);
    var opts, cmdArguments := EncodeSlice(c.opts, EncodePair), EncodeSlice(c.cmdArguments, EncodePair);
    var environment, devices := EncodeMap(c.environment, EncodeEnvironment), EncodeMap(c.devices, EncodeDevice);
    var t8 := OmitEmpty(EmptyMap(c.devices), "devices", devices, []);
    var t7 := OmitEmpty(EmptyMap(c.environment), "environment", environment, t8);
    var t6 := OmitEmpty(EmptySlice(c.cmdArguments), "cmd_arguments", cmdArguments, t7);
    var t5 := OmitEmpty(EmptySlice(c.opts), "opts", opts, t6);
    var t4 := OmitEmpty(EmptyMap(c.volumes), "volumes", volumes, t5);
    var t3 := Field("ports", ports, t4);
    var t2 := Field("launch_order", UintToJson(c.launchOrder), t3);
    var t1 := OmitEmpty(c.tag == "", "tag", JString(c.tag), t2);
    ContainerKeysOf(c, ports, volumes, opts, cmdArguments, environment, devices, t1, t2, t3, t4, t5, t6, t7, t8);
  }

  lemma DetailsTailKeys(d: RockonDetails, containers: JValue, links: JValue, config: JValue,
                        t7: seq<Member>, t8: seq<Member>, t9: seq<Member>)
    requires t9 == OmitEmpty(EmptyMap(d.customConfig), "custom_config", config, [])
    requires t8 == OmitEmpty(EmptyMap(d.containerLinks), "container_links", links, t9)
    requires t7 == Field("containers", containers, t8)
    ensures MemberKeys(t7)
         == ["containers"] + IfSet(!EmptyMap(d.containerLinks), "container_links")
          + IfSet(!EmptyMap(d.customConfig), "custom_config")
  {
    OmitEmptyKeys(EmptyMap(d.customConfig), "custom_config", config, []);
    OmitEmptyKeys(EmptyMap(d.containerLinks), "container_links", links, t9);
    FieldKeys("containers", containers, t8);
  }

  lemma DetailsMiddleKeys(d: RockonDetails, ui: JValue, t4: seq<Member>, t5: seq<Member>, t6: seq<Member>, t7: seq<Member>)
    requires t6 == OmitEmpty(!d.volumeAddSupport, "volume_add_support", JBool(d.volumeAddSupport), t7)
    requires t5 == OmitEmpty(d.ui.None?, "ui", ui, t6)
    requires t4 == OmitEmpty(d.moreInfo == "", "more_info", JString(d.moreInfo), t5)
    ensures MemberKeys(t4)
         == IfSet(d.moreInfo != "", "more_info") + IfSet(d.ui.Some?, "ui")
          + IfSet(d.volumeAddSupport, "volume_add_support") + MemberKeys(t7)
  {
    OmitEmptyKeys(!d.volumeAddSupport, "volume_add_support", JBool(d.volumeAddSupport), t7);
    OmitEmptyKeys(d.ui.None?, "ui", ui, t6);
    OmitEmptyKeys(d.moreInfo == "", "more_info", JString(d.moreInfo), t5);
    Regroup([], IfSet(d.moreInfo != "", "more_info"), IfSet(d.ui.Some?, "ui"),
            IfSet(d.volumeAddSupport, "volume_add_support"), MemberKeys(t7));
  }

  lemma DetailsHeadKeys(d: RockonDetails, t1: seq<Member>, t2: seq<Member>, t3: seq<Member>, t4: seq<Member>)
    requires t3 == OmitEmpty(d.icon == "", "icon", JString(d.icon), t4)
    requires t2 == Field("website", JString(d.website), t3)
    requires t1 == Field("version", JString(d.version), t2)
    ensures MemberKeys(Field("description", JString(d.description), t1))
         == ["description", "version", "website"] + IfSet(d.icon != "", "icon") + MemberKeys(t4)
  {
    OmitEmptyKeys(d.icon == "", "icon", JString(d.icon), t4);
    FieldKeys("website", JString(d.website), t3);
    FieldKeys("version", JString(d.version), t2);
    FieldKeys("description", JString(d.description), t1);
    var icon := IfSet(d.icon != "", "icon");
    Cons3("description", "version", "website", icon + MemberKeys(t4));
  }

  lemma DetailsKeysOf(d: RockonDetails, ui: JValue, containers: JValue, links: JValue, config: JValue,
                      t1: seq<Member>, t2: seq<Member>, t3: seq<Member>, t4: seq<Member>, t5: seq<Member>,
                      t6: seq<Member>, t7: seq<Member>, t8: seq<Member>, t9: seq<Member>)
    requires t9 == OmitEmpty(EmptyMap(d.customConfig), "custom_config", config, [])
    requires t8 == OmitEmpty(EmptyMap(d.containerLinks), "container_links", links, t9)
    requires t7 == Field("containers", containers, t8)
    requires t6 == OmitEmpty(!d.volumeAddSupport, "volume_add_support", JBool(d.volumeAddSupport), t7)
    requires t5 == OmitEmpty(d.ui.None?, "ui", ui, t6)
    requires t4 == OmitEmpty(d.moreInfo == "", "more_info", JString(d.moreInfo), t5)
    requires t3 == OmitEmpty(d.icon == "", "icon", JString(d.icon), t4)
    requires t2 == Field("website", JString(d.website), t3)
    requires t1 == Field("version", JString(d.version), t2)
    ensures MemberKeys(Field("description", JString(d.description), t1))
         == ["description", "version", "website"] + IfSet(d.icon != "", "icon") + IfSet(d.moreInfo != "", "more_info")
          + IfSet(d.ui.Some?, "ui") + IfSet(d.volumeAddSupport, "volume_add_support") + ["containers"]
          + IfSet(!EmptyMap(d.containerLinks), "container_links") + IfSet(!EmptyMap(d.customConfig), "custom_config")
  {
    DetailsTailKeys(d, containers, links, config, t7, t8, t9);
    DetailsMiddleKeys(d, ui, t4, t5, t6, t7);
    DetailsHeadKeys(d, t1, t2, t3, t4);
  }

  /** `MarshalJSON` writes `ui` exactly when it points at a `UISlug` with
      `https` set or a slug. */
  lemma DetailsKeys(r: RockonDetails)
    ensures MemberKeys(MarshalDetails(r).members)
         == ["description", "version", "website"] + IfSet(r.icon != "", "icon") + IfSet(r.moreInfo != "", "more_info")
          + IfSet(r.ui.Some? && r.ui.value != ZeroUISlug, "ui") + IfSet(r.volumeAddSupport, "volume_add_support")
          + ["containers"]
          + IfSet(!EmptyMap(r.containerLinks), "container_links") + IfSet(!EmptyMap(r.customConfig), "custom_config")
  {
    var d := if r.ui == Some(ZeroUISlug) then r.(ui := None) else r;
    var ui := if d.ui.Some? then EncodeUISlug(d.ui.value) else JNull;
    var containers := EncodeMap(d.containers, EncodeContainer);
    var links, config := EncodeMap(d.containerLinks, EncodeLinks), EncodeMap(d.customConfig, EncodeCustomConfig);
    var t9 := OmitEmpty(EmptyMap(d.customConfig), "custom_config", config, []);
    var t8 := OmitEmpty(EmptyMap(d.containerLinks), "container_links", links, t9);
    var t7 := Field("containers", containers, t8);
    var t6 := OmitEmpty(!d.volumeAddSupport, "volume_add_support", JBool(d.volumeAddSupport), t7);
    var t5 := OmitEmpty(d.ui.None?, "ui", ui, t6);
    var t4 := OmitEmpty(d.moreInfo == "", "more_info", JString(d.moreInfo), t5);
    var t3 := OmitEmpty(d.icon == "", "icon", JString(d.icon), t4);
    var t2 := Field("website", JString(d.website), t3);
    var t1 := Field("version", JString(d.version), t2);
    DetailsKeysOf(d, ui, containers, links, config, t1, t2, t3, t4, t5, t6, t7, t8, t9);
  }
}
