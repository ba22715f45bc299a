/** Which keys the legacy `ToJSON` writes, and where the legacy schema reads
    differently from the current one. */
module LegacyFields {
  import opened Wrappers
  import opened Json
  import opened GoJson
  import opened Legacy

  lemma UISlugKeys(u: UISlug)
    ensures MemberKeys(EncodeUISlug(u).members) == IfSet(u.slug != "", "slug")
  {
    OmitEmptyKeys(u.slug == "", "slug", JString(u.slug), []);
  }

  lemma PortKeys(p: Port)
    ensures MemberKeys(EncodePort(p).members)
         == ["description", "label", "host_default"] + IfSet(p.protocol != "", "protocol") + IfSet(p.ui, "ui")
  {
    var t4 := OmitEmpty(!p.ui, "ui", JBool(p.ui), []);
    var t3 := OmitEmpty(p.protocol == "", "protocol", JString(p.protocol), t4);
    var t2 := Field("host_default", EncodeInt(p.hostDefault), t3);
    var t1 := Field("label", JString(p.shortLabel), t2);
    OmitEmptyKeys(!p.ui, "ui", JBool(p.ui), []);
    OmitEmptyKeys(p.protocol == "", "protocol", JString(p.protocol), t4);
    FieldKeys("host_default", EncodeInt(p.hostDefault), t3);
    FieldKeys("label", JString(p.shortLabel), t2);
    FieldKeys("description", JString(p.description), t1);
  }

  /** A struct of a description, a label and one `omitempty` `int`. */
  lemma LabelledKeys(description: string, shortLabel: string, name: string, n: Int)
    ensures MemberKeys(Field("description", JString(description), Field("label", JString(shortLabel),
              OmitEmpty(n == 0, name, EncodeInt(n), []))))
         == ["description", "label"] + IfSet(n != 0, name)
  {
    var t2 := OmitEmpty(n == 0, name, EncodeInt(n), []);
    var t1 := Field("label", JString(shortLabel), t2);
    OmitEmptyKeys(n == 0, name, EncodeInt(n), []);
    FieldKeys("label", JString(shortLabel), t2);
    FieldKeys("description", JString(description), t1);
  }

  lemma VolumeKeys(p: Volume)
    ensures MemberKeys(EncodeVolume(p).members) == ["description", "label"] + IfSet(p.minSize != 0, "min_size")
  {
    LabelledKeys(p.description, p.shortLabel, "min_size", p.minSize);
  }

  /** No `default` key: the legacy environment variable has no default. */
  lemma EnvironmentKeys(p: EnvironmentVar)
    ensures MemberKeys(EncodeEnvironment(p).members) == ["description", "label"] + IfSet(p.index != 0, "index")
  {
    LabelledKeys(p.description, p.shortLabel, "index", p.index);
  }

  lemma DeviceKeys(p: Device)
    ensures MemberKeys(EncodeDevice(p).members) == ["description", "label"] + IfSet(p.index != 0, "index")
  {
    LabelledKeys(p.description, p.shortLabel, "index", p.index);
  }

  lemma ContainerTailKeys(c: Container, opts: JValue, cmdArguments: JValue, environment: JValue, devices: JValue,
                          t5: seq<Member>, t6: seq<Member>, t7: seq<Member>, t8: seq<Member>)
    requires t8 == OmitEmpty(EmptyMap(c.devices), "devices", devices, [])
    requires t7 == OmitEmpty(EmptyMap(c.environment), "environment", environment, t8)
    requires t6 == OmitEmpty(EmptySlice(c.cmdArguments), "cmd_arguments", cmdArguments, t7)
    requires t5 == OmitEmpty(EmptySlice(c.opts), "opts", opts, t6)
    ensures MemberKeys(t5)
         == IfSet(!EmptySlice(c.opts), "opts") + IfSet(!EmptySlice(c.cmdArguments), "cmd_arguments")
          + IfSet(!EmptyMap(c.environment), "environment") + IfSet(!EmptyMap(c.devices), "devices")
  {
    OmitEmptyKeys(EmptyMap(c.devices), "devices", devices, []);
    OmitEmptyKeys(EmptyMap(c.environment), "environment", environment, t8);
    OmitEmptyKeys(EmptySlice(c.cmdArguments), "cmd_arguments", cmdArguments, t7);
    OmitEmptyKeys(EmptySlice(c.opts), "opts", opts, t6);
  }

  lemma ContainerHeadKeys(c: Container, ports: JValue, volumes: JValue,
                          t1: seq<Member>, t2: seq<Member>, t3: seq<Member>, t4: seq<Member>, t5: seq<Member>)
    requires t4 == Field("volumes", volumes, t5)
    requires t3 == Field("ports", ports, t4)
    requires t2 == Field("launch_order", EncodeInt(c.launchOrder), t3)
    requires t1 == OmitEmpty(c.tag == "", "tag", JString(c.tag), t2)
    ensures MemberKeys(Field("image", JString(c.image), t1))
         == ["image"] + IfSet(c.tag != "", "tag") + ["launch_order", "ports", "volumes"] + MemberKeys(t5)
  {
    FieldKeys("volumes", volumes, t5);
    FieldKeys("ports", ports, t4);
    FieldKeys("launch_order", EncodeInt(c.launchOrder), t3);
    OmitEmptyKeys(c.tag == "", "tag", JString(c.tag), t2);
    FieldKeys("image", JString(c.image), t1);
    var tag := IfSet(c.tag != "", "tag");
    Cons3("launch_order", "ports", "volumes", MemberKeys(t5));
    Regroup([], ["image"], tag, ["launch_order", "ports", "volumes"], MemberKeys(t5));
  }

  lemma ContainerKeysOf(c: Container, ports: JValue, volumes: JValue, opts: JValue, cmdArguments: JValue,
                        environment: JValue, devices: JValue, t1: seq<Member>, t2: seq<Member>, t3: seq<Member>,
                        t4: seq<Member>, t5: seq<Member>, t6: seq<Member>, t7: seq<Member>, t8: seq<Member>)
    requires t8 == OmitEmpty(EmptyMap(c.devices), "devices", devices, [])
    requires t7 == OmitEmpty(EmptyMap(c.environment), "environment", environment, t8)
    requires t6 == OmitEmpty(EmptySlice(c.cmdArguments), "cmd_arguments", cmdArguments, t7)
    requires t5 == OmitEmpty(EmptySlice(c.opts), "opts", opts, t6)
    requires t4 == Field("volumes", volumes, t5)
    requires t3 == Field("ports", ports, t4)
    requires t2 == Field("launch_order", EncodeInt(c.launchOrder), t3)
    requires t1 == OmitEmpty(c.tag == "", "tag", JString(c.tag), t2)
    ensures MemberKeys(Field("image", JString(c.image), t1))
         == ["image"] + IfSet(c.tag != "", "tag") + ["launch_order", "ports", "volumes"]
          + IfSet(!EmptySlice(c.opts), "opts") + IfSet(!EmptySlice(c.cmdArguments), "cmd_arguments")
          + IfSet(!EmptyMap(c.environment), "environment") + IfSet(!EmptyMap(c.devices), "devices")
  {
    ContainerTailKeys(c, opts, cmdArguments, environment, devices, t5, t6, t7, t8);
    ContainerHeadKeys(c, ports, volumes, t1, t2, t3, t4, t5);
  }

  /** Unlike the current schema, `volumes` is written even when nil or empty. */
  lemma ContainerKeys(c: Container)
    ensures MemberKeys(EncodeContainer(c).members)
         == ["image"] + IfSet(c.tag != "", "tag") + ["launch_order", "ports", "volumes"]
          + IfSet(!EmptySlice(c.opts), "opts") + IfSet(!EmptySlice(c.cmdArguments), "cmd_arguments")
          + IfSet(!EmptyMap(c.environment), "environment") + IfSet(!EmptyMap(c.devices), "devices")
  {
    var ports, volumes := EncodeMap(c.ports, EncodePort), EncodeMap(c.volumes, EncodeVolume);
    var opts, cmdArguments := EncodeSlice(c.opts, EncodePair), EncodeSlice(c.cmdArguments, EncodePair);
    var environment, devices := EncodeMap(c.environment, EncodeEnvironment), EncodeMap(c.devices, EncodeDevice);
    var t8 := OmitEmpty(EmptyMap(c.devices), "devices", devices, []);
    var t7 := OmitEmpty(EmptyMap(c.environment), "environment", environment, t8);
    var t6 := OmitEmpty(EmptySlice(c.cmdArguments), "cmd_arguments", cmdArguments, t7);
    var t5 := OmitEmpty(EmptySlice(c.opts), "opts", opts, t6);
    var t4 := Field("volumes", volumes, t5);
    var t3 := Field("ports", ports, t4);
    var t2 := Field("launch_order", EncodeInt(c.launchOrder), t3);
    var t1 := OmitEmpty(c.tag == "", "tag", JString(c.tag), t2);
    ContainerKeysOf(c, ports, volumes, opts, cmdArguments, environment, devices, t1, t2, t3, t4, t5, t6, t7, t8);
  }

  lemma DetailsTailKeys(d: RockonDetails, ui: JValue, containers: JValue, config: JValue,
                        t5: seq<Member>, t6: seq<Member>, t7: seq<Member>, t8: seq<Member>)
    requires t8 == OmitEmpty(d.customConfig.None?, "custom_config", config, [])
    requires t7 == Field("containers", containers, t8)
    requires t6 == OmitEmpty(!d.volumeAddSupport, "volume_add_support", JBool(d.volumeAddSupport), t7)
    requires t5 == OmitEmpty(d.ui.None?, "ui", ui, t6)
    ensures MemberKeys(t5)
         == IfSet(d.ui.Some?, "ui") + IfSet(d.volumeAddSupport, "volume_add_support") + ["containers"]
          + IfSet(d.customConfig.Some?, "custom_config")
  {
    OmitEmptyKeys(d.customConfig.None?, "custom_config", config, []);
    FieldKeys("containers", containers, t8);
    OmitEmptyKeys(!d.volumeAddSupport, "volume_add_support", JBool(d.volumeAddSupport), t7);
    OmitEmptyKeys(d.ui.None?, "ui", ui, t6);
  }

  lemma DetailsFrontKeys(d: RockonDetails, t1: seq<Member>, t2: seq<Member>, t3: seq<Member>)
    requires t2 == Field("website", JString(d.website), t3)
    requires t1 == Field("version", JString(d.version), t2)
    ensures MemberKeys(Field("description", JString(d.description), t1)) == ["description", "version", "website"] + MemberKeys(t3)
  {
    FieldKeys("website", JString(d.website), t3);
    FieldKeys("version", JString(d.version), t2);
    FieldKeys("description", JString(d.description), t1);
    Cons3("description", "version", "website", MemberKeys(t3));
  }

  lemma DetailsIconKeys(d: RockonDetails, t3: seq<Member>, t4: seq<Member>, t5: seq<Member>)
    requires t4 == OmitEmpty(d.moreInfo == "", "more_info", JString(d.moreInfo), t5)
    requires t3 == OmitEmpty(d.icon == "", "icon", JString(d.icon), t4)
    ensures MemberKeys(t3) == IfSet(d.icon != "", "icon") + IfSet(d.moreInfo != "", "more_info") + MemberKeys(t5)
  {
    OmitEmptyKeys(d.moreInfo == "", "more_info", JString(d.moreInfo), t5);
    OmitEmptyKeys(d.icon == "", "icon", JString(d.icon), t4);
  }

  lemma DetailsHeadKeys(d: RockonDetails, t1: seq<Member>, t2: seq<Member>, t3: seq<Member>, t4: seq<Member>, t5: seq<Member>)
    requires t4 == OmitEmpty(d.moreInfo == "", "more_info", JString(d.moreInfo), t5)
    requires t3 == OmitEmpty(d.icon == "", "icon", JString(d.icon), t4)
    requires t2 == Field("website", JString(d.website), t3)
    requires t1 == Field("version", JString(d.version), t2)
    ensures MemberKeys(Field("description", JString(d.description), t1))
         == ["description", "version", "website"] + IfSet(d.icon != "", "icon") + IfSet(d.moreInfo != "", "more_info")
          + MemberKeys(t5)
  {
    DetailsFrontKeys(d, t1, t2, t3);
    DetailsIconKeys(d, t3, t4, t5);
    Regroup3(["description", "version", "website"], IfSet(d.icon != "", "icon"), IfSet(d.moreInfo != "", "more_info"), MemberKeys(t5));
  }

  lemma DetailsKeysOf(d: RockonDetails, ui: JValue, containers: JValue, config: JValue,
                      t1: seq<Member>, t2: seq<Member>, t3: seq<Member>, t4: seq<Member>,
                      t5: seq<Member>, t6: seq<Member>, t7: seq<Member>, t8: seq<Member>)
    requires t8 == OmitEmpty(d.customConfig.None?, "custom_config", config, [])
    requires t7 == Field("containers", containers, t8)
    requires t6 == OmitEmpty(!d.volumeAddSupport, "volume_add_support", JBool(d.volumeAddSupport), t7)
    requires t5 == OmitEmpty(d.ui.None?, "ui", ui, t6)
    requires t4 == OmitEmpty(d.moreInfo == "", "more_info", JString(d.moreInfo), t5)
    requires t3 == OmitEmpty(d.icon == "", "icon", JString(d.icon), t4)
    requires t2 == Field("website", JString(d.website), t3)
    requires t1 == Field("version", JString(d.version), t2)
    ensures MemberKeys(Field("description", JString(d.description), t1))
         == ["description", "version", "website"] + IfSet(d.icon != "", "icon") + IfSet(d.moreInfo != "", "more_info")
          + IfSet(d.ui.Some?, "ui") + IfSet(d.volumeAddSupport, "volume_add_support") + ["containers"]
          + IfSet(d.customConfig.Some?, "custom_config")
  {
    DetailsTailKeys(d, ui, containers, config, t5, t6, t7, t8);
    DetailsHeadKeys(d, t1, t2, t3, t4, t5);
  }

  /** `ui` is written exactly when it points at a slug that is not empty, and
      `custom_config` exactly when the pointer is not nil, even if the map it
      points to is nil or empty. */
  lemma DetailsKeys(r: RockonDetails)
    ensures MemberKeys(MarshalDetails(r).members)
         == ["description", "version", "website"] + IfSet(r.icon != "", "icon") + IfSet(r.moreInfo != "", "more_info")
          + IfSet(r.ui.Some? && r.ui.value.slug != "", "ui") + IfSet(r.volumeAddSupport, "volume_add_support")
          + ["containers"] + IfSet(r.customConfig.Some?, "custom_config")
  {
    var d := if r.ui.Some? && r.ui.value.slug == "" then r.(ui := None) else r;
    var ui := if d.ui.Some? then EncodeUISlug(d.ui.value) else JNull;
    var containers := EncodeMap(d.containers, EncodeContainer);
    var config := if d.customConfig.Some? then EncodeCustomConfigs(d.customConfig.value) else JNull;
    var t8 := OmitEmpty(d.customConfig.None?, "custom_config", config, []);
    var t7 := Field("containers", containers, t8);
    var t6 := OmitEmpty(!d.volumeAddSupport, "volume_add_support", JBool(d.volumeAddSupport), t7);
    var t5 := OmitEmpty(d.ui.None?, "ui", ui, t6);
    var t4 := OmitEmpty(d.moreInfo == "", "more_info", JString(d.moreInfo), t5);
    var t3 := OmitEmpty(d.icon == "", "icon", JString(d.icon), t4);
    var t2 := Field("website", JString(d.website), t3);
    var t1 := Field("version", JString(d.version), t2);
    DetailsKeysOf(d, ui, containers, config, t1, t2, t3, t4, t5, t6, t7, t8);
  }

  /** A pointer to a nil map is written as `"custom_config": null`, but its
      canonical form, the nil pointer, is not written at all: the read-back
      of such a Rock-on does not encode like the original. */
  lemma NilPointerNotCanonical(d: RockonDetails)
    requires d.customConfig == Some(None)
    ensures "custom_config" in MemberKeys(MarshalDetails(d).members)
    ensures "custom_config" !in MemberKeys(MarshalDetails(CanonDetails(d)).members)
    ensures MarshalDetails(CanonDetails(d)) != MarshalDetails(d)
  {
    DetailsKeys(d);
    DetailsKeys(CanonDetails(d));
  }

  // ---------------------------------------------------------------------
  // Reading
  // ---------------------------------------------------------------------

  /** A legacy `int` has no quoted form. */
  lemma IntRejectsString(s: string)
    ensures DecodePort(JObject([Member("host_default", JString(s))])) == Err(TypeError)
  {
    assert FieldOf(PortNamed, "host_default") == Some(PortHostDefault);
    assert DecodeInt(ZeroPort.hostDefault, JString(s)) == Err(TypeError);
    assert PortStep(ZeroPort, Member("host_default", JString(s))) == Err(TypeError);
  }

  /** ... and `null` leaves a legacy `int` as it was. */
  lemma IntNullKeeps(p: Port)
    ensures PortStep(p, Member("host_default", JNull)) == Ok(p)
  {
  }

  /** `container_links` is not a field of the legacy details. */
  lemma LinksIgnored(p: RockonDetails, v: JValue)
    ensures DetailsStep(p, Member("container_links", v)) == Ok(p)
  {
  }

  /** `default` is not a field of the legacy environment variable. */
  lemma DefaultIgnored(p: EnvironmentVar, v: JValue)
    ensures EnvironmentStep(p, Member("default", v)) == Ok(p)
  {
  }
}
