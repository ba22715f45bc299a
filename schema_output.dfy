/** What `RockOn.ToJSON` writes: a document with no unicode escape of `&`,
    `<` or `>` in it, ending in the encoder's line break; and, as long as
    no string in the Rock-on already contains such an escape, exactly the
    unescaped indented text of its encoding, which reads back as the
    canonical form and is rewritten to itself. */
module SchemaOutput {
  import opened Wrappers
  import opened Text
  import opened Json
  import opened JsonParser
  import opened JsonRoundTrip
  import opened Scalars
  import opened GoJson
  import opened Schema
  import opened SchemaRoundTrip
  import opened PostPass

  // ---------------------------------------------------------------------
  // Every number the encoders write is an integer lexeme
  // ---------------------------------------------------------------------

  lemma FieldWellFormed(name: string, v: JValue, rest: seq<Member>)
    requires WellFormed(v) && WellFormed(JObject(rest))
    ensures WellFormed(JObject(Field(name, v, rest)))
  {
    var ms := Field(name, v, rest);
    assert forall i | 1 <= i < |ms| :: ms[i] == rest[i - 1];
  }

  lemma OmitEmptyWellFormed(empty: bool, name: string, v: JValue, rest: seq<Member>)
    requires WellFormed(v) && WellFormed(JObject(rest))
    ensures WellFormed(JObject(OmitEmpty(empty, name, v, rest)))
  {
    if !empty { FieldWellFormed(name, v, rest); }
  }

  lemma PortWellFormed(p: Port)
    ensures WellFormed(EncodePort(p))
  {
    var t4 := OmitEmpty(!p.ui, "ui", JBool(p.ui), []);
    var t3 := OmitEmpty(p.protocol == "", "protocol", JString(p.protocol), t4);
    var t2 := Field("host_default", UintToJson(p.hostDefault), t3);
    var t1 := Field("label", JString(p.shortLabel), t2);
    OmitEmptyWellFormed(!p.ui, "ui", JBool(p.ui), []);
    OmitEmptyWellFormed(p.protocol == "", "protocol", JString(p.protocol), t4);
    FieldWellFormed("host_default", UintToJson(p.hostDefault), t3);
    FieldWellFormed("label", JString(p.shortLabel), t2);
    FieldWellFormed("description", JString(p.description), t1);
  }

  lemma VolumeWellFormed(p: Volume)
    ensures WellFormed(EncodeVolume(p))
  {
    var t2 := OmitEmpty(p.minSize == 0, "min_size", UintToJson(p.minSize), []);
    var t1 := Field("label", JString(p.shortLabel), t2);
    OmitEmptyWellFormed(p.minSize == 0, "min_size", UintToJson(p.minSize), []);
    FieldWellFormed("label", JString(p.shortLabel), t2);
    FieldWellFormed("description", JString(p.description), t1);
  }

  lemma EnvironmentWellFormed(p: EnvironmentVar)
    ensures WellFormed(EncodeEnvironment(p))
  {
    var t3 := OmitEmpty(p.defaultValue == "", "default", StrToJson(p.defaultValue), []);
    var t2 := OmitEmpty(p.index == 0, "index", UintToJson(p.index), t3);
    var t1 := Field("label", JString(p.shortLabel), t2);
    OmitEmptyWellFormed(p.defaultValue == "", "default", StrToJson(p.defaultValue), []);
    OmitEmptyWellFormed(p.index == 0, "index", UintToJson(p.index), t3);
    FieldWellFormed("label", JString(p.shortLabel), t2);
    FieldWellFormed("description", JString(p.description), t1);
  }

  lemma DeviceWellFormed(p: Device)
    ensures WellFormed(EncodeDevice(p))
  {
    var t2 := OmitEmpty(p.index == 0, "index", UintToJson(p.index), []);
    var t1 := Field("label", JString(p.shortLabel), t2);
    OmitEmptyWellFormed(p.index == 0, "index", UintToJson(p.index), []);
    FieldWellFormed("label", JString(p.shortLabel), t2);
    FieldWellFormed("description", JString(p.description), t1);
  }

  lemma ContainerWellFormed(c: Container)
    ensures WellFormed(EncodeContainer(c))
  {
    forall x ensures WellFormed(EncodePort(x)) { PortWellFormed(x); }
    forall x ensures WellFormed(EncodeVolume(x)) { VolumeWellFormed(x); }
    forall x ensures WellFormed(EncodeEnvironment(x)) { EnvironmentWellFormed(x); }
    forall x ensures WellFormed(EncodeDevice(x)) { DeviceWellFormed(x); }
    EncodeMapWellFormed(c.ports, EncodePort);
    EncodeMapWellFormed(c.volumes, EncodeVolume);
    EncodeSliceWellFormed(c.opts, EncodePair);
    EncodeSliceWellFormed(c.cmdArguments, EncodePair);
    EncodeMapWellFormed(c.environment, EncodeEnvironment);
    EncodeMapWellFormed(c.devices, EncodeDevice);
    var t8 := OmitEmpty(EmptyMap(c.devices), "devices", EncodeMap(c.devices, EncodeDevice), []);
    var t7 := OmitEmpty(EmptyMap(c.environment), "environment", EncodeMap(c.environment, EncodeEnvironment), t8);
    var t6 := OmitEmpty(EmptySlice(c.cmdArguments), "cmd_arguments", EncodeSlice(c.cmdArguments, EncodePair), t7);
    var t5 := OmitEmpty(EmptySlice(c.opts), "opts", EncodeSlice(c.opts, EncodePair), t6);
    var t4 := OmitEmpty(EmptyMap(c.volumes), "volumes", EncodeMap(c.volumes, EncodeVolume), t5);
    var t3 := Field("ports", EncodeMap(c.ports, EncodePort), t4);
    var t2 := Field("launch_order", UintToJson(c.launchOrder), t3);
    var t1 := OmitEmpty(c.tag == "", "tag", JString(c.tag), t2);
    ContainerFieldsWellFormed(c, EncodeMap(c.ports, EncodePort), EncodeMap(c.volumes, EncodeVolume),
                              EncodeSlice(c.opts, EncodePair), EncodeSlice(c.cmdArguments, EncodePair),
                              EncodeMap(c.environment, EncodeEnvironment), EncodeMap(c.devices, EncodeDevice), t1, t2, t3, t4, t5, t6, t7, t8);
  }

  lemma ContainerFieldsWellFormed(c: Container, ports: JValue, volumes: JValue, opts: JValue, cmdArguments: JValue,
                                  environment: JValue, devices: JValue, t1: seq<Member>, t2: seq<Member>, t3: seq<Member>,
                                  t4: seq<Member>, t5: seq<Member>, t6: seq<Member>, t7: seq<Member>, t8: seq<Member>)
    requires WellFormed(ports) && WellFormed(volumes) && WellFormed(opts) && WellFormed(cmdArguments)
    requires WellFormed(environment) && WellFormed(devices)
    requires t8 == OmitEmpty(EmptyMap(c.devices), "devices", devices, [])
    requires t7 == OmitEmpty(EmptyMap(c.environment), "environment", environment, t8)
    requires t6 == OmitEmpty(EmptySlice(c.cmdArguments), "cmd_arguments", cmdArguments, t7)
    requires t5 == OmitEmpty(EmptySlice(c.opts), "opts", opts, t6)
    requires t4 == OmitEmpty(EmptyMap(c.volumes), "volumes", volumes, t5)
    requires t3 == Field("ports", ports, t4)
    requires t2 == Field("launch_order", UintToJson(c.launchOrder), t3)
    requires t1 == OmitEmpty(c.tag == "", "tag", JString(c.tag), t2)
    ensures WellFormed(JObject(Field("image", JString(c.image), t1)))
  {
    OmitEmptyWellFormed(EmptyMap(c.devices), "devices", devices, []);
    OmitEmptyWellFormed(EmptyMap(c.environment), "environment", environment, t8);
    OmitEmptyWellFormed(EmptySlice(c.cmdArguments), "cmd_arguments", cmdArguments, t7);
    OmitEmptyWellFormed(EmptySlice(c.opts), "opts", opts, t6);
    OmitEmptyWellFormed(EmptyMap(c.volumes), "volumes", volumes, t5);
    FieldWellFormed("ports", ports, t4);
    FieldWellFormed("launch_order", UintToJson(c.launchOrder), t3);
    OmitEmptyWellFormed(c.tag == "", "tag", JString(c.tag), t2);
    FieldWellFormed("image", JString(c.image), t1);
  }

  lemma UISlugWellFormed(u: UISlug)
    ensures WellFormed(EncodeUISlug(u))
  {
    OmitEmptyWellFormed(u.slug == "", "slug", JString(u.slug), []);
    OmitEmptyWellFormed(!u.https, "https", JBool(u.https), OmitEmpty(u.slug == "", "slug", JString(u.slug), []));
  }

  lemma LinkWellFormed(p: ContainerLink)
    ensures WellFormed(EncodeLink(p))
  {
    FieldWellFormed("source_container", JString(p.sourceContainer), []);
    FieldWellFormed("name", JString(p.name), Field("source_container", JString(p.sourceContainer), []));
  }

  lemma CustomConfigWellFormed(p: CustomConfig)
    ensures WellFormed(EncodeCustomConfig(p))
  {
    FieldWellFormed("label", JString(p.shortLabel), []);
    FieldWellFormed("description", JString(p.description), Field("label", JString(p.shortLabel), []));
  }

  lemma DetailsWellFormed(r: RockonDetails)
    ensures WellFormed(MarshalDetails(r))
  {
    var d := if r.ui == Some(ZeroUISlug) then r.(ui := None) else r;
    forall x ensures WellFormed(EncodeContainer(x)) { ContainerWellFormed(x); }
    forall x ensures WellFormed(EncodeLink(x)) { LinkWellFormed(x); }
    forall x ensures WellFormed(EncodeLinks(x)) { EncodeSliceWellFormed(x, EncodeLink); }
    forall x ensures WellFormed(EncodeCustomConfig(x)) { CustomConfigWellFormed(x); }
    EncodeMapWellFormed(d.containers, EncodeContainer);
    EncodeMapWellFormed(d.containerLinks, EncodeLinks);
    EncodeMapWellFormed(d.customConfig, EncodeCustomConfig);
    var uiValue := if d.ui.Some? then EncodeUISlug(d.ui.value) else JNull;
    if d.ui.Some? { UISlugWellFormed(d.ui.value); }
    var t9 := OmitEmpty(EmptyMap(d.customConfig), "custom_config", EncodeMap(d.customConfig, EncodeCustomConfig), []);
    var t8 := OmitEmpty(EmptyMap(d.containerLinks), "container_links", EncodeMap(d.containerLinks, EncodeLinks), t9);
    var t7 := Field("containers", EncodeMap(d.containers, EncodeContainer), t8);
    var t6 := OmitEmpty(!d.volumeAddSupport, "volume_add_support", JBool(d.volumeAddSupport), t7);
    var t5 := OmitEmpty(d.ui.None?, "ui", uiValue, t6);
    var t4 := OmitEmpty(d.moreInfo == "", "more_info", JString(d.moreInfo), t5);
    var t3 := OmitEmpty(d.icon == "", "icon", JString(d.icon), t4);
    var t2 := Field("website", JString(d.website), t3);
    var t1 := Field("version", JString(d.version), t2);
    DetailsFieldsWellFormed(d, uiValue, EncodeMap(d.containers, EncodeContainer), EncodeMap(d.containerLinks, EncodeLinks),
                            EncodeMap(d.customConfig, EncodeCustomConfig), t1, t2, t3, t4, t5, t6, t7, t8, t9);
  }

  lemma DetailsFieldsWellFormed(d: RockonDetails, uiValue: JValue, containers: JValue, links: JValue, config: JValue,
                                t1: seq<Member>, t2: seq<Member>, t3: seq<Member>,
                                t4: seq<Member>, t5: seq<Member>, t6: seq<Member>, t7: seq<Member>, t8: seq<Member>,
                                t9: seq<Member>)
    requires WellFormed(containers) && WellFormed(uiValue)
    requires WellFormed(links) && WellFormed(config)
    requires t9 == OmitEmpty(EmptyMap(d.customConfig), "custom_config", config, [])
    requires t8 == OmitEmpty(EmptyMap(d.containerLinks), "container_links", links, t9)
    requires t7 == Field("containers", containers, t8)
    requires t6 == OmitEmpty(!d.volumeAddSupport, "volume_add_support", JBool(d.volumeAddSupport), t7)
    requires t5 == OmitEmpty(d.ui.None?, "ui", uiValue, t6)
    requires t4 == OmitEmpty(d.moreInfo == "", "more_info", JString(d.moreInfo), t5)
    requires t3 == OmitEmpty(d.icon == "", "icon", JString(d.icon), t4)
    requires t2 == Field("website", JString(d.website), t3)
    requires t1 == Field("version", JString(d.version), t2)
    ensures WellFormed(JObject(Field("description", JString(d.description), t1)))
  {
    OmitEmptyWellFormed(EmptyMap(d.customConfig), "custom_config", config, []);
    OmitEmptyWellFormed(EmptyMap(d.containerLinks), "container_links", links, t9);
    FieldWellFormed("containers", containers, t8);
    OmitEmptyWellFormed(!d.volumeAddSupport, "volume_add_support", JBool(d.volumeAddSupport), t7);
    OmitEmptyWellFormed(d.ui.None?, "ui", uiValue, t6);
    OmitEmptyWellFormed(d.moreInfo == "", "more_info", JString(d.moreInfo), t5);
    OmitEmptyWellFormed(d.icon == "", "icon", JString(d.icon), t4);
    FieldWellFormed("website", JString(d.website), t3);
    FieldWellFormed("version", JString(d.version), t2);
    FieldWellFormed("description", JString(d.description), t1);
  }

  lemma RockOnWellFormed(r: RockOn)
    ensures WellFormed(EncodeRockOn(r))
  {
    forall x ensures WellFormed(MarshalDetails(x)) { DetailsWellFormed(x); }
    EncodeMapWellFormed(r, MarshalDetails);
  }

  // ---------------------------------------------------------------------
  // `ToJSON`
  // ---------------------------------------------------------------------

  /** The three constants are the escapes of `&`, `<` and `>`. */
  lemma PatternsAgree()
    ensures EscapedAmp == Escaped('&') && EscapedLt == Escaped('<') && EscapedGt == Escaped('>')
  {
  }

  lemma ToJSONUnescapes(r: RockOn)
    ensures ToJSON(r) == Unescape(Print(EncodeRockOn(r), "    ", 0, NoHtmlEscaping, HtmlEscaping)) + "\n"
  {
    PatternsAgree();
    UnescapeFinalNewline(Print(EncodeRockOn(r), "    ", 0, NoHtmlEscaping, HtmlEscaping));
  }

  lemma ToJSONIsUnescaped(r: RockOn)
    ensures ToJSON(r) == Unescape(Print(EncodeRockOn(r), "    ", 0, NoHtmlEscaping, HtmlEscaping) + "\n")
  {
    PatternsAgree();
  }

  /** Whatever the Rock-on, the output ends in a line break and holds none
      of the three escapes. */
  lemma ToJSONShape(r: RockOn)
    ensures |ToJSON(r)| > 0 && ToJSON(r)[|ToJSON(r)| - 1] == '\n'
    ensures !Contains(ToJSON(r), EscapedAmp) && !Contains(ToJSON(r), EscapedLt) && !Contains(ToJSON(r), EscapedGt)
  {
    ToJSONUnescapes(r);
    PatternsAgree();
    UnescapeRemoves(Encoded(r));
  }

  /** No string of the Rock-on's encoding, key or value, already contains one
      of the escapes. */
  predicate SafeRockOn(r: RockOn) {
    Safe(EncodeRockOn(r))
  }

  lemma PlainDocument(text: string, v: JValue)
    requires WellFormed(v) && Safe(v)
    requires text == Unescape(Print(v, "    ", 0, NoHtmlEscaping, HtmlEscaping) + "\n")
    ensures text == Print(v, "    ", 0, NoHtmlEscaping, NoHtmlEscaping) + "\n"
  {
    UnescapePrinted(v, "    ");
  }

  /** Then the output is the indented text of the encoding with nothing
      HTML-escaped. */
  lemma ToJSONPlain(r: RockOn)
    requires SafeRockOn(r)
    ensures ToJSON(r) == Print(EncodeRockOn(r), "    ", 0, NoHtmlEscaping, NoHtmlEscaping) + "\n"
  {
    ToJSONIsUnescaped(r);
    RockOnWellFormed(r);
    PlainDocument(ToJSON(r), EncodeRockOn(r));
  }

  /** ... which is a valid document and reads back as the canonical form. */
  lemma ToJSONReadsBack(r: RockOn)
    requires SafeRockOn(r)
    ensures Parse(ToJSON(r)) == Some(EncodeRockOn(r))
    ensures Unmarshal(ToJSON(r)) == Ok(Canon(r))
  {
    var v := EncodeRockOn(r);
    ToJSONPlain(r);
    assert Parse(Print(v, "    ", 0, NoHtmlEscaping, NoHtmlEscaping) + "\n") == Some(v) by {
      RockOnWellFormed(r);
      ParsePrinted(v, "    ", NoHtmlEscaping, NoHtmlEscaping);
    }
    RockOnRoundTrip(r);
  }

  /** Values with the same canonical form are written alike. */
  lemma ToJSONCanon(r: RockOn)
    ensures ToJSON(Canon(r)) == ToJSON(r)
  {
    CanonEncodes(r);
  }

  /** Rewriting is idempotent: the output, read back and written again, is
      the output. */
  lemma ToJSONIdempotent(r: RockOn)
    requires SafeRockOn(r)
    ensures Unmarshal(ToJSON(r)).Ok? && ToJSON(Unmarshal(ToJSON(r)).value) == ToJSON(r)
  {
    ToJSONReadsBack(r);
    ToJSONCanon(r);
  }
}
