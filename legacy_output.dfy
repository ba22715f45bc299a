/** What the legacy `ToJSON` writes: the same guarantees as the current one,
    at two-space indentation, except that a `custom_config` pointer to a nil
    map is written `null` and so does not survive a second rewrite. */
module LegacyOutput {
  import opened Wrappers
  import opened Text
  import opened Json
  import opened JsonParser
  import opened JsonRoundTrip
  import opened GoJson
  import opened Legacy
  import opened LegacyRoundTrip
  import opened PostPass

  // ---------------------------------------------------------------------
  // Every number the encoders write is an integer lexeme
  // ---------------------------------------------------------------------

  lemma FieldWellFormed(name: string, v: JValue, rest: seq<Member>)
    requires WellFormed(v) && WellFormed(JObject(rest))
    ensures WellFormed(JObject(Field(name, v, rest)))
  {
    var ms := Field(name, v, rest);
    assert forall i | 1 <= i < |ms| :: ms[i] == rest[i - 1];
  }

  lemma OmitEmptyWellFormed(empty: bool, name: string, v: JValue, rest: seq<Member>)
    requires WellFormed(v) && WellFormed(JObject(rest))
    ensures WellFormed(JObject(OmitEmpty(empty, name, v, rest)))
  {
    if !empty { FieldWellFormed(name, v, rest); }
  }

  lemma IntWellFormed(n: Int)
    ensures WellFormed(EncodeInt(n))
  {
    ItoaLexeme(n);
  }

  lemma PortWellFormed(p: Port)
    ensures WellFormed(EncodePort(p))
  {
    var t4 := OmitEmpty(!p.ui, "ui", JBool(p.ui), []);
    var t3 := OmitEmpty(p.protocol == "", "protocol", JString(p.protocol), t4);
    var t2 := Field("host_default", EncodeInt(p.hostDefault), t3);
    var t1 := Field("label", JString(p.shortLabel), t2);
    IntWellFormed(p.hostDefault);
    OmitEmptyWellFormed(!p.ui, "ui", JBool(p.ui), []);
    OmitEmptyWellFormed(p.protocol == "", "protocol", JString(p.protocol), t4);
    FieldWellFormed("host_default", EncodeInt(p.hostDefault), t3);
    FieldWellFormed("label", JString(p.shortLabel), t2);
    FieldWellFormed("description", JString(p.description), t1);
  }

  /** A struct of a description, a label and one optional `int`. */
  lemma LabelledWellFormed(description: string, shortLabel: string, name: string, n: Int)
    ensures WellFormed(JObject(Field("description", JString(description), Field("label", JString(shortLabel),
              OmitEmpty(n == 0, name, EncodeInt(n), [])))))
  {
    var t2 := OmitEmpty(n == 0, name, EncodeInt(n), []);
    var t1 := Field("label", JString(shortLabel), t2);
    IntWellFormed(n);
    OmitEmptyWellFormed(n == 0, name, EncodeInt(n), []);
    FieldWellFormed("label", JString(shortLabel), t2);
    FieldWellFormed("description", JString(description), t1);
  }

  lemma ContainerWellFormed(c: Container)
    ensures WellFormed(EncodeContainer(c))
  {
    forall x ensures WellFormed(EncodePort(x)) { PortWellFormed(x); }
    forall x ensures WellFormed(EncodeVolume(x)) { LabelledWellFormed(x.description, x.shortLabel, "min_size", x.minSize); }
    forall x ensures WellFormed(EncodeEnvironment(x)) { LabelledWellFormed(x.description, x.shortLabel, "index", x.index); }
    forall x ensures WellFormed(EncodeDevice(x)) { LabelledWellFormed(x.description, x.shortLabel, "index", x.index); }
    EncodeMapWellFormed(c.ports, EncodePort);
    EncodeMapWellFormed(c.volumes, EncodeVolume);
    EncodeSliceWellFormed(c.opts, EncodePair);
    EncodeSliceWellFormed(c.cmdArguments, EncodePair);
    EncodeMapWellFormed(c.environment, EncodeEnvironment);
    EncodeMapWellFormed(c.devices, EncodeDevice);
    IntWellFormed(c.launchOrder);
    var ports, volumes := EncodeMap(c.ports, EncodePort), EncodeMap(c.volumes, EncodeVolume);
    var opts, cmdArguments := EncodeSlice(c.opts, EncodePair), EncodeSlice(c.cmdArguments, EncodePair);
    var environment, devices := EncodeMap(c.environment, EncodeEnvironment), EncodeMap(c.devices, EncodeDevice);
    var t8 := OmitEmpty(EmptyMap(c.devices), "devices", devices, []);
    var t7 := OmitEmpty(EmptyMap(c.environment), "environment", environment, t8);
    var t6 := OmitEmpty(EmptySlice(c.cmdArguments), "cmd_arguments", cmdArguments, t7);
    var t5 := OmitEmpty(EmptySlice(c.opts), "opts", opts, t6);
    var t4 := Field("volumes", volumes, t5);
    var t3 := Field("ports", ports, t4);
    var t2 := Field("launch_order", EncodeInt(c.launchOrder), t3);
    var t1 := OmitEmpty(c.tag == "", "tag", JString(c.tag), t2);
    ContainerFieldsWellFormed(c, ports, volumes, opts, cmdArguments, environment, devices, t1, t2, t3, t4, t5, t6, t7, t8);
  }

  lemma ContainerFieldsWellFormed(c: Container, ports: JValue, volumes: JValue, opts: JValue, cmdArguments: JValue,
                                  environment: JValue, devices: JValue, t1: seq<Member>, t2: seq<Member>, t3: seq<Member>,
                                  t4: seq<Member>, t5: seq<Member>, t6: seq<Member>, t7: seq<Member>, t8: seq<Member>)
    requires WellFormed(ports) && WellFormed(volumes) && WellFormed(opts) && WellFormed(cmdArguments)
    requires WellFormed(environment) && WellFormed(devices) && WellFormed(EncodeInt(c.launchOrder))
    requires t8 == OmitEmpty(EmptyMap(c.devices), "devices", devices, [])
    requires t7 == OmitEmpty(EmptyMap(c.environment), "environment", environment, t8)
    requires t6 == OmitEmpty(EmptySlice(c.cmdArguments), "cmd_arguments", cmdArguments, t7)
    requires t5 == OmitEmpty(EmptySlice(c.opts), "opts", opts, t6)
    requires t4 == Field("volumes", volumes, t5)
    requires t3 == Field("ports", ports, t4)
    requires t2 == Field("launch_order", EncodeInt(c.launchOrder), t3)
    requires t1 == OmitEmpty(c.tag == "", "tag", JString(c.tag), t2)
    ensures WellFormed(JObject(Field("image", JString(c.image), t1)))
  {
    OmitEmptyWellFormed(EmptyMap(c.devices), "devices", devices, []);
    OmitEmptyWellFormed(EmptyMap(c.environment), "environment", environment, t8);
    OmitEmptyWellFormed(EmptySlice(c.cmdArguments), "cmd_arguments", cmdArguments, t7);
    OmitEmptyWellFormed(EmptySlice(c.opts), "opts", opts, t6);
    FieldWellFormed("volumes", volumes, t5);
    FieldWellFormed("ports", ports, t4);
    FieldWellFormed("launch_order", EncodeInt(c.launchOrder), t3);
    OmitEmptyWellFormed(c.tag == "", "tag", JString(c.tag), t2);
    FieldWellFormed("image", JString(c.image), t1);
  }

  lemma CustomConfigWellFormed(p: CustomConfig)
    ensures WellFormed(EncodeCustomConfig(p))
  {
    FieldWellFormed("label", JString(p.shortLabel), []);
    FieldWellFormed("description", JString(p.description), Field("label", JString(p.shortLabel), []));
  }

  lemma DetailsWellFormed(r: RockonDetails)
    ensures WellFormed(MarshalDetails(r))
  {
    var d := if r.ui.Some? && r.ui.value.slug == "" then r.(ui := None) else r;
    forall x ensures WellFormed(EncodeContainer(x)) { ContainerWellFormed(x); }
    forall x ensures WellFormed(EncodeCustomConfig(x)) { CustomConfigWellFormed(x); }
    forall x ensures WellFormed(EncodeCustomConfigs(x)) { EncodeMapWellFormed(x, EncodeCustomConfig); }
    EncodeMapWellFormed(d.containers, EncodeContainer);
    var ui := if d.ui.Some? then EncodeUISlug(d.ui.value) else JNull;
    if d.ui.Some? {
      OmitEmptyWellFormed(d.ui.value.slug == "", "slug", JString(d.ui.value.slug), []);
    }
    var config := if d.customConfig.Some? then EncodeCustomConfigs(d.customConfig.value) else JNull;
    var t8 := OmitEmpty(d.customConfig.None?, "custom_config", config, []);
    var t7 := Field("containers", EncodeMap(d.containers, EncodeContainer), t8);
    var t6 := OmitEmpty(!d.volumeAddSupport, "volume_add_support", JBool(d.volumeAddSupport), t7);
    var t5 := OmitEmpty(d.ui.None?, "ui", ui, t6);
    var t4 := OmitEmpty(d.moreInfo == "", "more_info", JString(d.moreInfo), t5);
    var t3 := OmitEmpty(d.icon == "", "icon", JString(d.icon), t4);
    var t2 := Field("website", JString(d.website), t3);
    var t1 := Field("version", JString(d.version), t2);
    DetailsFieldsWellFormed(d, ui, EncodeMap(d.containers, EncodeContainer), config, t1, t2, t3, t4, t5, t6, t7, t8);
  }

  lemma DetailsFieldsWellFormed(d: RockonDetails, ui: JValue, containers: JValue, config: JValue,
                                t1: seq<Member>, t2: seq<Member>, t3: seq<Member>, t4: seq<Member>,
                                t5: seq<Member>, t6: seq<Member>, t7: seq<Member>, t8: seq<Member>)
    requires WellFormed(ui) && WellFormed(containers) && WellFormed(config)
    requires t8 == OmitEmpty(d.customConfig.None?, "custom_config", config, [])
    requires t7 == Field("containers", containers, t8)
    requires t6 == OmitEmpty(!d.volumeAddSupport, "volume_add_support", JBool(d.volumeAddSupport), t7)
    requires t5 == OmitEmpty(d.ui.None?, "ui", ui, t6)
    requires t4 == OmitEmpty(d.moreInfo == "", "more_info", JString(d.moreInfo), t5)
    requires t3 == OmitEmpty(d.icon == "", "icon", JString(d.icon), t4)
    requires t2 == Field("website", JString(d.website), t3)
    requires t1 == Field("version", JString(d.version), t2)
    ensures WellFormed(JObject(Field("description", JString(d.description), t1)))
  {
    OmitEmptyWellFormed(d.customConfig.None?, "custom_config", config, []);
    FieldWellFormed("containers", containers, t8);
    OmitEmptyWellFormed(!d.volumeAddSupport, "volume_add_support", JBool(d.volumeAddSupport), t7);
    OmitEmptyWellFormed(d.ui.None?, "ui", ui, t6);
    OmitEmptyWellFormed(d.moreInfo == "", "more_info", JString(d.moreInfo), t5);
    OmitEmptyWellFormed(d.icon == "", "icon", JString(d.icon), t4);
    FieldWellFormed("website", JString(d.website), t3);
    FieldWellFormed("version", JString(d.version), t2);
    FieldWellFormed("description", JString(d.description), t1);
  }

  lemma RockOnWellFormed(r: RockOn)
    ensures WellFormed(EncodeRockOn(r))
  {
    forall x ensures WellFormed(MarshalDetails(x)) { DetailsWellFormed(x); }
    EncodeMapWellFormed(r, MarshalDetails);
  }

  // ---------------------------------------------------------------------
  // `ToJSON`
  // ---------------------------------------------------------------------

  /** Whatever the Rock-on, the output ends in a line break and holds none
      of the three escapes. */
  lemma ToJSONShape(r: RockOn)
    ensures |ToJSON(r)| > 0 && ToJSON(r)[|ToJSON(r)| - 1] == '\n'
    ensures !Contains(ToJSON(r), Escaped('&')) && !Contains(ToJSON(r), Escaped('<')) && !Contains(ToJSON(r), Escaped('>'))
  {
    var p := Print(EncodeRockOn(r), "  ", 0, NoHtmlEscaping, HtmlEscaping);
    assert ToJSON(r) == Unescape(p + "\n");
    UnescapeFinalNewline(p);
    UnescapeRemoves(p + "\n");
  }

  /** No string of the Rock-on's encoding, key or value, already contains one
      of the escapes. */
  predicate SafeRockOn(r: RockOn) {
    Safe(EncodeRockOn(r))
  }

  lemma PlainDocument(text: string, v: JValue)
    requires WellFormed(v) && Safe(v)
    requires text == Unescape(Print(v, "  ", 0, NoHtmlEscaping, HtmlEscaping) + "\n")
    ensures text == Print(v, "  ", 0, NoHtmlEscaping, NoHtmlEscaping) + "\n"
  {
    UnescapePrinted(v, "  ");
  }

  /** Then the output is the two-space indented text of the encoding with
      nothing HTML-escaped. */
  lemma ToJSONPlain(r: RockOn)
    requires SafeRockOn(r)
    ensures ToJSON(r) == Print(EncodeRockOn(r), "  ", 0, NoHtmlEscaping, NoHtmlEscaping) + "\n"
  {
    RockOnWellFormed(r);
    PlainDocument(ToJSON(r), EncodeRockOn(r));
  }

  /** ... which is a valid document and reads back as the canonical form. */
  lemma ToJSONReadsBack(r: RockOn)
    requires SafeRockOn(r)
    ensures Parse(ToJSON(r)) == Some(EncodeRockOn(r))
    ensures Unmarshal(ToJSON(r)) == Ok(Canon(r))
  {
    var v := EncodeRockOn(r);
    ToJSONPlain(r);
    assert Parse(Print(v, "  ", 0, NoHtmlEscaping, NoHtmlEscaping) + "\n") == Some(v) by {
      RockOnWellFormed(r);
      ParsePrinted(v, "  ", NoHtmlEscaping, NoHtmlEscaping);
    }
    RockOnRoundTrip(r);
  }

  /** Rewriting is idempotent when no `custom_config` points at a nil map. */
  lemma ToJSONIdempotent(r: RockOn)
    requires SafeRockOn(r) && NoNilPointer(r)
    ensures Unmarshal(ToJSON(r)).Ok? && ToJSON(Unmarshal(ToJSON(r)).value) == ToJSON(r)
  {
    ToJSONReadsBack(r);
    CanonEncodes(r);
  }

  /** A Rock-on read from a file never holds such a pointer, so rewriting
      what was read from a file is idempotent. */
  lemma DecodedIdempotent(text: string)
    requires Unmarshal(text).Ok? && SafeRockOn(Unmarshal(text).value)
    ensures var r := Unmarshal(text).value;
            Unmarshal(ToJSON(r)).Ok? && ToJSON(Unmarshal(ToJSON(r)).value) == ToJSON(r)
  {
    DecodedNoNil(Parse(text).value);
    ToJSONIdempotent(Unmarshal(text).value);
  }
}
