/** The projection of a device onto the twelve placeholder names a template
    may use (src/main.rs:84-105). */
module NamedArgs {
  import opened Wrappers
  import Upnp
  import opened Values

  /** The placeholder names a template may use. */
  const FieldNames: set<string> := {
    "name", "manufacturer", "model_name", "udn", "upc", "serial",
    "manufacturer_url", "model_description", "model_url", "model_number",
    "url", "device_type"
  }

  /** The names bound to optional description elements. */
  const OptionalFieldNames: set<string> := {
    "upc", "serial", "manufacturer_url", "model_description", "model_url", "model_number"
  }

  /** `to_named_args`: each name bound to the converted accessor. Every call
      yields all twelve names, whatever the device leaves out. */
  function ToNamedArgs(d: Upnp.Device): (m: map<string, Value>)
    ensures m.Keys == FieldNames
  {
    var m := map[
      "name" := FromText(d.friendlyName),
      "manufacturer" := FromText(d.manufacturer),
      "model_name" := FromText(d.modelName),
      "udn" := FromText(d.udn),
      "upc" := FromOptional(d.upc),
      "serial" := FromOptional(d.serialNumber),
      "manufacturer_url" := FromOptional(d.manufacturerUrl),
      "model_description" := FromOptional(d.modelDescription),
      "model_url" := FromOptional(d.modelUrl),
      "model_number" := FromOptional(d.modelNumber),
      "url" := FromUri(d.url),
      "device_type" := FromUrn(d.deviceType)
    ];
    m
  }

  /** The twelve names are pairwise different. */
  lemma FieldNamesDistinct()
    ensures |FieldNames| == 12
  {
  }

  // ---- Reading a mapping back ----

  predicate HoldsText(m: map<string, Value>, k: string) {
    k in m && m[k].String?
  }

  predicate HoldsOptionalText(m: map<string, Value>, k: string) {
    k in m && AsOptionalText(m[k]).Some?
  }

  /** Every name is present and holds the kind of value its accessor yields. */
  predicate Shaped(m: map<string, Value>) {
    && HoldsText(m, "name") && HoldsText(m, "manufacturer")
    && HoldsText(m, "model_name") && HoldsText(m, "udn")
    && HoldsOptionalText(m, "upc") && HoldsOptionalText(m, "serial")
    && HoldsOptionalText(m, "manufacturer_url") && HoldsOptionalText(m, "model_description")
    && HoldsOptionalText(m, "model_url") && HoldsOptionalText(m, "model_number")
    && "url" in m && m["url"].Uri?
    && "device_type" in m && m["device_type"].Urn?
  }

  /** Rebuilds the device a mapping was projected from, or `None` when some
      name is missing or holds the wrong kind of value. */
  function DeviceOf(m: map<string, Value>): Option<Upnp.Device> {
    if Shaped(m) then
      Some(Upnp.Device(
        m["name"].text, m["manufacturer"].text, m["model_name"].text, m["udn"].text,
        AsOptionalText(m["upc"]).value, AsOptionalText(m["serial"]).value,
        AsOptionalText(m["manufacturer_url"]).value, AsOptionalText(m["model_description"]).value,
        AsOptionalText(m["model_url"]).value, AsOptionalText(m["model_number"]).value,
        m["url"].uri, m["device_type"].urn))
    else
      None
  }

  /** The projection keeps every attribute intact: the device can be read
      back from its mapping, so each name is bound to its own accessor
      (`name` to the friendly name, `serial` to the serial number, the rest
      to the accessor of the same name) and no text is altered. */
  lemma NamedArgsRoundTrip(d: Upnp.Device)
    ensures DeviceOf(ToNamedArgs(d)) == Some(d)
  {
    var m := ToNamedArgs(d);
    NamedArgsLookup(d);
    assert Shaped(m);
    var e := DeviceOf(m).value;
    assert e.upc == d.upc by {
      ConversionIsVerbatim(d.udn, d.upc, d.url, d.deviceType);
    }
    assert e.serialNumber == d.serialNumber by {
      ConversionIsVerbatim(d.udn, d.serialNumber, d.url, d.deviceType);
    }
    assert e.manufacturerUrl == d.manufacturerUrl by {
      ConversionIsVerbatim(d.udn, d.manufacturerUrl, d.url, d.deviceType);
    }
    assert e.modelDescription == d.modelDescription by {
      ConversionIsVerbatim(d.udn, d.modelDescription, d.url, d.deviceType);
    }
    assert e.modelUrl == d.modelUrl by {
      ConversionIsVerbatim(d.udn, d.modelUrl, d.url, d.deviceType);
    }
    assert e.modelNumber == d.modelNumber by {
      ConversionIsVerbatim(d.udn, d.modelNumber, d.url, d.deviceType);
    }
  }

  /** Each name is bound to the conversion of its own accessor. */
  lemma NamedArgsLookup(d: Upnp.Device)
    ensures ToNamedArgs(d)["name"] == FromText(d.friendlyName)
    ensures ToNamedArgs(d)["manufacturer"] == FromText(d.manufacturer)
    ensures ToNamedArgs(d)["model_name"] == FromText(d.modelName)
    ensures ToNamedArgs(d)["udn"] == FromText(d.udn)
    ensures ToNamedArgs(d)["upc"] == FromOptional(d.upc)
    ensures ToNamedArgs(d)["serial"] == FromOptional(d.serialNumber)
    ensures ToNamedArgs(d)["manufacturer_url"] == FromOptional(d.manufacturerUrl)
    ensures ToNamedArgs(d)["model_description"] == FromOptional(d.modelDescription)
    ensures ToNamedArgs(d)["model_url"] == FromOptional(d.modelUrl)
    ensures ToNamedArgs(d)["model_number"] == FromOptional(d.modelNumber)
    ensures ToNamedArgs(d)["url"] == FromUri(d.url)
    ensures ToNamedArgs(d)["device_type"] == FromUrn(d.deviceType)
  {
  }

  /** Every mapping holds exactly the twelve names, whatever the device
      reports. */
  lemma NamedArgsHaveTwelveKeys(d: Upnp.Device)
    ensures ToNamedArgs(d).Keys == FieldNames
    ensures |ToNamedArgs(d)| == 12
  {
    FieldNamesDistinct();
    assert |ToNamedArgs(d)| == |ToNamedArgs(d).Keys|;
  }

  /** Distinct devices give distinct mappings. */
  lemma NamedArgsInjective(d: Upnp.Device, e: Upnp.Device)
    ensures ToNamedArgs(d) == ToNamedArgs(e) ==> d == e
  {
    NamedArgsRoundTrip(d);
    NamedArgsRoundTrip(e);
  }

  /** Only optional elements can be `Empty`, and an optional element is
      `Empty` exactly when the device does not report it; the identifier
      names always hold their identifier. */
  lemma EmptyOnlyWhenAbsent(d: Upnp.Device)
    ensures forall k :: k in ToNamedArgs(d) && ToNamedArgs(d)[k].Empty? ==> k in OptionalFieldNames
    ensures ToNamedArgs(d)["upc"].Empty? <==> d.upc.None?
    ensures ToNamedArgs(d)["serial"].Empty? <==> d.serialNumber.None?
    ensures ToNamedArgs(d)["manufacturer_url"].Empty? <==> d.manufacturerUrl.None?
    ensures ToNamedArgs(d)["model_description"].Empty? <==> d.modelDescription.None?
    ensures ToNamedArgs(d)["model_url"].Empty? <==> d.modelUrl.None?
    ensures ToNamedArgs(d)["model_number"].Empty? <==> d.modelNumber.None?
    ensures ToNamedArgs(d)["url"] == Values.Uri(d.url)
    ensures ToNamedArgs(d)["device_type"] == Values.Urn(d.deviceType)
  {
  }
}
