/** The surface of the UPnP discovery library as the program sees it. The
    library itself (SSDP search, XML device descriptions) is not modelled:
    its values enter the model as plain data. */
module Upnp {
  import opened Wrappers

  /** An HTTP URI, carried by its textual form (what its `Display` writes). */
  datatype Uri = Uri(text: string)

  /** A UPnP type URN such as `urn:schemas-upnp-org:device:MediaRenderer:1`,
      carried by its textual form. */
  datatype Urn = Urn(text: string)

  /** One discovered device, one field per accessor the program reads.
      Required description elements are plain strings, optional ones are
      `Option<string>`, the description URL is a `Uri` and the device type
      a `Urn`. */
  datatype Device = Device(
    friendlyName: string,
    manufacturer: string,
    modelName: string,
    udn: string,
    upc: Option<string>,
    serialNumber: Option<string>,
    manufacturerUrl: Option<string>,
    modelDescription: Option<string>,
    modelUrl: Option<string>,
    modelNumber: Option<string>,
    url: Uri,
    deviceType: Urn
  )

  /** The SSDP search target. `All` is `ssdp:all`; every other target the
      library's parser accepts is kept as its opaque header text. */
  datatype SearchTarget = All | Filter(header: string)

  /** Why the library's search-target parser rejected a string (opaque). */
  datatype TargetParseError = TargetParseError(description: string)

  /** An I/O or protocol failure reported by discovery (opaque). */
  datatype DiscoveryError = DiscoveryError(description: string)
}
