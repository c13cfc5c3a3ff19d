/** The library calls the core makes but does not implement, as values supplied to the model:
    `Buffer` base64 (section 4 of RFC 4648), `encodeURIComponent` (percent-encoding, section 2.1
    of RFC 3986), `Number.prototype.toString`, and `JSON.parse` of a push message. */
module Runtime {
  import Payloads

  datatype Library = Library(
    base64: string -> string,
    encodeUriComponent: string -> string,
    numberText: real -> string,
    parseJson: string -> Payloads.Parsed)
}
