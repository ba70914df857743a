/** The image export path shared by the download and copy buttons
    (LifeWheel.tsx, `getExportedPng` and `base64ToBlob`): the exporting
    plugin renders the chart to a PNG data URL, the data-URL prefix is
    stripped, the browser's base64 decoder turns the rest into a binary
    string, and the string's character codes are copied into a byte array
    wrapped in a PNG blob. The plugin and the decoder are foreign code and
    are given as parameters: the plugin by its outcome, the decoder as a
    function that yields None where it would throw. */
module ExportPipeline {
  import opened Wrappers

  newtype Byte = b: int | 0 <= b < 256

  const PngDataUrlPrefix: string := "data:image/png;base64,"
  const PngMimeType: string := "image/png"

  /** Removes one leading PNG data-URL prefix, if there is one. */
  function StripPngPrefix(dataUrl: string): (payload: string)
    ensures PngDataUrlPrefix <= dataUrl ==> PngDataUrlPrefix + payload == dataUrl
    ensures !(PngDataUrlPrefix <= dataUrl) ==> payload == dataUrl
  {
    if PngDataUrlPrefix <= dataUrl then dataUrl[|PngDataUrlPrefix|..] else dataUrl
  }

  /** Prefixing a payload and stripping gives the payload back, even when
      the payload itself starts with the prefix: only one copy is removed. */
  lemma StripPrefixed(payload: string)
    ensures StripPngPrefix(PngDataUrlPrefix + payload) == payload
  {
  }

  /** The byte a `Uint8Array` stores for a character: its code modulo 256. */
  function CharCodeByte(c: char): (b: Byte)
    ensures c as int < 256 ==> b as int == c as int
    ensures (c as int - b as int) % 256 == 0
  {
    (c as int % 256) as Byte
  }

  /** The bytes `base64ToBlob` writes for a decoded binary string. */
  function BinaryStringBytes(s: string): (bytes: seq<Byte>)
    ensures |bytes| == |s|
    ensures forall i | 0 <= i < |s| :: bytes[i] == CharCodeByte(s[i])
    ensures IsBinaryString(s) ==> forall i | 0 <= i < |s| :: bytes[i] as int == s[i] as int
  {
    seq(|s|, i requires 0 <= i < |s| => CharCodeByte(s[i]))
  }

  /** A string whose every character code fits in a byte, as the browser's
      base64 decoder produces. */
  predicate IsBinaryString(s: string) {
    forall i | 0 <= i < |s| :: s[i] as int < 256
  }

  /** Reads bytes back as a binary string, one character per byte. */
  function BytesToBinaryString(bytes: seq<Byte>): (s: string)
    ensures |s| == |bytes| && IsBinaryString(s)
  {
    seq(|bytes|, i requires 0 <= i < |bytes| => bytes[i] as int as char)
  }

  /** On a binary string the byte copy loses nothing. */
  lemma BinaryStringRoundTrip(s: string)
    requires IsBinaryString(s)
    ensures BytesToBinaryString(BinaryStringBytes(s)) == s
  {
  }

  /** Every byte sequence is what some binary string copies to. */
  lemma BytesRoundTrip(bytes: seq<Byte>)
    ensures BinaryStringBytes(BytesToBinaryString(bytes)) == bytes
  {
  }

  datatype Blob = Blob(bytes: seq<Byte>, mimeType: string)

  /** `base64ToBlob`: decode, then copy each character code into a fresh
      byte array of the decoded length, and wrap it as a PNG blob. A decoder
      failure propagates as None. */
  method Base64ToBlob(base64: string, atob: string -> Option<string>) returns (blob: Option<Blob>)
    ensures blob.None? <==> atob(base64).None?
    ensures blob.Some? ==>
      && blob.value.mimeType == PngMimeType
      && |blob.value.bytes| == |atob(base64).value|
      && forall i | 0 <= i < |blob.value.bytes| :: blob.value.bytes[i] == CharCodeByte(atob(base64).value[i])
  {
    var decoded := atob(base64);
    if decoded.None? {
      return None;
    }
    var byteString := decoded.value;
    var int8Array := new Byte[|byteString|];
    for i := 0 to |byteString|
      invariant forall k | 0 <= k < i :: int8Array[k] == CharCodeByte(byteString[k])
    {
      int8Array[i] := CharCodeByte(byteString[i]);
    }
    blob := Some(Blob(int8Array[..], PngMimeType));
  }

  /** The exporting plugin as found when an export starts. */
  datatype Exporter =
    | NotAttached             // the plugin has not been created yet
    | Rejects                 // rendering the image throws
    | Renders(dataUrl: string)

  /** Whether `getExportedPng` yields a blob: the plugin renders and the
      decoder accepts the stripped payload. */
  predicate ProducesBlob(exporter: Exporter, atob: string -> Option<string>) {
    exporter.Renders? && atob(StripPngPrefix(exporter.dataUrl)).Some?
  }

  /** The blob `getExportedPng` yields, or None. */
  function ExportedPng(exporter: Exporter, atob: string -> Option<string>): (r: Option<Blob>)
    ensures r.Some? <==> ProducesBlob(exporter, atob)
    ensures r.Some? ==> r.value.mimeType == PngMimeType
  {
    if ProducesBlob(exporter, atob) then
      Some(Blob(BinaryStringBytes(atob(StripPngPrefix(exporter.dataUrl)).value), PngMimeType))
    else None
  }

  /** `getExportedPng`: every failure (no plugin, a throwing render, a
      throwing decoder) is caught and reported as None. */
  method GetExportedPng(exporter: Exporter, atob: string -> Option<string>) returns (blob: Option<Blob>)
    ensures blob == ExportedPng(exporter, atob)
  {
    match exporter
    case NotAttached =>
      blob := None;
    case Rejects =>
      blob := None;
    case Renders(chartPngData) =>
      var base64Data := StripPngPrefix(chartPngData);
      blob := Base64ToBlob(base64Data, atob);
      if blob.Some? {
        assert blob.value.bytes == BinaryStringBytes(atob(base64Data).value);
      }
  }

  /** A rendered PNG data URL whose payload decodes to a binary string
      yields a blob holding exactly that string's bytes. */
  lemma ExportedPngCarriesDecodedBytes(payload: string, atob: string -> Option<string>)
    requires atob(payload).Some? && IsBinaryString(atob(payload).value)
    ensures var r := ExportedPng(Renders(PngDataUrlPrefix + payload), atob);
      r.Some? && BytesToBinaryString(r.value.bytes) == atob(payload).value
  {
  }
}
