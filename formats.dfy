/**
 * The two format tables of the Direct3D 12 backend: they translate the swap chain's
 * LLGL colour and depth-stencil formats into the DXGI formats that the ImGui Direct3D 12
 * bridge needs for its render-target and depth-stencil views. Both backend files carry
 * identical copies of these tables.
 */
module DxgiFormats {

  import opened Wrappers

  /** The LLGL formats the tables name; every other LLGL format is `OtherFormat`. */
  datatype Format =
    | Undefined
    | RGBA8UNorm
    | BGRA8UNorm
    | D16UNorm
    | D24UNormS8UInt
    | D32Float
    | D32FloatS8X24UInt
    | OtherFormat(ordinal: nat)

  /** The DXGI formats the tables produce. */
  datatype DxgiFormat =
    | DxgiUnknown
    | DxgiR8G8B8A8UNorm
    | DxgiD16UNorm
    | DxgiD24UNormS8UInt
    | DxgiD32Float
    | DxgiD32FloatS8X24UInt

  /** The four LLGL depth(-stencil) formats that have a DXGI depth-stencil view format. */
  predicate IsDepthFormat(format: Format) {
    format.D16UNorm? || format.D24UNormS8UInt? || format.D32Float? || format.D32FloatS8X24UInt?
  }

  /** Render-target view format: only 8-bit RGBA is known, everything else is unknown. */
  function GetRTVFormat(format: Format): (r: DxgiFormat)
    ensures r != DxgiUnknown <==> format == RGBA8UNorm
    ensures r == DxgiUnknown || r == DxgiR8G8B8A8UNorm
  {
    match format
    case RGBA8UNorm => DxgiR8G8B8A8UNorm
    case _ => DxgiUnknown
  }

  /** Depth-stencil view format: the four depth formats map one-to-one, everything else is unknown. */
  function GetDSVFormat(format: Format): (r: DxgiFormat)
    ensures r != DxgiUnknown <==> IsDepthFormat(format)
    ensures r != DxgiR8G8B8A8UNorm
  {
    match format
    case D16UNorm => DxgiD16UNorm
    case D24UNormS8UInt => DxgiD24UNormS8UInt
    case D32Float => DxgiD32Float
    case D32FloatS8X24UInt => DxgiD32FloatS8X24UInt
    case _ => DxgiUnknown
  }

  /** The inverse of the depth table, written independently of it. */
  function DepthFormatOf(dxgi: DxgiFormat): (r: Option<Format>)
    ensures r.Some? ==> IsDepthFormat(r.value)
  {
    match dxgi
    case DxgiD16UNorm => Some(D16UNorm)
    case DxgiD24UNormS8UInt => Some(D24UNormS8UInt)
    case DxgiD32Float => Some(D32Float)
    case DxgiD32FloatS8X24UInt => Some(D32FloatS8X24UInt)
    case _ => None
  }

  /** The depth table is one-to-one: decoding its result recovers the depth format. */
  lemma DSVFormatRoundTrip(format: Format)
    ensures IsDepthFormat(format) ==> DepthFormatOf(GetDSVFormat(format)) == Some(format)
    ensures !IsDepthFormat(format) ==> DepthFormatOf(GetDSVFormat(format)) == None
  {
  }

  /** Two formats with the same known DSV format are the same format. */
  lemma DSVFormatInjective(a: Format, b: Format)
    requires GetDSVFormat(a) == GetDSVFormat(b) != DxgiUnknown
    ensures a == b
  {
    DSVFormatRoundTrip(a);
    DSVFormatRoundTrip(b);
  }

  /** A format never has both a known RTV format and a known DSV format. */
  lemma RTVAndDSVDisjoint(format: Format)
    ensures GetRTVFormat(format) == DxgiUnknown || GetDSVFormat(format) == DxgiUnknown
  {
  }
}
