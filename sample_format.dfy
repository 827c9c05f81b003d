/**
 * Sample formats of the output stream and the byte width of one sample,
 * as the speaker's stream callback derives it before draining audio.
 */
module SampleFormats {
  import opened Wrappers

  /**
   * The sample format tag of the stream's output parameters. The six named
   * formats are the ones the callback knows; `Other` stands for every other
   * tag value (a custom format, or a format combined with a flag).
   */
  datatype SampleFormat = Int8 | UInt8 | Int16 | Int24 | Int32 | Float32 | Other(tag: int)

  /** The managed primitive types whose marshalled sizes make up a sample. */
  datatype Primitive = SByte | Byte | Short | Int | Float

  /** The marshalled size in bytes of a primitive type. */
  function SizeOf(t: Primitive): nat
  {
    match t
    case SByte => 1
    case Byte => 1
    case Short => 2
    case Int => 4
    case Float => 4
  }

  /** The nominal bit depth of a supported format; none for any other format. */
  function BitDepth(f: SampleFormat): Option<nat>
  {
    match f
    case Int8 => Some(8)
    case UInt8 => Some(8)
    case Int16 => Some(16)
    case Int24 => Some(24)
    case Int32 => Some(32)
    case Float32 => Some(32)
    case Other(_) => None
  }

  /**
   * The number of bytes of one sample in format `f`, computed from the sizes
   * of the primitive types that hold it; `None` is the "not supported" error.
   * The width is defined exactly for the six named formats, lies between one
   * and four bytes, and is the format's nominal bit depth divided by eight.
   */
  function BytesPerSample(f: SampleFormat): (width: Option<nat>)
    ensures width.Some? <==> !f.Other?
    ensures width.Some? ==> 1 <= width.value <= 4 && BitDepth(f) == Some(8 * width.value)
    ensures width.None? ==> BitDepth(f).None?
  {
    match f
    case Int8 => Some(SizeOf(SByte))
    case UInt8 => Some(SizeOf(Byte))
    case Int16 => Some(SizeOf(Short))
    case Int24 => Some(SizeOf(Short) + SizeOf(Byte))
    case Int32 => Some(SizeOf(Int))
    case Float32 => Some(SizeOf(Float))
    case Other(_) => None
  }
}
