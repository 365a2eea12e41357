/**
 * What the screens see of the recognition SDK (the Scanner singleton, its
 * errors and its constants). The SDK itself is not part of this model: each
 * call into it is an input to the operation that makes the call.
 */
module Scanner {

  /** MoodstocksError.Code values the screens distinguish; any other code is OtherCode. */
  datatype ErrorCode = Misuse | NoConn | SlowConn | Timeout | CredMismatch | OtherCode(code: int)

  /** What one SDK call did: it returned a value or it threw a MoodstocksError. */
  datatype Answer<T> = Returned(value: T) | Threw(error: ErrorCode)

  /** What scanner.open did: it opened, refused an unsupported device, or threw a MoodstocksError. */
  datatype OpenOutcome = Opened | UnsupportedDevice | OpenFailed(error: ErrorCode)

  /**
   * Barcode.Format bits (MS_BARCODE_FMT_*). The SDK's numeric values are not
   * shown by the apps; what the apps rely on is that each is its own bit.
   */
  const FMT_EAN8: bv32 := 1
  const FMT_EAN13: bv32 := 2
  const FMT_QRCODE: bv32 := 4

  /** A decoded barcode: its format and its text. */
  datatype Barcode = Barcode(format: bv32, text: string)

  /**
   * Result.Type bits of the SDK used by the com.example apps. As for the
   * barcode formats, only their being distinct single bits matters.
   */
  const TYPE_NONE: bv32 := 0
  const TYPE_EAN8: bv32 := 1
  const TYPE_EAN13: bv32 := 2
  const TYPE_QRCODE: bv32 := 4
  const TYPE_IMAGE: bv32 := 0x8000_0000

  /** The three decode_* entries a scanner screen puts in its status bundle. */
  datatype DecodeFlags = DecodeFlags(ean8: bool, ean13: bool, qrcode: bool)

  /** `(mask & bit) != 0` for each of the three barcode bits. */
  function FlagsOf(mask: bv32, ean8Bit: bv32, ean13Bit: bv32, qrBit: bv32): DecodeFlags
  {
    DecodeFlags(mask & ean8Bit != 0, mask & ean13Bit != 0, mask & qrBit != 0)
  }

  /** The decode_* flags computed from a com.example ScanOptions mask. */
  function OptionFlags(options: bv32): DecodeFlags
  {
    FlagsOf(options, TYPE_EAN8, TYPE_EAN13, TYPE_QRCODE)
  }

  /** The decode_* flags computed from a com.moodstocks BarcodeFormats mask. */
  function FormatFlags(formats: bv32): DecodeFlags
  {
    FlagsOf(formats, FMT_EAN8, FMT_EAN13, FMT_QRCODE)
  }

  /** The flags with the one belonging to `bit` set to `on`. */
  function WithFlag(f: DecodeFlags, bit: bv32, ean8Bit: bv32, ean13Bit: bv32, qrBit: bv32, on: bool): DecodeFlags
  {
    f.(ean8 := if bit == ean8Bit then on else f.ean8,
       ean13 := if bit == ean13Bit then on else f.ean13,
       qrcode := if bit == qrBit then on else f.qrcode)
  }

  /**
   * Each flag follows its own bit and nothing else: enabling one barcode
   * kind in a ScanOptions mask turns exactly that flag on, whatever the
   * other bits are.
   */
  lemma EnablingAKindSetsOnlyItsFlag(options: bv32, bit: bv32)
    requires bit == TYPE_EAN8 || bit == TYPE_EAN13 || bit == TYPE_QRCODE
    ensures OptionFlags(options | bit)
         == WithFlag(OptionFlags(options), bit, TYPE_EAN8, TYPE_EAN13, TYPE_QRCODE, true)
  {
  }

  /** Disabling one barcode kind turns exactly that flag off. */
  lemma DisablingAKindClearsOnlyItsFlag(options: bv32, bit: bv32)
    requires bit == TYPE_EAN8 || bit == TYPE_EAN13 || bit == TYPE_QRCODE
    ensures OptionFlags(options & !bit)
         == WithFlag(OptionFlags(options), bit, TYPE_EAN8, TYPE_EAN13, TYPE_QRCODE, false)
  {
  }

  /** The image bit has no decode flag: it never changes the three flags. */
  lemma ImageBitLeavesFlags(options: bv32)
    ensures OptionFlags(options | TYPE_IMAGE) == OptionFlags(options)
    ensures OptionFlags(options & !TYPE_IMAGE) == OptionFlags(options)
  {
  }

  /** The same two facts for the BarcodeFormats mask of the com.moodstocks apps. */
  lemma FormatFlagFollowsItsBit(formats: bv32, bit: bv32, on: bool)
    requires bit == FMT_EAN8 || bit == FMT_EAN13 || bit == FMT_QRCODE
    ensures FormatFlags(if on then formats | bit else formats & !bit)
         == WithFlag(FormatFlags(formats), bit, FMT_EAN8, FMT_EAN13, FMT_QRCODE, on)
  {
  }
}
