/**
 * The status Bundle a scanner screen hands to its overlay with every
 * onStatusUpdate. A missing key reads as false, 0 or null, so a freshly
 * created Bundle is `Empty`.
 */
module StatusBundle {
  import opened Wrappers
  import opened Results
  import opened Scanner

  datatype Status = Status(
    ready: bool,          // "ready": scanning is enabled
    syncing: bool,        // "syncing"
    searching: bool,      // "searching": an online API search is running
    images: int,          // "images": number of records in the local database
    flags: DecodeFlags,   // "decode_ean_8", "decode_ean_13", "decode_qrcode"
    shown: Option<Result>) // "result": the result on display, or null

  /** `new Bundle()`. */
  const Empty: Status := Status(false, false, false, 0, DecodeFlags(false, false, false), None)
}
