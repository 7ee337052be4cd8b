/**
 * The records the core passes around: a history entry (`BarcodeData`) and a
 * detection reported by the camera's code scanner (`Code`).
 */
module Barcode {
  import opened Wrappers

  /** A code-format identifier such as "qr" or "ean-13", or "unknown". */
  type CodeType = string

  /** One history entry; `kind` is the record's `type` field. */
  datatype BarcodeData = BarcodeData(
    id: string,
    kind: CodeType,
    value: string,
    timestamp: int,
    isValid: bool,
    error: Option<string>)

  /** What a caller hands to the history store: an entry without `id` and `timestamp`. */
  datatype ScanDraft = ScanDraft(
    kind: CodeType,
    value: string,
    isValid: bool,
    error: Option<string>)

  /** One code from a scanner frame: its declared type and its decoded text, which may be missing. */
  datatype Code = Code(kind: CodeType, value: Option<string>)
}
