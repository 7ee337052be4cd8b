/** The per-platform default lists of code types the scanner looks for. */
module Constants {

  /** The values of React Native's `Platform.OS`. */
  datatype Platform = Ios | Android | Windows | Macos | Web

  const DefaultBarcodeTypesIos: seq<string> := [
    "aztec",
    "codabar",
    "code-128",
    "code-39",
    "code-93",
    "data-matrix",
    "ean-13",
    "ean-8",
    "gs1-data-bar-expanded",
    "gs1-data-bar-limited",
    "itf",
    "itf-14",
    "pdf-417",
    "qr",
    "upc-a",
    "upc-e"
  ]

  const DefaultBarcodeTypesAndroid: seq<string> := [
    "aztec",
    "codabar",
    "code-128",
    "code-39",
    "code-93",
    "data-matrix",
    "ean-13",
    "ean-8",
    "itf",
    "pdf-417",
    "qr",
    "upc-a",
    "upc-e"
  ]

  /** The identifiers the iOS list has and the Android list lacks. */
  const IosOnlyTypes: set<string> := {"gs1-data-bar-expanded", "gs1-data-bar-limited", "itf-14"}

  predicate NoDuplicates(s: seq<string>)
  {
    forall i, j :: 0 <= i < j < |s| ==> s[i] != s[j]
  }

  /**
   * `SUPPORTED_BARCODE_TYPES`: chosen once from the platform. Whatever the
   * platform, it has no duplicates, holds every Android identifier and only
   * iOS identifiers.
   */
  function SupportedBarcodeTypes(os: Platform): (r: seq<string>)
    ensures NoDuplicates(r)
    ensures forall t :: t in DefaultBarcodeTypesAndroid ==> t in r
    ensures forall t :: t in r ==> t in DefaultBarcodeTypesIos
  {
    NoDuplicateIdentifiers();
    AndroidIsIosMinusThree();
    if os == Ios then DefaultBarcodeTypesIos else DefaultBarcodeTypesAndroid
  }

  /** The iOS selection happens on iOS and nowhere else. */
  lemma IosListOnlyOnIos(os: Platform)
    ensures SupportedBarcodeTypes(os) == DefaultBarcodeTypesIos <==> os == Ios
    ensures SupportedBarcodeTypes(os) == DefaultBarcodeTypesAndroid <==> os != Ios
  {
    DefaultListSizes();
  }

  /** The iOS list has 16 identifiers, the Android list 13. */
  lemma DefaultListSizes()
    ensures |DefaultBarcodeTypesIos| == 16
    ensures |DefaultBarcodeTypesAndroid| == 13
  {
  }

  /** Neither default list repeats an identifier. */
  lemma NoDuplicateIdentifiers()
    ensures NoDuplicates(DefaultBarcodeTypesIos)
    ensures NoDuplicates(DefaultBarcodeTypesAndroid)
  {
  }

  /** The Android list is the iOS list without exactly the three iOS-only identifiers. */
  lemma AndroidIsIosMinusThree()
    ensures forall t :: t in DefaultBarcodeTypesAndroid ==> t in DefaultBarcodeTypesIos
    ensures forall t :: t in DefaultBarcodeTypesIos && t !in DefaultBarcodeTypesAndroid <==> t in IosOnlyTypes
  {
  }
}
