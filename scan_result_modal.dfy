/**
 * The result sheet shown after a scan: whether the value looks like a URL,
 * the address "Open URL" would hand to the platform, what "Copy" would put
 * on the clipboard, and the type caption.
 */
module ScanResultModal {
  import opened Wrappers
  import opened Barcode
  import opened JsString

  /** JavaScript truthiness of an optional string: present and non-empty. */
  predicate Truthy(v: Option<string>)
  {
    v.Some? && v.value != ""
  }

  /** `v.startsWith('http://') || v.startsWith('https://')`. */
  predicate HasWebScheme(v: string)
  {
    StartsWith(v, "http://") || StartsWith(v, "https://")
  }

  /** `isUrl`: a present, non-empty value that has a web scheme or contains a dot. */
  predicate IsUrl(value: Option<string>)
    ensures IsUrl(value) ==> Truthy(value)
  {
    if Truthy(value) then HasWebScheme(value.value) || Includes(value.value, ".") else false
  }

  /** The address built in `handleOpenUrl`: the value itself when it has a web scheme, else `https://` before it. */
  function UrlFor(v: string): (url: string)
    ensures HasWebScheme(url)
    ensures |url| >= |v| && url[|url| - |v|..] == v
  {
    if HasWebScheme(v) then v
    else
      StartsWithConcat("https://", v);
      "https://" + v
  }

  /** The address "Open URL" passes to the platform, or `None` when the handler returns early. */
  function OpenUrlTarget(value: Option<string>): (url: Option<string>)
    ensures url.Some? <==> Truthy(value)
    ensures url.Some? ==> HasWebScheme(url.value)
  {
    if Truthy(value) then Some(UrlFor(value.value)) else None
  }

  /** The text "Copy" puts on the clipboard, or `None` when the handler returns early. */
  function CopyText(value: Option<string>): (text: Option<string>)
    ensures text.Some? <==> Truthy(value)
    ensures text.Some? ==> text == value
  {
    if Truthy(value) then Some(value.value) else None
  }

  /** `code.type?.toUpperCase() || 'UNKNOWN'`. */
  function TypeLabel(kind: Option<string>): (caption: string)
    ensures caption != ""
  {
    var upper := match kind
      case Some(k) => Some(ToUpperCase(k))
      case None => None;
    if Truthy(upper) then upper.value else "UNKNOWN"
  }

  /** What the sheet shows for a code. */
  datatype ResultView = ResultView(
    visible: bool,
    typeLabel: string,
    valueText: string,
    copyText: Option<string>,
    openUrlButton: bool,
    openUrlTarget: Option<string>)

  /** The rendered sheet: nothing at all when there is no code. */
  function Render(visible: bool, code: Option<Code>): (view: Option<ResultView>)
    ensures view.Some? <==> code.Some?
    ensures view.Some? ==> view.value.visible == visible
  {
    match code
    case None => None
    case Some(c) =>
      Some(ResultView(
        visible,
        TypeLabel(Some(c.kind)),
        match c.value { case Some(v) => v case None => "" },
        CopyText(c.value),
        IsUrl(c.value),
        OpenUrlTarget(c.value)))
  }

  /** An absent or empty value is never a URL, and both actions do nothing for it. */
  lemma EmptyValueGuards(value: Option<string>)
    requires !Truthy(value)
    ensures !IsUrl(value)
    ensures OpenUrlTarget(value) == None && CopyText(value) == None
  {
  }

  /** For a non-empty value, `isUrl` holds exactly when it has a web scheme or contains the character '.'. */
  lemma IsUrlIff(v: string)
    requires v != ""
    ensures IsUrl(Some(v)) <==> HasWebScheme(v) || '.' in v
  {
    IncludesChar(v, '.');
    assert "." == ['.'];
  }

  /** The address is the value when it already has a web scheme, and `https://` plus the value otherwise. */
  lemma UrlForCases(v: string)
    ensures HasWebScheme(v) ==> UrlFor(v) == v
    ensures !HasWebScheme(v) ==> UrlFor(v) == "https://" + v
    ensures UrlFor(v) == v <==> HasWebScheme(v)
  {
  }

  /** Building the address twice gives the address built once. */
  lemma UrlForIdempotent(v: string)
    ensures UrlFor(UrlFor(v)) == UrlFor(v)
  {
  }

  /** Whenever the "Open URL" button is shown, pressing it opens a web address. */
  lemma OpenUrlButtonOpensWebAddress(value: Option<string>)
    requires IsUrl(value)
    ensures OpenUrlTarget(value).Some? && HasWebScheme(OpenUrlTarget(value).value)
  {
  }

  /** A scheme-less value with a dot, such as "example.com", is shown as a URL and opened over https. */
  lemma DottedValueOpensOverHttps()
    ensures IsUrl(Some("example.com"))
    ensures OpenUrlTarget(Some("example.com")) == Some("https://" + "example.com")
  {
    var v := "example.com";
    assert !HasWebScheme(v) by {
      assert v[..7][0] == 'e' && "http://"[0] == 'h' && "https://"[0] == 'h';
    }
    IsUrlIff(v);
    assert v[7] == '.';
    UrlForCases(v);
  }

  /**
   * The caption is never empty and has no lower-case letter; it is the
   * upper-cased type when the type is non-empty and "UNKNOWN" otherwise.
   */
  lemma TypeLabelSpec(kind: Option<string>)
    ensures TypeLabel(kind) != ""
    ensures forall i :: 0 <= i < |TypeLabel(kind)| ==> !IsLowerAscii(TypeLabel(kind)[i])
    ensures Truthy(kind) ==> TypeLabel(kind) == ToUpperCase(kind.value)
    ensures !Truthy(kind) ==> TypeLabel(kind) == "UNKNOWN"
  {
    if Truthy(kind) {
      UpperCaseIsUpper(kind.value);
    }
  }

  /** A code whose type is "unknown" gets the same caption as a code with no type. */
  lemma UnknownTypeCaption()
    ensures TypeLabel(Some("unknown")) == TypeLabel(None) == "UNKNOWN"
  {
  }
}
