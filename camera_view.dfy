/**
 * `CameraView`: the scanning screen. Its callbacks decide when a detected
 * code is accepted and shown, when scanning may repeat the same value, the
 * permission and torch flags, and which screen is rendered.
 */
module CameraView {
  import opened Wrappers
  import opened Barcode

  /**
   * The component's state: its React state variables, the `lastScannedValue`
   * ref, and the number of settle timers scheduled and not yet fired.
   */
  datatype Session = Session(
    isInitializing: bool,
    permissionDenied: bool,
    scannedCode: Option<Code>,
    showResultModal: bool,
    torchEnabled: bool,
    isScanning: bool,
    lastScannedValue: Option<string>,
    pendingSettles: nat)

  /** The state at mount. */
  const Mounted := Session(true, false, None, false, false, true, None, 0)

  /** What `requestPermission()` did: resolved true, resolved false, or threw. */
  datatype PermissionOutcome = Granted | Refused | Threw

  /** The screen the component renders. */
  datatype Screen =
    | Loading
    | PermissionRequest(permissionDenied: bool)
    | NoCameraDevice
    | CameraScreen(torchOn: bool, isScanning: bool, modalVisible: bool, code: Option<Code>)

  /** The duplicate check: a present, non-empty value that differs from the last accepted one. */
  predicate Accepts(s: Session, code: Code)
    ensures Accepts(s, code) ==> Accepted(code) && code.value != s.lastScannedValue
    ensures Accepted(code) && s.lastScannedValue.None? ==> Accepts(s, code)
  {
    code.value.Some? && code.value.value != "" && code.value != s.lastScannedValue
  }

  /** `onCodeScanned`: only the first code of a batch is looked at, and only while no result is shown. */
  function OnCodeScanned(s: Session, codes: seq<Code>): (r: Session)
    ensures r.showResultModal <==> s.showResultModal || (|codes| > 0 && Accepts(s, codes[0]))
    ensures r != s ==> |codes| > 0 && r.scannedCode == Some(codes[0]) && r.lastScannedValue == codes[0].value && !r.isScanning
    ensures r.isInitializing == s.isInitializing && r.permissionDenied == s.permissionDenied
    ensures r.torchEnabled == s.torchEnabled && r.pendingSettles == s.pendingSettles
  {
    if |codes| > 0 && !s.showResultModal && Accepts(s, codes[0]) then
      s.(lastScannedValue := codes[0].value,
         scannedCode := Some(codes[0]),
         showResultModal := true,
         isScanning := false)
    else s
  }

  /**
   * `handleCloseModal`: hides the sheet now and schedules a settle timer,
   * which fires 1000 ms later; the held value stays until then.
   */
  function CloseModal(s: Session): (r: Session)
    ensures !r.showResultModal && r.pendingSettles == s.pendingSettles + 1
    ensures r.lastScannedValue == s.lastScannedValue && r.isScanning == s.isScanning
    ensures r.(showResultModal := s.showResultModal, pendingSettles := s.pendingSettles) == s
  {
    s.(showResultModal := false, pendingSettles := s.pendingSettles + 1)
  }

  /**
   * One scheduled settle timer fires (1000 ms after its close): scanning
   * resumes and the duplicate slot is cleared, whether or not a sheet is shown.
   */
  function Settle(s: Session): (r: Session)
    requires s.pendingSettles > 0
    ensures r.isScanning && r.lastScannedValue.None? && r.pendingSettles == s.pendingSettles - 1
    ensures r.showResultModal == s.showResultModal && r.scannedCode == s.scannedCode
    ensures r.(isScanning := s.isScanning, lastScannedValue := s.lastScannedValue, pendingSettles := s.pendingSettles) == s
  {
    s.(isScanning := true, lastScannedValue := None, pendingSettles := s.pendingSettles - 1)
  }

  /** `handleRequestPermission`: denied unless the request resolved to true. */
  function PermissionResult(s: Session, outcome: PermissionOutcome): (r: Session)
    ensures r.permissionDenied <==> outcome != Granted
  {
    match outcome
    case Granted => s.(permissionDenied := false)
    case Refused => s.(permissionDenied := true)
    case Threw => s.(permissionDenied := true)
  }

  /** `handleToggleTorch`. */
  function ToggleTorch(s: Session): (r: Session)
    ensures r.torchEnabled != s.torchEnabled
  {
    s.(torchEnabled := !s.torchEnabled)
  }

  /** The mount effect that ends initialisation. */
  function FinishInitializing(s: Session): (r: Session)
    ensures !r.isInitializing && r.(isInitializing := s.isInitializing) == s
  {
    s.(isInitializing := false)
  }

  /**
   * The render: the loading screen first, then the permission screen, then
   * the missing-device screen, then the camera with its overlay and sheet.
   */
  function RenderScreen(s: Session, hasPermission: bool, hasDevice: bool): (screen: Screen)
    ensures screen.Loading? <==> s.isInitializing
    ensures screen.PermissionRequest? <==> !s.isInitializing && !hasPermission
    ensures screen.NoCameraDevice? <==> !s.isInitializing && hasPermission && !hasDevice
    ensures screen.CameraScreen? <==> !s.isInitializing && hasPermission && hasDevice
    ensures screen.PermissionRequest? ==> screen.permissionDenied == s.permissionDenied
    ensures screen.CameraScreen? ==>
      screen.torchOn == s.torchEnabled && screen.isScanning == s.isScanning &&
      screen.modalVisible == s.showResultModal && screen.code == s.scannedCode
  {
    if s.isInitializing then Loading
    else if !hasPermission then PermissionRequest(s.permissionDenied)
    else if !hasDevice then NoCameraDevice
    else CameraScreen(s.torchEnabled, s.isScanning, s.showResultModal, s.scannedCode)
  }

  /**
   * What every reachable state satisfies: while scanning nothing is held in
   * the duplicate slot; a held value is non-empty; a shown sheet has a code;
   * a held code has a non-empty value.
   */
  predicate Invariant(s: Session)
  {
    && (s.isScanning ==> s.lastScannedValue.None?)
    && (s.lastScannedValue.Some? ==> s.lastScannedValue.value != "")
    && (s.showResultModal ==> s.scannedCode.Some?)
    && (s.scannedCode.Some? ==> Accepted(s.scannedCode.value))
  }

  /** A code that passed the duplicate check carries a non-empty value. */
  predicate Accepted(c: Code)
  {
    c.value.Some? && c.value.value != ""
  }

  /** Every event keeps the invariant. */
  lemma InvariantPreserved(s: Session, codes: seq<Code>, outcome: PermissionOutcome)
    requires Invariant(s)
    ensures Invariant(Mounted)
    ensures Invariant(OnCodeScanned(s, codes))
    ensures Invariant(CloseModal(s))
    ensures s.pendingSettles > 0 ==> Invariant(Settle(s))
    ensures Invariant(PermissionResult(s, outcome))
    ensures Invariant(ToggleTorch(s))
    ensures Invariant(FinishInitializing(s))
  {
  }

  /** An empty batch, or any batch while the sheet is shown, changes nothing. */
  lemma DetectionIgnored(s: Session, codes: seq<Code>)
    requires codes == [] || s.showResultModal
    ensures OnCodeScanned(s, codes) == s
  {
  }

  /** Only the first code of a batch matters. */
  lemma OnlyFirstCodeCounts(s: Session, codes: seq<Code>)
    requires codes != []
    ensures OnCodeScanned(s, codes) == OnCodeScanned(s, codes[..1])
  {
  }

  /**
   * With the sheet hidden, the first code is accepted exactly when its value
   * is non-empty and differs from the last accepted value; acceptance shows
   * it, records its value and stops scanning, and touches nothing else.
   */
  lemma AcceptanceIff(s: Session, c: Code, rest: seq<Code>)
    requires !s.showResultModal
    ensures var t := OnCodeScanned(s, [c] + rest);
      && (t.showResultModal <==> c.value.Some? && c.value.value != "" && c.value != s.lastScannedValue)
      && (t.showResultModal ==> t == s.(lastScannedValue := c.value, scannedCode := Some(c),
                                        showResultModal := true, isScanning := false))
      && (!t.showResultModal ==> t == s)
  {
  }

  /**
   * After the sheet is closed and before the timer fires, the same value is
   * still refused, while a different value is accepted although scanning
   * has not resumed.
   */
  lemma BeforeSettle(s: Session, v: string, w: string, kind: CodeType)
    requires s.lastScannedValue == Some(v)
    requires w != "" && w != v
    ensures OnCodeScanned(CloseModal(s), [Code(kind, Some(v))]) == CloseModal(s)
    ensures OnCodeScanned(CloseModal(s), [Code(kind, Some(w))]).showResultModal
  {
  }

  /** Once a timer fires, the same value is accepted again whatever the sheet was doing before. */
  lemma AfterSettle(s: Session, c: Code)
    requires s.pendingSettles > 0 && !s.showResultModal && Accepted(c)
    ensures Settle(s).isScanning && Settle(s).lastScannedValue == None
    ensures OnCodeScanned(Settle(s), [c]).showResultModal
    ensures OnCodeScanned(Settle(s), [c]).scannedCode == Some(c)
  {
  }

  /**
   * The debounce end to end: from a fresh screen, a value held in frame is
   * accepted once; closing and waiting for the timer lets it be accepted a
   * second time.
   */
  lemma DebounceScenario(c: Code)
    requires Accepted(c)
    ensures var s0 := FinishInitializing(Mounted);
      var s1 := OnCodeScanned(s0, [c]);
      var s2 := OnCodeScanned(s1, [c]);
      var s3 := OnCodeScanned(CloseModal(s2), [c]);
      var s4 := OnCodeScanned(Settle(CloseModal(s2)), [c]);
      && s1.showResultModal && s1.scannedCode == Some(c)
      && s2 == s1
      && s3 == CloseModal(s2) && !s3.showResultModal
      && s4.showResultModal && s4.lastScannedValue == c.value
  {
  }

  /**
   * A timer from an earlier close can fire while a later result is shown:
   * the overlay then reports scanning with the sheet up, and the duplicate
   * slot no longer holds the shown value.
   */
  lemma EarlierTimerFiresDuringLaterResult(c: Code, d: Code)
    requires Accepted(c) && Accepted(d) && c.value != d.value
    ensures var s1 := OnCodeScanned(FinishInitializing(Mounted), [c]);
      var s2 := OnCodeScanned(CloseModal(s1), [d]);
      var s3 := Settle(s2);
      && s2.showResultModal && !s2.isScanning && s2.scannedCode == Some(d)
      && s3.showResultModal && s3.isScanning && s3.lastScannedValue == None
  {
  }

  /** A refused or failed permission request marks the permission as denied; a granted one clears it. */
  lemma PermissionDeniedIff(s: Session, outcome: PermissionOutcome)
    ensures PermissionResult(s, outcome).permissionDenied <==> outcome != Granted
    ensures PermissionResult(s, outcome).(permissionDenied := s.permissionDenied) == s
  {
  }

  /** The torch button flips the torch and nothing else; pressing it twice restores it. */
  lemma TorchToggle(s: Session)
    ensures ToggleTorch(s).torchEnabled != s.torchEnabled
    ensures ToggleTorch(s).(torchEnabled := s.torchEnabled) == s
    ensures ToggleTorch(ToggleTorch(s)) == s
  {
  }

  /**
   * The mounted component. Its fields are the `Session` components; each
   * callback is proved to move them as the corresponding `Session` function does.
   */
  class CameraViewComponent {
    var isInitializing: bool
    var permissionDenied: bool
    var scannedCode: Option<Code>
    var showResultModal: bool
    var torchEnabled: bool
    var isScanning: bool
    var lastScannedValue: Option<string>
    var pendingSettles: nat

    /** The fields as one value. */
    function State(): Session
      reads this
    {
      Session(isInitializing, permissionDenied, scannedCode, showResultModal,
              torchEnabled, isScanning, lastScannedValue, pendingSettles)
    }

    constructor ()
      ensures State() == Mounted
    {
      isInitializing := true;
      permissionDenied := false;
      scannedCode := None;
      showResultModal := false;
      torchEnabled := false;
      isScanning := true;
      lastScannedValue := None;
      pendingSettles := 0;
    }

    /** The mount effect. */
    method CheckPermission()
      modifies this
      ensures State() == FinishInitializing(old(State()))
    {
      isInitializing := false;
    }

    /** The code-scanner callback. */
    method OnCodeScannedCallback(codes: seq<Code>)
      modifies this
      ensures State() == OnCodeScanned(old(State()), codes)
    {
      if |codes| > 0 && !showResultModal {
        var code := codes[0];
        if code.value.Some? && code.value.value != "" && code.value != lastScannedValue {
          lastScannedValue := code.value;
          scannedCode := Some(code);
          showResultModal := true;
          isScanning := false;
        }
      }
    }

    /** The sheet's close callback; the timer it schedules is counted in `pendingSettles`. */
    method HandleCloseModal()
      modifies this
      ensures State() == CloseModal(old(State()))
    {
      showResultModal := false;
      pendingSettles := pendingSettles + 1;
    }

    /** The body of the settle timer. */
    method SettleTimerFires()
      requires pendingSettles > 0
      modifies this
      ensures State() == Settle(old(State()))
    {
      isScanning := true;
      lastScannedValue := None;
      pendingSettles := pendingSettles - 1;
    }

    /** The permission request callback, given how `requestPermission()` settled. */
    method HandleRequestPermission(outcome: PermissionOutcome)
      modifies this
      ensures State() == PermissionResult(old(State()), outcome)
    {
      match outcome
      case Granted => permissionDenied := false;
      case Refused => permissionDenied := true;
      case Threw => permissionDenied := true;
    }

    /** The torch button callback. */
    method HandleToggleTorch()
      modifies this
      ensures State() == ToggleTorch(old(State()))
    {
      torchEnabled := !torchEnabled;
    }

    /** The render, given the permission and device the camera hooks report. */
    method Render(hasPermission: bool, hasDevice: bool) returns (screen: Screen)
      ensures screen == RenderScreen(State(), hasPermission, hasDevice)
    {
      if isInitializing {
        return Loading;
      }
      if !hasPermission {
        return PermissionRequest(permissionDenied);
      }
      if !hasDevice {
        return NoCameraDevice;
      }
      screen := CameraScreen(torchEnabled, isScanning, showResultModal, scannedCode);
    }
  }
}
