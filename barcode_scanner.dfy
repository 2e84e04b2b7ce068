/** The full-screen barcode scanner (frontend/src/components/FullScreenBarcodeScanner.js):
    the scanning effect, the filter applied to each decoded barcode, and the retry
    buttons. Camera start-up and each decoded barcode are parameters; the codes handed to
    `onDetected` and the `onClose` calls are appended to `notices`. */
module BarcodeScanner {
  import opened Wrappers
  import opened JsValues

  const InitFailedMessage := "Failed to initialize camera. Please check camera permissions."
  const MinConfidence: real := 0.5

  /** `/^\d{12,13}$/.test(code)`: twelve or thirteen ASCII digits and nothing else. */
  predicate IsValidUpc(code: string) {
    (|code| == 12 || |code| == 13) && AllDigits(code)
  }

  /** The two checks of the detection callback: a confidence below one half is ignored
      (a missing confidence is NaN and is not below anything), then the code must look
      like a UPC. */
  predicate Accepts(code: string, confidence: Number) {
    !Less(confidence, MinConfidence) && IsValidUpc(code)
  }

  /** With a known confidence, a code is taken exactly when the confidence is at least
      one half and the code is 12 or 13 digits. */
  lemma AcceptsKnownConfidence(code: string, c: real)
    ensures Accepts(code, Finite(c)) <==>
      c >= 0.5 && (|code| == 12 || |code| == 13) && forall i :: 0 <= i < |code| ==> IsDigit(code[i])
  {
  }

  /** A barcode decoded without a confidence is filtered on its format alone. */
  lemma AcceptsWithoutConfidence(code: string)
    ensures Accepts(code, NaN) <==> IsValidUpc(code)
  {
  }

  /** Codes from the EAN-8 and UPC-E readers (8 digits) and text with a non-digit are
      never handed on, whatever their confidence. */
  lemma ShortOrNonDigitCodesRejected(code: string, confidence: Number)
    requires |code| < 12 || |code| > 13 || exists i :: 0 <= i < |code| && !IsDigit(code[i])
    ensures !Accepts(code, confidence)
  {
  }

  /** What the component hands to its parent. */
  datatype Notice = Detected(code: string) | Closed

  class Scanner {
    var scanning: bool
    var error: Option<string>
    var success: bool
    /** The camera runs and the detection callback is registered. */
    var listening: bool
    var notices: seq<Notice>

    constructor ()
      ensures scanning && error == None && !success && !listening && notices == []
    {
      scanning := true;
      error := None;
      success := false;
      listening := false;
      notices := [];
    }

    /** The scanning effect, run when `isOpen` or `scanning` changes: the previous run's
        clean-up stops the camera; then, when open and scanning, the messages are
        cleared and the camera is started (`initOk`: it started without error). */
    method Setup(isOpen: bool, initOk: bool)
      modifies this
      ensures !(isOpen && old(scanning)) ==>
        !listening && error == old(error) && success == old(success)
      ensures isOpen && old(scanning) ==>
        && !success
        && (initOk ==> listening && error == None)
        && (!initOk ==> !listening && error == Some(InitFailedMessage))
      ensures scanning == old(scanning) && notices == old(notices)
    {
      listening := false;
      if !isOpen || !scanning {
        return;
      }
      error := None;
      success := false;
      if !initOk {
        error := Some(InitFailedMessage);
        return;
      }
      listening := true;
    }

    /** The detection callback for a decoded `code` with its `confidence`. An accepted
        code shows success, ends scanning (so the camera stops) and is handed on. */
    method OnDetected(code: string, confidence: Number)
      modifies this
      ensures old(listening) && Accepts(code, confidence) ==>
        && success && !scanning && !listening
        && notices == old(notices) + [Detected(code)]
      ensures !(old(listening) && Accepts(code, confidence)) ==>
        && success == old(success) && scanning == old(scanning) && listening == old(listening)
        && notices == old(notices)
      ensures error == old(error)
    {
      if !listening {
        return;
      }
      if Less(confidence, MinConfidence) {
        return;
      }
      if !IsValidUpc(code) {
        return;
      }
      success := true;
      scanning := false;
      listening := false;
      notices := notices + [Detected(code)];
    }

    /** "Try Again" after a camera error. */
    method TryAgain()
      modifies this
      ensures error == None && scanning
      ensures success == old(success) && listening == old(listening) && notices == old(notices)
    {
      error := None;
      scanning := true;
    }

    /** "Scan again?" after a detection. */
    method ScanAgain()
      modifies this
      ensures scanning
      ensures error == old(error) && success == old(success) && listening == old(listening)
      ensures notices == old(notices)
    {
      scanning := true;
    }

    /** The close button. */
    method Close()
      modifies this
      ensures notices == old(notices) + [Closed]
      ensures scanning == old(scanning) && error == old(error) && success == old(success)
      ensures listening == old(listening)
    {
      notices := notices + [Closed];
    }
  }
}
