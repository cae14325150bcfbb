/**
 * The QR attendance scanner: the first decoded QR code is turned into a
 * volunteer id (the last segment of its URL's path) and verified once;
 * every later decode of the same mount is ignored.
 */
module QrAttendanceScanner {
  import opened Common

  const Tick := "\U{2705} "
  const Cross := "\U{274C} "

  const VerificationFailed := "Verification failed."
  const NetworkError := Cross + "Network error"
  const InvalidFormat := Cross + "Invalid QR code format."
  const InvalidCode := Cross + "Invalid QR code."
  const CameraError := Cross + "Camera access error"

  /**
   * `pathname.split("/")` and its last part: the longest suffix of the
   * path without a '/'.
   */
  function LastSegment(path: string): (r: string)
    ensures '/' !in r
    ensures |r| <= |path| && r == path[|path| - |r|..]
    ensures |r| == |path| || path[|path| - |r| - 1] == '/'
  {
    if path == [] || path[|path| - 1] == '/' then ""
    else LastSegment(path[..|path| - 1]) + [path[|path| - 1]]
  }

  /** A path ending in '/' has an empty last segment. */
  lemma TrailingSlashGivesEmptySegment(path: string)
    requires path != [] && path[|path| - 1] == '/'
    ensures LastSegment(path) == ""
  {
  }

  /** Appending "/id" to any path makes `id` its last segment, when `id` has no '/'. */
  lemma {:induction false} LastSegmentOfAppended(prefix: string, id: string)
    requires '/' !in id
    ensures LastSegment(prefix + "/" + id) == id
  {
    if id != [] {
      var init := id[..|id| - 1];
      assert (prefix + "/" + id)[..|prefix + "/" + id| - 1] == prefix + "/" + init;
      assert '/' !in init by {
        assert forall c | c in init :: c in id;
      }
      LastSegmentOfAppended(prefix, init);
      assert init + [id[|id| - 1]] == id;
    } else {
      assert prefix + "/" + id == prefix + "/";
    }
  }

  /** The answer to the verification request. */
  datatype VerifyResponse =
    | Responded(ok: bool, message: Option<string>)  // the body's `message`, if any
    | Unreachable                                   // the request or its body threw

  /** The status line after a verification. */
  function StatusFor(response: VerifyResponse): (status: string)
    ensures Tick <= status <==> response.Responded? && response.ok
    ensures response.Responded? && response.ok && response.message.Some? ==> status == Tick + response.message.value
    ensures response.Responded? && !response.ok ==> status == Cross + OrElse(response.message, VerificationFailed)
    ensures response.Unreachable? ==> status == NetworkError
  {
    match response
    case Responded(ok, message) =>
      if ok then Tick + (if message.Some? then message.value else "undefined")
      else
        var failed := Cross + OrElse(message, VerificationFailed);
        assert failed[0] != Tick[0];
        failed
    case Unreachable =>
      assert NetworkError[0] != Tick[0];
      NetworkError
  }

  /** The scanner's state for one mount of the page. */
  class QrScanner {
    var status: string
    var loading: bool
    var scanCompleted: bool
    var isScanning: bool
    /** How many times `scanner.stop()` has been called. */
    var stopCalls: nat
    /** How many decoded codes have been processed during this mount. */
    ghost var processed: nat

    /** At most one code is processed, and once one has been the flag is set. */
    ghost predicate Valid()
      reads this
    {
      processed <= 1 && (processed == 1 ==> isScanning)
    }

    constructor ()
      ensures Valid()
      ensures status == "" && !loading && !scanCompleted && !isScanning && processed == 0 && stopCalls == 0
    {
      status, loading, scanCompleted, isScanning, stopCalls := "", false, false, false, 0;
      processed := 0;
    }

    /** The camera started: the same flag the decode callback tests is set. */
    method StartSucceeded()
      requires Valid()
      modifies this`isScanning
      ensures Valid() && isScanning
    {
      isScanning := true;
    }

    /** The camera could not be started. */
    method StartFailed()
      requires Valid()
      modifies this`status, this`scanCompleted
      ensures Valid()
      ensures status == CameraError && scanCompleted
    {
      status := CameraError;
      scanCompleted := true;
    }

    /** `sendVerification`: `loading` around the request, then the status; the scan completes either way. */
    method SendVerification(userId: string, response: VerifyResponse)
      requires Valid()
      modifies this`loading, this`status, this`scanCompleted
      ensures Valid()
      ensures status == StatusFor(response) && !loading && scanCompleted
    {
      loading := true;
      status := StatusFor(response);
      loading := false;
      scanCompleted := true;
    }

    /**
     * The decode callback. `pathname` is the decoded text's URL path, or
     * `None` when it is not a URL; `response` stands for the answer to the
     * verification. `verifiedId` is the id a verification was sent for.
     * A processed code first stops the camera.
     */
    method OnDecode(pathname: Option<string>, response: VerifyResponse) returns (verifiedId: Option<string>)
      requires Valid()
      modifies this
      ensures Valid()
      ensures old(isScanning) ==> verifiedId == None && unchanged(this)
      ensures !old(isScanning) ==> isScanning && processed == old(processed) + 1 && scanCompleted
      ensures !old(isScanning) ==> stopCalls == old(stopCalls) + 1
      ensures !old(isScanning) && pathname.None? ==>
        verifiedId == None && status == InvalidCode && loading == old(loading)
      ensures !old(isScanning) && pathname.Some? && LastSegment(pathname.value) == "" ==>
        verifiedId == None && status == InvalidFormat && loading == old(loading)
      ensures !old(isScanning) && pathname.Some? && LastSegment(pathname.value) != "" ==>
        verifiedId == Some(LastSegment(pathname.value)) && status == StatusFor(response) && !loading
    {
      verifiedId := None;
      if isScanning {
        return;
      }
      isScanning := true;
      processed := processed + 1;
      stopCalls := stopCalls + 1;
      if pathname.None? {
        status := InvalidCode;
        scanCompleted := true;
        return;
      }
      var userId := LastSegment(pathname.value);
      if userId != "" {
        verifiedId := Some(userId);
        SendVerification(userId, response);
      } else {
        status := InvalidFormat;
        scanCompleted := true;
      }
    }

    /** The effect's cleanup: it stops the camera exactly when the flag is set. */
    method Cleanup() returns (stopped: bool)
      modifies this`stopCalls
      ensures stopped == isScanning
      ensures stopCalls == old(stopCalls) + if isScanning then 1 else 0
    {
      stopped := isScanning;
      if stopped {
        stopCalls := stopCalls + 1;
      }
    }
  }

  /** How the camera start settled before the page unmounts. */
  datatype StartOutcome = StartPending | Started | StartRejected

  /**
   * One mount: optionally a code decoded, then the start settling, then the
   * cleanup. The cleanup stops the camera exactly when the start succeeded
   * or a code was processed, and after a processed code the camera has been
   * stopped twice, once by the decode and once by the cleanup.
   */
  method CleanupAfter(decoded: bool, pathname: Option<string>, response: VerifyResponse, start: StartOutcome)
    returns (stopped: bool, stopCalls: nat)
    ensures stopped <==> decoded || start.Started?
    ensures stopCalls == (if decoded then 1 else 0) + (if stopped then 1 else 0)
  {
    var scanner := new QrScanner();
    if decoded {
      var _ := scanner.OnDecode(pathname, response);
    }
    match start {
      case StartPending =>
      case Started => scanner.StartSucceeded();
      case StartRejected => scanner.StartFailed();
    }
    stopped := scanner.Cleanup();
    stopCalls := scanner.stopCalls;
  }

  /** As written, a code decoded after the camera started is never processed. */
  method DecodeAfterStartIsIgnored(pathname: Option<string>, response: VerifyResponse) returns (verifiedId: Option<string>)
    ensures verifiedId == None
  {
    var scanner := new QrScanner();
    scanner.StartSucceeded();
    verifiedId := scanner.OnDecode(pathname, response);
  }

  /** Of two codes decoded before the camera reports it started, only the first is processed. */
  method SecondDecodeIsIgnored(first: string, second: string, r1: VerifyResponse, r2: VerifyResponse)
    returns (id1: Option<string>, id2: Option<string>)
    ensures id1 == (if LastSegment(first) != "" then Some(LastSegment(first)) else None)
    ensures id2 == None
  {
    var scanner := new QrScanner();
    id1 := scanner.OnDecode(Some(first), r1);
    id2 := scanner.OnDecode(Some(second), r2);
  }
}
