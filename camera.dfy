/**
 * The capture gate of the vision monitor. Two flags decide whether a frame
 * may be sent to the classifier: `analyzing` (a request is in flight) and
 * `quotaExceeded` (a rate-limit cool-down is active). Time is not modelled:
 * the request's outcome, the end of the cool-down and the manual retry are
 * events, each a method.
 */
module Camera {
  import opened Types
  import opened Strings
  import opened Dashboard

  /** What a failed classifier call throws: an optional message and an optional status. */
  datatype GatewayError = GatewayError(message: Option<string>, status: Option<string>)

  /** A rate-limit error: the message mentions "429" or "quota", or the status is RESOURCE_EXHAUSTED. */
  predicate IsRateLimited(err: GatewayError)
  {
    || (err.message.Some? && (Contains(err.message.value, "429") || Contains(err.message.value, "quota")))
    || err.status == Some("RESOURCE_EXHAUSTED")
  }

  /** The classification stated through occurrences in the message rather than the search. */
  lemma RateLimitedIff(err: GatewayError)
    ensures IsRateLimited(err) <==>
      || (err.message.Some? && exists i :: OccursAt(err.message.value, "429", i))
      || (err.message.Some? && exists i :: OccursAt(err.message.value, "quota", i))
      || err.status == Some("RESOURCE_EXHAUSTED")
  {
    if err.message.Some? {
      ContainsIffOccurs(err.message.value, "429");
      ContainsIffOccurs(err.message.value, "quota");
    }
  }

  class CaptureGate {
    var analyzing: bool
    var quotaExceeded: bool
    /** Classifier calls issued so far. */
    ghost var requests: nat
    /** Cool-down timeouts scheduled and not yet fired. */
    ghost var pendingCooldowns: nat

    /** While a request is in flight no cool-down is active. */
    ghost predicate Valid()
      reads this
    {
      analyzing ==> !quotaExceeded
    }

    /** Neither a request in flight nor a cool-down. */
    predicate Idle()
      reads this
    {
      !analyzing && !quotaExceeded
    }

    /** The periodic capture timer runs only while scanning and idle. */
    predicate TimerArmed(isScanning: bool)
      reads this
    {
      isScanning && !analyzing && !quotaExceeded
    }

    constructor ()
      ensures Valid() && Idle() && requests == 0 && pendingCooldowns == 0
    {
      analyzing, quotaExceeded := false, false;
      requests, pendingCooldowns := 0, 0;
    }

    /**
     * A capture attempt (timer tick or button). It sends a frame only when
     * scanning, the video and canvas exist, the gate is idle, a drawing
     * context exists and the video has a width; it then marks the request in
     * flight. Otherwise nothing changes.
     */
    method CaptureAndAnalyze(isScanning: bool, hasVideo: bool, hasCanvas: bool, hasContext: bool, videoWidth: int)
      returns (sent: bool)
      requires Valid()
      modifies this`analyzing, this`requests
      ensures Valid()
      ensures sent <==> isScanning && hasVideo && hasCanvas && old(Idle()) && hasContext && videoWidth > 0
      ensures analyzing == (old(analyzing) || sent) && quotaExceeded == old(quotaExceeded)
      ensures requests == old(requests) + (if sent then 1 else 0)
    {
      sent := false;
      if !isScanning || !hasVideo || !hasCanvas || analyzing || quotaExceeded {
        return;
      }
      if hasContext && videoWidth > 0 {
        analyzing := true;
        requests := requests + 1;
        sent := true;
      }
    }

    /** An image upload: refused without a file, while a request is in flight or during a cool-down. */
    method HandleFileUpload(hasFile: bool) returns (sent: bool)
      requires Valid()
      modifies this`analyzing, this`requests
      ensures Valid()
      ensures sent <==> hasFile && old(Idle())
      ensures analyzing == (old(analyzing) || sent) && quotaExceeded == old(quotaExceeded)
      ensures requests == old(requests) + (if sent then 1 else 0)
    {
      sent := false;
      if !hasFile || analyzing || quotaExceeded {
        return;
      }
      analyzing := true;
      requests := requests + 1;
      sent := true;
    }

    /**
     * The classifier answered: the result is forwarded once to the dashboard's
     * ingestion, the cool-down flag is cleared, and the request is no longer
     * in flight.
     */
    method Succeed(app: App, result: AIResponse, thumbnail: string, logId: string, timeLabel: string, now: nat)
      requires Valid() && analyzing
      requires app.Valid()
      modifies this`analyzing, this`quotaExceeded, app`logs, app`reports
      ensures Valid() && Idle()
      ensures app.Valid()
      ensures app.logs == PushLog(AlertLogEntry(result, logId, timeLabel, Some(thumbnail)), old(app.logs))
      ensures app.reports == if RaisesCase(result) then [AiCase(result, thumbnail, now)] + old(app.reports)
                             else old(app.reports)
    {
      app.HandleAnalysisResult(result, thumbnail, logId, timeLabel, now);
      // The source clears the flag only when it is set; by Valid() it never is while in flight.
      quotaExceeded := false;
      analyzing := false;
    }

    /**
     * The classifier call failed: a rate-limit error starts the cool-down and
     * schedules its end; any other error leaves the flag alone. Either way the
     * request is no longer in flight.
     */
    method Fail(err: GatewayError)
      requires Valid() && analyzing
      modifies this`analyzing, this`quotaExceeded, this`pendingCooldowns
      ensures Valid() && !analyzing
      ensures quotaExceeded == (IsRateLimited(err) || old(quotaExceeded))
      ensures pendingCooldowns == old(pendingCooldowns) + (if IsRateLimited(err) then 1 else 0)
    {
      if IsRateLimited(err) {
        quotaExceeded := true;
        pendingCooldowns := pendingCooldowns + 1;
      }
      analyzing := false;
    }

    /** A scheduled cool-down timeout fires and clears the flag. */
    method CooldownExpired()
      requires Valid() && pendingCooldowns > 0
      modifies this`quotaExceeded, this`pendingCooldowns
      ensures Valid() && !quotaExceeded
      ensures pendingCooldowns == old(pendingCooldowns) - 1
    {
      quotaExceeded := false;
      pendingCooldowns := pendingCooldowns - 1;
    }

    /** The manual retry button clears the cool-down at once. */
    method ManualRetry()
      requires Valid()
      modifies this`quotaExceeded
      ensures Valid() && !quotaExceeded
    {
      quotaExceeded := false;
    }

    /**
     * The monitor tab is left and entered again: the view is mounted afresh
     * with both flags false. Cool-down timeouts of the old mount can no longer
     * reach it, and a request still in flight delivers its result straight to
     * `App.HandleAnalysisResult`, without passing through this gate.
     */
    method Remount()
      modifies this`analyzing, this`quotaExceeded, this`pendingCooldowns
      ensures Valid() && Idle() && pendingCooldowns == 0
      ensures requests == old(requests)
    {
      analyzing, quotaExceeded := false, false;
      pendingCooldowns := 0;
    }
  }

  /**
   * A rate-limited failure blocks the next capture and upload locally: no
   * classifier call is issued until the cool-down ends or is retried.
   */
  method CooldownBlocksCapture(gate: CaptureGate, err: GatewayError, videoWidth: int)
    returns (captured: bool, uploaded: bool)
    requires gate.Valid() && gate.analyzing && IsRateLimited(err)
    modifies gate
    ensures !captured && !uploaded
    ensures gate.requests == old(gate.requests)
    ensures !gate.TimerArmed(true)
  {
    gate.Fail(err);
    captured := gate.CaptureAndAnalyze(true, true, true, true, videoWidth);
    uploaded := gate.HandleFileUpload(true);
  }
}
