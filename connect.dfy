// The bookkeeping of the telephony service singleton: its lifecycle flags,
// the current contact and the record of the last call, where the softphone
// container is embedded and the lock around moving it, the cleanup cooldown,
// the login check and the two console limiters it installs.
//
// DOM containers are opaque ids; the container's DOM parent is a field.
module Connect {
  import opened Wrappers
  import opened Strings
  import opened RateLimit

  const CLEANUP_COOLDOWN: int := 2000
  const LOG_WINDOW_MS: nat := 5000
  const ERROR_LIMIT: nat := 10
  const WARN_LIMIT: nat := 5
  const ERROR_NOTICE := "... suppressing additional error messages to prevent spam ..."
  const WARN_NOTICE := "... suppressing additional warning messages to prevent spam ..."
  const NO_ACTIVE_CALL := "No active call to hang up"
  const CALL_ENDED := "Call ended successfully"

  /** A contact as the service sees it: its id and the `CustomerPhone` attribute. */
  datatype Contact = Contact(contactId: string, customerPhone: Option<string>)

  /** `lastCallInfo`, kept for generating a case after the call. */
  datatype CallInfo = CallInfo(contactId: string, contactNumber: string, endedAt: int)

  /** `getStatus()` */
  datatype ServiceStatus = ServiceStatus(
    isInitialized: bool, isReady: bool, hasAgent: bool, hasContact: bool, contactId: Option<string>)

  /** `hangupCall()`: the resolved value, or the error it throws. */
  datatype HangupOutcome = Hung(success: bool, message: string, contactId: Option<string>) | HangupFailed(error: string)

  /** What `needsConnectLogin` looks at besides the session flag. */
  datatype CcpProbe = CcpProbe(iframeCount: nat, width: int, height: int, hasConnectApi: bool)

  /** The messages the error limiter drops without counting them. */
  predicate CompletelySuppressed(message: string) {
    Contains(message, "background blur processor") ||
    (Contains(message, "Cannot read properties of null") && Contains(message, "postMessage")) ||
    (Contains(message, "amazon-connect-streams") && Contains(message, "Logger.scheduleUpstreamOuterContextCCPLogsPush"))
  }

  class ConnectService {
    var isInitialized: bool
    var isReady: bool
    /** `agent`, by id */
    var agent: Option<nat>
    var currentContact: Option<Contact>
    var currentContactId: Option<string>
    /** `ccpContainer`, by id */
    var ccpContainer: Option<nat>
    /** `ccpContainer.parentNode`, by id */
    var ccpParent: Option<nat>
    var ccpEmbeddedLocation: Option<nat>
    var isEmbedding: bool
    var lastCleanupTime: int
    var lastCallInfo: Option<CallInfo>
    /** How often `connect.core.terminate()` has been called. */
    var terminations: nat
    /** `errorCount`/`lastErrorTime` and `warnCount`/`lastWarnTime` */
    var errorWindow: Window
    var warnWindow: Window
    /** What the original `console.error` and `console.warn` have been given. */
    var errorOutput: seq<string>
    var warnOutput: seq<string>

    /** The container has a DOM parent only while the service holds it. */
    predicate Valid()
      reads this
    {
      ccpContainer.None? ==> ccpParent.None?
    }

    constructor ()
      ensures Valid()
      ensures !isInitialized && !isReady && agent.None? && currentContact.None? && currentContactId.None?
      ensures ccpContainer.None? && ccpParent.None? && ccpEmbeddedLocation.None? && !isEmbedding
      ensures lastCleanupTime == 0 && lastCallInfo.None? && terminations == 0
      ensures errorWindow == Window(0, 0) && warnWindow == Window(0, 0) && errorOutput == [] && warnOutput == []
    {
      isInitialized, isReady, agent := false, false, None;
      currentContact, currentContactId := None, None;
      ccpContainer, ccpParent, ccpEmbeddedLocation, isEmbedding := None, None, None, false;
      lastCleanupTime, lastCallInfo, terminations := 0, None, 0;
      errorWindow, warnWindow, errorOutput, warnOutput := Window(0, 0), Window(0, 0), [], [];
    }

    /** `isCCPEmbeddedIn(target)`; `None` stands for `null`. */
    predicate EmbeddedIn(target: Option<nat>)
      reads this
    {
      ccpEmbeddedLocation == target && ccpContainer.Some? && ccpParent == target
    }

    method IsCCPEmbeddedIn(target: Option<nat>) returns (r: bool)
      ensures r <==> ccpEmbeddedLocation == target && ccpContainer.Some? && ccpParent == target
    {
      r := ccpEmbeddedLocation == target && ccpContainer.Some? && ccpParent == target;
    }

    /** `isCCPReadyForEmbedding()` */
    predicate ReadyForEmbedding()
      reads this
    {
      isInitialized && ccpContainer.Some? && !isEmbedding
    }

    method IsCCPReadyForEmbedding() returns (r: bool)
      ensures r <==> isInitialized && ccpContainer.Some? && !isEmbedding
    {
      r := isInitialized && ccpContainer.Some? && !isEmbedding;
    }

    /** The container is created, not yet attached anywhere. */
    method CreateContainer(id: nat)
      modifies this`ccpContainer, this`ccpParent, this`ccpEmbeddedLocation
      ensures Valid()
      ensures ccpContainer == Some(id) && ccpParent.None? && ccpEmbeddedLocation.None?
    {
      ccpContainer, ccpParent, ccpEmbeddedLocation := Some(id), None, None;
    }

    /** `initialize()` ends with the service initialised, whether or not the library set-up succeeded. */
    method MarkInitialized()
      modifies this`isInitialized
      ensures isInitialized
    {
      isInitialized := true;
    }

    /** The agent callback: the agent is stored and the service is ready. */
    method OnAgent(agentId: nat)
      modifies this`agent, this`isReady
      ensures agent == Some(agentId) && isReady
    {
      agent, isReady := Some(agentId), true;
    }

    /** The contact callback stores the contact and its id. */
    method OnContact(contact: Contact)
      modifies this`currentContact, this`currentContactId
      ensures currentContact == Some(contact) && currentContactId == Some(contact.contactId)
    {
      currentContact, currentContactId := Some(contact), Some(contact.contactId);
    }

    /**
     * `embedCCPToContainer(target)`: refuses while another embed holds the
     * lock, without a target or without a container; succeeds without moving
     * anything when the container is already there; otherwise moves the
     * container into the target and records it. The lock is released on
     * every exit it took.
     */
    method EmbedCCPToContainer(target: Option<nat>) returns (ok: bool)
      requires Valid()
      modifies this`isEmbedding, this`ccpParent, this`ccpEmbeddedLocation
      ensures Valid() && isEmbedding == old(isEmbedding)
      ensures old(isEmbedding) || target.None? || ccpContainer.None? ==>
                !ok && ccpParent == old(ccpParent) && ccpEmbeddedLocation == old(ccpEmbeddedLocation)
      ensures !old(isEmbedding) && target.Some? && ccpContainer.Some? ==>
                ok && ccpParent == target && ccpEmbeddedLocation == target
      ensures ok <==> !old(isEmbedding) && target.Some? && ccpContainer.Some?
      ensures ok ==> EmbeddedIn(target)
      ensures old(EmbeddedIn(target)) ==> ccpParent == old(ccpParent) && ccpEmbeddedLocation == old(ccpEmbeddedLocation)
    {
      if isEmbedding {
        return false;
      }
      if target.None? {
        return false;
      }
      if ccpContainer.None? {
        return false;
      }
      if ccpEmbeddedLocation == target && ccpParent == target {
        return true;
      }
      isEmbedding := true;
      if ccpParent.Some? {
        ccpParent := None;
      }
      ccpParent := target;
      ccpEmbeddedLocation := target;
      isEmbedding := false;
      return true;
    }

    /**
     * `cleanupExistingCCP()` at time `now`: a no-op within the cooldown of
     * the last cleanup; otherwise records `now` and, when the service is not
     * initialised, terminates a loaded library and forgets the container.
     */
    method CleanupExistingCCP(now: int, libraryLoaded: bool)
      requires Valid()
      modifies this`lastCleanupTime, this`ccpEmbeddedLocation, this`isEmbedding, this`ccpContainer,
               this`ccpParent, this`terminations
      ensures Valid()
      ensures now - old(lastCleanupTime) < CLEANUP_COOLDOWN ==>
                lastCleanupTime == old(lastCleanupTime) && ccpContainer == old(ccpContainer) &&
                ccpParent == old(ccpParent) && ccpEmbeddedLocation == old(ccpEmbeddedLocation) &&
                isEmbedding == old(isEmbedding) && terminations == old(terminations)
      ensures now - old(lastCleanupTime) >= CLEANUP_COOLDOWN ==> lastCleanupTime == now
      ensures now - old(lastCleanupTime) >= CLEANUP_COOLDOWN && !isInitialized ==>
                ccpContainer.None? && ccpParent.None? && ccpEmbeddedLocation.None? && !isEmbedding &&
                terminations == old(terminations) + (if libraryLoaded then 1 else 0)
      ensures isInitialized ==>
                ccpContainer == old(ccpContainer) && ccpParent == old(ccpParent) &&
                ccpEmbeddedLocation == old(ccpEmbeddedLocation) && isEmbedding == old(isEmbedding) &&
                terminations == old(terminations)
    {
      if now - lastCleanupTime < CLEANUP_COOLDOWN {
        return;
      }
      lastCleanupTime := now;
      if isInitialized && ccpContainer.Some? {
        return;
      }
      if !isInitialized && libraryLoaded {
        terminations := terminations + 1;
      }
      if !isInitialized {
        ccpEmbeddedLocation, isEmbedding, ccpContainer, ccpParent := None, false, None, None;
      }
    }

    /** `hangupCall()`: fails without a current contact, otherwise reports the ended call. */
    method HangupCall() returns (r: HangupOutcome)
      ensures currentContact.None? <==> r == HangupFailed(NO_ACTIVE_CALL)
      ensures currentContact.Some? ==> r == Hung(true, CALL_ENDED, currentContactId)
    {
      if currentContact.None? {
        return HangupFailed(NO_ACTIVE_CALL);
      }
      return Hung(true, CALL_ENDED, currentContactId);
    }

    /** The end-of-contact handler: remember the call, forget the contact. */
    method OnEnd(contact: Contact, endedAt: int)
      modifies this`lastCallInfo, this`currentContact, this`currentContactId
      ensures lastCallInfo == Some(CallInfo(contact.contactId, contact.customerPhone.GetOr(""), endedAt))
      ensures currentContact.None? && currentContactId.None?
    {
      var phone := if contact.customerPhone.Some? then contact.customerPhone.value else "";
      lastCallInfo := Some(CallInfo(contact.contactId, phone, endedAt));
      currentContact, currentContactId := None, None;
    }

    /**
     * `needsConnectLogin()` with the stored `connectSession` flag: a login is
     * needed exactly when the flag is not `'1'`; with a session every check of
     * the softphone only asks for re-embedding or re-initialisation.
     */
    method NeedsConnectLogin(session: Option<string>, probe: CcpProbe) returns (r: bool)
      ensures r <==> session != Some("1")
    {
      if session != Some("1") {
        return true;
      }
      if isInitialized {
        if ccpContainer.Some? {
          if probe.iframeCount > 0 {
            if probe.width == 0 || probe.height == 0 {
              return false;
            }
          } else {
            return false;
          }
        } else {
          return false;
        }
        if !probe.hasConnectApi {
          return false;
        }
        return false;
      }
      return false;
    }

    /** `getStatus()` */
    function Status(): (s: ServiceStatus)
      reads this
      ensures s.isInitialized == isInitialized && s.isReady == isReady
      ensures s.hasAgent <==> agent.Some?
      ensures s.hasContact <==> currentContact.Some?
      ensures s.contactId == currentContactId
    {
      ServiceStatus(isInitialized, isReady, agent.Some?, currentContact.Some?, currentContactId)
    }

    method GetStatus() returns (s: ServiceStatus)
      ensures s.isInitialized == isInitialized && s.isReady == isReady
      ensures s.hasAgent <==> agent.Some?
      ensures s.hasContact <==> currentContact.Some?
      ensures s.contactId == currentContactId
    {
      s := Status();
    }

    /**
     * `destroy()`: terminates the library if it was initialised, then clears
     * the lifecycle flags, the agent and the contact; the status then shows
     * nothing and the softphone is not ready for embedding.
     */
    method Destroy()
      modifies this`isInitialized, this`isReady, this`agent, this`currentContact, this`currentContactId,
               this`terminations
      ensures terminations == old(terminations) + (if old(isInitialized) then 1 else 0)
      ensures Status() == ServiceStatus(false, false, false, false, None)
      ensures !ReadyForEmbedding()
    {
      if isInitialized {
        terminations := terminations + 1;
        isInitialized := false;
      }
      currentContact, currentContactId, agent, isReady := None, None, None, false;
    }

    /**
     * The `console.error` override: the window is refreshed first, the known
     * library noise is dropped without counting, and everything else is
     * counted against ten per five-second window.
     */
    method ConsoleError(message: string, now: int)
      modifies this`errorWindow, this`errorOutput
      ensures CompletelySuppressed(message) ==>
                errorWindow == Refresh(old(errorWindow), now, LOG_WINDOW_MS) && errorOutput == old(errorOutput)
      ensures !CompletelySuppressed(message) ==>
                var (w, a) := Step(old(errorWindow), now, LOG_WINDOW_MS, ERROR_LIMIT);
                errorWindow == w && errorOutput == old(errorOutput) + Emit(a, message, ERROR_NOTICE)
    {
      errorWindow := Refresh(errorWindow, now, LOG_WINDOW_MS);
      if CompletelySuppressed(message) {
        return;
      }
      var a := Decide(errorWindow.count, ERROR_LIMIT);
      if a == Forward {
        errorOutput := errorOutput + [message];
      } else if a == Notice {
        errorOutput := errorOutput + [ERROR_NOTICE];
      }
      errorWindow := Window(errorWindow.count + 1, errorWindow.start);
    }

    /** The `console.warn` override: five warnings per five-second window, then one notice. */
    method ConsoleWarn(message: string, now: int)
      modifies this`warnWindow, this`warnOutput
      ensures var (w, a) := Step(old(warnWindow), now, LOG_WINDOW_MS, WARN_LIMIT);
              warnWindow == w && warnOutput == old(warnOutput) + Emit(a, message, WARN_NOTICE)
    {
      warnWindow := Refresh(warnWindow, now, LOG_WINDOW_MS);
      var a := Decide(warnWindow.count, WARN_LIMIT);
      if a == Forward {
        warnOutput := warnOutput + [message];
      } else if a == Notice {
        warnOutput := warnOutput + [WARN_NOTICE];
      }
      warnWindow := Window(warnWindow.count + 1, warnWindow.start);
    }
  }

  /** Within one five-second window at most ten counted errors are passed on, then one notice. */
  lemma ErrorBurstIsCapped(w: Window, times: seq<int>)
    requires times != [] && times[0] - w.start > LOG_WINDOW_MS
    requires forall i :: 0 <= i < |times| ==> times[0] <= times[i] <= times[0] + LOG_WINDOW_MS
    ensures var acts := Run(w, times, LOG_WINDOW_MS, ERROR_LIMIT);
            CountOf(acts, Forward) == (if |times| < 10 then |times| else 10) &&
            CountOf(acts, Notice) == (if |times| > 10 then 1 else 0)
  {
    BurstIsCapped(w, times, LOG_WINDOW_MS, ERROR_LIMIT);
  }

  /** Within one five-second window at most five warnings are passed on, then one notice. */
  lemma WarnBurstIsCapped(w: Window, times: seq<int>)
    requires times != [] && times[0] - w.start > LOG_WINDOW_MS
    requires forall i :: 0 <= i < |times| ==> times[0] <= times[i] <= times[0] + LOG_WINDOW_MS
    ensures var acts := Run(w, times, LOG_WINDOW_MS, WARN_LIMIT);
            CountOf(acts, Forward) == (if |times| < 5 then |times| else 5) &&
            CountOf(acts, Notice) == (if |times| > 5 then 1 else 0)
  {
    BurstIsCapped(w, times, LOG_WINDOW_MS, WARN_LIMIT);
  }
}
