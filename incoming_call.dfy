// The incoming-call pop-up: what the notification socket's messages do to
// it, when it reconnects, answering and dismissing, and the automatic move
// to the call page once the softphone reports the call as connected.
module IncomingCall {
  import opened Wrappers
  import opened Strings

  const NORMAL_CLOSURE: int := 1000
  const CALL_PATH_PREFIX := "/call/"
  const TEST_CALL_PREFIX := "test-call-"

  /** The notification payload fields the component reads; `customerInfo` is opaque. */
  datatype CallPayload = CallPayload(callId: Option<string>, callerId: Option<string>, customerInfo: Option<string>)

  /** A parsed socket message; unknown types and unparsable data are `Other`. */
  datatype SocketMessage = IncomingCallMessage(data: Option<CallPayload>) | CallEndedMessage | Other

  /** The `incomingCall` window event handed to the call page. */
  datatype IncomingEvent = IncomingEvent(customerInfo: string, callId: Option<string>)

  const EMPTY_PAYLOAD := CallPayload(None, None, None)

  /** The id a notification is de-duplicated on: `callId || callerId`. */
  function NotificationId(p: CallPayload): (r: Option<string>)
    ensures r.Some? <==> Truthy(p.callId) || Truthy(p.callerId)
  {
    FirstTruthy(p.callId, p.callerId)
  }

  /** The page opened for a call: `/call/` then `callerId || callId || 'test-call-' + now`. */
  function CallPath(p: CallPayload, now: nat): (path: string)
    ensures CALL_PATH_PREFIX <= path && |path| > |CALL_PATH_PREFIX|
    ensures Truthy(p.callerId) ==> path == CALL_PATH_PREFIX + p.callerId.value
    ensures !Truthy(p.callerId) && Truthy(p.callId) ==> path == CALL_PATH_PREFIX + p.callId.value
    ensures !Truthy(p.callerId) && !Truthy(p.callId) ==> path == CALL_PATH_PREFIX + TEST_CALL_PREFIX + NatToString(now)
  {
    var id := FirstTruthy(p.callerId, p.callId);
    CALL_PATH_PREFIX + (if id.Some? then id.value else TEST_CALL_PREFIX + NatToString(now))
  }

  /**
   * The call-state callback's navigation decision: on `Connected`, with the
   * notification visible, a call present and no earlier automatic move, the
   * call page to open.
   */
  function AutoNavigation(newState: string, visible: bool, call: Option<CallPayload>, navigated: bool, now: nat): (r: Option<string>)
    ensures r.Some? <==> newState == "Connected" && visible && call.Some? && !navigated
    ensures r.Some? ==> r.value == CallPath(call.value, now)
  {
    if newState == "Connected" && visible && call.Some? && !navigated then Some(CallPath(call.value, now)) else None
  }

  /**
   * The callback is registered once, on mount, so the `isVisible` and
   * `incomingCall` it reads are the mount-time values `false` and `null`:
   * as written it never navigates, whatever the notification shows now.
   */
  lemma MountSnapshotNeverNavigates(newState: string, visible: bool, call: CallPayload, now: nat)
    ensures AutoNavigation(newState, false, None, false, now) == None
    ensures AutoNavigation("Connected", true, Some(call), false, now) == Some(CallPath(call, now))
  {
  }

  class IncomingCallNotifier {
    var incomingCall: Option<CallPayload>
    var isVisible: bool
    var isAnswering: bool
    var contactReady: bool
    /** `navigatedRef.current` */
    var navigated: bool
    /** `lastCallIdRef.current` */
    var lastCallId: Option<string>
    /** `wsRef.current`, by socket id */
    var socket: Option<nat>
    /** Reconnects scheduled by `onclose`. */
    var reconnects: nat
    /** `window.lastIncomingCallEvent` */
    var lastIncomingEvent: Option<IncomingEvent>
    /** Every path passed to `navigate`, in order. */
    var navigations: seq<string>

    constructor ()
      ensures incomingCall.None? && !isVisible && !isAnswering && !contactReady && !navigated
      ensures lastCallId.None? && socket.None? && reconnects == 0 && lastIncomingEvent.None? && navigations == []
    {
      incomingCall, isVisible, isAnswering, contactReady, navigated := None, false, false, false, false;
      lastCallId, socket, reconnects, lastIncomingEvent, navigations := None, None, 0, None, [];
    }

    /** Nothing renders unless the notification is visible and holds a call. */
    predicate Rendered()
      reads this
    {
      isVisible && incomingCall.Some?
    }

    /**
     * `ws.onmessage`: a repeated notification for the last call is ignored;
     * a new one is recorded and shown; `CALL_ENDED` hides and clears it.
     */
    method OnMessage(message: SocketMessage)
      modifies this`lastCallId, this`incomingCall, this`isVisible
      ensures message.IncomingCallMessage? ==>
                var p := message.data.GetOr(EMPTY_PAYLOAD);
                var id := NotificationId(p);
                if id.Some? && old(lastCallId) == id then
                  lastCallId == old(lastCallId) && incomingCall == old(incomingCall) && isVisible == old(isVisible)
                else
                  lastCallId == id && incomingCall == Some(p) && isVisible && Rendered()
      ensures message.CallEndedMessage? ==>
                lastCallId == old(lastCallId) && !isVisible && incomingCall.None? && !Rendered()
      ensures message.Other? ==>
                lastCallId == old(lastCallId) && incomingCall == old(incomingCall) && isVisible == old(isVisible)
    {
      match message {
        case IncomingCallMessage(data) =>
          var p := if data.Some? then data.value else EMPTY_PAYLOAD;
          var id := FirstTruthy(p.callId, p.callerId);
          if id.Some? && lastCallId == id {
            return;
          }
          lastCallId := id;
          incomingCall := Some(p);
          isVisible := true;
        case CallEndedMessage =>
          isVisible := false;
          incomingCall := None;
        case Other =>
      }
    }

    /** `ws.onclose(code)`: a normal closure is final; any other drops the socket and schedules a reconnect. */
    method OnClose(code: int)
      modifies this`socket, this`reconnects
      ensures code == NORMAL_CLOSURE ==> socket == old(socket) && reconnects == old(reconnects)
      ensures code != NORMAL_CLOSURE ==> socket.None? && reconnects == old(reconnects) + 1
    {
      if code != NORMAL_CLOSURE {
        socket := None;
        reconnects := reconnects + 1;
      }
    }

    /**
     * `handleAnswer` at time `now`: nothing without a call or while an
     * answer is in progress; otherwise hands the customer details to the call
     * page, hides the notification and opens the call page.
     */
    method HandleAnswer(now: nat)
      modifies this`isAnswering, this`lastIncomingEvent, this`isVisible, this`navigations
      ensures old(incomingCall).None? || old(isAnswering) ==>
                isAnswering == old(isAnswering) && lastIncomingEvent == old(lastIncomingEvent) &&
                isVisible == old(isVisible) && navigations == old(navigations)
      ensures incomingCall.Some? && !old(isAnswering) ==>
                isAnswering && !isVisible && !Rendered() &&
                navigations == old(navigations) + [CallPath(incomingCall.value, now)] &&
                (incomingCall.value.customerInfo.Some? ==>
                   lastIncomingEvent == Some(IncomingEvent(incomingCall.value.customerInfo.value, NotificationId(incomingCall.value)))) &&
                (incomingCall.value.customerInfo.None? ==> lastIncomingEvent == old(lastIncomingEvent))
    {
      if incomingCall.None? || isAnswering {
        return;
      }
      var call := incomingCall.value;
      isAnswering := true;
      if call.customerInfo.Some? {
        lastIncomingEvent := Some(IncomingEvent(call.customerInfo.value, FirstTruthy(call.callId, call.callerId)));
      }
      isVisible := false;
      navigations := navigations + [CallPath(call, now)];
    }

    /** The timer one second after answering. */
    method AnswerTimeout()
      modifies this`isAnswering
      ensures !isAnswering
    {
      isAnswering := false;
    }

    /** `handleDismiss` */
    method HandleDismiss()
      modifies this`isVisible, this`incomingCall
      ensures !isVisible && incomingCall.None? && !Rendered()
    {
      isVisible := false;
      incomingCall := None;
    }

    /** The service's incoming-call callback enables the Answer button. */
    method OnServiceIncomingCall()
      modifies this`contactReady
      ensures contactReady
    {
      contactReady := true;
    }

    /**
     * The body of the call-state callback as registered, were it invoked:
     * it reads the mount-time `isVisible` and `incomingCall`, so it could
     * only clear `contactReady`. The service stores this callback and never
     * calls it, so in the program as written no call-state event reaches
     * the pop-up at all.
     */
    method OnCallStateChangeAsWritten(newState: string, now: nat)
      modifies this`contactReady, this`isVisible, this`navigated, this`navigations
      ensures newState == "Ended" ==> !contactReady
      ensures newState != "Ended" ==> contactReady == old(contactReady)
      ensures isVisible == old(isVisible) && navigated == old(navigated) && navigations == old(navigations)
    {
      if newState == "Ended" {
        contactReady := false;
      }
      // The navigation test sees the snapshot `false`/`null`, for which
      // `AutoNavigation` is `None` (`MountSnapshotNeverNavigates`).
    }

    /**
     * The call-state callback reading the current notification, with the
     * service delivering call-state events to it: on `Connected` it hides
     * the notification and opens the call page, once for the component's
     * lifetime.
     */
    method OnCallStateChange(newState: string, now: nat)
      modifies this`contactReady, this`isVisible, this`navigated, this`navigations
      ensures newState == "Ended" ==> !contactReady
      ensures newState != "Ended" ==> contactReady == old(contactReady)
      ensures var nav := AutoNavigation(newState, old(isVisible), incomingCall, old(navigated), now);
              (nav.Some? ==> !isVisible && navigated && navigations == old(navigations) + [nav.value]) &&
              (nav.None? ==> isVisible == old(isVisible) && navigated == old(navigated) && navigations == old(navigations))
      ensures old(navigated) ==> navigations == old(navigations)
      ensures navigated == (old(navigated) || |navigations| > |old(navigations)|)
    {
      if newState == "Ended" {
        contactReady := false;
      }
      var nav := AutoNavigation(newState, isVisible, incomingCall, navigated, now);
      if nav.Some? {
        isVisible := false;
        navigated := true;
        navigations := navigations + [nav.value];
      }
    }
  }

  /** The notification id and the call page id differ when both ids are given and differ. */
  lemma IdsChosenInOppositeOrder(p: CallPayload, now: nat)
    requires Truthy(p.callId) && Truthy(p.callerId) && p.callId != p.callerId
    ensures NotificationId(p) == p.callId
    ensures CallPath(p, now) == CALL_PATH_PREFIX + p.callerId.value
  {
  }
}
