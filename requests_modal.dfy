/** The partner-request popup of src/components/RequestsModal.jsx: it loads the
    pending requests once a user is known, opens itself when there are any, and
    lets the user accept one (the page then reloads) or close it. */
module RequestsModal {
  import opened Base
  import Auth

  /** A pending request; only its id matters to the popup's logic. */
  datatype CoupleRequest = CoupleRequest(id: string, senderName: string, senderEmail: string)

  /** The fetch reply: an array of requests, or anything else. */
  datatype RequestsReply = RequestList(items: seq<CoupleRequest>) | NotAList

  /** How an accept ends: the page reloads, or the call fails with an optional
      `response.data.error` and an optional `message`. */
  datatype AcceptOutcome = Accepted | AcceptFailed(responseError: Option<string>, message: Option<string>)

  const DefaultAcceptError := "Failed to accept request"

  /** The message shown when accepting fails: the server's error, else the error's own
      message, else the default (`err.response?.data?.error || err.message || …`). */
  function AcceptErrorMessage(responseError: Option<string>, message: Option<string>): (r: string)
    ensures Truthy(responseError) ==> r == responseError.value
    ensures !Truthy(responseError) && Truthy(message) ==> r == message.value
    ensures !Truthy(responseError) && !Truthy(message) ==> r == DefaultAcceptError
    ensures r != ""
  {
    OrElse(responseError, OrElse(message, DefaultAcceptError))
  }

  class Modal {
    var requests: seq<CoupleRequest>
    var loading: bool
    var acceptingId: Option<string>
    var isOpen: bool
    /** Fetches and accepts sent to the couple service, page reloads, and alerts. */
    var fetches: nat
    var accepts: seq<string>
    var reloads: nat
    var alerts: seq<string>

    /** The render guard: nothing is shown unless open with at least one request. */
    predicate Visible()
      reads this
    {
      isOpen && |requests| > 0
    }

    constructor ()
      ensures requests == [] && loading && acceptingId == None && !isOpen
      ensures fetches == 0 && accepts == [] && reloads == 0 && alerts == []
      ensures !Visible()
    {
      requests := [];
      loading := true;
      acceptingId := None;
      isOpen := false;
      fetches := 0;
      accepts := [];
      reloads := 0;
      alerts := [];
    }

    /** `fetchRequests()`: a non-empty list opens the popup with it; any other reply
        empties the list and closes it; a failed fetch changes neither. */
    method FetchRequests(outcome: Result<RequestsReply>)
      modifies this
      ensures fetches == old(fetches) + 1 && !loading
      ensures outcome.Ok? && outcome.value.RequestList? && |outcome.value.items| > 0 ==>
                requests == outcome.value.items && isOpen
      ensures outcome.Ok? && !(outcome.value.RequestList? && |outcome.value.items| > 0) ==>
                requests == [] && !isOpen
      ensures outcome.Ok? ==> (Visible() <==> outcome.value.RequestList? && |outcome.value.items| > 0)
      ensures outcome.Err? ==> requests == old(requests) && isOpen == old(isOpen)
      ensures acceptingId == old(acceptingId) && accepts == old(accepts) && reloads == old(reloads)
      ensures alerts == old(alerts)
    {
      fetches := fetches + 1;
      if outcome.Ok? {
        var reply := outcome.value;
        if reply.RequestList? && |reply.items| > 0 {
          requests := reply.items;
          isOpen := true;
        } else {
          requests := [];
          isOpen := false;
        }
      }
      loading := false;
    }

    /** The effect on `user`: requests are fetched only when a user is signed in. */
    method OnUser(user: Option<Auth.User>, outcome: Result<RequestsReply>)
      modifies this
      ensures user.None? ==> requests == old(requests) && isOpen == old(isOpen) && fetches == old(fetches)
                             && loading == old(loading)
      ensures user.Some? ==> fetches == old(fetches) + 1 && !loading
      ensures user.Some? && outcome.Ok? && outcome.value.RequestList? && |outcome.value.items| > 0 ==>
                requests == outcome.value.items && isOpen
      ensures user.Some? && outcome.Ok? && !(outcome.value.RequestList? && |outcome.value.items| > 0) ==>
                requests == [] && !isOpen
      ensures user.Some? && outcome.Ok? ==> (Visible() <==> outcome.value.RequestList? && |outcome.value.items| > 0)
      ensures user.Some? && outcome.Err? ==> requests == old(requests) && isOpen == old(isOpen)
      ensures acceptingId == old(acceptingId) && accepts == old(accepts) && reloads == old(reloads)
      ensures alerts == old(alerts)
    {
      if user.Some? {
        FetchRequests(outcome);
      }
    }

    /** `handleAccept(requestId)`: marks the request as being accepted; success reloads
        the page, failure shows the best message available and clears the mark. */
    method HandleAccept(requestId: string, outcome: AcceptOutcome)
      modifies this
      ensures accepts == old(accepts) + [requestId]
      ensures outcome.Accepted? ==> acceptingId == Some(requestId) && reloads == old(reloads) + 1
                                    && alerts == old(alerts)
      ensures outcome.AcceptFailed? ==>
                && acceptingId == None && reloads == old(reloads)
                && alerts == old(alerts) + [AcceptErrorMessage(outcome.responseError, outcome.message)]
      ensures requests == old(requests) && isOpen == old(isOpen) && fetches == old(fetches)
      ensures loading == old(loading)
    {
      acceptingId := Some(requestId);
      accepts := accepts + [requestId];
      match outcome {
        case Accepted =>
          reloads := reloads + 1;
        case AcceptFailed(responseError, message) =>
          alerts := alerts + [AcceptErrorMessage(responseError, message)];
          acceptingId := None;
      }
    }

    /** The close button: hides the popup and keeps the requests. */
    method Close()
      modifies this
      ensures !isOpen && !Visible()
      ensures requests == old(requests) && acceptingId == old(acceptingId) && fetches == old(fetches)
      ensures accepts == old(accepts) && reloads == old(reloads) && alerts == old(alerts)
      ensures loading == old(loading)
    {
      isOpen := false;
    }
  }
}
