// The response interceptor as it is written: module variables reassigned by callbacks.
// Every handler is proved to perform one step of the protocol in RefreshClient.
module ApiClient {
  import opened Common
  import opened RefreshClient

  class Client {
    // Module variables of the interceptor.
    var refreshing: bool
    var refreshQueue: seq<RequestId>
    var accessToken: Option<AccessToken>
    var retry: set<RequestId>

    // The network and the promises handed to the application.
    var issued: set<RequestId>
    var inFlight: set<RequestId>
    var awaiting: set<RequestId>
    var settled: set<RequestId>
    var sends: seq<Send>
    var refreshCalls: nat

    ghost function View(): RefreshClient.Client
      reads this
    {
      RefreshClient.Client(refreshing, refreshQueue, accessToken, retry, issued, inFlight, awaiting, settled,
                           sends, refreshCalls)
    }

    constructor ()
      ensures View() == Start
    {
      refreshing, refreshQueue, accessToken, retry := false, [], None, {};
      issued, inFlight, awaiting, settled, sends, refreshCalls := {}, {}, {}, {}, [], 0;
    }

    // Sending a request: the request interceptor attaches the token held in memory, and
    // leaves the header as it is when there is none.
    method Dispatch(r: RequestId, header: Option<AccessToken>)
      modifies this`inFlight, this`sends
      ensures inFlight == old(inFlight) + {r}
      ensures sends == old(sends) + [Send(r, if accessToken.Some? then accessToken else header)]
    {
      var bearer := header;
      if accessToken.Some? {
        bearer := accessToken;
      }
      inFlight := inFlight + {r};
      sends := sends + [Send(r, bearer)];
    }

    method Request(r: RequestId)
      requires Enabled(View(), Event.Issue(r))
      modifies this
      ensures View() == Step(old(View()), Event.Issue(r))
    {
      issued := issued + {r};
      Dispatch(r, None);
    }

    method SetToken(t: Option<AccessToken>)
      modifies this`accessToken
      ensures View() == Step(old(View()), Event.StoreToken(t)) && accessToken == t
    {
      accessToken := t;
    }

    method OnAnswer(r: RequestId)
      requires Enabled(View(), Event.Answered(r))
      modifies this
      ensures View() == Step(old(View()), Event.Answered(r))
    {
      inFlight := inFlight - {r};
      settled := settled + {r};
    }

    // The error branch of the interceptor up to its first await.
    method OnUnauthorized(r: RequestId)
      requires Enabled(View(), Event.Unauthorized(r))
      modifies this
      ensures View() == Step(old(View()), Event.Unauthorized(r))
      ensures r !in old(retry) && old(refreshing) ==> refreshQueue == old(refreshQueue) + [r] && refreshCalls == old(refreshCalls)
      ensures r !in old(retry) && !old(refreshing) ==> refreshing && refreshCalls == old(refreshCalls) + 1
      ensures r in old(retry) ==> settled == old(settled) + {r} && refreshCalls == old(refreshCalls)
    {
      inFlight := inFlight - {r};
      if r !in retry {
        if refreshing {
          refreshQueue := refreshQueue + [r];
          return;
        }
        retry := retry + {r};
        refreshing := true;
        awaiting := awaiting + {r};
        refreshCalls := refreshCalls + 1;
        return;
      }
      settled := settled + {r};
    }

    // Running the waiting callbacks in order.
    method ResendQueue(t: AccessToken)
      requires accessToken == Some(t)
      modifies this`inFlight, this`sends
      ensures inFlight == old(inFlight) + Elements(refreshQueue)
      ensures sends == old(sends) + Resends(refreshQueue, t)
    {
      var i := 0;
      while i < |refreshQueue|
        invariant 0 <= i <= |refreshQueue|
        invariant inFlight == old(inFlight) + Elements(refreshQueue[..i])
        invariant sends == old(sends) + Resends(refreshQueue[..i], t)
      {
        Dispatch(refreshQueue[i], Some(t));
        assert refreshQueue[..i + 1] == refreshQueue[..i] + [refreshQueue[i]];
        AppendFresh(refreshQueue[..i], refreshQueue[i]);
        assert Resends(refreshQueue[..i + 1], t) == Resends(refreshQueue[..i], t) + [Send(refreshQueue[i], Some(t))];
        i := i + 1;
      }
      assert refreshQueue[..i] == refreshQueue;
    }

    // The refresh call returned a token: store it, run every waiting callback, empty the
    // queue, resend the request that refreshed, and clear the flag.
    method OnRefreshSucceeded(o: RequestId, t: AccessToken)
      requires Enabled(View(), Event.RefreshSucceeded(o, t))
      modifies this
      ensures View() == Step(old(View()), Event.RefreshSucceeded(o, t))
      ensures accessToken == Some(t) && refreshQueue == [] && !refreshing
    {
      awaiting := awaiting - {o};
      accessToken := Some(t);
      ResendQueue(t);
      refreshQueue := [];
      Dispatch(o, Some(t));
      refreshing := false;
    }

    method OnRefreshFailed(o: RequestId)
      requires Enabled(View(), Event.RefreshFailed(o))
      modifies this
      ensures View() == Step(old(View()), Event.RefreshFailed(o))
      ensures accessToken == None && refreshQueue == old(refreshQueue) && !refreshing
    {
      awaiting := awaiting - {o};
      accessToken := None;
      settled := settled + {o};
      refreshing := false;
    }
  }
}
