/** Handler recycling on the server: `Method_listener`. */
module MethodListener {
  import opened GrpcCall

  // The handlers 0, 1, ..., n - 1, in order.
  function FirstHandlers(n: nat): seq<nat> { seq(n, i => i) }

  // A request to core for the next call: the handler it fills in, and whether with the payload.
  datatype Request = Request(handler: nat, withPayload: bool)

  // One request for each of them.
  function FirstRequests(n: nat, withPayload: bool): seq<Request> {
    seq(n, i requires 0 <= i < n => Request(i, withPayload))
  }

  // How many calls arrive before the listener is told that the server shuts down.
  function Calls(events: seq<bool>): nat
    decreases |events|
  {
    if events == [] || !events[0] then 0 else 1 + Calls(events[1..])
  }

  predicate ShutsDown(events: seq<bool>) { false in events }

  class Listener {
    const immediatePayload: bool
    var pendingCall: Option<nat>
    var created: nat          // handlers created so far; they are numbered in order
    var requests: seq<Request>
    var performed: seq<nat>     // handlers given a call, which then own themselves
    var destroyed: seq<nat>     // handlers deleted by the listener

    ghost predicate Listening()
      reads this
    {
      && created == |performed| + 1 && pendingCall == Some(|performed|)
      && performed == FirstHandlers(|performed|) && destroyed == []
      && requests == FirstRequests(created, immediatePayload)
    }

    constructor (immediatePayload: bool)
      ensures pendingCall == None && created == 0 && requests == [] && performed == [] && destroyed == []
      ensures this.immediatePayload == immediatePayload
    {
      this.immediatePayload := immediatePayload;
      pendingCall, created, requests, performed, destroyed := None, 0, [], [], [];
    }

    method Inject()
      requires pendingCall == None
      modifies this`pendingCall, this`created, this`requests
      ensures pendingCall == Some(old(created)) && created == old(created) + 1
      ensures requests == old(requests) + [Request(old(created), immediatePayload)]
    {
      pendingCall := Some(created);
      created := created + 1;
      if immediatePayload {
        requests := requests + [Request(pendingCall.value, true)];
      } else {
        requests := requests + [Request(pendingCall.value, false)];
      }
    }

    method Execute(success: bool) returns (kill: bool)
      requires pendingCall.Some?
      modifies this
      ensures kill <==> !success
      ensures success ==>
                && performed == old(performed) + [old(pendingCall).value]
                && pendingCall == Some(old(created)) && created == old(created) + 1
                && requests == old(requests) + [Request(old(created), immediatePayload)]
                && destroyed == old(destroyed)
      ensures !success ==> unchanged(this)
    {
      if success {
        performed := performed + [pendingCall.value];
        pendingCall := None;
        Inject();
        return false;
      }
      return true;
    }

    // The destructor.
    method Destroy()
      modifies this`destroyed
      ensures destroyed == old(destroyed) + if pendingCall.Some? then [pendingCall.value] else []
    {
      if pendingCall.Some? {
        destroyed := destroyed + [pendingCall.value];
      }
    }

    /** A listener under a worker, from its first `inject` on: while it lives it has created one
        handler more than it has performed, and requested one call for each; each handler is
        performed at most once, in order; at shutdown the one that was not is destroyed, and no
        other. */
    method Serve(events: seq<bool>)
      requires pendingCall == None && created == 0 && requests == [] && performed == [] && destroyed == []
      modifies this
      ensures performed == FirstHandlers(Calls(events)) && created == Calls(events) + 1
      ensures requests == FirstRequests(Calls(events) + 1, immediatePayload)
      ensures destroyed == if ShutsDown(events) then [Calls(events)] else []
    {
      Inject();
      for i := 0 to |events|
        invariant Listening() && |performed| == i
        invariant Calls(events) == i + Calls(events[i..])
        invariant ShutsDown(events) <==> ShutsDown(events[i..])
      {
        assert events[i..][1..] == events[i + 1..];
        var kill := Execute(events[i]);
        if kill {
          assert events[i..][0] == false;
          Destroy();
          return;
        }
        assert FirstHandlers(i) + [i] == FirstHandlers(i + 1);
        ghost var p := immediatePayload;
        assert FirstRequests(i + 1, p) + [Request(i + 1, p)] == FirstRequests(i + 2, p);
      }
    }
  }
}
