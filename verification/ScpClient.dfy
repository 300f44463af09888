/** The waiting loop of a client of the system-control processor
    (include/scp_session/scp_session.h). */
module ScpClients {
  import opened Options
  import opened ScpDrivers

  /** How a call reports its end. */
  datatype Callback = ResponseFn(len: nat) | ErrorRequestTooLarge | ErrorResponseTooLarge

  /** An I/O signal dispatched while waiting: one that concerns somebody else, or a response signal,
      after which the server has the given result. */
  datatype Signal = Unrelated | ResponseSignal(result: Result)

  /** The first result that is a response, if the signals bring one. */
  function FirstResponse(signals: seq<Signal>): (r: Option<Result>)
    ensures r.Some? ==> r.value != Unknown
    ensures r.None? <==> forall i :: 0 <= i < |signals| ==> signals[i] == Unrelated || signals[i] == ResponseSignal(Unknown)
  {
    if signals == [] then None
    else if signals[0].ResponseSignal? && signals[0].result != Unknown then Some(signals[0].result)
    else
      assert forall i :: 0 < i < |signals| ==> signals[i] == signals[1..][i - 1];
      FirstResponse(signals[1..])
  }

  function CallbackFor(result: Result): Callback
    requires result != Unknown
  {
    if result.Bytes? then ResponseFn(result.len) else ErrorResponseTooLarge
  }

  class Connection {
    /** Signals that will be dispatched while waiting. */
    var signals: seq<Signal>
    /** Number of response signals so far, modulo 2^32. */
    var responseCount: nat
    var response: Result
    var callbacks: seq<Callback>

    constructor (signals: seq<Signal>)
      ensures this.signals == signals && callbacks == [] && response == Unknown && responseCount == 0
    {
      this.signals, responseCount, response, callbacks := signals, 0, Unknown, [];
    }

    /** `wait_and_dispatch_one_io_signal`. */
    method WaitAndDispatch()
      requires signals != [] && responseCount < 0x1_0000_0000
      modifies this`signals, this`responseCount, this`response
      ensures signals == old(signals)[1..] && responseCount < 0x1_0000_0000
      ensures old(signals)[0] == Unrelated ==> responseCount == old(responseCount) && response == old(response)
      ensures old(signals)[0] != Unrelated ==> responseCount != old(responseCount) && response == old(signals)[0].result
    {
      match signals[0]
      case Unrelated =>
        signals := signals[1..];
      case ResponseSignal(result) =>
        responseCount := NextSeq(responseCount);
        response := result;
        signals := signals[1..];
    }

    /** Block until the counter has changed. */
    method AwaitSignal() returns (woken: bool)
      requires responseCount < 0x1_0000_0000
      modifies this`signals, this`responseCount, this`response
      ensures responseCount < 0x1_0000_0000 && |signals| <= |old(signals)|
      ensures woken ==> |signals| < |old(signals)|
      ensures woken && response != Unknown ==> FirstResponse(old(signals)) == Some(response)
      ensures woken && response == Unknown ==> FirstResponse(old(signals)) == FirstResponse(signals)
      ensures !woken ==> FirstResponse(old(signals)) == None
    {
      var origCount := responseCount;
      while origCount == responseCount && signals != []
        invariant responseCount < 0x1_0000_0000 && |signals| <= |old(signals)|
        invariant origCount != responseCount ==> |signals| < |old(signals)|
        invariant if origCount != responseCount && response != Unknown
                  then FirstResponse(old(signals)) == Some(response)
                  else FirstResponse(old(signals)) == FirstResponse(signals)
        decreases |signals|
      {
        WaitAndDispatch();
      }
      woken := origCount != responseCount;
    }

    /** `_execute` with a program of the given length. It reports its end exactly once, by the first
        signal that brings a response, however many spurious ones precede it; without such a signal
        it waits for ever. */
    method Execute(len: nat)
      requires responseCount < 0x1_0000_0000
      modifies this
      ensures callbacks == old(callbacks)
                + (if len > MAX_REQUEST_LEN then [ErrorRequestTooLarge]
                   else var r := FirstResponse(old(signals)); if r.Some? then [CallbackFor(r.value)] else [])
    {
      if len > MAX_REQUEST_LEN {
        callbacks := callbacks + [ErrorRequestTooLarge];
        return;
      }
      var result := Unknown;
      var waiting := true;
      while result == Unknown && waiting
        invariant responseCount < 0x1_0000_0000
        invariant result == Unknown ==> callbacks == old(callbacks)
        invariant result == Unknown && waiting ==> FirstResponse(old(signals)) == FirstResponse(signals)
        invariant result == Unknown && !waiting ==> FirstResponse(old(signals)) == None
        invariant result != Unknown ==> FirstResponse(old(signals)) == Some(result)
        invariant result != Unknown ==>
                    callbacks == old(callbacks) + if result.Bytes? then [ResponseFn(result.len)] else []
        decreases waiting, |signals|
      {
        waiting := AwaitSignal();
        if waiting {
          result := response;
          if result.Bytes? {
            callbacks := callbacks + [ResponseFn(result.len)];
          }
        }
      }
      if result == TooLarge {
        callbacks := callbacks + [ErrorResponseTooLarge];
      }
    }
  }
}
