/** The transport object: fields updated in place, each method meeting the state machine of RequestScheduling. */
module RequestTransport {
  import opened Wrappers
  import opened Utils
  import opened RequestScheduling

  class Transport {
    const config: Config
    var requestIds: nat
    var metaConnectRequest: Option<Request>
    var requests: seq<Request>
    var envelopes: seq<Request>
    var expired: set<nat>
    var timers: set<Request>
    var drains: seq<Request>
    ghost var wire: set<Request>
    ghost var submitted: seq<Message>
    ghost var transmitted: seq<Message>
    ghost var metaSubmitted: seq<Message>
    ghost var reports: seq<Report>

    constructor (config: Config)
      ensures this.config == config && View() == INIT
    {
      this.config := config;
      requestIds, metaConnectRequest, requests, envelopes := 0, None, [], [];
      expired, timers, drains, wire := {}, {}, [], {};
      submitted, transmitted, metaSubmitted, reports := [], [], [], [];
    }

    ghost function View(): State
      reads this
    {
      State(requestIds, metaConnectRequest, requests, envelopes, expired, timers, drains, wire,
            submitted, transmitted, metaSubmitted, reports)
    }

    method CoalesceEnvelopes(envelope: Envelope) returns (merged: Envelope)
      modifies this`envelopes
      ensures (merged, envelopes) == Coalesce(envelope, old(envelopes))
    {
      merged := envelope;
      while |envelopes| > 0
        invariant Coalesce(merged, envelopes) == Coalesce(envelope, old(envelopes))
        decreases |envelopes|
      {
        var newEnvelope := envelopes[0].envelope;
        if newEnvelope.url == merged.url && newEnvelope.sync == merged.sync {
          envelopes := envelopes[1..];
          merged := merged.(messages := merged.messages + newEnvelope.messages);
          continue;
        }
        break;
      }
    }

    method SendRequest(request: Request)
      modifies this`wire, this`expired, this`timers, this`transmitted
      ensures View() == TransportSend(old(View()), request)
    {
      wire := wire + {request};
      if !request.metaConnect {
        transmitted := transmitted + request.envelope.messages;
      }
      expired := expired - {request.id};
      if !request.envelope.sync {
        timers := timers + {request};
      }
    }

    method EnqueueOrSend(envelope: Envelope)
      modifies this
      ensures View() == QueueSend(config, old(View()), envelope)
    {
      requestIds := requestIds + 1;
      var request := Request(requestIds, false, envelope);
      if |requests| < config.maxConnections - 1 {
        requests := requests + [request];
        SendRequest(request);
      } else {
        envelopes := envelopes + [request];
      }
    }

    method CompleteRequest(request: Request, success: bool)
      modifies this
      ensures View() == CompleteOrdinary(config, old(View()), request, success)
    {
      var index := InArray(request, requests);
      SpliceRemoves(requests, request, index);
      if index >= 0 {
        requests := requests[..index] + requests[index + 1..];
      }
      if |envelopes| > 0 {
        var next := envelopes[0];
        envelopes := envelopes[1..];
        if success {
          var nextEnvelope := next.envelope;
          if config.autoBatch {
            nextEnvelope := CoalesceEnvelopes(nextEnvelope);
          }
          EnqueueOrSend(nextEnvelope);
        } else {
          drains := drains + [next];
        }
      }
    }

    method MetaConnectComplete(request: Request) returns (r: Result<(), string>)
      requires request.metaConnect
      modifies this`metaConnectRequest
      ensures r == if LongPollMismatch(old(View()), request) then Err("Longpoll request mismatch") else Ok(())
      ensures metaConnectRequest == if r.Ok? then None else old(metaConnectRequest)
    {
      if metaConnectRequest.Some? && metaConnectRequest.value.id != request.id {
        return Err("Longpoll request mismatch");
      }
      metaConnectRequest := None;
      return Ok(());
    }

    method CompleteEither(request: Request, success: bool) returns (r: Result<(), string>)
      modifies this
      ensures match Complete(config, old(View()), request, success)
              case Ok(s) => r.Ok? && View() == s
              case Err(x) => r == Err(x) && View() == old(View())
    {
      if request.metaConnect {
        r := MetaConnectComplete(request);
      } else {
        CompleteRequest(request, success);
        r := Ok(());
      }
    }

    /** transportSuccess with a reply or an empty one, or transportFailure: late reports are dropped. */
    method OnWireReport(request: Request, kind: Kind) returns (r: Result<(), string>)
      modifies this
      ensures match WireReports(config, old(View()), request, kind)
              case Ok(s) => r.Ok? && View() == s
              case Err(x) => r == Err(x) && View() == Thrown(old(View()), Wire(request, kind))
    {
      r := Ok(());
      wire := wire - {request};
      if request.id !in expired {
        timers := timers - {request};
        r := CompleteEither(request, kind != Failed);
        if r.Ok? {
          reports := reports + [Report(request, kind)];
        }
      }
    }

    method OnTimer(request: Request) returns (r: Result<(), string>)
      modifies this
      ensures match TimerFires(config, old(View()), request)
              case Ok(s) => r.Ok? && View() == s
              case Err(x) => r == Err(x) && View() == Thrown(old(View()), Timer(request))
    {
      expired := expired + {request.id};
      timers := timers - {request};
      r := CompleteEither(request, false);
      if r.Ok? {
        reports := reports + [Report(request, TimedOut)];
      }
    }

    method OnDrain(request: Request) returns (r: Result<(), string>)
      modifies this
      ensures match DrainFires(config, old(View()), request)
              case Ok(s) => r.Ok? && View() == s
              case Err(x) => r == Err(x) && View() == Thrown(old(View()), Drain(request))
    {
      drains := Remove(drains, request);
      r := CompleteEither(request, false);
      if r.Ok? {
        reports := reports + [Report(request, PreviousFailed)];
      }
    }

    method SendLongPoll(envelope: Envelope) returns (r: Result<(), string>)
      modifies this
      ensures match MetaConnectSend(old(View()), envelope)
              case Ok(s) => r.Ok? && View() == s
              case Err(x) => r == Err(x) && View() == old(View())
    {
      if metaConnectRequest.Some? {
        return Err("Concurrent metaConnect requests not allowed");
      }
      metaSubmitted := metaSubmitted + envelope.messages;
      requestIds := requestIds + 1;
      var request := Request(requestIds, true, envelope);
      SendRequest(request);
      metaConnectRequest := Some(request);
      return Ok(());
    }

    method SendEnvelope(envelope: Envelope, metaConnect: bool) returns (r: Result<(), string>)
      modifies this
      ensures var e := if metaConnect then SubmitMetaConnect(envelope) else Submit(envelope);
              && View() == After(config, old(View()), e)
              && (r.Ok? <==> Step(config, old(View()), e).Ok?)
    {
      if metaConnect {
        r := SendLongPoll(envelope);
      } else {
        submitted := submitted + envelope.messages;
        EnqueueOrSend(envelope);
        r := Ok(());
      }
    }
  }
}
