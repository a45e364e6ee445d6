/** One public call, how it ends, and what its end says about delivery. */
module Requests {
  import opened Common

  type CallId = nat

  /** Position in the reactor's single causal sequence. */
  type Stamp = nat

  datatype Delivery = NotSent | PossiblySent

  datatype TransportFailure = Refused | Reset | Security | TimedOut | Other

  datatype CloseReason =
    | Drained
    | Requested
    | OpenFailed(open: TransportFailure)
    | TransportLost(lost: TransportFailure)
    | NegotiationFailed
    | AuthenticationFailed(permanent: bool)
    | CloseCorrelationMismatch(expected: int, received: int)
    | UnexpectedResponse
    | MalformedResponse

  datatype CallFailure =
    | NotReady
    | Draining
    | Closed
    | CapacityReached
    | CorrelationSpaceExhausted
    | DeadlineExceeded
    | LocallyRejected
    | ConnectionClosed(reason: CloseReason)
    | CorrelationMismatch(expected: int, received: int)

  datatype RequestError =
    | Rejected(failure: CallFailure, delivery: Delivery)
    | Decode
    | ResponseConnectionClosed
    | Encode
    | UnsupportedVersion
    | ApiUnavailable
    | VersionLimitUnavailable
    | VersionFloorUnavailable
    | VersionBoundsInvalid
    | ResponseCapacityReached(limit: nat)
    | IdentityConflict
    | DeadlineOverflow
    | RouteUnavailable
    | RouteCapacityReached(callLimit: nat, byteLimit: nat)
    | MetadataQueryCapacityReached
    | CoordinatorCapacityReached
    | NameResolutionCapacityReached
    | NameResolutionFailed

  /** Whether the broker may have received a request that ended this way. */
  function DeliveryOf(error: RequestError): Delivery {
    match error
    case Rejected(_, delivery) => delivery
    case Decode => PossiblySent
    case ResponseConnectionClosed => PossiblySent
    case _ => NotSent
  }

  datatype Outcome = Reply | Failed(error: RequestError)

  /** One call completed: what its caller sees and the stamp it was observed at, if any. */
  datatype Settlement = Settlement(call: CallId, outcome: Outcome, observed: Option<Stamp>)

  function Fail(call: CallId, error: RequestError, observed: Option<Stamp>): Settlement {
    Settlement(call, Failed(error), observed)
  }

  const EXPIRED := Rejected(DeadlineExceeded, NotSent)

  /** An admitted call before transmission; `absolute` is fixed by its first wait. */
  datatype Request = Request(call: CallId, budget: nat, absolute: Option<Moment>, bytes: nat, rejects: bool)

  /** The deadline a wait started at `now` runs to; none when the clock cannot represent it. */
  function Establish(r: Request, now: Moment): Option<Moment> {
    if r.absolute.Some? then r.absolute else CheckedAdd(now, r.budget)
  }

  /** The first wait fixes the deadline, and no later owner moves it. */
  lemma DeadlineFixed(r: Request, now: Moment, later: Moment)
    ensures r.absolute.None? ==>
      Establish(r, now) == if now + r.budget <= U64_MAX then Some(now + r.budget) else None
    ensures r.absolute.Some? ==> Establish(r, now) == r.absolute
    ensures Establish(r, now).Some? ==> Establish(r.(absolute := Establish(r, now)), later) == Establish(r, now)
  {
  }

  function Calls(settled: seq<Settlement>): (calls: seq<CallId>)
    ensures |calls| == |settled|
    ensures forall i :: 0 <= i < |settled| ==> calls[i] == settled[i].call
  {
    seq(|settled|, i requires 0 <= i < |settled| => settled[i].call)
  }

  /** Why a waiting place is refused to a call charged `bytes`; none when the call is retained. */
  function Refusal(r: Request, bytes: nat, now: Moment, len: nat, retained: nat, callLimit: nat, byteLimit: nat): Option<RequestError> {
    var deadline := Establish(r, now);
    if deadline.None? then Some(DeadlineOverflow)
    else if deadline.value <= now then Some(EXPIRED)
    else
      var total := CheckedAdd(retained, bytes);
      if total.None? || len == callLimit || total.value > byteLimit
      then Some(RouteCapacityReached(callLimit, byteLimit))
      else None
  }

  /** The completions of waiting calls that all end with one error, in order. */
  function FailedWith<A>(callOf: A -> CallId, items: seq<A>, error: RequestError, observed: Option<Stamp>): (r: seq<Settlement>)
    ensures |r| == |items| && forall i :: 0 <= i < |items| ==> r[i] == Fail(callOf(items[i]), error, observed)
  {
    seq(|items|, i requires 0 <= i < |items| => Fail(callOf(items[i]), error, observed))
  }

  lemma FailedWithSnoc<A>(callOf: A -> CallId, items: seq<A>, e: A, error: RequestError, observed: Option<Stamp>)
    ensures FailedWith(callOf, items + [e], error, observed)
         == FailedWith(callOf, items, error, observed) + FailedWith(callOf, [e], error, observed)
  {
  }
}
