/**
One-use capabilities: a descriptor is issued for one exact request, any number
of dispatchers may present it, and the handler runs at most once.

A dispatcher works in two critical sections under the record lock and runs the
handler between them, outside the lock; it may die at any point.
*/
module Capabilities {
  import opened Outcomes

  datatype ServiceOperation = Finalize | Receipt

  datatype Request = Request(operation: ServiceOperation, run: string, revision: nat, requestId: Option<string>, nonce: nat)

  datatype Descriptor = Descriptor(request: Request, expiresAt: real, timeout: real)

  /** None is the signed rejection. */
  datatype Response = Response(request: Request, result: Option<string>)

  datatype Status = Issued | Consumed | Completed

  datatype Record = Record(descriptor: Descriptor, status: Status, response: Option<Response>)

  /** What a dispatcher holds between the two critical sections. */
  datatype Dispatcher = Idle | Claimed(request: Request) | Handled(request: Request, response: Response)

  datatype Service = Service(
    now: real,
    records: map<nat, Record>,
    dispatchers: map<nat, Dispatcher>,
    handled: seq<Request>,       // every run of the handler
    replies: seq<Response>)      // every response given to a caller

  datatype DispatchError = UnknownCapability | WrongBinding | Expired | Replayed | Died

  // ----- the first critical section -----

  datatype Entry = Refuse(error: DispatchError) | Serve(response: Response) | Claim

  /** What a presented request comes to, in the order of the checks. */
  function Enter(records: map<nat, Record>, now: real, request: Request): Entry {
    if request.nonce !in records then Refuse(UnknownCapability)
    else
      var record := records[request.nonce];
      if record.descriptor.request != request then Refuse(WrongBinding)
      else if record.descriptor.expiresAt <= now then Refuse(Expired)
      else if record.status == Completed && record.response.Some? then Serve(record.response.value)
      else if record.status != Issued then Refuse(Replayed)
      else Claim
  }

  datatype Action =
    | Issue(descriptor: Descriptor)
    | Present(request: Request)                       // the first critical section
    | RunHandler(result: string, inTime: bool)        // the handler answers, possibly too late
    | SkipHandler                                     // the deadline passed, or the handler raised before doing anything
    | RaiseHandler                                    // the handler ran and raised
    | Complete                                        // the second critical section
    | Die
    | Tick(later: real)

  function Doing(s: Service, p: nat): Dispatcher {
    if p in s.dispatchers then s.dispatchers[p] else Idle
  }

  predicate CanAct(s: Service, p: nat, a: Action) {
    var doing := Doing(s, p);
    match a
    case Issue(descriptor) => descriptor.request.nonce !in s.records
    case Present(request) => doing == Idle
    case RunHandler(_, _) => doing.Claimed?
    case SkipHandler => doing.Claimed?
    case RaiseHandler => doing.Claimed?
    case Complete => doing.Handled? && doing.request.nonce in s.records
    case Die => true
    case Tick(later) => s.now <= later
  }

  function Act(s: Service, p: nat, a: Action): Service
    requires CanAct(s, p, a)
  {
    var doing := Doing(s, p);
    match a
    case Issue(descriptor) => s.(records := s.records[descriptor.request.nonce := Record(descriptor, Issued, None)])
    case Present(request) =>
      (match Enter(s.records, s.now, request)
       case Refuse(_) => s
       case Serve(response) => s.(replies := s.replies + [response])
       case Claim =>
         s.(records := s.records[request.nonce := s.records[request.nonce].(status := Consumed, response := None)],
            dispatchers := s.dispatchers[p := Claimed(request)]))
    case RunHandler(result, inTime) =>
      s.(handled := s.handled + [doing.request],
         dispatchers := s.dispatchers[p := Handled(doing.request, Response(doing.request, if inTime then Some(result) else None))])
    case SkipHandler => s.(dispatchers := s.dispatchers[p := Handled(doing.request, Response(doing.request, None))])
    case RaiseHandler =>
      s.(handled := s.handled + [doing.request],
         dispatchers := s.dispatchers[p := Handled(doing.request, Response(doing.request, None))])
    case Complete =>
      s.(records := s.records[doing.request.nonce := s.records[doing.request.nonce].(status := Completed, response := Some(doing.response))],
         dispatchers := s.dispatchers[p := Idle],
         replies := s.replies + [doing.response])
    case Die => s.(dispatchers := s.dispatchers[p := Idle])
    case Tick(later) => s.(now := later)
  }

  // ----- the invariant -----

  predicate Holds(doing: Dispatcher, nonce: nat) {
    !doing.Idle? && doing.request.nonce == nonce
  }

  predicate RecordOk(nonce: nat, record: Record) {
    && record.descriptor.request.nonce == nonce
    && (record.status == Completed <==> record.response.Some?)
    && (record.response.Some? ==> record.response.value.request == record.descriptor.request)
  }

  /** How often the handler has run for a nonce. */
  function Runs(handled: seq<Request>, nonce: nat): nat {
    if handled == [] then 0
    else Runs(handled[..|handled| - 1], nonce) + if handled[|handled| - 1].nonce == nonce then 1 else 0
  }

  /** A dispatcher in between holds a consumed capability, alone, for exactly the issued request. */
  predicate DispatcherOk(s: Service, doing: Dispatcher) {
    doing.Idle? ||
    (&& doing.request.nonce in s.records
     && s.records[doing.request.nonce].status == Consumed
     && s.records[doing.request.nonce].descriptor.request == doing.request
     && (doing.Claimed? ==> Runs(s.handled, doing.request.nonce) == 0)
     && (doing.Handled? ==> doing.response.request == doing.request))
  }

  ghost predicate ServiceInv(s: Service) {
    && (forall nonce <- s.records :: RecordOk(nonce, s.records[nonce]))
    && (forall p <- s.dispatchers :: DispatcherOk(s, s.dispatchers[p]))
    && (forall p, q :: p in s.dispatchers && q in s.dispatchers && p != q && !s.dispatchers[p].Idle? && !s.dispatchers[q].Idle? ==>
          s.dispatchers[p].request.nonce != s.dispatchers[q].request.nonce)
    && (forall nonce :: Runs(s.handled, nonce) <= 1)
    && (forall nonce :: Runs(s.handled, nonce) > 0 ==> nonce in s.records && s.records[nonce].status != Issued)
    && (forall reply <- s.replies ::
          reply.request.nonce in s.records && s.records[reply.request.nonce].response == Some(reply))
  }

  lemma RunsSnoc(handled: seq<Request>, request: Request, nonce: nat)
    ensures Runs(handled + [request], nonce) == Runs(handled, nonce) + if request.nonce == nonce then 1 else 0
  {
    assert (handled + [request])[..|handled|] == handled;
  }

  /** Claiming an issued capability puts it into exactly one pair of hands. */
  lemma ClaimKeeps(s: Service, p: nat, request: Request, next: Service)
    requires ServiceInv(s) && Doing(s, p) == Idle && Enter(s.records, s.now, request) == Claim
    requires next == s.(
      records := s.records[request.nonce := s.records[request.nonce].(status := Consumed, response := None)],
      dispatchers := s.dispatchers[p := Claimed(request)])
    ensures ServiceInv(next)
  {
    forall q | q in next.dispatchers ensures DispatcherOk(next, next.dispatchers[q]) {
      if q != p {
        assert DispatcherOk(s, s.dispatchers[q]);
      }
    }
    forall q | q in s.dispatchers && !s.dispatchers[q].Idle? ensures s.dispatchers[q].request.nonce != request.nonce {
      assert DispatcherOk(s, s.dispatchers[q]);
    }
    assert RecordOk(request.nonce, s.records[request.nonce]);
  }

  /** Between the sections: the handler may have run, at most now, for the request that was claimed. */
  lemma HandlingKeeps(s: Service, p: nat, runs: bool, response: Response, next: Service)
    requires ServiceInv(s) && Doing(s, p).Claimed? && response.request == Doing(s, p).request
    requires next == s.(
      handled := if runs then s.handled + [Doing(s, p).request] else s.handled,
      dispatchers := s.dispatchers[p := Handled(Doing(s, p).request, response)])
    ensures ServiceInv(next)
  {
    var request := Doing(s, p).request;
    assert DispatcherOk(s, Doing(s, p));
    forall nonce ensures Runs(next.handled, nonce) == Runs(s.handled, nonce) + if runs && request.nonce == nonce then 1 else 0 {
      RunsSnoc(s.handled, request, nonce);
    }
    forall q | q in next.dispatchers ensures DispatcherOk(next, next.dispatchers[q]) {
      if q != p {
        assert DispatcherOk(s, s.dispatchers[q]);
      }
    }
  }

  lemma CompleteKeeps(s: Service, p: nat, next: Service)
    requires ServiceInv(s) && CanAct(s, p, Complete) && next == Act(s, p, Complete)
    ensures ServiceInv(next)
  {
    var doing := Doing(s, p);
    assert DispatcherOk(s, doing);
    assert RecordOk(doing.request.nonce, s.records[doing.request.nonce]);
    forall q | q in next.dispatchers ensures DispatcherOk(next, next.dispatchers[q]) {
      if q != p {
        assert DispatcherOk(s, s.dispatchers[q]);
      }
    }
    forall reply | reply in next.replies
      ensures reply.request.nonce in next.records && next.records[reply.request.nonce].response == Some(reply)
    {
      if reply in s.replies {
        assert s.records[reply.request.nonce].response == Some(reply);
      }
    }
  }

  lemma ServeKeeps(s: Service, request: Request, response: Response, next: Service)
    requires ServiceInv(s) && Enter(s.records, s.now, request) == Serve(response)
    requires next == s.(replies := s.replies + [response])
    ensures ServiceInv(next)
  {
    assert RecordOk(request.nonce, s.records[request.nonce]);
    forall q | q in next.dispatchers ensures DispatcherOk(next, next.dispatchers[q]) {
      assert DispatcherOk(s, s.dispatchers[q]);
    }
  }

  lemma LocalKeeps(s: Service, p: nat, a: Action)
    requires ServiceInv(s) && CanAct(s, p, a) && (a.Issue? || a.Die? || a.Tick?)
    ensures ServiceInv(Act(s, p, a))
  {
    var next := Act(s, p, a);
    forall q | q in next.dispatchers ensures DispatcherOk(next, next.dispatchers[q]) {
      if q in s.dispatchers {
        assert DispatcherOk(s, s.dispatchers[q]);
      }
    }
  }

  /** Every action of every dispatcher keeps the invariant. */
  lemma ActKeeps(s: Service, p: nat, a: Action)
    requires ServiceInv(s) && CanAct(s, p, a)
    ensures ServiceInv(Act(s, p, a))
  {
    hide ServiceInv, Enter;
    var next, doing := Act(s, p, a), Doing(s, p);
    match a
    case Present(request) =>
      var entry := Enter(s.records, s.now, request);
      if entry.Claim? {
        ClaimIsKnown(s.records, s.now, request);
        ClaimKeeps(s, p, request, next);
      } else if entry.Serve? {
        ServeKeeps(s, request, entry.response, next);
      }
    case RunHandler(result, inTime) => HandlingKeeps(s, p, true, next.dispatchers[p].response, next);
    case RaiseHandler => HandlingKeeps(s, p, true, next.dispatchers[p].response, next);
    case SkipHandler => HandlingKeeps(s, p, false, next.dispatchers[p].response, next);
    case Complete => CompleteKeeps(s, p, next);
    case _ => LocalKeeps(s, p, a);
  }

  lemma ClaimIsKnown(records: map<nat, Record>, now: real, request: Request)
    requires Enter(records, now, request) == Claim
    ensures request.nonce in records
  {
  }

  // ----- whole histories -----

  ghost predicate IsHistory(services: seq<Service>, acts: seq<(nat, Action)>) {
    && |services| == |acts| + 1
    && services[0] == Service(services[0].now, map[], map[], [], [])
    && forall i :: 0 <= i < |acts| ==> Happens(services, acts, i)
  }

  ghost predicate Happens(services: seq<Service>, acts: seq<(nat, Action)>, i: nat)
    requires i < |acts| && |services| == |acts| + 1
  {
    CanAct(services[i], acts[i].0, acts[i].1) && services[i + 1] == Act(services[i], acts[i].0, acts[i].1)
  }

  lemma {:induction false} HistoriesKeepInv(services: seq<Service>, acts: seq<(nat, Action)>, i: nat)
    requires IsHistory(services, acts) && i < |services|
    ensures ServiceInv(services[i])
  {
    hide CanAct, Act;
    if i > 0 {
      HistoriesKeepInv(services, acts, i - 1);
      assert Happens(services, acts, i - 1);
      hide ServiceInv;
      ActKeeps(services[i - 1], acts[i - 1].0, acts[i - 1].1);
    }
  }

  function Rank(status: Status): nat {
    match status
    case Issued => 0
    case Consumed => 1
    case Completed => 2
  }

  /** A record keeps its descriptor, its status only rises, and a response once stored stays. */
  ghost predicate Rises(s: Service, t: Service) {
    && (forall nonce <- s.records ::
          && nonce in t.records
          && t.records[nonce].descriptor == s.records[nonce].descriptor
          && Rank(s.records[nonce].status) <= Rank(t.records[nonce].status)
          && (s.records[nonce].response.Some? ==> t.records[nonce].response == s.records[nonce].response))
    && s.replies <= t.replies
    && s.handled <= t.handled
    && s.now <= t.now
  }

  lemma ActRises(s: Service, p: nat, a: Action)
    requires ServiceInv(s) && CanAct(s, p, a)
    ensures Rises(s, Act(s, p, a))
  {
    if p in s.dispatchers {
      assert DispatcherOk(s, Doing(s, p));
    }
  }

  lemma {:induction false} HistoriesRise(services: seq<Service>, acts: seq<(nat, Action)>, i: nat, j: nat)
    requires IsHistory(services, acts) && i <= j < |services|
    ensures Rises(services[i], services[j])
    decreases j
  {
    hide CanAct, Act, ServiceInv;
    if i < j {
      HistoriesRise(services, acts, i, j - 1);
      HistoriesKeepInv(services, acts, j - 1);
      assert Happens(services, acts, j - 1);
      ActRises(services[j - 1], acts[j - 1].0, acts[j - 1].1);
    }
  }

  /** For any number of concurrent dispatchers of one nonce, with deaths anywhere, the handler runs at most once. */
  lemma HandlerRunsAtMostOnce(services: seq<Service>, acts: seq<(nat, Action)>, i: nat, nonce: nat)
    requires IsHistory(services, acts) && i < |services|
    ensures Runs(services[i].handled, nonce) <= 1
  {
    HistoriesKeepInv(services, acts, i);
  }

  /** All replies ever given for a nonce are one and the same response, bound to the request it was issued for. */
  lemma RepliesAgree(services: seq<Service>, acts: seq<(nat, Action)>, i: nat, a: Response, b: Response)
    requires IsHistory(services, acts) && i < |services|
    requires a in services[i].replies && b in services[i].replies && a.request.nonce == b.request.nonce
    ensures a == b
    ensures a.request.nonce in services[i].records && services[i].records[a.request.nonce].descriptor.request == a.request
  {
    HistoriesKeepInv(services, acts, i);
    assert RecordOk(a.request.nonce, services[i].records[a.request.nonce]);
  }

  ghost predicate IsAbandoned(s: Service, nonce: nat) {
    && nonce in s.records && s.records[nonce].status == Consumed
    && forall p <- s.dispatchers :: !Holds(s.dispatchers[p], nonce)
  }

  lemma AbandonedStays(s: Service, p: nat, a: Action, nonce: nat)
    requires ServiceInv(s) && CanAct(s, p, a) && IsAbandoned(s, nonce)
    ensures IsAbandoned(Act(s, p, a), nonce)
  {
    if p in s.dispatchers {
      assert DispatcherOk(s, Doing(s, p));
    }
  }

  /** A dispatcher that dies after its claim leaves the capability consumed for good: it is never answered. */
  lemma {:induction false} AbandonedForever(services: seq<Service>, acts: seq<(nat, Action)>, i: nat, j: nat, nonce: nat)
    requires IsHistory(services, acts) && i <= j < |services| && IsAbandoned(services[i], nonce)
    ensures IsAbandoned(services[j], nonce)
    ensures forall reply <- services[j].replies :: reply.request.nonce != nonce
    decreases j
  {
    hide CanAct, Act;
    HistoriesKeepInv(services, acts, j);
    if i < j {
      AbandonedForever(services, acts, i, j - 1, nonce);
      HistoriesKeepInv(services, acts, j - 1);
      assert Happens(services, acts, j - 1);
      hide ServiceInv, IsAbandoned;
      AbandonedStays(services[j - 1], acts[j - 1].0, acts[j - 1].1, nonce);
    }
    HistoriesKeepInv(services, acts, j);
    NoReplyWhileConsumed(services[j], nonce);
  }

  lemma NoReplyWhileConsumed(s: Service, nonce: nat)
    requires ServiceInv(s) && IsAbandoned(s, nonce)
    ensures forall reply <- s.replies :: reply.request.nonce != nonce
  {
    assert RecordOk(nonce, s.records[nonce]);
  }
}
