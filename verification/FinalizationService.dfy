/** The launcher's service: issuing a capability and dispatching it, one dispatcher among many. */
module FinalizationServices {
  import opened Outcomes
  import opened Capabilities

  class LauncherFinalizationService {
    const pid: nat
    /** Nobody else acts, nothing dies, and every handler answers in time. */
    const calm: bool
    var now: real
    var records: map<nat, Record>
    var dispatchers: map<nat, Dispatcher>
    var handled: seq<Request>
    var replies: seq<Response>
    var ioTimeout: Option<real>

    constructor (pid: nat, calm: bool)
      ensures this.pid == pid && this.calm == calm && ServiceInv(Now()) && Doing(Now(), pid) == Idle && ioTimeout == None
    {
      this.pid, this.calm := pid, calm;
      now, records, dispatchers, handled, replies, ioTimeout := 0.0, map[], map[], [], [], None;
    }

    ghost function Now(): Service
      reads this
    {
      Service(now, records, dispatchers, handled, replies)
    }

    /**
    Any number of actions of other dispatchers. The body takes none, but
    callers know only that the others kept the protocol and left this one alone.
    */
    method Interfere()
      requires ServiceInv(Now())
      modifies this`now, this`records, this`dispatchers, this`handled, this`replies
      ensures ServiceInv(Now()) && Rises(old(Now()), Now())
      ensures Doing(Now(), pid) == old(Doing(Now(), pid))
      ensures calm ==> Now() == old(Now())
    {
    }

    /** Issue a descriptor for one request. The shortest timeout issued so far bounds the service's own waiting. */
    method IssueDescriptor(descriptor: Descriptor) returns (ok: bool)
      requires ServiceInv(Now()) && Doing(Now(), pid) == Idle
      modifies this
      ensures ServiceInv(Now()) && Rises(old(Now()), Now()) && Doing(Now(), pid) == Idle
      ensures ok ==> descriptor.request.nonce !in old(records)
      ensures calm && descriptor.request.nonce !in old(records) ==> ok
      ensures ok ==> descriptor.request.nonce in records && records[descriptor.request.nonce] == Record(descriptor, Issued, None)
      ensures ok ==> ioTimeout.Some? && ioTimeout.value <= descriptor.timeout
      ensures old(ioTimeout).Some? ==> ioTimeout.Some? && ioTimeout.value <= old(ioTimeout).value
    {
      hide ServiceInv;
      Interfere();
      if descriptor.request.nonce in records {
        return false;
      }
      ghost var before := Now();
      records := records[descriptor.request.nonce := Record(descriptor, Issued, None)];
      TakesAction(before, pid, Issue(descriptor), Now());
      ioTimeout := match ioTimeout
        case None => Some(descriptor.timeout)
        case Some(timeout) => Some(if timeout < descriptor.timeout then timeout else descriptor.timeout);
      ok := true;
    }

    /** Issued for exactly this request, unused, and not expired. */
    predicate IsUsable(request: Request)
      reads this
    {
      IsLive(request) && records[request.nonce].status == Issued
    }

    /** Issued for exactly this request and answered, and not expired. */
    predicate IsStored(request: Request)
      reads this
    {
      IsLive(request) && records[request.nonce].status == Completed && records[request.nonce].response.Some?
    }

    predicate IsLive(request: Request)
      reads this
    {
      && request.nonce in records && records[request.nonce].descriptor.request == request
      && now < records[request.nonce].descriptor.expiresAt
    }

    /** Under the lock: refuse, answer again, or claim. */
    method EnterOnce(request: Request) returns (entry: Entry)
      requires ServiceInv(Now()) && Doing(Now(), pid) == Idle
      modifies this`now, this`records, this`dispatchers, this`handled, this`replies
      ensures ServiceInv(Now()) && Rises(old(Now()), Now())
      ensures entry.Claim? ==> Doing(Now(), pid) == Claimed(request)
      ensures !entry.Claim? ==> Doing(Now(), pid) == Idle
      ensures entry.Serve? ==> IsAnswered(request, entry.response)
      ensures entry.Refuse? ==> IsRefusal(request, entry.error)
      ensures request.nonce in old(records) && old(records)[request.nonce].status != Issued ==> !entry.Claim?
      ensures calm && old(IsUsable(request)) ==> entry.Claim? && handled == old(handled)
      ensures calm && old(IsStored(request)) ==> entry == Serve(old(records)[request.nonce].response.value)
    {
      hide ServiceInv;
      Interfere();
      ghost var before := Now();
      entry := Enter(records, now, request);
      if entry.Serve? {
        replies := replies + [entry.response];
        TakesAction(before, pid, Present(request), Now());
        ServedIsBound(before, request, entry.response);
      } else if entry.Claim? {
        ClaimIsKnown(records, now, request);
        records := records[request.nonce := records[request.nonce].(status := Consumed, response := None)];
        dispatchers := dispatchers[pid := Claimed(request)];
        TakesAction(before, pid, Present(request), Now());
      }
    }

    /** Outside the lock: the handler runs, or the deadline has passed; a late or failed run is a rejection. */
    method Handle(request: Request) returns (response: Option<Response>, ghost ran: bool)
      requires ServiceInv(Now()) && Doing(Now(), pid) == Claimed(request)
      modifies this`now, this`records, this`dispatchers, this`handled, this`replies
      ensures ServiceInv(Now()) && Rises(old(Now()), Now())
      ensures response == None ==> Doing(Now(), pid) == Idle
      ensures response.Some? ==> response.value.request == request && Doing(Now(), pid) == Handled(request, response.value)
      ensures Runs(old(handled), request.nonce) == 0
      ensures ran ==> Runs(handled, request.nonce) == 1
      ensures calm ==> ran && response.Some? && response.value.result.Some? && handled == old(handled) + [request]
    {
      hide ServiceInv, Runs;
      ClaimedHasNotRun(Now(), pid);
      Interfere();
      ghost var claimed := Now();
      ClaimedHasNotRun(claimed, pid);
      var dies, skips, raises, late, result := *, *, *, *, *;
      ran := false;
      if dies && !calm {
        Abandon();
        return None, false;
      }
      skips, raises, late := skips && !calm, raises && !calm, late && !calm;
      var answer := Response(request, if skips || raises || late then None else Some(result));
      dispatchers := dispatchers[pid := Handled(request, answer)];
      if !skips {
        handled := handled + [request];
        ran := true;
        RunsSnoc(claimed.handled, request, request.nonce);
      }
      TakesAction(claimed, pid, if skips then SkipHandler else if raises then RaiseHandler else RunHandler(result, !late), Now());
      response := Some(answer);
    }

    /** Under the lock again: store the one response this capability will ever give. */
    method Conclude(request: Request, response: Response) returns (alive: bool)
      requires ServiceInv(Now()) && Doing(Now(), pid) == Handled(request, response) && response.request == request
      modifies this`now, this`records, this`dispatchers, this`handled, this`replies
      ensures ServiceInv(Now()) && Rises(old(Now()), Now()) && Doing(Now(), pid) == Idle
      ensures alive ==> IsAnswered(request, response)
      ensures calm ==> alive && handled == old(handled)
    {
      hide ServiceInv;
      Interfere();
      ghost var answered := Now();
      var dies := *;
      if dies && !calm {
        Abandon();
        return false;
      }
      HolderIsKnown(answered, pid);
      records := records[request.nonce := records[request.nonce].(status := Completed, response := Some(response))];
      dispatchers := dispatchers[pid := Idle];
      replies := replies + [response];
      TakesAction(answered, pid, Complete, Now());
      alive := true;
    }

    predicate IsAnswered(request: Request, response: Response)
      reads this
    {
      && response.request == request && response in replies
      && request.nonce in records && records[request.nonce].response == Some(response)
    }

    /** What each refusal says about the record that was presented to. */
    predicate IsRefusal(request: Request, error: DispatchError)
      reads this
    {
      match error
      case UnknownCapability => request.nonce !in records
      case WrongBinding => request.nonce in records && records[request.nonce].descriptor.request != request
      case Expired => request.nonce in records && records[request.nonce].descriptor.expiresAt <= now
      case Replayed => request.nonce in records && records[request.nonce].status != Issued
      case Died => false
    }

    /**
    Dispatch a request. Whatever is answered is the one stored response for
    exactly this request, and the handler is run here only by the dispatcher
    that claimed the capability. In calm surroundings a usable capability is
    answered by one run of the handler, and an answered one without any.
    */
    method Dispatch(request: Request) returns (r: Result<Response, DispatchError>, ghost ran: bool)
      requires ServiceInv(Now()) && Doing(Now(), pid) == Idle
      modifies this`now, this`records, this`dispatchers, this`handled, this`replies
      ensures ServiceInv(Now()) && Rises(old(Now()), Now()) && Doing(Now(), pid) == Idle
      ensures r.Ok? ==> IsAnswered(request, r.value)
      ensures r.Err? && r.error != Died ==> IsRefusal(request, r.error)
      ensures ran ==> Runs(handled, request.nonce) == 1 && Runs(old(handled), request.nonce) == 0
      ensures request.nonce in old(records) && old(records)[request.nonce].status != Issued ==> !ran
      ensures calm && old(IsUsable(request)) ==> ran && r.Ok? && r.value.result.Some? && handled == old(handled) + [request]
      ensures calm && old(IsStored(request)) ==> r == Ok(old(records)[request.nonce].response.value)
    {
      hide ServiceInv, Runs, IsAnswered, IsRefusal, Rises;
      ghost var first := Now();
      var entry := EnterOnce(request);
      ghost var second := Now();
      match entry {
        case Refuse(error) => return Err(error), false;
        case Serve(response) => return Ok(response), false;
        case Claim =>
      }
      var response;
      response, ran := Handle(request);
      ghost var third := Now();
      RisesOn(first, second, third);
      NotYetRun(first, second, request.nonce);
      if response == None {
        return Err(Died), ran;
      }
      var alive := Conclude(request, response.value);
      RisesOn(first, third, Now());
      RanOnce(third, Now(), request.nonce);
      r := if alive then Ok(response.value) else Err(Died);
    }

    method Abandon()
      requires ServiceInv(Now())
      modifies this`dispatchers
      ensures ServiceInv(Now()) && Rises(old(Now()), Now()) && Doing(Now(), pid) == Idle
    {
      hide ServiceInv;
      ghost var before := Now();
      dispatchers := dispatchers[pid := Idle];
      TakesAction(before, pid, Die, Now());
    }
  }

  lemma RisesOn(a: Service, b: Service, c: Service)
    requires Rises(a, b) && Rises(b, c)
    ensures Rises(a, c)
  {
  }

  lemma NotYetRun(before: Service, after: Service, nonce: nat)
    requires Rises(before, after) && Runs(after.handled, nonce) == 0
    ensures Runs(before.handled, nonce) == 0
  {
    RunsOnlyGrow(before.handled, after.handled, nonce);
  }

  lemma RanOnce(before: Service, after: Service, nonce: nat)
    requires ServiceInv(after) && Rises(before, after)
    ensures Runs(before.handled, nonce) == 1 ==> Runs(after.handled, nonce) == 1
  {
    RunsOnlyGrow(before.handled, after.handled, nonce);
    OnlyRun(after, nonce);
  }

  lemma TakesAction(s: Service, p: nat, a: Action, next: Service)
    requires ServiceInv(s) && CanAct(s, p, a) && next == Act(s, p, a)
    ensures ServiceInv(next) && Rises(s, next)
  {
    hide ServiceInv, CanAct, Act;
    ActKeeps(s, p, a);
    ActRises(s, p, a);
  }

  lemma ServedIsBound(s: Service, request: Request, response: Response)
    requires ServiceInv(s) && Enter(s.records, s.now, request) == Serve(response)
    ensures response.request == request && request.nonce in s.records && s.records[request.nonce].response == Some(response)
  {
    assert RecordOk(request.nonce, s.records[request.nonce]);
  }

  lemma ClaimedHasNotRun(s: Service, p: nat)
    requires ServiceInv(s) && Doing(s, p).Claimed?
    ensures Runs(s.handled, Doing(s, p).request.nonce) == 0
  {
    assert DispatcherOk(s, s.dispatchers[p]);
  }

  lemma HolderIsKnown(s: Service, p: nat)
    requires ServiceInv(s) && Doing(s, p).Handled?
    ensures Doing(s, p).request.nonce in s.records
  {
    assert DispatcherOk(s, s.dispatchers[p]);
  }

  lemma OnlyRun(s: Service, nonce: nat)
    requires ServiceInv(s)
    ensures Runs(s.handled, nonce) <= 1
  {
  }

  lemma {:induction false} RunsOnlyGrow(before: seq<Request>, after: seq<Request>, nonce: nat)
    requires before <= after
    ensures Runs(before, nonce) <= Runs(after, nonce)
    decreases |after|
  {
    if before != after {
      assert before <= after[..|after| - 1];
      RunsOnlyGrow(before, after[..|after| - 1], nonce);
    }
  }
}
