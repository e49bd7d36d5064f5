/**
 * The single-worker queued dispatcher (C2DMQueuedService), with its worker
 * loop taken one iteration at a time.
 */
module QueuedService {
  import opened Wrappers
  import opened Notification
  import opened AbstractService

  /**
   * The wrapped service (a synchronous or a pooled service), observed
   * through the calls it receives: how often it was started and stopped,
   * and every entry handed to its push, whether that push returned
   * normally or threw. Which pushes throw is a parameter: the transport's
   * verdict on an entry (`failing`), and every push once the service was
   * stopped, since stop shuts down its client or executor for good and
   * the inherited start does not revive it.
   */
  class Strategy {
    const base: ServiceBase
    const failing: set<Pending>
    var startCalls: nat
    var stopCalls: nat
    var received: seq<Pending>

    constructor (base: ServiceBase, failing: set<Pending>)
      ensures this.base == base && this.failing == failing
      ensures startCalls == 0 && stopCalls == 0 && received == []
    {
      this.base := base;
      this.failing := failing;
      startCalls, stopCalls, received := 0, 0, [];
    }

    /** True when pushing every one of `entries` now would return normally. */
    predicate Accepts(entries: seq<Pending>)
      reads this
    {
      stopCalls == 0 && forall i :: 0 <= i < |entries| ==> entries[i] !in failing
    }

    /** The inherited start, which does nothing but is observed being called. */
    method Start()
      modifies this
      ensures startCalls == old(startCalls) + 1
      ensures stopCalls == old(stopCalls) && received == old(received)
    {
      startCalls := startCalls + 1;
    }

    method Stop()
      modifies this
      ensures stopCalls == old(stopCalls) + 1
      ensures startCalls == old(startCalls) && received == old(received)
    {
      stopCalls := stopCalls + 1;
    }

    /** The protected push; `ok` is false when it throws. */
    method Push(entry: Pending) returns (ok: bool)
      modifies this
      ensures received == old(received) + [entry]
      ensures ok <==> Accepts([entry])
      ensures startCalls == old(startCalls) && stopCalls == old(stopCalls)
    {
      received := received + [entry];
      ok := stopCalls == 0 && entry !in failing;
      assert [entry][0] == entry;
    }
  }

  /** What the worker does on one iteration of its loop. */
  datatype StepResult =
    | Idle                      // no worker is running its loop
    | Blocked                   // the queue was empty: take() waits
    | Forwarded(entry: Pending) // the head was taken and pushed
    | Died(entry: Pending)      // the head was taken, its push threw, the worker ended

  /** The exception stop throws when no worker thread was ever created. */
  datatype StopError = NoWorkerThread

  class C2DMQueuedService {
    const base: ServiceBase
    const service: Strategy
    var started: bool
    var shouldContinue: bool
    /** Whether `thread` is non-null, i.e. start has run its body once. */
    var hasThread: bool
    /** Whether the worker thread is still inside its loop. */
    var workerAlive: bool
    var queue: seq<Pending>
    /** Every entry push accepted, in acceptance order. */
    ghost var accepted: seq<Pending>
    /** Every entry the worker took and handed to the wrapped service, in order. */
    ghost var forwarded: seq<Pending>

    /**
     * FIFO: what was forwarded followed by what is still queued is exactly
     * what was accepted. The two flags move together, a running worker
     * belongs to a started service, and a started service has a thread.
     */
    ghost predicate Valid()
      reads this
    {
      && forwarded + queue == accepted
      && shouldContinue == started
      && (workerAlive ==> started)
      && (started ==> hasThread)
    }

    constructor (service: Strategy, base: ServiceBase)
      ensures Valid()
      ensures this.service == service && this.base == base
      ensures !started && !shouldContinue && !hasThread && !workerAlive
      ensures queue == [] && accepted == [] && forwarded == []
    {
      this.service := service;
      this.base := base;
      started, shouldContinue, hasThread, workerAlive := false, false, false, false;
      queue, accepted, forwarded := [], [], [];
    }

    /**
     * The protected push: accepted while started (even when the worker has
     * died), then queued at the tail.
     */
    method Push(entry: Pending) returns (r: Outcome<PushError>)
      requires Valid()
      modifies this
      ensures Valid()
      ensures r.Fail? <==> !old(started)
      ensures r.Fail? ==> r.error == NotStarted
      ensures queue == if old(started) then old(queue) + [entry] else old(queue)
      ensures accepted == if old(started) then old(accepted) + [entry] else old(accepted)
      ensures forwarded == old(forwarded)
      ensures started == old(started) && shouldContinue == old(shouldContinue)
      ensures hasThread == old(hasThread) && workerAlive == old(workerAlive)
    {
      if !started {
        return Fail(NotStarted);
      }
      queue := queue + [entry];
      accepted := accepted + [entry];
      r := Pass;
    }

    /** The public push(registrationId, message), inherited from the base class. */
    method PushMessage(registrationId: string, message: C2DMNotification) returns (r: Outcome<PushError>)
      requires Valid()
      modifies this
      ensures Valid()
      ensures r.Fail? <==> !old(started)
      ensures queue == if old(started) then old(queue) + [AbstractService.Forwarded(base, registrationId, message)]
                       else old(queue)
      ensures accepted == if old(started) then old(accepted) + [AbstractService.Forwarded(base, registrationId, message)]
                          else old(accepted)
      ensures forwarded == old(forwarded)
      ensures started == old(started) && shouldContinue == old(shouldContinue)
      ensures hasThread == old(hasThread) && workerAlive == old(workerAlive)
    {
      r := Push(AbstractService.Forwarded(base, registrationId, message));
    }

    /**
     * start: a check-and-set on `started`. The first call starts the wrapped
     * service once, raises `shouldContinue` and launches a worker; a call
     * while started does nothing at all, even when the worker has died.
     */
    method Start()
      requires Valid()
      modifies this, service
      ensures Valid()
      ensures started && shouldContinue && hasThread
      ensures workerAlive == (old(workerAlive) || !old(started))
      ensures service.startCalls == old(service.startCalls) + (if old(started) then 0 else 1)
      ensures service.stopCalls == old(service.stopCalls) && service.received == old(service.received)
      ensures queue == old(queue) && accepted == old(accepted) && forwarded == old(forwarded)
    {
      if started {
        return;
      }
      started := true;
      service.Start();
      shouldContinue := true;
      hasThread := true;
      workerAlive := true;
    }

    /**
     * stop: clears both flags first, so the interrupted worker leaves its
     * loop, then stops the wrapped service. Without a thread (stop before
     * any start) the interrupt throws, so the wrapped service is not
     * stopped. The queue is left as it is.
     */
    method Stop() returns (r: Outcome<StopError>)
      requires Valid()
      modifies this, service
      ensures Valid()
      ensures !started && !shouldContinue && !workerAlive && hasThread == old(hasThread)
      ensures r.Fail? <==> !old(hasThread)
      ensures service.stopCalls == old(service.stopCalls) + (if old(hasThread) then 1 else 0)
      ensures service.startCalls == old(service.startCalls) && service.received == old(service.received)
      ensures queue == old(queue) && accepted == old(accepted) && forwarded == old(forwarded)
    {
      started := false;
      shouldContinue := false;
      workerAlive := false;
      if !hasThread {
        return Fail(NoWorkerThread);
      }
      service.Stop();
      r := Pass;
    }

    /**
     * One iteration of the worker loop: nothing when no worker runs; wait on
     * an empty queue; otherwise take the head and push exactly it. Only an
     * interrupt is caught in the loop, so a push that throws ends the worker
     * with the head already taken.
     */
    method WorkerStep() returns (step: StepResult)
      requires Valid()
      modifies this, service
      ensures Valid()
      ensures step.Idle? <==> !old(workerAlive)
      ensures step.Blocked? <==> old(workerAlive) && old(queue) == []
      ensures step.Died? <==> old(workerAlive) && old(queue) != [] && !old(service.Accepts([queue[0]]))
      ensures (step.Forwarded? || step.Died?) ==>
        (&& step.entry == old(queue)[0]
         && queue == old(queue)[1..]
         && forwarded == old(forwarded) + [step.entry]
         && service.received == old(service.received) + [step.entry])
      ensures (step.Idle? || step.Blocked?) ==>
        (queue == old(queue) && forwarded == old(forwarded) && service.received == old(service.received))
      ensures workerAlive == (old(workerAlive) && !step.Died?)
      ensures accepted == old(accepted)
      ensures started == old(started) && shouldContinue == old(shouldContinue) && hasThread == old(hasThread)
      ensures service.startCalls == old(service.startCalls) && service.stopCalls == old(service.stopCalls)
    {
      if !workerAlive || !shouldContinue {
        return Idle;
      }
      if queue == [] {
        return Blocked;
      }
      var entry := queue[0];
      queue := queue[1..];
      forwarded := forwarded + [entry];
      var ok := service.Push(entry);
      if ok {
        step := Forwarded(entry);
      } else {
        workerAlive := false;
        step := Died(entry);
      }
    }

    /**
     * The worker running until it would block, dies or is not running: it
     * hands on a prefix of the queue in queue order. When no push throws on
     * the way it empties the queue and survives; otherwise it stops right
     * after the first entry whose push throws, every entry before that one
     * having been accepted. While started, a dead worker leaves the rest of
     * the queue in place for good.
     */
    method Drain()
      requires Valid()
      modifies this, service
      ensures Valid()
      ensures service.received + queue == old(service.received) + old(queue)
      ensures |queue| <= |old(queue)|
      ensures !old(workerAlive) ==> queue == old(queue) && !workerAlive
      ensures workerAlive ==> queue == []
      ensures old(workerAlive) && old(service.Accepts(queue)) ==> workerAlive
      ensures workerAlive ==> old(workerAlive)
      ensures workerAlive ==> forall i :: 0 <= i < |old(queue)| ==> service.Accepts([old(queue)[i]])
      ensures old(workerAlive) && !workerAlive ==>
        (var taken := |old(queue)| - |queue|;
         && 0 < taken
         && !service.Accepts([old(queue)[taken - 1]])
         && forall i :: 0 <= i < taken - 1 ==> service.Accepts([old(queue)[i]]))
      ensures accepted == old(accepted)
      ensures started == old(started) && shouldContinue == old(shouldContinue) && hasThread == old(hasThread)
      ensures service.startCalls == old(service.startCalls) && service.stopCalls == old(service.stopCalls)
    {
      while workerAlive && queue != []
        invariant Valid()
        invariant accepted == old(accepted)
        invariant started == old(started) && shouldContinue == old(shouldContinue) && hasThread == old(hasThread)
        invariant service.received + queue == old(service.received) + old(queue)
        invariant |queue| <= |old(queue)| && queue == old(queue)[|old(queue)| - |queue|..]
        invariant !old(workerAlive) ==> queue == old(queue) && !workerAlive
        invariant workerAlive ==> old(workerAlive)
        invariant old(workerAlive) && old(service.Accepts(queue)) ==> workerAlive
        invariant workerAlive ==> forall i :: 0 <= i < |old(queue)| - |queue| ==> service.Accepts([old(queue)[i]])
        invariant old(workerAlive) && !workerAlive ==>
          (var taken := |old(queue)| - |queue|;
           && 0 < taken
           && !service.Accepts([old(queue)[taken - 1]])
           && forall i :: 0 <= i < taken - 1 ==> service.Accepts([old(queue)[i]]))
        invariant service.startCalls == old(service.startCalls) && service.stopCalls == old(service.stopCalls)
        decreases |queue|
      {
        ghost var before := queue;
        var step := WorkerStep();
        assert before == [step.entry] + queue;
        assert queue == before[1..];
      }
    }
  }

  /**
   * FIFO for any number of pushes: start a queued service over a wrapped
   * service whose pushes all return, push every entry, let the worker run;
   * the wrapped service receives exactly the pushed entries in push order
   * and the worker is still running.
   */
  method PushThenDrain(entries: seq<Pending>) returns (delivered: seq<Pending>, alive: bool)
    ensures delivered == entries && alive
  {
    var inner := new Strategy(ServiceBase("", ""), {});
    var q := new C2DMQueuedService(inner, ServiceBase("", ""));
    q.Start();
    var i := 0;
    while i < |entries|
      invariant 0 <= i <= |entries|
      invariant q.Valid() && q.started && q.workerAlive
      invariant q.queue == entries[..i] && inner.received == [] && inner.stopCalls == 0
    {
      var r := q.Push(entries[i]);
      assert entries[..i + 1] == entries[..i] + [entries[i]];
      i := i + 1;
    }
    assert entries[..i] == entries;
    assert inner.Accepts(q.queue);
    q.Drain();
    assert inner.received + q.queue == inner.received;
    delivered, alive := inner.received, q.workerAlive;
  }

  /**
   * A push that throws ends the worker for good: the failing entry was
   * taken, the next one stays queued, `started` stays true so push keeps
   * accepting, and nothing is forwarded any more.
   */
  method WorkerDiesOnFailedPush(bad: Pending, good: Pending, later: Pending)
    returns (delivered: seq<Pending>, laterAccepted: bool, left: seq<Pending>, step: StepResult)
    ensures delivered == [bad]
    ensures laterAccepted && left == [good, later] && step == Idle
  {
    var inner := new Strategy(ServiceBase("", ""), {bad});
    var q := new C2DMQueuedService(inner, ServiceBase("", ""));
    q.Start();
    var r1 := q.Push(bad);
    var r2 := q.Push(good);
    var first := q.WorkerStep();
    var r3 := q.Push(later);
    step := q.WorkerStep();
    q.Drain();
    delivered, laterAccepted, left := inner.received, r3.Pass?, q.queue;
  }

  /**
   * Lifecycle guards: push before start is rejected and never reaches the
   * wrapped service; after stop, push is rejected again, no worker runs,
   * and the entries still queued stay in the queue, not forwarded.
   */
  method PushOutsideLifecycle(early: Pending, pending: Pending, late: Pending)
    returns (rejectedBefore: bool, rejectedAfter: bool, left: seq<Pending>, delivered: seq<Pending>)
    ensures rejectedBefore && rejectedAfter
    ensures left == [pending] && delivered == []
  {
    var inner := new Strategy(ServiceBase("", ""), {});
    var q := new C2DMQueuedService(inner, ServiceBase("", ""));
    var r1 := q.Push(early);
    q.Start();
    var r2 := q.Push(pending);
    var s := q.Stop();
    var r3 := q.Push(late);
    var step := q.WorkerStep();
    rejectedBefore, rejectedAfter := r1.Fail?, r3.Fail?;
    left, delivered := q.queue, inner.received;
  }

  /**
   * No terminal state: a stopped service starts again and the wrapped
   * service's start is called a second time, but that start does nothing,
   * so the entry left queued at stop is handed to a stopped service, whose
   * push throws and ends the new worker.
   */
  method RestartAfterStop(pending: Pending) returns (startCalls: nat, delivered: seq<Pending>, alive: bool)
    ensures startCalls == 2
    ensures delivered == [pending]
    ensures !alive
  {
    var inner := new Strategy(ServiceBase("", ""), {});
    var q := new C2DMQueuedService(inner, ServiceBase("", ""));
    q.Start();
    q.Start();
    var r := q.Push(pending);
    var s := q.Stop();
    q.Start();
    var step := q.WorkerStep();
    startCalls, delivered, alive := inner.startCalls, inner.received, q.workerAlive;
  }

  /** stop before any start throws and leaves the wrapped service unstopped. */
  method StopBeforeStart() returns (failed: bool, stopCalls: nat)
    ensures failed && stopCalls == 0
  {
    var inner := new Strategy(ServiceBase("", ""), {});
    var q := new C2DMQueuedService(inner, ServiceBase("", ""));
    var s := q.Stop();
    failed, stopCalls := s.Fail?, inner.stopCalls;
  }
}
