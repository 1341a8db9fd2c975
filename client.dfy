/**
 * The `Feeder` client: its session fields, its two request counters, the
 * scheduler it owns when a rate limit is set, and the steps of its reader loop,
 * refresh monitor and workload driver. The transport is the log `sent` of the
 * requests handed to it, in order; tasks started on the event loop without a
 * scheduler are the log `detached`.
 */
module Client {
  import opened Wrappers
  import opened Ids
  import opened Messages
  import opened Session
  import opened Workload
  import opened Scheduler

  /** The two configuration errors the constructor raises. */
  datatype ConfigError = NoIterations | NoInstruments

  /**
   * The constructor's checks, in its order: a zero iteration count first, then
   * an empty instrument list. Any non-zero count passes, negative ones included.
   */
  function CheckConfig(instruments: seq<string>, requestIterations: int): (r: Option<ConfigError>)
    ensures r.None? <==> requestIterations != 0 && |instruments| > 0
    ensures r == Some(NoIterations) <==> requestIterations == 0
    ensures r == Some(NoInstruments) <==> requestIterations != 0 && |instruments| == 0
  {
    if requestIterations == 0 then Some(NoIterations)
    else if instruments == [] then Some(NoInstruments)
    else None
  }

  /** What the reader loop made of one message: its class, the log line of an authentication reply, the fault that stopped it. */
  datatype Handled = Handled(kind: MessageKind, auth: Option<AuthStatus>, fault: Option<Fault>)

  class Feeder {
    const wsConnectionUrl: string
    const clientId: string
    const clientSecret: string
    const instruments: seq<string>
    const rateLimit: int
    const requestIterations: int
    /** Present exactly when a positive rate limit was configured. */
    const scheduler: TaskScheduler?<Operation>

    var refreshToken: Option<string>
    var refreshTokenExpiryTime: Option<int>
    var subId: nat
    var unsubId: nat
    /** Requests handed to the transport, oldest first. */
    var sent: seq<Request>
    /** Operations handed to the event loop because there is no scheduler. */
    var detached: seq<Operation>

    ghost predicate Valid()
      reads this
    {
      && IdCounters().Valid()
      && (refreshTokenExpiryTime.Some? ==> refreshToken.Some?)
      && CheckConfig(instruments, requestIterations).None?
      && (scheduler != null <==> rateLimit > 0)
    }

    function IdCounters(): Counters
      reads this
    {
      Counters(subId, unsubId)
    }

    /** The operations waiting to run: the scheduler's queue, or the event loop's when there is none. */
    ghost function Pending(): seq<Operation>
      reads this, scheduler
    {
      if scheduler != null then scheduler.tasks else detached
    }

    /** The constructor once its checks have passed. */
    constructor (wsConnectionUrl: string, clientId: string, clientSecret: string,
                 instruments: seq<string>, rateLimit: int, requestIterations: int)
      requires CheckConfig(instruments, requestIterations).None?
      ensures Valid()
      ensures this.wsConnectionUrl == wsConnectionUrl && this.clientId == clientId && this.clientSecret == clientSecret
      ensures this.instruments == instruments && this.rateLimit == rateLimit && this.requestIterations == requestIterations
      ensures refreshToken == None && refreshTokenExpiryTime == None
      ensures IdCounters() == Counters(0, 0) && sent == [] && detached == []
      ensures scheduler != null ==> fresh(scheduler) && scheduler.tasks == []
    {
      this.wsConnectionUrl := wsConnectionUrl;
      this.clientId := clientId;
      this.clientSecret := clientSecret;
      this.instruments := instruments;
      this.rateLimit := rateLimit;
      this.requestIterations := requestIterations;
      if rateLimit > 0 {
        scheduler := new TaskScheduler<Operation>();
      } else {
        scheduler := null;
      }
      refreshToken := None;
      refreshTokenExpiryTime := None;
      subId := 0;
      unsubId := 0;
      sent := [];
      detached := [];
    }

    /**
     * `Feeder(...)`: the constructor's validation. It yields a client exactly when
     * the checks pass, and the error the first failing check raises otherwise.
     */
    static method Create(wsConnectionUrl: string, clientId: string, clientSecret: string,
                         instruments: seq<string>, rateLimit: int, requestIterations: int)
      returns (feeder: Feeder?, error: Option<ConfigError>)
      ensures error == CheckConfig(instruments, requestIterations)
      ensures feeder != null <==> error.None?
      ensures feeder != null ==> fresh(feeder) && feeder.Valid() && feeder.sent == [] && feeder.detached == []
      ensures feeder != null ==>
        && feeder.wsConnectionUrl == wsConnectionUrl && feeder.clientId == clientId && feeder.clientSecret == clientSecret
        && feeder.instruments == instruments && feeder.rateLimit == rateLimit && feeder.requestIterations == requestIterations
      ensures feeder != null ==> feeder.refreshToken == None && feeder.refreshTokenExpiryTime == None
      ensures feeder != null ==> feeder.IdCounters() == Counters(0, 0)
      ensures feeder != null ==> (feeder.scheduler != null <==> rateLimit > 0)
      ensures feeder != null && feeder.scheduler != null ==> fresh(feeder.scheduler) && feeder.scheduler.tasks == []
    {
      error := CheckConfig(instruments, requestIterations);
      if error.None? {
        feeder := new Feeder(wsConnectionUrl, clientId, clientSecret, instruments, rateLimit, requestIterations);
      } else {
        feeder := null;
      }
    }

    /** `ws_auth`: the client-credentials authentication request. */
    method WsAuth()
      modifies this`sent
      ensures sent == old(sent) + [AuthRequest(clientId, clientSecret)]
    {
      sent := sent + [AuthRequest(clientId, clientSecret)];
    }

    /** `establish_heartbeat`: ask the server for a heartbeat every 10 seconds. */
    method EstablishHeartbeat()
      modifies this`sent
      ensures sent == old(sent) + [SetHeartbeatRequest()]
    {
      sent := sent + [SetHeartbeatRequest()];
    }

    /** `heartbeat_response`: the acknowledgment of a heartbeat push. */
    method HeartbeatResponse()
      modifies this`sent
      ensures sent == old(sent) + [HeartbeatAck()]
    {
      sent := sent + [HeartbeatAck()];
    }

    /** The reader loop's prologue: authenticate, then set up the heartbeat, both sent directly. */
    method Start()
      modifies this`sent
      ensures sent == old(sent) + [AuthRequest(clientId, clientSecret), SetHeartbeatRequest()]
    {
      WsAuth();
      EstablishHeartbeat();
    }

    /**
     * One check of `ws_refresh_auth`: once the deadline is set and strictly
     * passed, send the refresh-token grant with the stored token, directly.
     */
    method RefreshAuthTick(now: int) returns (fired: bool)
      requires Valid()
      modifies this`sent
      ensures Valid()
      ensures fired == ShouldRefresh(refreshTokenExpiryTime, now)
      ensures fired ==> sent == old(sent) + [RefreshRequest(refreshToken.value)]
      ensures !fired ==> sent == old(sent)
    {
      fired := false;
      if refreshTokenExpiryTime.Some? {
        if now > refreshTokenExpiryTime.value {
          sent := sent + [RefreshRequest(refreshToken.value)];
          fired := true;
        }
      }
    }

    /**
     * `ws_operation`: take the next identifier of the operation's band, advance
     * that counter with wrap-around, and send the request.
     */
    method WsOperation(op: Operation)
      requires Valid()
      modifies this`subId, this`unsubId, this`sent
      ensures Valid()
      ensures sent == old(sent) + [OperationRequest(op.kind, Allocate(op.kind, old(IdCounters())).0, op.channel)]
      ensures IdCounters() == Allocate(op.kind, old(IdCounters())).1
      ensures ClassifyId(sent[|sent| - 1].id) == ReplyKindOf(op.kind)
    {
      var reqId: int;
      if op.kind == Subscribe {
        reqId := SUBSCRIBE + subId;
        subId := subId + 1;
        if subId >= ID_RANGE {
          subId := 0;
        }
      } else {
        reqId := UNSUBSCRIBE + unsubId;
        unsubId := unsubId + 1;
        if unsubId >= ID_RANGE {
          unsubId := 0;
        }
      }
      sent := sent + [OperationRequest(op.kind, reqId, op.channel)];
      IssuedIdRoundTrip(op.kind, old(IdCounters()));
    }

    /** `create_task`: queue on the scheduler when there is one, otherwise hand to the event loop. */
    method CreateTask(op: Operation)
      modifies this`detached, scheduler
      ensures Pending() == old(Pending()) + [op]
      ensures scheduler != null ==> detached == old(detached)
    {
      if scheduler != null {
        scheduler.AddTask(op);
      } else {
        detached := detached + [op];
      }
    }

    /** The inner loop of `stress_test_subscribe`: one `kind` operation per instrument, in list order. */
    method CreateIterationTasks(kind: OpKind)
      modifies this`detached, scheduler
      ensures Pending() == old(Pending()) + IterationOps(kind, instruments)
      ensures scheduler != null ==> detached == old(detached)
    {
      var j := 0;
      while j < |instruments|
        invariant 0 <= j <= |instruments|
        invariant Pending() == old(Pending()) + IterationOps(kind, instruments[..j])
        invariant scheduler != null ==> detached == old(detached)
      {
        CreateTask(Operation(kind, BookChannel(instruments[j])));
        assert instruments[..j + 1][..j] == instruments[..j];
        j := j + 1;
      }
      assert instruments[..|instruments|] == instruments;
    }

    /**
     * `stress_test_subscribe`: for each iteration, in order, one operation per
     * instrument, alternating subscribe and unsubscribe between iterations.
     */
    method StressTestSubscribe()
      modifies this`detached, scheduler
      ensures Pending() == old(Pending()) + StressOps(requestIterations, instruments)
      ensures scheduler != null ==> detached == old(detached)
    {
      ghost var pending0, detached0 := Pending(), detached;
      var isSubscribed := false;
      var count := 0;
      while count < requestIterations
        invariant 0 <= count <= (if requestIterations > 0 then requestIterations else 0)
        invariant isSubscribed == (IterationKind(count) == Unsubscribe)
        invariant Pending() == pending0 + StressOps(count, instruments)
        invariant scheduler != null ==> detached == detached0
      {
        var operation := if !isSubscribed then Subscribe else Unsubscribe;
        StressOpsStep(count, instruments);
        CreateIterationTasks(operation);
        assert Pending() == pending0 + StressOps(count + 1, instruments);
        IterationKindAlternates(count);
        isSubscribed := !isSubscribed;
        count := count + 1;
      }
      assert StressOps(count, instruments) == StressOps(requestIterations, instruments);
    }

    /**
     * The reader loop's handling of one decoded message. A message with an `id`
     * is classified by its band; an authentication reply logs "authenticated" or
     * "refreshed" by whether a refresh token was stored before, queues the
     * workload (on every authentication reply, refreshes included), then stores
     * the new token and deadline key by key. A heartbeat push is acknowledged
     * directly; everything else only logs.
     */
    method HandleMessage(m: Inbound, now: int) returns (h: Handled)
      requires Valid()
      modifies this, scheduler
      ensures Valid()
      ensures h.kind == Classify(m)
      ensures h.auth == (if h.kind == Reply(AuthReply) then Some(AuthStatusOf(old(refreshToken))) else None)
      ensures sent == old(sent) + ImmediateAnswer(m)
      ensures IdCounters() == old(IdCounters())
      ensures scheduler != null ==> detached == old(detached)
      ensures h.kind == Reply(AuthReply) ==>
        && Pending() == old(Pending()) + StressOps(requestIterations, instruments)
        && refreshToken == ApplyAuthReply(m, now, old(refreshToken), old(refreshTokenExpiryTime)).refreshToken
        && refreshTokenExpiryTime == ApplyAuthReply(m, now, old(refreshToken), old(refreshTokenExpiryTime)).deadline
        && h.fault == ApplyAuthReply(m, now, old(refreshToken), old(refreshTokenExpiryTime)).fault
      ensures h.kind != Reply(AuthReply) ==>
        && Pending() == old(Pending())
        && refreshToken == old(refreshToken) && refreshTokenExpiryTime == old(refreshTokenExpiryTime)
        && h.fault == None
    {
      h := Handled(Classify(m), None, None);
      if m.id.Some? {
        if m.id.value == AUTH {
          var status := if refreshToken == None then Authenticated else Refreshed;
          h := h.(auth := Some(status));
          StressTestSubscribe();
          if m.refreshToken.None? {
            h := h.(fault := Some(MissingRefreshToken));
            return;
          }
          refreshToken := m.refreshToken;
          if m.testnet.None? {
            h := h.(fault := Some(MissingTestnet));
            return;
          }
          var expiresIn: int;
          if m.testnet.value {
            expiresIn := TESTNET_LIFETIME;
          } else {
            if m.expiresIn.None? {
              h := h.(fault := Some(MissingExpiresIn));
              return;
            }
            expiresIn := m.expiresIn.value - REFRESH_MARGIN;
          }
          refreshTokenExpiryTime := Some(now + expiresIn);
        }
      } else if m.rpcMethod == Some("heartbeat") {
        HeartbeatResponse();
      }
    }

    /**
     * One turn of `process_tasks`: pop the head of the queue, if any, and run it
     * once; with an empty queue nothing is sent and nothing changes.
     */
    method ProcessNextTask() returns (ran: Option<Operation>)
      requires Valid() && scheduler != null
      modifies this`subId, this`unsubId, this`sent, scheduler
      ensures Valid()
      ensures old(scheduler.tasks) == [] ==>
        ran == None && scheduler.tasks == [] && sent == old(sent) && IdCounters() == old(IdCounters())
      ensures old(scheduler.tasks) != [] ==>
        && ran == Some(old(scheduler.tasks)[0])
        && scheduler.tasks == old(scheduler.tasks)[1..]
        && sent == old(sent) + RunOps([ran.value], old(IdCounters())).0
        && IdCounters() == RunOps([ran.value], old(IdCounters())).1
    {
      ran := scheduler.PopTask();
      if ran.Some? {
        WsOperation(ran.value);
        assert [ran.value][1..] == [];
      }
    }

    /**
     * The drain loop of `process_tasks` until the queue is empty: the queued
     * operations run in exactly the order they were queued, each once, with
     * their identifiers allocated as they run.
     */
    method ProcessTasks()
      requires Valid() && scheduler != null
      modifies this`subId, this`unsubId, this`sent, scheduler
      ensures Valid() && scheduler.tasks == []
      ensures sent == old(sent) + RunOps(old(scheduler.tasks), old(IdCounters())).0
      ensures IdCounters() == RunOps(old(scheduler.tasks), old(IdCounters())).1
    {
      ghost var log0, queued0, counters0 := sent, scheduler.tasks, IdCounters();
      while scheduler.tasks != []
        invariant Valid()
        invariant log0 + RunOps(queued0, counters0).0 == sent + RunOps(scheduler.tasks, IdCounters()).0
        invariant RunOps(queued0, counters0).1 == RunOps(scheduler.tasks, IdCounters()).1
        decreases |scheduler.tasks|
      {
        RunOpsCons(sent, scheduler.tasks, IdCounters());
        var ran := ProcessNextTask();
      }
    }
  }
}
