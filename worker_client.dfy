// The main-thread client of the offline worker (workerClient.js): every
// request gets a fresh id and waits in a table of pending messages until
// a reply for that id or its 30-second timeout settles it. Promises are
// modelled by the log of settlements; the worker by a handle number; the
// timer by an explicit timeout event.

module WorkerClientModel {
  import opened Common

  /** How a request's promise settles. */
  datatype Settlement = Resolved(id: int, payload: string) | Rejected(id: int, message: string)

  /** A message posted to the worker. */
  datatype Posted = Posted(kind: string, payload: string, id: int)

  /** A message from the worker: its `type`, `id` (absent for status
      messages), `payload.serverOnline`, `payload.message`, and the
      payload itself for a success. */
  datatype WorkerMessage = WorkerMessage(kind: string, id: Option<int>, serverOnline: Option<bool>,
                                         message: Option<string>, body: string)

  /** The client's fields, with the log of settled promises and posted
      messages; `worker` is the handle of the current worker, `spawned`
      the number created so far. */
  datatype ClientState = ClientState(worker: Option<nat>, spawned: nat, messageId: nat, pending: map<int, string>,
                                     ready: bool, serverOnline: Option<bool>, settled: seq<Settlement>,
                                     posted: seq<Posted>)

  function SettledId(x: Settlement): int
  {
    x.id
  }

  /** Every pending or settled id was handed out, no settled id is still
      pending, and no id settles twice. */
  ghost predicate Valid(s: ClientState)
  {
    (forall k :: k in s.pending ==> 0 <= k < s.messageId) &&
    (forall i :: 0 <= i < |s.settled| ==> 0 <= SettledId(s.settled[i]) < s.messageId && SettledId(s.settled[i]) !in s.pending) &&
    (forall i, j :: 0 <= i < j < |s.settled| ==> SettledId(s.settled[i]) != SettledId(s.settled[j]))
  }

  /** The constructor's state. */
  function Initial(): (s: ClientState)
    ensures Valid(s)
  {
    ClientState(None, 0, 0, map[], false, Some(true), [], [])
  }

  /** `init`: a worker is created only when there is none. */
  function Inited(s: ClientState): ClientState
  {
    if s.worker.Some? then s else s.(worker := Some(s.spawned), spawned := s.spawned + 1)
  }

  /** `sendMessage(type, payload)`: starts the worker when there is none,
      takes the next id, records the request and posts it. */
  function Sent(s: ClientState, kind: string, payload: string): (ClientState, int)
  {
    var s1 := Inited(s);
    var id := s1.messageId;
    (s1.(messageId := id + 1, pending := s1.pending[id := kind], posted := s1.posted + [Posted(kind, payload, id)]), id)
  }

  /** `worker.onmessage`. Status messages update the flags; a reply for a
      pending id removes it and settles it when it is a SUCCESS or an
      ERROR; anything else is ignored. Without a worker nothing arrives. */
  function Received(s: ClientState, m: WorkerMessage): ClientState
  {
    if s.worker.None? then s
    else if m.kind == "WORKER_READY" then s.(ready := true, serverOnline := m.serverOnline)
    else if m.kind == "SERVER_STATUS_CHANGE" then s.(serverOnline := m.serverOnline)
    else if m.id.Some? && m.id.value in s.pending then
      var id := m.id.value;
      var s1 := s.(pending := s.pending - {id});
      if m.kind == "SUCCESS" then s1.(settled := s1.settled + [Resolved(id, m.body)])
      else if m.kind == "ERROR" then s1.(settled := s1.settled + [Rejected(id, Coalesce(m.message, ""))])
      else s1
    else s
  }

  /** The timer of request `id` fires. */
  function TimedOut(s: ClientState, id: int): ClientState
  {
    if id in s.pending then
      s.(pending := s.pending - {id}, settled := s.settled + [Rejected(id, "Worker message timeout: " + s.pending[id])])
    else s
  }

  /** `terminate`: the worker goes and the client is no longer ready;
      pending requests stay until their timers fire. */
  function Terminated(s: ClientState): ClientState
  {
    if s.worker.Some? then s.(worker := None, ready := false) else s
  }

  datatype ClientEvent = Send(kind: string, payload: string) | Receive(m: WorkerMessage) | Timeout(id: int) | InitCall | TerminateCall

  function Step(s: ClientState, e: ClientEvent): ClientState
  {
    match e
    case Send(kind, payload) => Sent(s, kind, payload).0
    case Receive(m) => Received(s, m)
    case Timeout(id) => TimedOut(s, id)
    case InitCall => Inited(s)
    case TerminateCall => Terminated(s)
  }

  function Run(s: ClientState, events: seq<ClientEvent>): ClientState
  {
    if events == [] then s else Step(Run(s, events[..|events| - 1]), events[|events| - 1])
  }

  /** A request takes a fresh id, one past the previous one, never pending
      or settled before; it is the only new pending entry. */
  lemma SentFacts(s: ClientState, kind: string, payload: string)
    requires Valid(s)
    ensures var (t, id) := Sent(s, kind, payload);
      id == s.messageId && t.messageId == id + 1 && id !in s.pending &&
      (forall i :: 0 <= i < |s.settled| ==> SettledId(s.settled[i]) != id) &&
      t.pending == s.pending[id := kind] && t.settled == s.settled && t.worker.Some? &&
      t.posted == s.posted + [Posted(kind, payload, id)]
  {
  }

  /** Status messages touch only the two flags; replies for ids that are
      not pending change nothing; a SUCCESS or ERROR for a pending id
      removes it and settles it once, any other reply type only removes
      it, so its promise never settles. */
  lemma ReceivedFacts(s: ClientState, m: WorkerMessage)
    ensures var t := Received(s, m);
      (m.kind == "WORKER_READY" || m.kind == "SERVER_STATUS_CHANGE" ==>
        t.pending == s.pending && t.settled == s.settled && t.messageId == s.messageId) &&
      (s.worker.Some? && m.kind == "WORKER_READY" ==> t.ready && t.serverOnline == m.serverOnline) &&
      (m.kind != "WORKER_READY" && m.kind != "SERVER_STATUS_CHANGE" && (m.id.None? || m.id.value !in s.pending) ==> t == s)
    ensures var t := Received(s, m);
      s.worker.Some? && m.kind != "WORKER_READY" && m.kind != "SERVER_STATUS_CHANGE" && m.id.Some? && m.id.value in s.pending ==>
        t.pending == s.pending - {m.id.value} && t.ready == s.ready &&
        (m.kind == "SUCCESS" ==> t.settled == s.settled + [Resolved(m.id.value, m.body)]) &&
        (m.kind == "ERROR" ==> t.settled == s.settled + [Rejected(m.id.value, Coalesce(m.message, ""))]) &&
        (m.kind != "SUCCESS" && m.kind != "ERROR" ==> t.settled == s.settled)
  {
  }

  /** A timeout settles a request only while it is pending, so a request
      answered first is not rejected afterwards, and a second timeout does
      nothing. */
  lemma SettlesOnce(s: ClientState, m: WorkerMessage, id: int)
    requires m.id == Some(id) && m.kind != "WORKER_READY" && m.kind != "SERVER_STATUS_CHANGE" && s.worker.Some?
    ensures TimedOut(Received(s, m), id) == Received(s, m)
    ensures TimedOut(TimedOut(s, id), id) == TimedOut(s, id)
    ensures id in s.pending ==> TimedOut(s, id).settled == s.settled + [Rejected(id, "Worker message timeout: " + s.pending[id])]
  {
  }

  /** `init` is idempotent; after `terminate` there is no worker and the
      client is not ready, with its requests still pending; a new `init`
      starts a new worker. */
  lemma LifecycleFacts(s: ClientState)
    ensures Inited(Inited(s)) == Inited(s) && Inited(s).worker.Some?
    ensures s.worker.Some? ==> Inited(s) == s
    ensures var t := Terminated(s);
      t.worker.None? && (s.worker.Some? ==> !t.ready) && t.pending == s.pending && t.settled == s.settled
    ensures s.worker.Some? ==> Inited(Terminated(s)).worker == Some(s.spawned)
  {
  }

  /** Sending keeps the client valid: the new id is above every id in use. */
  lemma SentValid(s: ClientState, kind: string, payload: string)
    requires Valid(s)
    ensures Valid(Sent(s, kind, payload).0)
  {
    var t := Sent(s, kind, payload).0;
    assert t.settled == s.settled && t.messageId == s.messageId + 1 && t.pending == s.pending[s.messageId := kind];
    forall i | 0 <= i < |t.settled|
      ensures 0 <= SettledId(t.settled[i]) < t.messageId && SettledId(t.settled[i]) !in t.pending
    {
      assert SettledId(s.settled[i]) < s.messageId;
    }
  }

  /** Settling a pending request keeps the client valid. */
  lemma SettleValid(s: ClientState, id: int, x: Settlement)
    requires Valid(s) && id in s.pending && SettledId(x) == id
    ensures Valid(s.(pending := s.pending - {id}, settled := s.settled + [x]))
  {
    var t := s.(pending := s.pending - {id}, settled := s.settled + [x]);
    forall i, j | 0 <= i < j < |t.settled|
      ensures SettledId(t.settled[i]) != SettledId(t.settled[j])
    {
      if j == |s.settled| {
        assert SettledId(s.settled[i]) !in s.pending;
      } else {
        assert t.settled[i] == s.settled[i] && t.settled[j] == s.settled[j];
      }
    }
  }

  /** Every event keeps the client valid; ids only grow and settlements
      are only appended. */
  lemma StepValid(s: ClientState, e: ClientEvent)
    requires Valid(s)
    ensures Valid(Step(s, e))
    ensures Step(s, e).messageId >= s.messageId
    ensures |Step(s, e).settled| >= |s.settled| && Step(s, e).settled[..|s.settled|] == s.settled
  {
    match e
    case Send(kind, payload) =>
      SentValid(s, kind, payload);
    case Receive(m) =>
      if s.worker.Some? && m.kind != "WORKER_READY" && m.kind != "SERVER_STATUS_CHANGE" && m.id.Some? && m.id.value in s.pending {
        var id := m.id.value;
        if m.kind == "SUCCESS" {
          SettleValid(s, id, Resolved(id, m.body));
        } else if m.kind == "ERROR" {
          SettleValid(s, id, Rejected(id, Coalesce(m.message, "")));
        }
      }
    case Timeout(id) =>
      if id in s.pending {
        SettleValid(s, id, Rejected(id, "Worker message timeout: " + s.pending[id]));
      }
    case InitCall =>
    case TerminateCall =>
  }

  /** From the constructor on, whatever happens, no request settles twice
      and only handed-out ids are pending or settled. */
  lemma {:induction false} RunValid(events: seq<ClientEvent>)
    ensures Valid(Run(Initial(), events))
  {
    if events != [] {
      RunValid(events[..|events| - 1]);
      StepValid(Run(Initial(), events[..|events| - 1]), events[|events| - 1]);
    }
  }
}

module WorkerClient {
  import opened Common
  import opened WorkerClientModel

  class OfflineWorkerClient {
    var worker: Option<nat>
    var spawned: nat
    var messageId: nat
    var pendingMessages: map<int, string>
    var ready: bool
    var serverOnline: Option<bool>
    var settled: seq<Settlement>
    var posted: seq<Posted>

    function State(): ClientState
      reads this
    {
      ClientState(worker, spawned, messageId, pendingMessages, ready, serverOnline, settled, posted)
    }

    ghost predicate Valid()
      reads this
    {
      WorkerClientModel.Valid(State())
    }

    constructor()
      ensures Valid() && State() == Initial()
    {
      worker := None;
      spawned := 0;
      messageId := 0;
      pendingMessages := map[];
      ready := false;
      serverOnline := Some(true);
      settled := [];
      posted := [];
    }

    method Init()
      modifies this`worker, this`spawned
      ensures State() == Inited(old(State()))
    {
      if worker.Some? {
        return;
      }
      worker := Some(spawned);
      spawned := spawned + 1;
    }

    method SendMessage(kind: string, payload: string) returns (id: int)
      requires Valid()
      modifies this
      ensures Valid()
      ensures (State(), id) == Sent(old(State()), kind, payload)
    {
      SentValid(State(), kind, payload);
      if worker.None? {
        Init();
      }
      id := messageId;
      messageId := messageId + 1;
      pendingMessages := pendingMessages[id := kind];
      posted := posted + [Posted(kind, payload, id)];
    }

    method OnMessage(m: WorkerMessage)
      requires Valid()
      modifies this`ready, this`serverOnline, this`pendingMessages, this`settled
      ensures Valid()
      ensures State() == Received(old(State()), m)
    {
      StepValid(State(), Receive(m));
      if worker.None? {
        return;
      }
      if m.kind == "WORKER_READY" {
        ready := true;
        serverOnline := m.serverOnline;
        return;
      }
      if m.kind == "SERVER_STATUS_CHANGE" {
        serverOnline := m.serverOnline;
        return;
      }
      if m.id.Some? && m.id.value in pendingMessages {
        var id := m.id.value;
        pendingMessages := pendingMessages - {id};
        if m.kind == "SUCCESS" {
          settled := settled + [Resolved(id, m.body)];
        } else if m.kind == "ERROR" {
          settled := settled + [Rejected(id, Coalesce(m.message, ""))];
        }
      }
    }

    /** The callback of the 30-second timer set for request `id`. */
    method OnTimeout(id: int)
      requires Valid()
      modifies this`pendingMessages, this`settled
      ensures Valid()
      ensures State() == TimedOut(old(State()), id)
    {
      StepValid(State(), Timeout(id));
      if id in pendingMessages {
        settled := settled + [Rejected(id, "Worker message timeout: " + pendingMessages[id])];
        pendingMessages := pendingMessages - {id};
      }
    }

    method Terminate()
      modifies this`worker, this`ready
      ensures State() == Terminated(old(State()))
    {
      if worker.Some? {
        worker := None;
        ready := false;
      }
    }
  }
}
