/**
 * The vertical cluster message bus: worker processes wrap messages in envelopes,
 * the master process fans each serialized envelope out to the workers, and each
 * worker emits the envelope's message on a process-wide event emitter whose
 * listeners were registered by `subscribe`.
 *
 * Inter-process channels are modelled as data: the master's loop returns the
 * sequence of sends it issues, and a worker's handler returns the sequence of
 * listener calls it makes.
 */
module VerticalCluster {
  import opened Base
  import opened Protocol

  /** The object a node serializes onto the IPC channel. `serverName` is the field the receiving side reads. */
  datatype Envelope = Envelope(
    message: Message,
    fromServer: Option<string>,
    toServer: Option<string>,
    serverName: Option<string>)

  /** `send`: a broadcast envelope. */
  function Send(ownName: string, m: Message): (e: Envelope)
    ensures e.message == m && e.fromServer == Some(ownName)
    ensures e.toServer == None && e.serverName == None
  {
    Envelope(m, Some(ownName), None, None)
  }

  /** `sendDirect`: a directed envelope; the optional metadata argument is not serialized. */
  function SendDirect(ownName: string, target: string, m: Message): (e: Envelope)
    ensures e.message == m && e.fromServer == Some(ownName)
    ensures e.toServer == Some(target) && e.serverName == None
  {
    Envelope(m, Some(ownName), Some(target), None)
  }

  // ---------------------------------------------------------------------------
  // Master relay

  /** A key of `cluster.workers`; distinct keys name distinct worker objects. */
  type WorkerId = nat

  /** One `<recipient>.send(payload)` issued by the master. */
  datatype Delivery<P> = Delivery(recipient: WorkerId, payload: P)

  ghost predicate Distinct(ws: seq<WorkerId>) {
    forall i, j :: 0 <= i < j < |ws| ==> ws[i] != ws[j]
  }

  /** How many of `workers` differ from `origin`. */
  function Others(workers: seq<WorkerId>, origin: WorkerId): nat {
    if workers == [] then 0
    else Others(workers[..|workers| - 1], origin) + (if workers[|workers| - 1] != origin then 1 else 0)
  }

  /** How many deliveries in `ds` are addressed to `w`. */
  function CountTo<P>(ds: seq<Delivery<P>>, w: WorkerId): nat {
    if ds == [] then 0
    else CountTo(ds[..|ds| - 1], w) + (if ds[|ds| - 1].recipient == w then 1 else 0)
  }

  lemma CountToAppend<P>(ds: seq<Delivery<P>>, d: Delivery<P>, w: WorkerId)
    ensures CountTo(ds + [d], w) == CountTo(ds, w) + (if d.recipient == w then 1 else 0)
  {
    assert (ds + [d])[..|ds + [d]| - 1] == ds;
  }

  /** The sends of the master's loop as written: every iteration whose worker is not the origin sends to the origin. */
  function RelaySends<P>(workers: seq<WorkerId>, origin: WorkerId, payload: P): (sends: seq<Delivery<P>>)
    ensures |sends| == Others(workers, origin)
    ensures forall k :: 0 <= k < |sends| ==> sends[k] == Delivery(origin, payload)
  {
    if workers == [] then []
    else
      RelaySends(workers[..|workers| - 1], origin, payload)
      + (if workers[|workers| - 1] != origin then [Delivery(origin, payload)] else [])
  }

  /** The master's `cluster.on('message')` handler: one loop over the registered workers. */
  method Relay<P>(workers: seq<WorkerId>, origin: WorkerId, payload: P) returns (sends: seq<Delivery<P>>)
    ensures sends == RelaySends(workers, origin, payload)
    ensures |sends| == Others(workers, origin)
    ensures forall k :: 0 <= k < |sends| ==> sends[k] == Delivery(origin, payload)
  {
    sends := [];
    var i := 0;
    while i < |workers|
      invariant 0 <= i <= |workers|
      invariant sends == RelaySends(workers[..i], origin, payload)
      invariant |sends| == Others(workers[..i], origin)
      invariant forall k :: 0 <= k < |sends| ==> sends[k] == Delivery(origin, payload)
    {
      assert workers[..i + 1][..i] == workers[..i];
      var fromWorker := workers[i];
      if fromWorker != origin {
        sends := sends + [Delivery(origin, payload)];
      }
      i := i + 1;
    }
    assert workers[..|workers|] == workers;
  }

  /** As written, the origin receives one copy per other worker and nobody else receives anything. */
  lemma {:induction false} RelayReachesOnlyOrigin<P>(workers: seq<WorkerId>, origin: WorkerId, payload: P, w: WorkerId)
    ensures CountTo(RelaySends(workers, origin, payload), w) == if w == origin then Others(workers, origin) else 0
    decreases |workers|
  {
    if workers != [] {
      var init := workers[..|workers| - 1];
      RelayReachesOnlyOrigin(init, origin, payload, w);
      if workers[|workers| - 1] != origin {
        CountToAppend(RelaySends(init, origin, payload), Delivery(origin, payload), w);
      } else {
        assert RelaySends(workers, origin, payload) == RelaySends(init, origin, payload);
      }
    }
  }

  /** The relay as evidently intended: every worker other than the origin is sent the payload. */
  function RelayIntended<P>(workers: seq<WorkerId>, origin: WorkerId, payload: P): seq<Delivery<P>> {
    if workers == [] then []
    else
      RelayIntended(workers[..|workers| - 1], origin, payload)
      + (if workers[|workers| - 1] != origin then [Delivery(workers[|workers| - 1], payload)] else [])
  }

  /** With the intended relay, each registered worker other than the origin gets exactly one copy, the origin none. */
  lemma {:induction false} RelayIntendedReachesEachOtherOnce<P>(workers: seq<WorkerId>, origin: WorkerId, payload: P, w: WorkerId)
    requires Distinct(workers)
    ensures CountTo(RelayIntended(workers, origin, payload), w) == if w in workers && w != origin then 1 else 0
    ensures forall k :: 0 <= k < |RelayIntended(workers, origin, payload)| ==>
              RelayIntended(workers, origin, payload)[k].payload == payload
    decreases |workers|
  {
    if workers != [] {
      var init := workers[..|workers| - 1];
      var last := workers[|workers| - 1];
      assert Distinct(init);
      assert last !in init;
      assert w in workers <==> w in init || w == last;
      RelayIntendedReachesEachOtherOnce(init, origin, payload, w);
      if last != origin {
        CountToAppend(RelayIntended(init, origin, payload), Delivery(last, payload), w);
      } else {
        assert RelayIntended(workers, origin, payload) == RelayIntended(init, origin, payload);
      }
    }
  }

  // ---------------------------------------------------------------------------
  // Worker-side dispatch

  /** A listener registered with the emitter, identified by registration identity. */
  type CallbackId = nat

  /** One listener invocation: `callback(message, originServerName)`. */
  datatype Call = Call(callback: CallbackId, message: Message, origin: Option<string>)

  /** The listeners registered on an event, in registration order. */
  function Listeners(table: map<TopicCode, seq<CallbackId>>, topic: TopicCode): seq<CallbackId> {
    if topic in table then table[topic] else []
  }

  /** `emitter.emit(topic, message, origin)`: every listener of `topic` is called once, in order. */
  function Emit(table: map<TopicCode, seq<CallbackId>>, topic: TopicCode, m: Message, origin: Option<string>): (calls: seq<Call>)
    ensures |calls| == |Listeners(table, topic)|
    ensures forall k :: 0 <= k < |calls| ==> calls[k] == Call(Listeners(table, topic)[k], m, origin)
  {
    seq(|Listeners(table, topic)|, k requires 0 <= k < |Listeners(table, topic)| => Call(Listeners(table, topic)[k], m, origin))
  }

  /** A worker's `process.on('message')` handler: emits on the message's topic with the envelope's `serverName`. */
  function OnWorkerMessage(table: map<TopicCode, seq<CallbackId>>, e: Envelope): (calls: seq<Call>)
    ensures |calls| == |Listeners(table, e.message.topic)|
    ensures forall k :: 0 <= k < |calls| ==> calls[k] == Call(Listeners(table, e.message.topic)[k], e.message, e.serverName)
  {
    Emit(table, e.message.topic, e.message, e.serverName)
  }

  /** `toServer` is never read: a directed envelope fires exactly the listeners a broadcast of the same message fires. */
  lemma DirectedFiresLikeBroadcast(table: map<TopicCode, seq<CallbackId>>, own: string, target: string, m: Message)
    ensures OnWorkerMessage(table, SendDirect(own, target, m)) == OnWorkerMessage(table, Send(own, m))
    ensures |OnWorkerMessage(table, SendDirect(own, target, m))| == |Listeners(table, m.topic)|
  {
  }

  /** Senders write `fromServer` but the handler reads `serverName`: listeners never learn the origin. */
  lemma OriginNeverDelivered(table: map<TopicCode, seq<CallbackId>>, own: string, target: Option<string>, m: Message)
    ensures var e := if target.Some? then SendDirect(own, target.value, m) else Send(own, m);
            forall c :: c in OnWorkerMessage(table, e) ==> c.origin == None && c.message == m
  {
  }

  /** Dispatch as evidently intended: a directed envelope for another server is discarded, and the origin is `fromServer`. */
  function OnWorkerMessageIntended(self: string, table: map<TopicCode, seq<CallbackId>>, e: Envelope): seq<Call> {
    if e.toServer.Some? && e.toServer.value != self then []
    else Emit(table, e.message.topic, e.message, e.fromServer)
  }

  /** Intended dispatch hands every listener the sender's name. */
  lemma IntendedOriginIsSender(self: string, table: map<TopicCode, seq<CallbackId>>, own: string, m: Message)
    ensures forall c :: c in OnWorkerMessageIntended(self, table, Send(own, m)) ==> c.origin == Some(own)
    ensures |OnWorkerMessageIntended(self, table, Send(own, m))| == |Listeners(table, m.topic)|
  {
  }

  /** Intended dispatch fires a directed envelope only at its target. */
  lemma IntendedDirectedOnlyAtTarget(self: string, table: map<TopicCode, seq<CallbackId>>, own: string, target: string, m: Message)
    ensures OnWorkerMessageIntended(self, table, SendDirect(own, target, m)) ==
            if self == target then Emit(table, m.topic, m, Some(own)) else []
  {
  }

  // ---------------------------------------------------------------------------
  // Relay followed by dispatch

  /** `n` copies of `s`, one after another. */
  function Repeat<T>(s: seq<T>, n: nat): (r: seq<T>)
    ensures |r| == n * |s|
    ensures forall x :: x in r ==> x in s
  {
    if n == 0 then [] else Repeat(s, n - 1) + s
  }

  /** The listener table of worker `w`; a worker with no entry has no listeners. */
  function TableOf(tables: map<WorkerId, map<TopicCode, seq<CallbackId>>>, w: WorkerId): map<TopicCode, seq<CallbackId>> {
    if w in tables then tables[w] else map[]
  }

  /** The listener calls worker `w` makes, in order, for the deliveries addressed to it. */
  function CallsAt(ds: seq<Delivery<Envelope>>, tables: map<WorkerId, map<TopicCode, seq<CallbackId>>>, w: WorkerId): seq<Call> {
    if ds == [] then []
    else
      CallsAt(ds[..|ds| - 1], tables, w)
      + (if ds[|ds| - 1].recipient == w then OnWorkerMessage(TableOf(tables, w), ds[|ds| - 1].payload) else [])
  }

  /**
   * End to end, as written: an envelope a worker sends is relayed back to that
   * worker once per other worker, so the sender's own listeners fire that many
   * times with its own message and no origin, and no other worker's listeners fire.
   */
  lemma {:induction false} RelayedSendEchoesAtOrigin(
    workers: seq<WorkerId>, origin: WorkerId, own: string, m: Message,
    tables: map<WorkerId, map<TopicCode, seq<CallbackId>>>, w: WorkerId)
    ensures CallsAt(RelaySends(workers, origin, Send(own, m)), tables, w) ==
            if w == origin then Repeat(OnWorkerMessage(TableOf(tables, origin), Send(own, m)), Others(workers, origin)) else []
    ensures w == origin ==>
              |CallsAt(RelaySends(workers, origin, Send(own, m)), tables, w)| == Others(workers, origin) * |Listeners(TableOf(tables, origin), m.topic)|
    ensures forall c :: c in CallsAt(RelaySends(workers, origin, Send(own, m)), tables, w) ==> c.message == m && c.origin == None
    decreases |workers|
  {
    var e := Send(own, m);
    if workers != [] {
      var init := workers[..|workers| - 1];
      RelayedSendEchoesAtOrigin(init, origin, own, m, tables, w);
      var ds := RelaySends(init, origin, e);
      if workers[|workers| - 1] != origin {
        var d := Delivery(origin, e);
        assert RelaySends(workers, origin, e) == ds + [d];
        assert (ds + [d])[..|ds + [d]| - 1] == ds;
      } else {
        assert RelaySends(workers, origin, e) == ds;
      }
    }
  }

  // ---------------------------------------------------------------------------
  // Subscription

  /** The `EventEmitter` held in the static `VerticalClusterNode.emitter`. */
  class Emitter {
    var table: map<TopicCode, seq<CallbackId>>

    constructor ()
      ensures table == map[]
    {
      table := map[];
    }

    /** `emitter.on(topic, callback)`: appends the listener. */
    method On(topic: TopicCode, callback: CallbackId)
      modifies this
      ensures table == old(table)[topic := Listeners(old(table), topic) + [callback]]
    {
      table := table[topic := Listeners(table, topic) + [callback]];
    }

    /** The calls a worker makes for an inbound envelope. */
    method Receive(e: Envelope) returns (calls: seq<Call>)
      ensures calls == OnWorkerMessage(table, e)
    {
      calls := OnWorkerMessage(table, e);
    }
  }

  /** A worker process: it owns the one static emitter and creates the cluster nodes that share it. */
  class WorkerProcess {
    const emitter: Emitter

    constructor ()
      ensures fresh(emitter) && emitter.table == map[]
    {
      emitter := new Emitter();
    }

    /** A node created in this process uses the process's emitter. */
    method NewNode(serverName: string) returns (node: VerticalClusterNode)
      ensures fresh(node)
      ensures node.serverName == serverName && node.emitter == emitter && node.callbacks == map[]
    {
      node := new VerticalClusterNode(serverName, emitter);
    }
  }

  /** A cluster node; it is built with the static emitter of the process it runs in. */
  class VerticalClusterNode {
    const serverName: string
    const emitter: Emitter
    var callbacks: map<TopicCode, CallbackId>

    constructor (serverName: string, emitter: Emitter)
      ensures this.serverName == serverName && this.emitter == emitter && callbacks == map[]
    {
      this.serverName := serverName;
      this.emitter := emitter;
      callbacks := map[];
    }

    method NodeSend(m: Message) returns (e: Envelope)
      ensures e == Send(serverName, m)
    {
      e := Send(serverName, m);
    }

    method NodeSendDirect(target: string, m: Message) returns (e: Envelope)
      ensures e == SendDirect(serverName, target, m)
    {
      e := SendDirect(serverName, target, m);
    }

    /**
     * `subscribe`: the per-node map keeps only the latest callback for the topic,
     * while the shared emitter appends it to the topic's listeners.
     */
    method Subscribe(topic: TopicCode, callback: CallbackId)
      modifies this, emitter
      ensures callbacks == old(callbacks)[topic := callback]
      ensures emitter.table == old(emitter.table)[topic := Listeners(old(emitter.table), topic) + [callback]]
    {
      callbacks := callbacks[topic := callback];
      emitter.On(topic, callback);
    }
  }

  /**
   * Two nodes of one process subscribe to the same topic through the shared
   * emitter: an inbound envelope fires both listeners in registration order,
   * with no origin, while each node's own map keeps only its own callback.
   */
  method SharedEmitterScenario(m: Message) returns (calls: seq<Call>, first: map<TopicCode, CallbackId>)
    ensures calls == [Call(1, m, None), Call(2, m, None), Call(3, m, None)]
    ensures first == map[m.topic := 3]
  {
    var process := new WorkerProcess();
    var a := process.NewNode("a");
    var b := process.NewNode("b");
    a.Subscribe(m.topic, 1);
    b.Subscribe(m.topic, 2);
    a.Subscribe(m.topic, 3);
    var e := b.NodeSendDirect("a", m);
    calls := process.emitter.Receive(e);
    first := a.callbacks;
  }
}
