/** The completion protocol as a labelled transition system: the gateway that completes sessions,
    the outbox relays, the broker, the queue consumers and the reconciliation scanners, each
    taking one step per await, with a crash or a failed call possible at every one. */
module CompletionProtocol {
  import opened Options
  import opened GradingRows
  import opened GradingJob
  import opened Outbox

  type ActorId = nat

  /** Anything that does not parse as a job is `Malformed`. */
  datatype Message = Completed(sid: SessionId) | Malformed

  datatype Settled = Settled(tag: nat, message: Message, how: Settlement)

  datatype Broker = Broker(ready: multiset<Message>, nextTag: nat, settled: seq<Settled>)

  /** `tag` is the delivery's identity, gone once the connection is lost under the worker. */
  datatype Consumer =
    | Idle
    | Busy(message: Message, tag: Option<nat>, stage: Stage)

  datatype Stage =
    | Attempt(n: nat, pc: Pc)
    | MarkFailed
    | Settling(how: Settlement)

  datatype Scanner =
    | Resting
    | Scanning(todo: seq<SessionId>, job: Option<ScanJob>)

  datatype ScanJob = ScanJob(sid: SessionId, pc: Pc)

  /** An open relay transaction: the rows it has locked and how the publishes so far ended. */
  datatype Relay =
    | Closed
    | Open(claim: seq<SessionId>, confirmed: seq<bool>)

  datatype Config = Config(maxAttempts: nat, relayMaxAttempts: nat, batchSize: nat, provider: string)

  datatype State = State(
    tables: Tables,
    outbox: Rows,
    broker: Broker,
    toPublish: set<SessionId>,
    consumers: map<ActorId, Consumer>,
    scanners: map<ActorId, Scanner>,
    relays: map<ActorId, Relay>)

  datatype GatewayStep =
    | Create(sid: SessionId)
    | Delete(sid: SessionId)
    | Complete(sid: SessionId, eligible: bool, now: nat)
    | Publish(sid: SessionId, copies: nat)
    | GatewayCrash
    | Noise

  datatype RelayStep =
    | Claim(ids: seq<SessionId>)
    | RelayPublish(accepted: bool, confirmed: bool)
    | Commit
    | Rollback

  datatype ConsumerStep =
    | Deliver(message: Message)
    | JobAwait(await: Await)
    | LastCall(outcome: Outcome)
    | Settle
    | Crash
    | ConnectionLost

  datatype ScannerStep =
    | Scan(ids: seq<SessionId>)
    | Skip
    | Start
    | ScanAwait(await: Await)
    | Stop

  datatype Label =
    | ByGateway(g: GatewayStep)
    | ByRelay(r: ActorId, relay: RelayStep)
    | ByConsumer(c: ActorId, consumer: ConsumerStep)
    | ByScanner(a: ActorId, scanner: ScannerStep)

  // ---- Gateway ----

  predicate GatewayCan(s: State, g: GatewayStep) {
    match g
    case Create(sid) => sid !in s.tables.sessions
    case Delete(sid) => sid in s.tables.sessions
    case Complete(sid, _, _) => sid in s.tables.sessions
    case Publish(sid, copies) => sid in s.toPublish && copies <= 2
    case GatewayCrash => true
    case Noise => true
  }

  /** `Complete` is the one transaction that updates the session and inserts the outbox row; its
      rollback changes nothing and so is no step. `Publish` is the inline publish, which may be
      tried twice and may reach the broker without being confirmed. */
  function GatewayDoes(s: State, g: GatewayStep): State
    requires GatewayCan(s, g)
  {
    match g
    case Create(sid) =>
      s.(tables := s.tables.(sessions := s.tables.sessions[sid := Session(false, false, false)]))
    case Delete(sid) =>
      s.(tables := s.tables.(sessions := s.tables.sessions[sid := s.tables.sessions[sid].(deleted := true)]))
    case Complete(sid, eligible, now) =>
      var session := s.tables.sessions[sid].(completed := true, eligible := eligible);
      s.(tables := s.tables.(sessions := s.tables.sessions[sid := session]),
         outbox := Enqueued(s.outbox, sid, now),
         toPublish := s.toPublish + {sid})
    case Publish(sid, copies) =>
      s.(toPublish := s.toPublish - {sid}, broker := Sent(s.broker, Completed(sid), copies))
    case GatewayCrash => s.(toPublish := {})
    case Noise => s.(broker := Sent(s.broker, Malformed, 1))
  }

  function Sent(b: Broker, m: Message, copies: nat): Broker {
    b.(ready := b.ready[m := b.ready[m] + copies])
  }

  // ---- Relay ----

  ghost function LockedByOthers(s: State, r: ActorId): set<SessionId> {
    set q, id | q in s.relays && q != r && s.relays[q].Open? && id in s.relays[q].claim :: id
  }

  ghost predicate RelayCan(cfg: Config, s: State, r: ActorId, step: RelayStep) {
    && r in s.relays
    && match step
       case Claim(ids) => s.relays[r].Closed? && IsClaim(s.outbox, LockedByOthers(s, r), ids, cfg.batchSize)
       case RelayPublish(accepted, confirmed) =>
         && s.relays[r].Open?
         && |s.relays[r].confirmed| < |s.relays[r].claim|
         && (confirmed ==> accepted)
       case Commit => s.relays[r].Open? && |s.relays[r].confirmed| == |s.relays[r].claim|
       case Rollback => s.relays[r].Open?
  }

  ghost function RelayDoes(cfg: Config, s: State, r: ActorId, step: RelayStep): State
    requires RelayCan(cfg, s, r, step)
  {
    match step
    case Claim(ids) => s.(relays := s.relays[r := Open(ids, [])])
    case RelayPublish(accepted, confirmed) =>
      var open := s.relays[r];
      s.(broker := if accepted then Sent(s.broker, Completed(open.claim[|open.confirmed|]), 1) else s.broker,
         relays := s.relays[r := open.(confirmed := open.confirmed + [confirmed])])
    case Commit =>
      var open := s.relays[r];
      s.(outbox := Drained(s.outbox, open.claim, open.confirmed, cfg.relayMaxAttempts),
         relays := s.relays[r := Closed])
    case Rollback => s.(relays := s.relays[r := Closed])
  }

  // ---- Consumer ----

  predicate Holds(consumer: Consumer, m: Message) {
    consumer.Busy? && consumer.tag.Some? && consumer.message == m
  }

  predicate ConsumerCan(s: State, c: ActorId, step: ConsumerStep) {
    && c in s.consumers
    && var me := s.consumers[c];
       match step
       case Deliver(m) => me.Idle? && m in s.broker.ready
       case JobAwait(await) => me.Busy? && me.message.Completed? && me.stage.Attempt? && Answers(me.stage.pc, await)
       case LastCall(_) => me.Busy? && me.message.Completed? && me.stage.MarkFailed?
       case Settle => me.Busy? && me.stage.Settling?
       case Crash => true
       case ConnectionLost => me.Busy? && me.tag.Some?
  }

  /** Where an attempt goes after one await: on, or to settlement, or to the next attempt. */
  function NextStage(cfg: Config, n: nat, next: Next): Stage {
    match next
    case Goto(pc) => Attempt(n, pc)
    case Return => Settling(Ack)
    case Raise(true) => Settling(Reject)
    case Raise(false) => if n < cfg.maxAttempts then Attempt(n + 1, Fetch) else MarkFailed
  }

  function ConsumerDoes(cfg: Config, s: State, c: ActorId, step: ConsumerStep): State
    requires ConsumerCan(s, c, step)
  {
    var me := s.consumers[c];
    match step
    case Deliver(m) =>
      var stage := if m.Completed? then Attempt(1, Fetch) else Settling(Reject);
      s.(consumers := s.consumers[c := Busy(m, Some(s.broker.nextTag), stage)],
         broker := s.broker.(ready := s.broker.ready - multiset{m}, nextTag := s.broker.nextTag + 1))
    case JobAwait(await) =>
      var (tables, next) := JobStep(s.tables, me.message.sid, cfg.provider, me.stage.pc, await);
      s.(tables := tables,
         consumers := s.consumers[c := me.(stage := NextStage(cfg, me.stage.n, next))])
    case LastCall(outcome) =>
      var failed := WithFailed(s.tables, me.message.sid, cfg.provider);
      s.(tables := After(outcome, s.tables, failed),
         consumers := s.consumers[c := me.(stage := Settling(if outcome == Done then Ack else Nack))])
    case Settle =>
      // Settling on a lost connection raises and ends the worker; the broker has the message back.
      if me.tag.None? then s.(consumers := s.consumers[c := Idle])
      else
        var entry := Settled(me.tag.value, me.message, me.stage.how);
        var b := s.broker.(settled := s.broker.settled + [entry]);
        s.(consumers := s.consumers[c := Idle],
           broker := if me.stage.how == Nack then Sent(b, me.message, 1) else b)
    case Crash =>
      s.(consumers := s.consumers[c := Idle],
         broker := if me.Busy? && me.tag.Some? then Sent(s.broker, me.message, 1) else s.broker)
    case ConnectionLost =>
      s.(consumers := s.consumers[c := me.(tag := None)],
         broker := Sent(s.broker, me.message, 1))
  }

  // ---- Scanner ----

  /** A completed, present session with no result row, or with one that failed. */
  predicate IsCandidate(t: Tables, sid: SessionId) {
    && sid in t.sessions && t.sessions[sid].completed && !t.sessions[sid].deleted
    && (sid in t.results ==> t.results[sid].status == Status.Failed)
  }

  predicate ScannerCan(s: State, a: ActorId, step: ScannerStep) {
    && a in s.scanners
    && var me := s.scanners[a];
       match step
       case Scan(ids) => me.Resting? && forall i :: 0 <= i < |ids| ==> IsCandidate(s.tables, ids[i])
       case Skip => me.Scanning? && me.job.None? && me.todo != []
       case Start => me.Scanning? && me.job.None? && me.todo != []
       case ScanAwait(await) => me.Scanning? && me.job.Some? && Answers(me.job.value.pc, await)
       case Stop => true
  }

  /** One job at a time, no retries: a job that raises is counted and left. */
  function ScannerDoes(cfg: Config, s: State, a: ActorId, step: ScannerStep): State
    requires ScannerCan(s, a, step)
  {
    var me := s.scanners[a];
    match step
    case Scan(ids) => s.(scanners := s.scanners[a := Scanning(ids, None)])
    case Skip => s.(scanners := s.scanners[a := Scanning(me.todo[1..], None)])
    case Start => s.(scanners := s.scanners[a := Scanning(me.todo[1..], Some(ScanJob(me.todo[0], Fetch)))])
    case ScanAwait(await) =>
      var ScanJob(sid, pc) := me.job.value;
      var (tables, next) := JobStep(s.tables, sid, cfg.provider, pc, await);
      var job := if next.Goto? then Some(ScanJob(sid, next.pc)) else None;
      s.(tables := tables, scanners := s.scanners[a := me.(job := job)])
    case Stop => s.(scanners := s.scanners[a := Resting])
  }

  // ---- Runs ----

  ghost predicate Can(cfg: Config, s: State, l: Label) {
    match l
    case ByGateway(g) => GatewayCan(s, g)
    case ByRelay(r, step) => RelayCan(cfg, s, r, step)
    case ByConsumer(c, step) => ConsumerCan(s, c, step)
    case ByScanner(a, step) => ScannerCan(s, a, step)
  }

  ghost function Do(cfg: Config, s: State, l: Label): State
    requires Can(cfg, s, l)
  {
    match l
    case ByGateway(g) => GatewayDoes(s, g)
    case ByRelay(r, step) => RelayDoes(cfg, s, r, step)
    case ByConsumer(c, step) => ConsumerDoes(cfg, s, c, step)
    case ByScanner(a, step) => ScannerDoes(cfg, s, a, step)
  }

  ghost predicate Runs(cfg: Config, s: State, ls: seq<Label>)
    decreases |ls|
  {
    ls == [] || (Can(cfg, s, ls[0]) && Runs(cfg, Do(cfg, s, ls[0]), ls[1..]))
  }

  ghost function Ends(cfg: Config, s: State, ls: seq<Label>): State
    requires Runs(cfg, s, ls)
    decreases |ls|
  {
    if ls == [] then s else Ends(cfg, Do(cfg, s, ls[0]), ls[1..])
  }

  ghost predicate ValidConfig(cfg: Config) {
    cfg.maxAttempts >= 1 && cfg.relayMaxAttempts >= 1 && cfg.batchSize >= 1
  }

  /** Nothing stored and every process at rest; how many of each there are is left open. */
  ghost predicate IsInitial(s: State) {
    && s.tables == Tables(map[], map[], {}, map[])
    && s.outbox == map[]
    && s.broker == Broker(multiset{}, 0, [])
    && s.toPublish == {}
    && (forall c :: c in s.consumers ==> s.consumers[c].Idle?)
    && (forall a :: a in s.scanners ==> s.scanners[a].Resting?)
    && (forall r :: r in s.relays ==> s.relays[r].Closed?)
  }

  // ---- Runs put together ----

  lemma {:induction false} RunsJoin(cfg: Config, s: State, a: seq<Label>, b: seq<Label>)
    requires Runs(cfg, s, a) && Runs(cfg, Ends(cfg, s, a), b)
    ensures Runs(cfg, s, a + b)
    ensures Ends(cfg, s, a + b) == Ends(cfg, Ends(cfg, s, a), b)
    decreases |a|
  {
    if a == [] {
      assert a + b == b;
    } else {
      RunsJoin(cfg, Do(cfg, s, a[0]), a[1..], b);
      assert (a + b)[1..] == a[1..] + b;
    }
  }

  lemma RunsFirst(cfg: Config, s: State, l: Label, rest: seq<Label>)
    requires Can(cfg, s, l) && Runs(cfg, Do(cfg, s, l), rest)
    ensures Runs(cfg, s, [l] + rest)
    ensures Ends(cfg, s, [l] + rest) == Ends(cfg, Do(cfg, s, l), rest)
  {
    assert ([l] + rest)[1..] == rest;
  }
}
