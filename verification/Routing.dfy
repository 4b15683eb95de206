/** One relay service: its two tables, the command loop, and what a run leaves in them. */
module Routing {
  import opened Bytes
  import Protocol

  type PublicKey = Protocol.PublicKey

  /** A sending half of a write loop's channel. */
  type Sink = nat

  datatype Packet = Packet(source: PublicKey, target: PublicKey, payload: seq<byte>)

  /** `WriteLoopCommands`. Nothing sends its `_Stop`. */
  datatype WriteCommand = Transmit(packet: Packet) | Notify(key: PublicKey)

  datatype ServiceCommand =
    | Stop
    | Route(packet: Packet)
    | Subscribe(key: PublicKey, sink: Sink)
    | PeerPresent(key: PublicKey, sink: Sink)

  // ---------- the tables ----------

  datatype Tables = Tables(peers: map<PublicKey, Sink>, mesh: map<PublicKey, Sink>)

  /** Whether a client may mesh; `None` refuses the connection. */
  function CanMesh(server: Option<string>, client: Option<string>): Option<bool>
  {
    match (server, client)
    case (_, None) => Some(false)
    case (None, Some(_)) => None
    case (Some(s), Some(c)) => if s == c then Some(true) else None
  }

  /** Only a mesh key that is not the server's is refused, at a server without one too; no mesh key, no meshing. */
  lemma AdmissionIff(server: Option<string>, client: Option<string>)
    ensures CanMesh(server, client).None? <==> client.Some? && client != server
    ensures CanMesh(server, client) == Some(true) <==> client.Some? && client == server
    ensures CanMesh(server, client) == Some(false) <==> client.None?
  {}

  /** A client that connects takes its key over from whoever had it. */
  function Register(t: Tables, key: PublicKey, sink: Sink): Tables
  {
    t.(peers := t.peers[key := sink])
  }

  /** An announced key is entered only if it is not known yet. */
  function Learn(t: Tables, key: PublicKey, sink: Sink): Tables
  {
    if key in t.peers then t else t.(peers := t.peers[key := sink])
  }

  function Enlist(t: Tables, key: PublicKey, sink: Sink): Tables
  {
    t.(mesh := t.mesh[key := sink])
  }

  /** A notice: the sink it goes to and the key it announces. */
  type Notice = (Sink, PublicKey)

  /** `notify_all_mesh_peers`: the key, to everyone in the mesh. */
  function NoticesOf(t: Tables, key: PublicKey): set<Notice>
  {
    set m | m in t.mesh :: (t.mesh[m], key)
  }

  /** `notify_about_all_clients`: every key that is no mesh key, to one subscriber. */
  function FloodTo(t: Tables, sink: Sink): set<Notice>
  {
    set k | k in t.peers && k !in t.mesh :: (sink, k)
  }

  /** The flood goes to the subscriber alone, and is of the known keys that are in the mesh neither before nor now. */
  lemma FloodExcludesSubscriber(t: Tables, key: PublicKey, sink: Sink, n: Notice)
    ensures n in FloodTo(Enlist(t, key, sink), sink) <==>
            n.0 == sink && n.1 in t.peers && n.1 != key && n.1 !in t.mesh
  {}

  // ---------- a service and its steps ----------

  /** What happened to a service, in the order in which its lock was held. */
  datatype Event =
    | Registered(key: PublicKey, sink: Sink)
    | Heard(key: PublicKey, sink: Sink)
    | Joined(key: PublicKey, sink: Sink)      // a dialled link
    | Enlisted(key: PublicKey, sink: Sink)    // a subscriber
    | Routed(packet: Packet)

  /**
    `pending` are the notices of spawned tasks, `sending` a packet whose sink the command loop has
    looked up and not yet sent to, `sends` the commands handed to sinks, oldest first, `closed` the
    sinks whose write loop has ended; `log` is the history.
   */
  datatype Service = Service(
    tables: Tables,
    pending: multiset<Notice>,
    sending: Option<(Sink, Packet)>,
    sends: seq<(Sink, WriteCommand)>,
    closed: set<Sink>,
    running: bool,
    log: seq<Event>)

  const FRESH: Service := Service(Tables(map[], map[]), multiset{}, None, [], {}, true, [])

  datatype Step =
    | Join(key: PublicKey, sink: Sink)      // a dialled link enters the mesh
    | Accept(key: PublicKey, sink: Sink)    // `add_new_client`, not refused
    | Handle(command: ServiceCommand)       // a turn of `command_loop`, up to a send
    | Send                                  // the send
    | Deliver(notice: Notice)               // a notification task sends
    | Close(sink: Sink)                     // a write loop ends

  function Accepted(s: Service, key: PublicKey, sink: Sink): Service
  {
    s.(tables := Register(s.tables, key, sink),
       pending := s.pending + multiset(NoticesOf(s.tables, key)),
       log := s.log + [Registered(key, sink)])
  }

  function Handled(s: Service, c: ServiceCommand): Service
  {
    if !s.running || s.sending.Some? then s else
    match c
    case Stop => s.(running := false)
    case Route(p) =>
      s.(sending := if p.target in s.tables.peers then Some((s.tables.peers[p.target], p)) else None,
          log := s.log + [Routed(p)])
    case Subscribe(key, sink) =>
      var t := Enlist(s.tables, key, sink);
      s.(tables := t, pending := s.pending + multiset(FloodTo(t, sink)), log := s.log + [Enlisted(key, sink)])
    case PeerPresent(key, sink) =>
      s.(tables := Learn(s.tables, key, sink), log := s.log + [Heard(key, sink)])
  }

  /** The packet is handed to its sink; at a closed one the command loop ends with it in hand. */
  function SentOn(s: Service): Service
  {
    if !s.running || s.sending.None? then s
    else if s.sending.value.0 in s.closed then s.(running := false)
    else s.(sends := s.sends + [(s.sending.value.0, Transmit(s.sending.value.1))], sending := None)
  }

  function NoticeSent(s: Service, n: Notice): Service
    requires n in s.pending
  {
    s.(pending := s.pending - multiset{n}, sends := if n.0 in s.closed then s.sends else s.sends + [(n.0, Notify(n.1))])
  }

  function Take(s: Service, step: Step): Service
  {
    match step
    case Join(key, sink) => s.(tables := Enlist(s.tables, key, sink), log := s.log + [Joined(key, sink)])
    case Accept(key, sink) => Accepted(s, key, sink)
    case Handle(c) => Handled(s, c)
    case Send => SentOn(s)
    case Deliver(n) => if n in s.pending then NoticeSent(s, n) else s
    case Close(sink) => s.(closed := s.closed + {sink})
  }

  function Run(steps: seq<Step>): Service
  {
    if steps == [] then FRESH else Take(Run(steps[..|steps| - 1]), steps[|steps| - 1])
  }

  // ---------- the routing table is a function of history ----------

  function LastRegistered(log: seq<Event>, k: PublicKey): Option<Sink>
  {
    if log == [] then None
    else
      var e := log[|log| - 1];
      if e.Registered? && e.key == k then Some(e.sink) else LastRegistered(log[..|log| - 1], k)
  }

  function FirstHeard(log: seq<Event>, k: PublicKey): Option<Sink>
  {
    if log == [] then None
    else if log[0].Heard? && log[0].key == k then Some(log[0].sink)
    else FirstHeard(log[1..], k)
  }

  lemma {:induction false} FirstHeardAppend(log: seq<Event>, e: Event, k: PublicKey)
    ensures FirstHeard(log + [e], k) ==
              if FirstHeard(log, k).Some? then FirstHeard(log, k)
              else if e.Heard? && e.key == k then Some(e.sink) else None
  {
    if log == [] {
      assert log + [e] == [e] && [e][1..] == [];
    } else {
      assert (log + [e])[1..] == log[1..] + [e];
      FirstHeardAppend(log[1..], e, k);
    }
  }

  function Lookup(t: Tables, k: PublicKey): Option<Sink>
  {
    if k in t.peers then Some(t.peers[k]) else None
  }

  /** The latest registration of a key decides, and failing that the first announcement of it. */
  ghost predicate TableMatchesLog(s: Service, k: PublicKey)
  {
    Lookup(s.tables, k) == if LastRegistered(s.log, k).Some? then LastRegistered(s.log, k) else FirstHeard(s.log, k)
  }

  /** What an event does to the entry of a key. */
  function EntryAfter(entry: Option<Sink>, e: Event, k: PublicKey): Option<Sink>
  {
    if e.Registered? && e.key == k then Some(e.sink)
    else if e.Heard? && e.key == k && entry.None? then Some(e.sink)
    else entry
  }

  lemma EventMakesEntry(s: Service, step: Step, k: PublicKey)
    ensures Lookup(Take(s, step).tables, k) == match EventOf(s, step)
                                               case Some(e) => EntryAfter(Lookup(s.tables, k), e, k)
                                               case None => Lookup(s.tables, k)
  {}

  lemma TakeMatchesLog(s: Service, step: Step, k: PublicKey)
    requires TableMatchesLog(s, k)
    ensures TableMatchesLog(Take(s, step), k)
  {
    EventMakesEntry(s, step, k);
    StepLogs(s, step);
    match EventOf(s, step)
    case Some(e) =>
      FirstHeardAppend(s.log, e, k);
      AppendEvent(s.log, e, k);
    case None => assert s.log + [] == s.log;
  }

  lemma {:induction false} TableIsHistory(steps: seq<Step>, k: PublicKey)
    ensures TableMatchesLog(Run(steps), k)
  {
    if steps != [] {
      TableIsHistory(steps[..|steps| - 1], k);
      TakeMatchesLog(Run(steps[..|steps| - 1]), steps[|steps| - 1], k);
    }
  }

  // ---------- and so is the mesh ----------

  predicate EntersMesh(e: Event, k: PublicKey) { (e.Joined? || e.Enlisted?) && e.key == k }

  function LastEnlisted(log: seq<Event>, k: PublicKey): Option<Sink>
  {
    if log == [] then None
    else
      var e := log[|log| - 1];
      if EntersMesh(e, k) then Some(e.sink) else LastEnlisted(log[..|log| - 1], k)
  }

  function MeshLookup(t: Tables, k: PublicKey): Option<Sink>
  {
    if k in t.mesh then Some(t.mesh[k]) else None
  }

  lemma LastEnlistedAppend(log: seq<Event>, e: Event, k: PublicKey)
    ensures LastEnlisted(log + [e], k) == if EntersMesh(e, k) then Some(e.sink) else LastEnlisted(log, k)
  {
    assert (log + [e])[..|log|] == log;
  }

  lemma EventEntersMesh(s: Service, step: Step, k: PublicKey)
    ensures MeshLookup(Take(s, step).tables, k) == match EventOf(s, step)
                                                   case Some(e) =>
                                                     if EntersMesh(e, k) then Some(e.sink) else MeshLookup(s.tables, k)
                                                   case None => MeshLookup(s.tables, k)
  {}

  /** The mesh entry of a key is its latest dialled link or subscription; there is none without either. */
  lemma {:induction false} MeshIsHistory(steps: seq<Step>, k: PublicKey)
    ensures MeshLookup(Run(steps).tables, k) == LastEnlisted(Run(steps).log, k)
  {
    if steps != [] {
      var s, step := Run(steps[..|steps| - 1]), steps[|steps| - 1];
      MeshIsHistory(steps[..|steps| - 1], k);
      EventEntersMesh(s, step, k);
      StepLogs(s, step);
      match EventOf(s, step)
      case Some(e) => LastEnlistedAppend(s.log, e, k);
      case None => assert s.log + [] == s.log;
    }
  }

  /** A key once known stays known, and a connected client is not displaced by an announcement. */
  lemma StepsKeepRoutes(s: Service, step: Step)
    ensures s.tables.peers.Keys <= Take(s, step).tables.peers.Keys
        && s.tables.mesh.Keys <= Take(s, step).tables.mesh.Keys
    ensures forall k | k in s.tables.peers && Take(s, step).tables.peers[k] != s.tables.peers[k] ::
             step.Accept? && step.key == k
  {}

  // ---------- packets: which are dropped, and in what order the others go out ----------

  /** The packets for `k` among the events. */
  function RoutedTo(log: seq<Event>, k: PublicKey): seq<Packet>
  {
    if log == [] then []
    else
      var e := log[|log| - 1];
      RoutedTo(log[..|log| - 1], k) + if e.Routed? && e.packet.target == k then [e.packet] else []
  }

  /** The packets for `k` among the sends. */
  function SentTo(sends: seq<(Sink, WriteCommand)>, k: PublicKey): seq<Packet>
  {
    if sends == [] then []
    else
      var c := sends[|sends| - 1].1;
      SentTo(sends[..|sends| - 1], k) + if c.Transmit? && c.packet.target == k then [c.packet] else []
  }

  predicate Mentions(e: Event, k: PublicKey)
  {
    (e.Registered? || e.Heard?) && e.key == k
  }

  /** Where in the log `k` first became known; its length if it never did. */
  function FirstMention(log: seq<Event>, k: PublicKey): (i: nat)
    ensures i <= |log|
    ensures i < |log| ==> Mentions(log[i], k)
    ensures forall j | 0 <= j < i :: !Mentions(log[j], k)
  {
    if log == [] then 0
    else
      var i := FirstMention(log[..|log| - 1], k);
      if i < |log| - 1 || Mentions(log[|log| - 1], k) then i else |log|
  }

  function For(p: Packet, k: PublicKey): seq<Packet>
  {
    if p.target == k then [p] else []
  }

  /** The packets for `k` that were sent on, and the one in hand. */
  function Passed(s: Service, k: PublicKey): seq<Packet>
  {
    SentTo(s.sends, k) + if s.sending.Some? then For(s.sending.value.1, k) else []
  }

  /** The packets routed for `k` are those from before it became known, and then those passed on. */
  ghost predicate DropsArePrefix(log: seq<Event>, passed: seq<Packet>, k: PublicKey)
  {
    RoutedTo(log, k) == RoutedTo(log[..FirstMention(log, k)], k) + passed
  }

  lemma AppendEvent(log: seq<Event>, e: Event, k: PublicKey)
    ensures RoutedTo(log + [e], k) == RoutedTo(log, k) + if e.Routed? then For(e.packet, k) else []
    ensures FirstMention(log + [e], k) ==
              if FirstMention(log, k) < |log| || Mentions(e, k) then FirstMention(log, k) else |log| + 1
    ensures LastRegistered(log + [e], k) == if e.Registered? && e.key == k then Some(e.sink) else LastRegistered(log, k)
  {
    assert (log + [e])[..|log|] == log;
  }

  lemma AppendSend(sends: seq<(Sink, WriteCommand)>, sink: Sink, c: WriteCommand, k: PublicKey)
    ensures SentTo(sends + [(sink, c)], k) == SentTo(sends, k) + if c.Transmit? then For(c.packet, k) else []
  {
    assert (sends + [(sink, c)])[..|sends|] == sends;
  }

  /** A packet is passed on just when its target is known; other events pass no packet. */
  lemma DropsExtend(log: seq<Event>, e: Event, passed: seq<Packet>, k: PublicKey)
    requires DropsArePrefix(log, passed, k)
    ensures DropsArePrefix(log + [e], passed + if e.Routed? && FirstMention(log, k) < |log| then For(e.packet, k)
        else [], k)
  {
    AppendEvent(log, e, k);
    EarlyExtends(log, e, k);
    var early, more := RoutedTo(log[..FirstMention(log, k)], k), if e.Routed? then For(e.packet, k) else [];
    if FirstMention(log, k) < |log| {
      Assoc(early, passed, more);
    } else {
      assert log[..|log|] == log;
      Unpassed(early, passed, more);
    }
  }

  /** The packets from before the key was known stay the same once it is; until then they are all packets. */
  lemma EarlyExtends(log: seq<Event>, e: Event, k: PublicKey)
    ensures var log' := log + [e];
            RoutedTo(log'[..FirstMention(log', k)], k) ==
              if FirstMention(log, k) < |log| then RoutedTo(log[..FirstMention(log, k)], k) else RoutedTo(log', k)
  {
    AppendEvent(log, e, k);
    var i := FirstMention(log, k);
    if i < |log| {
      assert (log + [e])[..i] == log[..i];
    } else if Mentions(e, k) {
      assert (log + [e])[..i] == log;
    } else {
      assert (log + [e])[..i + 1] == log + [e];
    }
  }

  lemma Unpassed(early: seq<Packet>, passed: seq<Packet>, more: seq<Packet>)
    requires early == early + passed
    ensures early + more == (early + more) + (passed + [])
  {
    assert |passed| == 0;
  }

  /** The table knows exactly the keys that history mentions. */
  ghost predicate KnownIffMentioned(s: Service, k: PublicKey)
  {
    k in s.tables.peers <==> FirstMention(s.log, k) < |s.log|
  }

  /** What a step enters into the log: at most one event. */
  function EventOf(s: Service, step: Step): (e: Option<Event>)
  {
    match step
    case Join(key, sink) => Some(Joined(key, sink))
    case Accept(key, sink) => Some(Registered(key, sink))
    case Handle(c) =>
      if !s.running || s.sending.Some? then None else
      (match c
       case Stop => None
       case Route(p) => Some(Routed(p))
       case Subscribe(key, sink) => Some(Enlisted(key, sink))
       case PeerPresent(key, sink) => Some(Heard(key, sink)))
    case _ => None
  }

  lemma StepLogs(s: Service, step: Step)
    ensures Take(s, step).log == s.log + match EventOf(s, step) case Some(e) => [e] case None => []
    ensures forall k :: k in Take(s, step).tables.peers <==>
              k in s.tables.peers || (EventOf(s, step).Some? && Mentions(EventOf(s, step).value, k))
  {}

  /** A step passes on the packet it routes, if its target is known, and no other. */
  lemma StepPasses(s: Service, step: Step, k: PublicKey)
    ensures var e := EventOf(s, step);
            Passed(Take(s, step), k) ==
              Passed(s, k) + if e.Some? && e.value.Routed? && k in s.tables.peers then For(e.value.packet, k) else []
  {
    match step
    case Handle(c) => HandlePasses(s, c, k);
    case Send => SendPasses(s, k);
    case Deliver(n) => NoticePasses(s, n, k);
    case _ => assert Passed(s, k) + [] == Passed(s, k);
  }

  lemma HandlePasses(s: Service, c: ServiceCommand, k: PublicKey)
    ensures Passed(Handled(s, c), k) ==
              Passed(s, k) + if s.running && s.sending.None? && c.Route? && k in s.tables.peers then For(c.packet, k)
                  else []
  {
    assert Passed(s, k) + [] == Passed(s, k);
    if s.sending.None? { assert Passed(s, k) == SentTo(s.sends, k); }
  }

  lemma SendPasses(s: Service, k: PublicKey)
    ensures Passed(SentOn(s), k) == Passed(s, k) && Passed(s, k) + [] == Passed(s, k)
  {
    if s.sending.Some? { AppendSend(s.sends, s.sending.value.0, Transmit(s.sending.value.1), k); }
  }

  lemma NoticePasses(s: Service, n: Notice, k: PublicKey)
    ensures (n in s.pending ==> Passed(NoticeSent(s, n), k) == Passed(s, k)) && Passed(s, k) + [] == Passed(s, k)
  {
    AppendSend(s.sends, n.0, Notify(n.1), k);
    assert SentTo(s.sends, k) + [] == SentTo(s.sends, k);
  }

  lemma TakeKeepsOrder(s: Service, step: Step, k: PublicKey)
    requires DropsArePrefix(s.log, Passed(s, k), k) && KnownIffMentioned(s, k)
    ensures DropsArePrefix(Take(s, step).log, Passed(Take(s, step), k), k) && KnownIffMentioned(Take(s, step), k)
  {
    StepLogs(s, step);
    StepPasses(s, step, k);
    var e := EventOf(s, step);
    if e.Some? {
      AppendEvent(s.log, e.value, k);
      DropsExtend(s.log, e.value, Passed(s, k), k);
    } else {
      assert s.log + [] == s.log && Passed(s, k) + [] == Passed(s, k);
    }
  }

  /**
    The packets passed on for a key, the one in hand included, are those routed for it, in order
    and once each, except for the ones that came before the key was first registered or announced.
   */
  lemma {:induction false} PacketsKeepOrder(steps: seq<Step>, k: PublicKey)
    ensures DropsArePrefix(Run(steps).log, Passed(Run(steps), k), k) && KnownIffMentioned(Run(steps), k)
  {
    if steps != [] {
      PacketsKeepOrder(steps[..|steps| - 1], k);
      TakeKeepsOrder(Run(steps[..|steps| - 1]), steps[|steps| - 1], k);
    }
  }

  // ---------- which sink a packet is sent to ----------

  /** The sink registered under the key, or was the first to announce it. */
  ghost predicate Justified(log: seq<Event>, k: PublicKey, sink: Sink)
  {
    Registered(k, sink) in log || FirstHeard(log, k) == Some(sink)
  }

  lemma JustifiedStays(log: seq<Event>, e: Event, k: PublicKey, sink: Sink)
    requires Justified(log, k, sink)
    ensures Justified(log + [e], k, sink)
  {
    FirstHeardAppend(log, e, k);
  }

  lemma {:induction false} LastRegisteredInLog(log: seq<Event>, k: PublicKey)
    ensures LastRegistered(log, k).Some? ==> Registered(k, LastRegistered(log, k).value) in log
    ensures LastRegistered(log, k).None? ==> forall sink :: Registered(k, sink) !in log
  {
    if log != [] {
      LastRegisteredInLog(log[..|log| - 1], k);
      assert log == log[..|log| - 1] + [log[|log| - 1]];
    }
  }

  /**
    Where a packet goes: a sink that has not registered under the packet's target gets the packet
    exactly if nobody has, and it was the first to announce the target.
   */
  lemma LookupIff(steps: seq<Step>, k: PublicKey, sink: Sink)
    requires Registered(k, sink) !in Run(steps).log
    ensures Lookup(Run(steps).tables, k) == Some(sink) <==>
              LastRegistered(Run(steps).log, k).None? && FirstHeard(Run(steps).log, k) == Some(sink)
  {
    TableIsHistory(steps, k);
    LastRegisteredInLog(Run(steps).log, k);
  }

  ghost predicate AllJustified(s: Service)
  {
    && (s.sending.Some? ==> Justified(s.log, s.sending.value.1.target, s.sending.value.0))
    && forall i | 0 <= i < |s.sends| && s.sends[i].1.Transmit? ::
       Justified(s.log, s.sends[i].1.packet.target, s.sends[i].0)
  }

  lemma StepJustified(s: Service, step: Step, k: PublicKey, sink: Sink)
    requires Justified(s.log, k, sink)
    ensures Justified(Take(s, step).log, k, sink)
  {
    StepLogs(s, step);
    match EventOf(s, step)
    case Some(e) => JustifiedStays(s.log, e, k, sink);
    case None => assert s.log + [] == s.log;
  }

  lemma LookupJustified(s: Service, k: PublicKey)
    requires TableMatchesLog(s, k) && k in s.tables.peers
    ensures Justified(s.log, k, s.tables.peers[k])
  {
    LastRegisteredInLog(s.log, k);
  }

  /** The packet in hand stays there, is sent, or was just looked up; what was sent stays sent. */
  lemma TakeSends(s: Service, step: Step)
    ensures var s' := Take(s, step);
            && (s'.sends == s.sends || exists c ::
                        s'.sends == s.sends + [c] && (c.1.Notify? || s.sending == Some((c.0, c.1.packet))))
            && (s'.sending.Some? ==>
                  s'.sending == s.sending ||
                  (s'.sending.value.1.target in s.tables.peers
                      && s'.sending.value.0 == s.tables.peers[s'.sending.value.1.target]))
  {
    match step
    case Send =>
      assert s.running && s.sending.Some? && s.sending.value.0 !in s.closed ==>
          Take(s, step).sends == s.sends + [(s.sending.value.0, Transmit(s.sending.value.1))];
    case Deliver(n) =>
      assert n in s.pending && n.0 !in s.closed ==> Take(s, step).sends == s.sends + [(n.0, Notify(n.1))];
    case _ =>
  }

  lemma TakeJustified(s: Service, step: Step)
    requires AllJustified(s) && forall k :: TableMatchesLog(s, k)
    ensures AllJustified(Take(s, step))
  {
    var s' := Take(s, step);
    TakeSends(s, step);
    if s'.sending.Some? {
      if s'.sending != s.sending { LookupJustified(s, s'.sending.value.1.target); }
      StepJustified(s, step, s'.sending.value.1.target, s'.sending.value.0);
    }
    forall i | 0 <= i < |s'.sends| && s'.sends[i].1.Transmit?
      ensures Justified(s'.log, s'.sends[i].1.packet.target, s'.sends[i].0)
    {
      StepJustified(s, step, s'.sends[i].1.packet.target, s'.sends[i].0);
    }
  }

  /** Every packet ever sent went to a sink that had registered under its target or first announced it. */
  lemma {:induction false} SendsAreJustified(steps: seq<Step>)
    ensures AllJustified(Run(steps))
  {
    if steps != [] {
      var before := Run(steps[..|steps| - 1]);
      SendsAreJustified(steps[..|steps| - 1]);
      forall k ensures TableMatchesLog(before, k) { TableIsHistory(steps[..|steps| - 1], k); }
      TakeJustified(before, steps[|steps| - 1]);
    }
  }

  // ---------- the service object ----------

  class DerpService {
    const meshKey: Option<string>
    var peersSinks: map<PublicKey, Sink>
    var mesh: map<PublicKey, Sink>
    var pending: multiset<Notice>
    var sending: Option<(Sink, Packet)>
    var sends: seq<(Sink, WriteCommand)>
    var closed: set<Sink>
    var running: bool
    ghost var log: seq<Event>

    ghost function Now(): Service
      reads this
    {
      Service(Tables(peersSinks, mesh), pending, sending, sends, closed, running, log)
    }

    constructor (meshKey: Option<string>)
      ensures this.meshKey == meshKey && Now() == FRESH
    {
      this.meshKey := meshKey;
      peersSinks, mesh, pending, sending, sends, closed, running, log := map[], map[], multiset{}, None, [], {}, true,
          [];
    }

    method AddNewClient(key: PublicKey, offered: Option<string>, sink: Sink) returns (canMesh: Option<bool>)
      modifies this
      ensures canMesh == CanMesh(meshKey, offered)
      ensures canMesh.None? <==> offered.Some? && offered != meshKey
      ensures canMesh == Some(true) <==> offered.Some? && offered == meshKey
      ensures Now() == if canMesh.Some? then Accepted(old(Now()), key, sink) else old(Now())
    {
      if meshKey.None? && offered.Some? { return None; }
      if meshKey.Some? && offered.Some? && meshKey.value != offered.value { return None; }
      canMesh := Some(meshKey.Some? && offered.Some?);
      peersSinks := peersSinks[key := sink];
      log := log + [Registered(key, sink)];
      NotifyAllMeshPeers(key);
    }

    method NotifyAllMeshPeers(key: PublicKey)
      modifies this`pending
      ensures pending == old(pending) + multiset(NoticesOf(Tables(peersSinks, mesh), key))
    {
      var snapshot := mesh;
      var notices := set m | m in snapshot :: (snapshot[m], key);
      assert notices == NoticesOf(Tables(peersSinks, mesh), key);
      pending := pending + multiset(notices);
    }

    /** Takes commands until there are no more, one stops the loop, or a packet meets a closed sink. */
    method CommandLoop(commands: seq<ServiceCommand>)
      requires sending.None?
      modifies this
      ensures Now() == Loop(old(Now()), commands)
    {
      var i := 0;
      while i < |commands| && running
        invariant i <= |commands| && (running ==> sending.None?)
        invariant Loop(Now(), commands[i..]) == Loop(old(Now()), commands)
      {
        assert commands[i..][0] == commands[i] && commands[i..][1..] == commands[i + 1..];
        HandleCommand(commands[i]);
        SendPacket();
        i := i + 1;
      }
    }

    /** A turn of the loop, for a packet up to the lookup of its sink. */
    method HandleCommand(c: ServiceCommand)
      requires running && sending.None?
      modifies this
      ensures Now() == Handled(old(Now()), c)
    {
      match c
      case Stop => running := false;
      case Route(p) =>
        log := log + [Routed(p)];
        if p.target in peersSinks { sending := Some((peersSinks[p.target], p)); }
      case Subscribe(key, sink) =>
        mesh := mesh[key := sink];
        var currentPeers := set k | k in peersSinks && k !in mesh;
        NotifyAboutAllClients(sink, currentPeers);
        assert (set k | k in currentPeers :: (sink, k)) == FloodTo(Tables(peersSinks, mesh), sink);
        log := log + [Enlisted(key, sink)];
      case PeerPresent(key, sink) =>
        if key !in peersSinks { peersSinks := peersSinks[key := sink]; }
        log := log + [Heard(key, sink)];
    }

    /** The awaited send of the packet in hand, if there is one. */
    method SendPacket()
      modifies this
      ensures Now() == SentOn(old(Now()))
      ensures running ==> sending.None?
    {
      if !running || sending.None? { return; }
      if sending.value.0 in closed {
        running := false;
        return;
      }
      sends := sends + [(sending.value.0, Transmit(sending.value.1))];
      sending := None;
    }

    /** A dialled link enters the mesh; nobody is told about the clients, as there are none yet. */
    method JoinMesh(key: PublicKey, sink: Sink)
      modifies this
      ensures Now() == Take(old(Now()), Join(key, sink))
    {
      mesh := mesh[key := sink];
      log := log + [Joined(key, sink)];
    }

    /** One send of a notification task; a sink that is closed refuses it and the task goes on. */
    method DeliverNotice(n: Notice)
      requires n in pending
      modifies this
      ensures Now() == NoticeSent(old(Now()), n)
    {
      pending := pending - multiset{n};
      if n.0 !in closed { sends := sends + [(n.0, Notify(n.1))]; }
    }

    method NotifyAboutAllClients(sink: Sink, keys: set<PublicKey>)
      modifies this`pending
      ensures pending == old(pending) + multiset(set k | k in keys :: (sink, k))
    {
      pending := pending + multiset(set k | k in keys :: (sink, k));
    }
  }

  function Loop(s: Service, commands: seq<ServiceCommand>): Service
    decreases |commands|
  {
    if commands == [] || !s.running then s else Loop(SentOn(Handled(s, commands[0])), commands[1..])
  }

  function Turns(commands: seq<ServiceCommand>): seq<Step>
  {
    if commands == [] then [] else [Handle(commands[0]), Send] + Turns(commands[1..])
  }

  lemma TurnIsTwoSteps(steps: seq<Step>, c: ServiceCommand)
    ensures Run(steps + [Handle(c), Send]) == SentOn(Handled(Run(steps), c))
  {
    var turn := [Handle(c), Send];
    assert (steps + turn)[..|steps| + 1] == steps + [Handle(c)] && (steps + [Handle(c)])[..|steps|] == steps;
  }

  lemma TurnsSplit(steps: seq<Step>, commands: seq<ServiceCommand>, m: nat)
    requires m < |commands|
    ensures steps + Turns(commands[..m + 1]) == (steps + [Handle(commands[0]), Send]) + Turns(commands[1..][..m])
  {
    var turn := [Handle(commands[0]), Send];
    assert commands[..m + 1][1..] == commands[1..][..m];
    assert steps + (turn + Turns(commands[1..][..m])) == (steps + turn) + Turns(commands[1..][..m]);
  }

  /**
    The command loop is a run of turns and sends, for all the commands or up to the one that ends it,
    so what holds of all runs holds of it.
   */
  lemma {:induction false} LoopIsRun(steps: seq<Step>, commands: seq<ServiceCommand>) returns (n: nat)
    ensures n <= |commands| && Loop(Run(steps), commands) == Run(steps + Turns(commands[..n]))
    ensures n < |commands| ==> !Loop(Run(steps), commands).running
    decreases |commands|
  {
    if commands == [] || !Run(steps).running {
      n := 0;
      assert steps + Turns(commands[..0]) == steps;
    } else {
      var turn := [Handle(commands[0]), Send];
      TurnIsTwoSteps(steps, commands[0]);
      var m := LoopIsRun(steps + turn, commands[1..]);
      n := m + 1;
      TurnsSplit(steps, commands, m);
    }
  }

  // ---------- the end of the loop ----------

  lemma {:induction false} LoopAppend(s: Service, a: seq<ServiceCommand>, b: seq<ServiceCommand>)
    ensures Loop(s, a + b) == Loop(Loop(s, a), b)
    decreases |a|
  {
    if a == [] {
      assert a + b == b;
    } else if s.running {
      assert (a + b)[0] == a[0] && (a + b)[1..] == a[1..] + b;
      LoopAppend(SentOn(Handled(s, a[0])), a[1..], b);
    }
  }

  lemma {:induction false} LoopHoldsNothing(s: Service, commands: seq<ServiceCommand>)
    requires s.running ==> s.sending.None?
    ensures Loop(s, commands).running ==> Loop(s, commands).sending.None?
    decreases |commands|
  {
    if commands != [] && s.running { LoopHoldsNothing(SentOn(Handled(s, commands[0])), commands[1..]); }
  }

  /** A loop that is still running when it is told to stop, stops, and what comes behind that is not taken up. */
  lemma StopIsFinal(s: Service, a: seq<ServiceCommand>, b: seq<ServiceCommand>)
    requires s.sending.None? && Loop(s, a).running
    ensures Loop(s, a + [Stop] + b) == Loop(s, a).(running := false)
  {
    LoopAppend(s, a, [Stop]);
    LoopAppend(s, a + [Stop], b);
    LoopHoldsNothing(s, a);
    assert [Stop][1..] == [];
  }

  /** A packet that meets a closed sink ends the loop too, and only that and a stop do. */
  lemma TurnEndsIff(s: Service, c: ServiceCommand)
    requires s.running && s.sending.None?
    ensures !SentOn(Handled(s, c)).running <==>
            c.Stop? || (c.Route? && c.packet.target in s.tables.peers && s.tables.peers[c.packet.target] in s.closed)
    ensures s.(running := false) == Handled(s.(running := false), c) == SentOn(s.(running := false))
  {}
}
