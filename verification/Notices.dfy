/** Who is told of which key, and how often: exactly what the history of a service calls for. */
module Notices {
  import opened Bytes
  import opened Routing

  // ---------- what steps do, one at a time ----------

  /** What the steps that enter a key leave in the tables. */
  lemma StepsEnter(s: Service, key: PublicKey, sink: Sink)
    ensures Lookup(Take(s, Accept(key, sink)).tables, key) == Some(sink)
    ensures MeshLookup(Take(s, Join(key, sink)).tables, key) == Some(sink)
    ensures s.running && s.sending.None? ==>
              && MeshLookup(Take(s, Handle(Subscribe(key, sink))).tables, key) == Some(sink)
              && Lookup(Take(s, Handle(PeerPresent(key, sink))).tables, key)
                 == Some(if Lookup(s.tables, key).Some? then Lookup(s.tables, key).value else sink)
  {}

  /** A registered key is announced once to every sink in the mesh, and nothing else is. */
  lemma AcceptNotifies(s: Service, key: PublicKey, sink: Sink, n: Notice)
    ensures Take(s, Accept(key, sink)).pending[n] ==
            s.pending[n] + if n.1 == key && InMesh(s.tables, n.0) then 1 else 0
  {}

  /** Some mesh entry names the sink. */
  ghost predicate InMesh(t: Tables, sink: Sink)
  {
    exists m :: m in t.mesh && t.mesh[m] == sink
  }

  /** A subscriber is told once of every key known here that is neither in the mesh nor its own, and of nothing else. */
  lemma SubscribeFloods(s: Service, key: PublicKey, sink: Sink, n: Notice)
    requires s.running && s.sending.None?
    ensures Take(s, Handle(Subscribe(key, sink))).pending[n] ==
            s.pending[n] +
            if n.0 == sink && n.1 in s.tables.peers && n.1 != key && n.1 !in s.tables.mesh then 1 else 0
  {
    FloodExcludesSubscriber(s.tables, key, sink, n);
  }

  // ---------- history calls for a notice ----------

  ghost predicate EnlistedAs(log: seq<Event>, sink: Sink)
  {
    exists m :: LastEnlisted(log, m) == Some(sink)
  }

  /**
    After `log`, the event calls for the notice: its key registers and its sink is in the mesh; or its
    sink subscribes and its key has been registered or announced, is not in the mesh, and is not the subscriber's.
   */
  ghost predicate CallsFor(log: seq<Event>, e: Event, n: Notice)
  {
    match e
    case Registered(key, _) => key == n.1 && EnlistedAs(log, n.0)
    case Enlisted(key, sink) =>
      sink == n.0 && key != n.1 && FirstMention(log, n.1) < |log| && LastEnlisted(log, n.1).None?
    case _ => false
  }

  ghost function CalledFor(log: seq<Event>, n: Notice): nat
  {
    if log == [] then 0
    else
      var before := log[..|log| - 1];
      CalledFor(before, n) + if CallsFor(before, log[|log| - 1], n) then 1 else 0
  }

  /** How often a sink has been handed the notice. */
  function TimesTold(sends: seq<(Sink, WriteCommand)>, n: Notice): nat
  {
    if sends == [] then 0
    else TimesTold(sends[..|sends| - 1], n) + if sends[|sends| - 1] == (n.0, Notify(n.1)) then 1 else 0
  }

  lemma CalledForAppend(log: seq<Event>, e: Event, n: Notice)
    ensures CalledFor(log + [e], n) == CalledFor(log, n) + if CallsFor(log, e, n) then 1 else 0
  {
    assert (log + [e])[..|log|] == log;
  }

  lemma TimesToldAppend(sends: seq<(Sink, WriteCommand)>, c: (Sink, WriteCommand), n: Notice)
    ensures TimesTold(sends + [c], n) == TimesTold(sends, n) + if c == (n.0, Notify(n.1)) then 1 else 0
  {
    assert (sends + [c])[..|sends|] == sends;
  }

  // ---------- notices are issued as history calls for them ----------

  function Issued(s: Service, n: Notice): nat { s.pending[n] + TimesTold(s.sends, n) }

  /** The tables are those of the log, as far as a notice is concerned. */
  ghost predicate Recorded(s: Service, n: Notice)
  {
    (forall m :: MeshLookup(s.tables, m) == LastEnlisted(s.log, m)) && KnownIffMentioned(s, n.1)
  }

  lemma InMeshIff(s: Service, n: Notice)
    requires Recorded(s, n)
    ensures InMesh(s.tables, n.0) <==> EnlistedAs(s.log, n.0)
  {
    if InMesh(s.tables, n.0) {
      var m :| m in s.tables.mesh && s.tables.mesh[m] == n.0;
      assert MeshLookup(s.tables, m) == LastEnlisted(s.log, m);
    }
    if EnlistedAs(s.log, n.0) {
      var m :| LastEnlisted(s.log, m) == Some(n.0);
      assert MeshLookup(s.tables, m) == LastEnlisted(s.log, m);
    }
  }

  /** Only events issue notices, those that call for them. */
  lemma HandleIssues(s: Service, c: ServiceCommand, n: Notice)
    requires Recorded(s, n)
    ensures var e := EventOf(s, Handle(c));
            Issued(Handled(s, c), n) == Issued(s, n) + if e.Some? && CallsFor(s.log, e.value, n) then 1 else 0
  {
    if c.Subscribe? && s.running && s.sending.None? {
      SubscribeFloods(s, c.key, c.sink, n);
      assert MeshLookup(s.tables, n.1) == LastEnlisted(s.log, n.1);
    }
  }

  lemma AcceptIssues(s: Service, key: PublicKey, sink: Sink, n: Notice)
    requires Recorded(s, n)
    ensures Issued(Accepted(s, key, sink), n) ==
            Issued(s, n) + if CallsFor(s.log, Registered(key, sink), n) then 1 else 0
  {
    InMeshIff(s, n);
    AcceptNotifies(s, key, sink, n);
  }

  /** A send moves a notice from pending to told, unless its sink is closed. */
  lemma DeliverIssues(s: Service, d: Notice, n: Notice)
    requires d in s.pending
    ensures Issued(NoticeSent(s, d), n) == Issued(s, n) - if d == n && n.0 in s.closed then 1 else 0
  {
    if d.0 !in s.closed { TimesToldAppend(s.sends, (d.0, Notify(d.1)), n); }
  }

  lemma SendIssues(s: Service, n: Notice)
    ensures Issued(SentOn(s), n) == Issued(s, n)
  {
    if s.sending.Some? { TimesToldAppend(s.sends, (s.sending.value.0, Transmit(s.sending.value.1)), n); }
  }

  lemma StepIssues(s: Service, step: Step, n: Notice)
    requires Recorded(s, n)
    ensures var e := EventOf(s, step);
            var all := Issued(s, n) + if e.Some? && CallsFor(s.log, e.value, n) then 1 else 0;
            Issued(Take(s, step), n) <= all && (n.0 !in s.closed ==> Issued(Take(s, step), n) == all)
  {
    match step
    case Join(_, _) =>
    case Accept(key, sink) => AcceptIssues(s, key, sink, n);
    case Handle(c) => HandleIssues(s, c, n);
    case Send => SendIssues(s, n);
    case Deliver(d) => if d in s.pending { DeliverIssues(s, d, n); }
    case Close(_) =>
  }

  lemma RunRecords(steps: seq<Step>, n: Notice)
    ensures Recorded(Run(steps), n)
  {
    forall m ensures MeshLookup(Run(steps).tables, m) == LastEnlisted(Run(steps).log, m) {
      MeshIsHistory(steps, m);
    }
    PacketsKeepOrder(steps, n.1);
  }

  /**
    After any steps, a sink that is open has been told, or is about to be told, of a key exactly as
    often as history has called for it; a closed one at most as often.
   */
  lemma {:induction false} NoticesAreHistory(steps: seq<Step>, n: Notice)
    ensures Issued(Run(steps), n) <= CalledFor(Run(steps).log, n)
    ensures n.0 !in Run(steps).closed ==> Issued(Run(steps), n) == CalledFor(Run(steps).log, n)
  {
    if steps != [] {
      var s, step := Run(steps[..|steps| - 1]), steps[|steps| - 1];
      NoticesAreHistory(steps[..|steps| - 1], n);
      RunRecords(steps[..|steps| - 1], n);
      StepIssues(s, step, n);
      StepLogs(s, step);
      ClosedGrows(s, step);
      match EventOf(s, step)
      case Some(e) => CalledForAppend(s.log, e, n);
      case None => assert s.log + [] == s.log;
    }
  }

  lemma ClosedGrows(s: Service, step: Step)
    ensures s.closed <= Take(s, step).closed
  {}
}
