/**
 When an empty plan does mean that the client holds the latest state (src/actors/position_stream.rs:118-246).
 The server knows the chunks it handed over and what was acknowledged, not what arrived. From that it can
 tell exactly: a node is current at the client, whatever arrived, if and only if no chunk newer than the
 acknowledged one carried it somewhere else.
 */
module StreamFreshness {
  import opened PositionStream
  import opened StreamLink

  /** The record is what would be sent now, up to the threshold. */
  predicate Near(sc: Scene, id: NodeId, h: Held)
    requires id in sc.cache
  {
    && sc.analytics(id) == h.key
    && (var d2 := Dist2(sc.cache[id], h.pos); d2 <= sc.threshold * sc.threshold || d2 <= 0.0)
  }

  ghost predicate ClientCurrent(l: Link, sc: Scene, id: NodeId)
    requires id in sc.cache
  {
    id in l.holds && Near(sc, id, l.holds[id])
  }

  /** Every record of `id` handed over after the acknowledged one is still what would be sent now. */
  ghost predicate NewerNear(st: Stream, sent: map<nat, seq<Entry>>, sc: Scene, id: NodeId)
    requires id in sc.cache && id in st.acked
  {
    forall s, e :: s in sent && s > st.acked[id].seqNo && e in sent[s] && e.id == id ==> Near(sc, id, e.held)
  }

  lemma QuietNode(st: Stream, sc: Scene, id: NodeId)
    requires CandidateIds(st, sc) == {} && id in Shown(sc)
    ensures id in sc.cache && id in st.acked && Near(sc, id, st.acked[id])
  {
    CandidateIffNotCurrent(st, sc, id);
  }

  /** A quiet server whose newer chunks left the node where it is has a current client. */
  lemma QuietMeansCurrent(l: Link, sc: Scene, id: NodeId)
    requires Reached(l) && CandidateIds(l.server, sc) == {} && id in Shown(sc)
    ensures id in sc.cache && id in l.server.acked
    ensures NewerNear(l.server, l.sent, sc, id) ==> ClientCurrent(l, sc, id)
  {
    QuietNode(l.server, sc, id);
    ReachedInv(l);
    SameRecord(l, id);
    var e := Entry(id, l.holds[id]);
    assert e in l.sent[e.held.seqNo];
  }

  // ----- what the server cannot see -----------------------------------------------------------

  /** Belief about a node is at least as new as every honoured chunk that carried it. */
  ghost predicate HonouredBelieved(l: Link)
    requires l.honoured <= l.sent.Keys
  {
    forall h, e :: h in l.honoured && e in l.sent[h] && e.id in l.server.acked ==> h <= l.server.acked[e.id].seqNo
  }

  lemma BelievedStep(l: Link, step: Step)
    requires Inv(l) && HonouredBelieved(l) && Enabled(l, step)
    ensures Inv(Next(l, step)) && HonouredBelieved(Next(l, step))
  {
    StepKeepsInv(l, step);
    match step {
      case Send(seqNo, _, _) => assert seqNo !in l.sent;
      case Deliver(_) =>
      case Forget(_) =>
      case Ack(seqNo) =>
        if Find(l.server.inFlight, seqNo).Some? { BelievedAck(l, seqNo); }
    }
  }

  lemma BelievedAck(l: Link, seqNo: nat)
    requires Inv(l) && HonouredBelieved(l) && Find(l.server.inFlight, seqNo).Some?
    ensures l.honoured + {seqNo} <= l.sent.Keys && HonouredBelieved(Next(l, Ack(seqNo)))
  {
    var f := Find(l.server.inFlight, seqNo).value;
    var acked' := CommitAll(l.server.acked, f.nodes);
    assert f.nodes == l.sent[seqNo];
    CommitMonotone(l.server.acked, f.nodes);
    forall h, e | h in l.honoured + {seqNo} && e in l.sent[h] && e.id in acked' ensures h <= acked'[e.id].seqNo {
      CommitSource(l.server.acked, f.nodes, e.id);
      if h != seqNo && !(e.id in l.server.acked && acked'[e.id] == l.server.acked[e.id]) {
        assert acked'[e.id].seqNo == seqNo;
      }
    }
  }

  lemma {:induction false} RunBelieved(states: seq<Link>, steps: seq<Step>, n: nat)
    requires IsRunOf(states, steps) && n <= |steps|
    ensures Inv(states[n]) && HonouredBelieved(states[n])
  {
    if n > 0 {
      RunBelieved(states, steps, n - 1);
      assert IsStepOf(states[n - 1], steps[n - 1], states[n - 1 + 1]);
      BelievedStep(states[n - 1], steps[n - 1]);
    }
  }

  /** The server's side of two links is the same. */
  predicate SameServer(a: Link, b: Link) {
    a.server == b.server && a.sent == b.sent && a.lastSeq == b.lastSeq && a.honoured == b.honoured
  }

  /** The client received exactly the chunks of `d`. */
  predicate GotOnly(l: Link, d: set<nat>) {
    l.received == d * l.sent.Keys
  }

  /** Some run brings about the same server state with exactly the chunks of `d` received. */
  ghost predicate HasVariant(l: Link, d: set<nat>) {
    exists m :: SameServer(l, m) && GotOnly(m, d) && Reached(m)
  }

  lemma SendVaries(l: Link, l': Link, step: Step, d: set<nat>)
    requires SameServer(l, l') && GotOnly(l', d) && Inv(l) && Inv(l') && Reached(l')
    requires step.Send? && Enabled(l, step)
    ensures HasVariant(Next(l, step), d)
  {
    ReachStep(l', step);
    var m := Next(l', step);
    assert step.seqNo !in l.sent;
    if step.seqNo in d {
      ReachStep(m, Deliver(step.seqNo));
      m := Next(m, Deliver(step.seqNo));
      assert GotOnly(m, d) && SameServer(Next(l, step), m);
    } else {
      assert GotOnly(m, d) && SameServer(Next(l, step), m);
    }
  }

  lemma AckVaries(l: Link, l': Link, step: Step, d: set<nat>)
    requires SameServer(l, l') && GotOnly(l', d) && Inv(l') && Reached(l')
    requires step.Ack? && Enabled(l, step) && Next(l, step).honoured <= d
    ensures SameServer(Next(l, step), Next(l', step)) && GotOnly(Next(l', step), d) && Reached(Next(l', step))
  {
    var found := Find(l.server.inFlight, step.seqNo);
    if found.Some? {
      assert step.seqNo in d && found.value in l'.server.inFlight;
    }
    ReachStep(l', step);
  }

  /**
   Whatever reached the client, the same server state comes about when exactly the chunks of `d` did, as
   long as those include what the server saw acknowledged.
   */
  lemma {:induction false} DeliveriesVary(states: seq<Link>, steps: seq<Step>, n: nat, d: set<nat>)
    requires IsRunOf(states, steps) && n <= |steps| && states[n].honoured <= d
    ensures HasVariant(states[n], d)
  {
    if n == 0 {
      FreshVaries(d);
    } else {
      assert IsStepOf(states[n - 1], steps[n - 1], states[n - 1 + 1]);
      RunKeepsInv(states, steps, n - 1);
      HonouredGrow(states[n - 1], steps[n - 1]);
      DeliveriesVary(states, steps, n - 1, d);
      VariantStep(states[n - 1], steps[n - 1], d);
    }
  }

  lemma FreshVaries(d: set<nat>)
    ensures HasVariant(FreshLink, d)
  {
    ReachFresh();
    assert SameServer(FreshLink, FreshLink) && GotOnly(FreshLink, d);
  }

  lemma HonouredGrow(l: Link, step: Step)
    ensures l.honoured <= Next(l, step).honoured
  {
  }

  lemma VariantStep(l: Link, step: Step, d: set<nat>)
    requires Inv(l) && HasVariant(l, d) && Enabled(l, step) && Next(l, step).honoured <= d
    ensures HasVariant(Next(l, step), d)
  {
    var l' :| SameServer(l, l') && GotOnly(l', d) && Reached(l');
    ReachedInv(l');
    VaryStep(l, l', step, d);
  }

  lemma VaryStep(l: Link, l': Link, step: Step, d: set<nat>)
    requires SameServer(l, l') && GotOnly(l', d) && Inv(l) && Inv(l') && Reached(l')
    requires Enabled(l, step) && Next(l, step).honoured <= d
    ensures HasVariant(Next(l, step), d)
  {
    match step {
      case Send(_, _, _) => SendVaries(l, l', step, d);
      case Deliver(_) => assert SameServer(Next(l, step), l');
      case Ack(_) => AckVaries(l, l', step, d);
      case Forget(_) =>
        ReachStep(l', step);
        assert SameServer(Next(l, step), Next(l', step)) && GotOnly(Next(l', step), d);
    }
  }

  /** A record of the node handed over since the acknowledged one that is not what would be sent now. */
  ghost predicate IsFar(st: Stream, sent: map<nat, seq<Entry>>, sc: Scene, id: NodeId, s: nat, e: Entry)
    requires id in sc.cache && id in st.acked
  {
    s in sent && s > st.acked[id].seqNo && e in sent[s] && e.id == id && !Near(sc, id, e.held)
  }

  lemma FarRecord(st: Stream, sent: map<nat, seq<Entry>>, sc: Scene, id: NodeId) returns (s: nat, e: Entry)
    requires id in sc.cache && id in st.acked && !NewerNear(st, sent, sc, id)
    ensures IsFar(st, sent, sc, id, s, e)
  {
    s, e :| s in sent && s > st.acked[id].seqNo && e in sent[s] && e.id == id && !Near(sc, id, e.held);
  }

  /** It can be the last the client heard of the node. */
  lemma LastHeard(states: seq<Link>, steps: seq<Step>, n: nat, s: nat, e: Entry) returns (m: Link)
    requires IsRunOf(states, steps) && n <= |steps| && s in states[n].sent && e in states[n].sent[s]
    requires e.id in states[n].server.acked && s > states[n].server.acked[e.id].seqNo
    ensures Reached(m) && m.server == states[n].server && m.sent == states[n].sent
    ensures e.id in m.holds && m.holds[e.id] == e.held
  {
    var l := states[n];
    RunBelieved(states, steps, n);
    DeliveriesVary(states, steps, n, l.honoured + {s});
    m :| SameServer(l, m) && GotOnly(m, l.honoured + {s}) && Reached(m);
    ReachedInv(m);
    StaleThere(l, m, s, e);
  }

  /** A newer chunk that carried the node elsewhere may be the last thing the client heard of it. */
  lemma QuietCanBeStale(states: seq<Link>, steps: seq<Step>, n: nat, sc: Scene, id: NodeId) returns (m: Link)
    requires IsRunOf(states, steps) && n <= |steps|
    requires id in sc.cache && id in states[n].server.acked && !NewerNear(states[n].server, states[n].sent, sc, id)
    ensures Reached(m) && m.server == states[n].server && m.sent == states[n].sent && !ClientCurrent(m, sc, id)
  {
    var s, e := FarRecord(states[n].server, states[n].sent, sc, id);
    m := LastHeard(states, steps, n, s, e);
  }

  lemma StaleThere(l: Link, m: Link, s: nat, e: Entry)
    requires Inv(l) && HonouredBelieved(l) && Inv(m) && SameServer(l, m) && GotOnly(m, l.honoured + {s})
    requires s in l.sent && e in l.sent[s] && e.id in l.server.acked && s > l.server.acked[e.id].seqNo
    ensures e.id in m.holds && m.holds[e.id] == e.held
  {
    assert HonouredBelieved(m);
    HeardLast(m, l.honoured, s, e);
  }

  lemma HeardLast(m: Link, honoured: set<nat>, s: nat, e: Entry)
    requires Inv(m) && m.honoured == honoured && HonouredBelieved(m) && GotOnly(m, honoured + {s})
    requires s in m.sent && e in m.sent[s] && e.id in m.server.acked && s > m.server.acked[e.id].seqNo
    ensures e.id in m.holds && m.holds[e.id] == e.held
  {
    assert s in m.received;
    var c := Entry(e.id, m.holds[e.id]);
    assert c.held.seqNo in m.received && c in m.sent[c.held.seqNo] && c.held.seqNo >= s;
    assert c.held.seqNo == s;
    var i :| 0 <= i < |m.sent[s]| && m.sent[s][i] == e;
    var j :| 0 <= j < |m.sent[s]| && m.sent[s][j] == c;
    assert i == j;
  }

  /**
   Exactly when an empty plan means a current client. With a quiet server, a shown node is current at the
   client in every run that leaves the server where it is, if and only if every record of the node handed
   over since the acknowledged one is still what would be sent now.
   */
  lemma QuietIsCurrentIff(states: seq<Link>, steps: seq<Step>, n: nat, sc: Scene, id: NodeId)
    requires IsRunOf(states, steps) && n <= |steps| && CandidateIds(states[n].server, sc) == {} && id in Shown(sc)
    ensures id in sc.cache && id in states[n].server.acked
    ensures (forall m :: Reached(m) && m.server == states[n].server && m.sent == states[n].sent
               ==> ClientCurrent(m, sc, id))
            <==> NewerNear(states[n].server, states[n].sent, sc, id)
  {
    QuietNode(states[n].server, sc, id);
    if NewerNear(states[n].server, states[n].sent, sc, id) {
      forall m | Reached(m) && m.server == states[n].server && m.sent == states[n].sent
        ensures ClientCurrent(m, sc, id) {
        QuietMeansCurrent(m, sc, id);
      }
    } else {
      var m := QuietCanBeStale(states, steps, n, sc, id);
    }
  }
}
