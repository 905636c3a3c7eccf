/**
 Both ends of one connection: the server's stream, the client it feeds, and everything ever handed
 over. Chunks and acknowledgements may be lost, acknowledgements may be late or repeated, chunks time
 out and are replaced, and the server may forget nodes at any time
 (src/actors/position_stream.rs:185-246). The connection delivers in order, as the source assumes.
 */
module StreamLink {
  import opened Basics
  import opened PositionStream

  datatype Link = Link(
    server: Stream,
    sent: map<nat, seq<Entry>>,    // every chunk ever handed over, by sequence number
    lastSeq: nat,                  // the largest sequence number used
    holds: map<NodeId, Held>,      // what the client holds
    received: set<nat>,            // chunks that reached the client
    honoured: set<nat>)            // acknowledgements the server acted on

  const FreshLink := Link(FreshStream, map[], 0, map[], {}, {})

  datatype Step =
    | Send(seqNo: nat, now: nat, nodes: seq<Entry>)
    | Deliver(seqNo: nat)
    | Ack(seqNo: nat)
    | Forget(keep: NodeId -> bool)

  /** A chunk names each node once and stamps every record with its own number. */
  ghost predicate IsChunk(seqNo: nat, nodes: seq<Entry>) {
    && (forall e :: e in nodes ==> e.held.seqNo == seqNo)
    && (forall i, j :: 0 <= i < j < |nodes| ==> nodes[i].id != nodes[j].id)
  }

  /**
   Sequence numbers grow; a delivered chunk is newer than every chunk delivered before; an
   acknowledgement names a chunk the client received, or else one that is not in flight.
   */
  ghost predicate Enabled(l: Link, step: Step) {
    match step
    case Send(seqNo, _, nodes) => seqNo > l.lastSeq && IsChunk(seqNo, nodes)
    case Deliver(seqNo) => seqNo in l.sent && forall r :: r in l.received ==> r < seqNo
    case Ack(seqNo) => seqNo in l.received || Find(l.server.inFlight, seqNo) == None
    case Forget(_) => true
  }

  function Next(l: Link, step: Step): Link {
    match step
    case Send(seqNo, now, nodes) =>
      l.(server := AfterSend(l.server, seqNo, now, nodes), sent := l.sent[seqNo := nodes], lastSeq := seqNo)
    case Deliver(seqNo) =>
      if seqNo in l.sent then
        l.(holds := CommitAll(l.holds, l.sent[seqNo]), received := l.received + {seqNo})
      else l
    case Ack(seqNo) =>
      l.(server := AfterAck(l.server, seqNo),
         honoured := if Find(l.server.inFlight, seqNo).Some? then l.honoured + {seqNo} else l.honoured)
    case Forget(keep) => l.(server := AfterRetain(l.server, keep))
  }

  // ----- invariant ----------------------------------------------------------------------------

  ghost predicate ChunksOk(l: Link) {
    && l.honoured <= l.received <= l.sent.Keys
    && forall s :: s in l.sent ==> s <= l.lastSeq && IsChunk(s, l.sent[s])
  }

  ghost predicate Increasing(fs: seq<InFlight>) {
    forall i, j :: 0 <= i < j < |fs| ==> fs[i].seqNo < fs[j].seqNo
  }

  /** The in-flight list: bounded, in order, faithful, and newer than anything acknowledged. */
  ghost predicate FlightOk(l: Link) {
    && |l.server.inFlight| <= IN_FLIGHT_HISTORY
    && Increasing(l.server.inFlight)
    && (forall f :: f in l.server.inFlight ==> f.seqNo in l.sent && f.nodes == l.sent[f.seqNo])
    && (forall f, h :: f in l.server.inFlight && h in l.honoured ==> h < f.seqNo)
  }

  /** `m` only holds records that chunks in `from` carried. */
  ghost predicate Backed(l: Link, m: map<NodeId, Held>, from: set<nat>)
    requires from <= l.sent.Keys
  {
    forall id :: id in m ==> m[id].seqNo in from && Entry(id, m[id]) in l.sent[m[id].seqNo]
  }

  /** The client kept everything it received, unless something newer replaced it. */
  ghost predicate Kept(l: Link)
    requires l.received <= l.sent.Keys
  {
    forall s, e :: s in l.received && e in l.sent[s] ==> e.id in l.holds && l.holds[e.id].seqNo >= s
  }

  ghost predicate Inv(l: Link) {
    && ChunksOk(l)
    && FlightOk(l)
    && Backed(l, l.server.acked, l.honoured)
    && Backed(l, l.holds, l.received)
    && Kept(l)
  }

  // ----- one step -----------------------------------------------------------------------------

  /** After committing a chunk, every record is either from it or was there before. */
  lemma {:induction false} CommitSource(m: map<NodeId, Held>, es: seq<Entry>, id: NodeId)
    requires id in CommitAll(m, es)
    ensures (id in m && CommitAll(m, es)[id] == m[id]) || Entry(id, CommitAll(m, es)[id]) in es
  {
    if es != [] {
      var front := es[..|es| - 1];
      assert es == front + [es[|es| - 1]];
      if id in CommitAll(m, front) { CommitSource(m, front, id); }
    }
  }

  /** Committing never loses a node and never goes back to an older record. */
  lemma {:induction false} CommitMonotone(m: map<NodeId, Held>, es: seq<Entry>)
    ensures forall id :: id in m ==> id in CommitAll(m, es) && CommitAll(m, es)[id].seqNo >= m[id].seqNo
    ensures forall e :: e in es ==> e.id in CommitAll(m, es) && CommitAll(m, es)[e.id].seqNo >= e.held.seqNo
  {
    if es != [] {
      var front, last := es[..|es| - 1], es[|es| - 1];
      assert es == front + [last];
      CommitMonotone(m, front);
    }
  }

  lemma {:induction false} NewerIncreasing(fs: seq<InFlight>, seqNo: nat)
    requires Increasing(fs)
    ensures Increasing(Newer(fs, seqNo))
  {
    if fs != [] {
      var front := fs[..|fs| - 1];
      NewerIncreasing(front, seqNo);
      forall f | f in Newer(front, seqNo) ensures f.seqNo < fs[|fs| - 1].seqNo {
        assert f in front;
      }
    }
  }

  lemma SendKeepsInv(l: Link, step: Step)
    requires Inv(l) && step.Send? && Enabled(l, step)
    ensures Inv(Next(l, step))
  {
    var l' := Next(l, step);
    assert step.seqNo !in l.sent;
    forall s | s in l.sent ensures l'.sent[s] == l.sent[s] {
    }
    forall f | f in l'.server.inFlight
      ensures f in l.server.inFlight || f == InFlight(step.seqNo, step.now, step.nodes)
    {
    }
  }

  lemma DeliverKeepsInv(l: Link, step: Step)
    requires Inv(l) && step.Deliver? && Enabled(l, step)
    ensures Inv(Next(l, step))
  {
    var l' := Next(l, step);
    var es := l.sent[step.seqNo];
    CommitMonotone(l.holds, es);
    forall id | id in l'.holds
      ensures l'.holds[id].seqNo in l'.received && Entry(id, l'.holds[id]) in l.sent[l'.holds[id].seqNo]
    {
      CommitSource(l.holds, es, id);
    }
  }

  lemma AckKeepsInv(l: Link, step: Step)
    requires Inv(l) && step.Ack? && Enabled(l, step)
    ensures Inv(Next(l, step))
  {
    var found := Find(l.server.inFlight, step.seqNo);
    if found.Some? {
      var l' := Next(l, step);
      var es := found.value.nodes;
      NewerIncreasing(l.server.inFlight, step.seqNo);
      forall id | id in l'.server.acked
        ensures l'.server.acked[id].seqNo in l'.honoured
        ensures Entry(id, l'.server.acked[id]) in l.sent[l'.server.acked[id].seqNo]
      {
        CommitSource(l.server.acked, es, id);
      }
    }
  }

  lemma StepKeepsInv(l: Link, step: Step)
    requires Inv(l) && Enabled(l, step)
    ensures Inv(Next(l, step))
  {
    match step
    case Send(_, _, _) => SendKeepsInv(l, step);
    case Deliver(_) => DeliverKeepsInv(l, step);
    case Ack(_) => AckKeepsInv(l, step);
    case Forget(_) =>
  }

  // ----- whole runs ---------------------------------------------------------------------------

  ghost predicate IsStepOf(l: Link, step: Step, l': Link) {
    Enabled(l, step) && l' == Next(l, step)
  }

  ghost predicate IsRunOf(states: seq<Link>, steps: seq<Step>) {
    && |states| == |steps| + 1
    && states[0] == FreshLink
    && forall i :: 0 <= i < |steps| ==> IsStepOf(states[i], steps[i], states[i + 1])
  }

  /** Some run ends in `l`. */
  ghost predicate Reached(l: Link) {
    exists states, steps :: IsRunOf(states, steps) && states[|steps|] == l
  }

  lemma ReachFresh()
    ensures Reached(FreshLink)
  {
    assert IsRunOf([FreshLink], []);
  }

  lemma ReachStep(l: Link, step: Step)
    requires Reached(l) && Enabled(l, step)
    ensures Reached(Next(l, step))
  {
    var states, steps :| IsRunOf(states, steps) && states[|steps|] == l;
    var states', steps' := states + [Next(l, step)], steps + [step];
    forall i | 0 <= i < |steps'| ensures IsStepOf(states'[i], steps'[i], states'[i + 1]) {
      if i < |steps| {
        assert IsStepOf(states[i], steps[i], states[i + 1]);
      }
    }
    assert IsRunOf(states', steps');
  }

  lemma ReachedInv(l: Link)
    requires Reached(l)
    ensures Inv(l)
  {
    var states, steps :| IsRunOf(states, steps) && states[|steps|] == l;
    RunKeepsInv(states, steps, |steps|);
  }

  /** The steps lead from `l` to `l'`. */
  ghost predicate Chain(l: Link, steps: seq<Step>, l': Link)
    decreases |steps|
  {
    if steps == [] then l == l' else Enabled(l, steps[0]) && Chain(Next(l, steps[0]), steps[1..], l')
  }

  lemma {:induction false} ReachChain(l: Link, steps: seq<Step>, l': Link)
    requires Reached(l) && Chain(l, steps, l')
    ensures Reached(l')
    decreases |steps|
  {
    if steps != [] {
      ReachStep(l, steps[0]);
      ReachChain(Next(l, steps[0]), steps[1..], l');
    }
  }

  /** Belief soundness at every point of every run. */
  lemma {:induction false} RunKeepsInv(states: seq<Link>, steps: seq<Step>, n: nat)
    requires IsRunOf(states, steps) && n <= |steps|
    ensures Inv(states[n])
  {
    if n > 0 {
      RunKeepsInv(states, steps, n - 1);
      assert IsStepOf(states[n - 1], steps[n - 1], states[n - 1 + 1]);
      StepKeepsInv(states[n - 1], steps[n - 1]);
    }
  }

  /**
   What the server believes is a lower bound on what the client holds: for every node it believes
   acknowledged, the client holds that very record or a newer one.
   */
  lemma BeliefNeverAhead(states: seq<Link>, steps: seq<Step>, n: nat, id: NodeId)
    requires IsRunOf(states, steps) && n <= |steps| && id in states[n].server.acked
    ensures id in states[n].holds
    ensures states[n].holds[id] == states[n].server.acked[id]
         || states[n].holds[id].seqNo > states[n].server.acked[id].seqNo
  {
    RunKeepsInv(states, steps, n);
    SameRecord(states[n], id);
  }

  lemma SameRecord(l: Link, id: NodeId)
    requires Inv(l) && id in l.server.acked
    ensures id in l.holds && l.holds[id].seqNo >= l.server.acked[id].seqNo
    ensures l.holds[id].seqNo == l.server.acked[id].seqNo ==> l.holds[id] == l.server.acked[id]
  {
    var h := l.server.acked[id];
    var e := Entry(id, h);
    assert h.seqNo in l.received && e in l.sent[h.seqNo];
    assert e.id in l.holds && l.holds[e.id].seqNo >= h.seqNo;
    var c := Entry(id, l.holds[id]);
    if c.held.seqNo == h.seqNo {
      assert c in l.sent[h.seqNo];
      var i :| 0 <= i < |l.sent[h.seqNo]| && l.sent[h.seqNo][i] == e;
      var j :| 0 <= j < |l.sent[h.seqNo]| && l.sent[h.seqNo][j] == c;
      assert i == j;
    }
  }

  /**
   Exactly when belief and truth agree on a node: no chunk newer than the believed one reached the
   client carrying that node.
   */
  lemma BeliefExactIff(states: seq<Link>, steps: seq<Step>, n: nat, id: NodeId)
    requires IsRunOf(states, steps) && n <= |steps| && id in states[n].server.acked
    ensures states[n].received <= states[n].sent.Keys && id in states[n].holds
    ensures states[n].holds[id] == states[n].server.acked[id] <==>
      forall s, e :: s in states[n].received && s > states[n].server.acked[id].seqNo && e in states[n].sent[s]
                     ==> e.id != id
  {
    RunKeepsInv(states, steps, n);
    var l := states[n];
    SameRecord(l, id);
    if forall s, e :: s in l.received && s > l.server.acked[id].seqNo && e in l.sent[s] ==> e.id != id {
      assert Entry(id, l.holds[id]) in l.sent[l.holds[id].seqNo];
    }
  }

  /** One step never replaces a believed record except by one newer than everything honoured so far. */
  lemma StepBelief(l: Link, step: Step, id: NodeId)
    requires Inv(l) && Enabled(l, step) && id in Next(l, step).server.acked
    ensures l.honoured <= Next(l, step).honoured
    ensures (id in l.server.acked && Next(l, step).server.acked[id] == l.server.acked[id])
         || forall h :: h in l.honoured ==> h < Next(l, step).server.acked[id].seqNo
  {
    if step.Ack? && Find(l.server.inFlight, step.seqNo).Some? {
      CommitSource(l.server.acked, Find(l.server.inFlight, step.seqNo).value.nodes, id);
    }
  }

  lemma {:induction false} BelievedAtLeast(states: seq<Link>, steps: seq<Step>, i: nat, j: nat, id: NodeId, s: nat)
    requires IsRunOf(states, steps) && i <= j <= |steps|
    requires s in states[i].honoured && (id in states[i].server.acked ==> s <= states[i].server.acked[id].seqNo)
    ensures s in states[j].honoured && (id in states[j].server.acked ==> s <= states[j].server.acked[id].seqNo)
    decreases j - i
  {
    if i < j {
      RunKeepsInv(states, steps, i);
      if id in states[i + 1].server.acked { StepBelief(states[i], steps[i], id); }
      assert s in states[i + 1].honoured;
      BelievedAtLeast(states, steps, i + 1, j, id, s);
    }
  }

  /** Belief about a node never goes back, not even across forgetting and relearning it. */
  lemma BeliefNeverGoesBack(states: seq<Link>, steps: seq<Step>, i: nat, j: nat, id: NodeId)
    requires IsRunOf(states, steps) && i <= j <= |steps|
    requires id in states[i].server.acked && id in states[j].server.acked
    ensures states[i].server.acked[id].seqNo <= states[j].server.acked[id].seqNo
  {
    RunKeepsInv(states, steps, i);
    BelievedAtLeast(states, steps, i, j, id, states[i].server.acked[id].seqNo);
  }

  /** An acknowledgement that matches nothing in flight (unknown, aged out, repeated) changes nothing. */
  lemma RepeatedAckIgnored(states: seq<Link>, steps: seq<Step>, n: nat, seqNo: nat)
    requires IsRunOf(states, steps) && n <= |steps|
    requires seqNo in states[n].honoured || seqNo !in states[n].sent
    ensures AfterAck(states[n].server, seqNo) == states[n].server
  {
    RunKeepsInv(states, steps, n);
  }
}
