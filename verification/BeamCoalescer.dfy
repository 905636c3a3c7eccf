/**
 The beam forwarder (src/actors/agent_beam_actor.rs:136-174, 335-434): actions from the hub are absorbed
 into a bounded buffer and sent on as whole batches; a batch the coordinator refuses is held and joined
 by what comes next.

 The hub and the coordinator's mailbox are a script: what each receive, each poll and each send of a
 turn of the loop comes back with.
 */
module BeamCoalescer {
  import opened Basics

  const MAX_PENDING: nat := 256
  const MAX_PER_FLUSH: nat := 256

  datatype First<A> = Got(action: A) | Lagged | Closed | Elapsed
  datatype Poll<A> = More(action: A) | Behind | Empty | HubClosed
  datatype Send = Accepted | Full | CoordinatorClosed

  /** One turn of the loop, as the outside world answers it. */
  datatype Round<A> = Round(first: First<A>, burst: seq<Poll<A>>, send: Send)

  /** The forwarder, and what went in and out of it so far. */
  datatype Beam<A> = Beam(
    pending: seq<A>,
    dropped: nat,          // the saturating counter
    open: bool,
    received: seq<A>,
    sent: seq<seq<A>>,
    lost: nat)             // evictions, exactly

  function Start<A>(): Beam<A> {
    Beam([], 0, true, [], [], 0)
  }

  function Pushed<A>(b: Beam<A>, e: A): Beam<A> {
    var full := |b.pending| >= MAX_PENDING;
    b.(pending := (if full then b.pending[1..] else b.pending) + [e],
       dropped := if full then SaturatingInc(b.dropped, U64_MAX) else b.dropped,
       received := b.received + [e],
       lost := if full then b.lost + 1 else b.lost)
  }

  /** The queued burst, up to a full batch; and whether the hub turned out closed. */
  function Absorbed<A>(b: Beam<A>, polls: seq<Poll<A>>): (Beam<A>, bool)
    decreases |polls|
  {
    if |b.pending| >= MAX_PER_FLUSH || polls == [] || polls[0].Empty? then (b, false)
    else match polls[0]
         case More(e) => Absorbed(Pushed(b, e), polls[1..])
         case Behind => Absorbed(b, polls[1..])
         case HubClosed => (b, true)
  }

  function Dispatched<A>(b: Beam<A>, send: Send): Beam<A> {
    if b.pending == [] then b
    else match send
         case Accepted => b.(pending := [], sent := b.sent + [b.pending])
         case Full => b
         case CoordinatorClosed => b.(open := false)
  }

  /** Absorb and dispatch; the loop ends with a closed hub. */
  function Flushed<A>(b: Beam<A>, hubClosed: bool, r: Round<A>): Beam<A> {
    var (absorbed, closed) := Absorbed(b, r.burst);
    var after := Dispatched(absorbed, r.send);
    if hubClosed || closed then after.(open := false) else after
  }

  function Turned<A>(b: Beam<A>, r: Round<A>): Beam<A> {
    if !b.open then b
    else match r.first
         case Got(e) => Flushed(Pushed(b, e), false, r)
         case Lagged => if b.pending == [] then b else Flushed(b, false, r)
         case Closed => if b.pending == [] then b.(open := false) else Flushed(b, true, r)
         case Elapsed => if b.pending == [] then b else Flushed(b, false, r)
  }

  function Run<A>(script: seq<Round<A>>): Beam<A> {
    if script == [] then Start() else Turned(Run(script[..|script| - 1]), script[|script| - 1])
  }

  // ----- conservation -------------------------------------------------------------------------

  function Total<A>(batches: seq<seq<A>>): nat {
    if batches == [] then 0 else Total(batches[..|batches| - 1]) + |batches[|batches| - 1]|
  }

  function Flat<A>(batches: seq<seq<A>>): seq<A> {
    if batches == [] then [] else Flat(batches[..|batches| - 1]) + batches[|batches| - 1]
  }

  /** A stretch of the received actions. */
  datatype Slice = Slice(lo: nat, hi: nat)

  /**
   Every batch is a stretch of what was received, later batches are later stretches, and the backlog is the end
   of it.
   */
  ghost predicate Traced<A>(b: Beam<A>, slices: seq<Slice>) {
    && |slices| == |b.sent|
    && (forall i :: 0 <= i < |slices| ==> slices[i].lo <= slices[i].hi <= |b.received| - |b.pending|)
    && (forall i :: 0 <= i < |slices| ==> b.sent[i] == b.received[slices[i].lo..slices[i].hi])
    && (forall i, j :: 0 <= i < j < |slices| ==> slices[i].hi <= slices[j].lo)
    && |b.pending| <= |b.received| && b.pending == b.received[|b.received| - |b.pending|..]
  }

  /** Nothing is lost but what is counted, and no batch is empty or larger than the buffer. */
  ghost predicate Conserved<A>(b: Beam<A>) {
    && |b.received| == Total(b.sent) + |b.pending| + b.lost
    && (b.lost == 0 ==> Flat(b.sent) + b.pending == b.received)
    && b.dropped == Min(b.lost, U64_MAX)
    && |b.pending| <= MAX_PENDING
    && forall i :: 0 <= i < |b.sent| ==> 1 <= |b.sent[i]| <= MAX_PENDING
  }

  lemma PushedTraced<A>(b: Beam<A>, e: A, slices: seq<Slice>)
    requires Traced(b, slices)
    ensures Traced(Pushed(b, e), slices)
  {
  }

  lemma PushedConserved<A>(b: Beam<A>, e: A)
    requires Conserved(b)
    ensures Conserved(Pushed(b, e))
  {
    assert Flat(b.sent) + (b.pending + [e]) == (Flat(b.sent) + b.pending) + [e];
  }

  lemma {:induction false} AbsorbedLaws<A>(b: Beam<A>, polls: seq<Poll<A>>, slices: seq<Slice>)
    requires Traced(b, slices) && Conserved(b)
    ensures Traced(Absorbed(b, polls).0, slices) && Conserved(Absorbed(b, polls).0)
    ensures Absorbed(b, polls).0.lost == b.lost && Absorbed(b, polls).0.open == b.open
    decreases |polls|
  {
    if |b.pending| >= MAX_PER_FLUSH || polls == [] || polls[0].Empty? || polls[0].HubClosed? {
    } else if polls[0].More? {
      PushedTraced(b, polls[0].action, slices);
      PushedConserved(b, polls[0].action);
      AbsorbedLaws(Pushed(b, polls[0].action), polls[1..], slices);
    } else {
      AbsorbedLaws(b, polls[1..], slices);
    }
  }

  lemma SentTraced<A>(b: Beam<A>, slices: seq<Slice>)
    requires Traced(b, slices)
    ensures Traced(b.(pending := [], sent := b.sent + [b.pending]),
                   slices + [Slice(|b.received| - |b.pending|, |b.received|)])
  {
  }

  lemma SentConserved<A>(b: Beam<A>)
    requires Conserved(b) && b.pending != []
    ensures Conserved(b.(pending := [], sent := b.sent + [b.pending]))
  {
    assert (b.sent + [b.pending])[..|b.sent|] == b.sent;
    assert Flat(b.sent + [b.pending]) + [] == Flat(b.sent) + b.pending;
  }

  lemma DispatchedLaws<A>(b: Beam<A>, send: Send, slices: seq<Slice>) returns (slices': seq<Slice>)
    requires Traced(b, slices) && Conserved(b)
    ensures Traced(Dispatched(b, send), slices') && Conserved(Dispatched(b, send))
  {
    slices' := slices;
    if b.pending != [] && send == Accepted {
      slices' := slices + [Slice(|b.received| - |b.pending|, |b.received|)];
      SentTraced(b, slices);
      SentConserved(b);
    }
  }

  lemma FlushedLaws<A>(b: Beam<A>, hubClosed: bool, r: Round<A>, slices: seq<Slice>) returns (slices': seq<Slice>)
    requires Traced(b, slices) && Conserved(b)
    ensures Traced(Flushed(b, hubClosed, r), slices') && Conserved(Flushed(b, hubClosed, r))
  {
    AbsorbedLaws(b, r.burst, slices);
    slices' := DispatchedLaws(Absorbed(b, r.burst).0, r.send, slices);
  }

  lemma TurnedLaws<A>(b: Beam<A>, r: Round<A>, slices: seq<Slice>) returns (slices': seq<Slice>)
    requires Traced(b, slices) && Conserved(b)
    ensures Traced(Turned(b, r), slices') && Conserved(Turned(b, r))
  {
    slices' := slices;
    if b.open {
      if r.first.Got? {
        PushedTraced(b, r.first.action, slices);
        PushedConserved(b, r.first.action);
        slices' := FlushedLaws(Pushed(b, r.first.action), false, r, slices);
      } else if b.pending != [] {
        slices' := FlushedLaws(b, r.first.Closed?, r, slices);
      }
    }
  }

  lemma StartLaws<A>()
    ensures Traced(Start<A>(), []) && Conserved(Start<A>())
  {
  }

  /**
   Conservation and order, after any number of turns: every batch is a stretch of the received actions,
   in order and without overlap; the backlog is their end; what is in neither was evicted and counted.
   */
  lemma {:induction false} BeamConserves<A>(script: seq<Round<A>>) returns (slices: seq<Slice>)
    ensures Traced(Run(script), slices) && Conserved(Run(script))
  {
    if script == [] {
      slices := [];
      StartLaws<A>();
    } else {
      var before := BeamConserves(script[..|script| - 1]);
      slices := TurnedLaws(Run(script[..|script| - 1]), script[|script| - 1], before);
    }
  }

  // ----- when something is evicted ------------------------------------------------------------

  lemma {:induction false} AbsorbedGrows<A>(b: Beam<A>, polls: seq<Poll<A>>)
    requires |b.pending| <= MAX_PENDING
    ensures Absorbed(b, polls).0.lost == b.lost && |Absorbed(b, polls).0.pending| >= |b.pending|
    decreases |polls|
  {
    if |b.pending| >= MAX_PER_FLUSH || polls == [] || polls[0].Empty? || polls[0].HubClosed? {
    } else if polls[0].More? {
      AbsorbedGrows(Pushed(b, polls[0].action), polls[1..]);
    } else {
      AbsorbedGrows(b, polls[1..]);
    }
  }

  /** A backlog still there after a turn was refused in it. */
  lemma BacklogWasRefused<A>(b: Beam<A>, r: Round<A>)
    requires |b.pending| <= MAX_PENDING && b.open && Turned(b, r).open && Turned(b, r).pending != []
    ensures r.send == Full
  {
  }

  /** A turn evicts at most one action, the oldest, and only a new one that finds the held backlog full. */
  lemma TurnEvicts<A>(b: Beam<A>, r: Round<A>)
    requires |b.pending| <= MAX_PENDING
    ensures Turned(b, r).lost == b.lost + if b.open && r.first.Got? && |b.pending| == MAX_PENDING then 1 else 0
  {
    AbsorbedGrows(b, r.burst);
    if r.first.Got? {
      AbsorbedGrows(Pushed(b, r.first.action), r.burst);
    }
  }

  /** Evictions happen only while a backlog is held that the coordinator refused the turn before. */
  lemma EvictionNeedsRefusal<A>(script: seq<Round<A>>, n: nat)
    requires n < |script| && Run(script[..n + 1]).lost != Run(script[..n]).lost
    ensures Run(script[..n + 1]).lost == Run(script[..n]).lost + 1
    ensures n > 0 && script[n - 1].send == Full && |Run(script[..n]).pending| == MAX_PENDING && script[n].first.Got?
  {
    assert script[..n + 1][..n] == script[..n];
    var slices := BeamConserves(script[..n]);
    TurnEvicts(Run(script[..n]), script[n]);
    if n > 0 {
      assert script[..n][..n - 1] == script[..n - 1];
      var before := BeamConserves(script[..n - 1]);
      BacklogWasRefused(Run(script[..n - 1]), script[n - 1]);
    }
  }

  /** A coordinator that never refuses gets everything, in order. */
  lemma {:induction false} NoRefusalNoLoss<A>(script: seq<Round<A>>)
    requires forall i :: 0 <= i < |script| ==> script[i].send != Full
    ensures Run(script).lost == 0 && Flat(Run(script).sent) + Run(script).pending == Run(script).received
  {
    var slices := BeamConserves(script);
    if script != [] {
      var n := |script| - 1;
      NoRefusalNoLoss(script[..n]);
      assert script[..n + 1] == script;
      if Run(script[..n + 1]).lost != Run(script[..n]).lost {
        EvictionNeedsRefusal(script, n);
      }
    }
  }

  // ----- the buffer and the loop --------------------------------------------------------------

  class BeamCoalescer<A> {
    var pending: seq<A>
    var droppedTotal: nat

    constructor ()
      ensures pending == [] && droppedTotal == 0
    {
      pending, droppedTotal := [], 0;
    }

    /** Buffer one action, evicting the oldest at the cap. */
    method Push(e: A) returns (evicted: bool)
      modifies this
      ensures evicted <==> |old(pending)| >= MAX_PENDING
      ensures pending == (if evicted then old(pending)[1..] else old(pending)) + [e]
      ensures droppedTotal == if evicted then SaturatingInc(old(droppedTotal), U64_MAX) else old(droppedTotal)
    {
      evicted := |pending| >= MAX_PENDING;
      if evicted {
        pending := pending[1..];
        droppedTotal := if droppedTotal < U64_MAX then droppedTotal + 1 else U64_MAX;
      }
      pending := pending + [e];
    }

    /** The whole backlog, without taking it. */
    function PendingBatch(): (batch: Option<seq<A>>)
      reads this
      ensures batch == None <==> pending == []
      ensures batch.Some? ==> batch.value == pending
    {
      if pending == [] then None else Some(pending)
    }

    method Clear()
      modifies this
      ensures pending == [] && droppedTotal == old(droppedTotal)
    {
      pending := [];
    }

    ghost predicate Holds(b: Beam<A>)
      reads this
    {
      pending == b.pending && droppedTotal == b.dropped
    }
  }

  method Absorb<A>(c: BeamCoalescer<A>, polls: seq<Poll<A>>, ghost b: Beam<A>) returns (hubClosed: bool)
    requires c.Holds(b)
    modifies c
    ensures c.Holds(Absorbed(b, polls).0) && hubClosed == Absorbed(b, polls).1
  {
    hubClosed := false;
    ghost var now := b;
    var i := 0;
    while |c.pending| < MAX_PER_FLUSH && i < |polls|
      invariant i <= |polls| && c.Holds(now) && Absorbed(now, polls[i..]) == Absorbed(b, polls)
      decreases |polls| - i
    {
      match polls[i] {
        case More(e) =>
          var _ := c.Push(e);
          now := Pushed(now, e);
        case Empty =>
          return;
        case Behind =>
        case HubClosed =>
          hubClosed := true;
          return;
      }
      i := i + 1;
    }
  }

  /** The forwarding loop over a script: what it sends, what it still holds and what it counts as dropped. */
  method Forward<A>(script: seq<Round<A>>) returns (sent: seq<seq<A>>, pending: seq<A>, dropped: nat)
    ensures var b := Run(script); sent == b.sent && pending == b.pending && dropped == b.dropped
  {
    var c := new BeamCoalescer<A>();
    sent := [];
    var open := true;
    for i := 0 to |script|
      invariant c.Holds(Run(script[..i])) && sent == Run(script[..i]).sent && open == Run(script[..i]).open
    {
      ghost var b := Run(script[..i]);
      assert script[..i + 1][..i] == script[..i];
      if open {
        var delivered: Option<seq<A>>;
        open, delivered := Turn(c, script[i], b);
        if delivered.Some? {
          sent := sent + [delivered.value];
        }
      }
    }
    assert script[..|script|] == script;
    pending, dropped := c.pending, c.droppedTotal;
  }

  /** One turn of the loop: whether it goes on, and the batch the coordinator took. */
  method Turn<A>(c: BeamCoalescer<A>, r: Round<A>, ghost b: Beam<A>) returns (open: bool, delivered: Option<seq<A>>)
    requires c.Holds(b) && b.open
    modifies c
    ensures c.Holds(Turned(b, r)) && open == Turned(b, r).open
    ensures Turned(b, r).sent == b.sent + if delivered.Some? then [delivered.value] else []
  {
    delivered := None;
    var hubClosed := false;
    ghost var now := b;
    if c.pending == [] {
      match r.first
      case Got(e) =>
        var _ := c.Push(e);
        now := Pushed(b, e);
      case Lagged =>
        return true, None;
      case Elapsed =>
        return true, None;
      case Closed =>
        return false, None;
    } else {
      match r.first
      case Got(e) =>
        var _ := c.Push(e);
        now := Pushed(b, e);
      case Closed =>
        hubClosed := true;
      case Lagged =>
      case Elapsed =>
    }
    var closed := Absorb(c, r.burst, now);
    var batch := c.PendingBatch();
    open := true;
    if batch.Some? {
      match r.send
      case Accepted =>
        delivered := batch;
        c.Clear();
      case Full =>
      case CoordinatorClosed =>
        open := false;
    }
    AbsorbedKeepsSent(now, r.burst);
    if hubClosed || closed {
      open := false;
    }
  }

  lemma {:induction false} AbsorbedKeepsSent<A>(b: Beam<A>, polls: seq<Poll<A>>)
    ensures Absorbed(b, polls).0.sent == b.sent && Absorbed(b, polls).0.open == b.open
    decreases |polls|
  {
    if |b.pending| >= MAX_PER_FLUSH || polls == [] || polls[0].Empty? || polls[0].HubClosed? {
    } else if polls[0].More? {
      AbsorbedKeepsSent(Pushed(b, polls[0].action), polls[1..]);
    } else {
      AbsorbedKeepsSent(b, polls[1..]);
    }
  }
}
