/**
 What the beam forwarder takes from the hub, read off the script alone: the action each turn begins with
 and every action of a prefix of its burst, all of it received and none of it twice; when a burst is cut
 short; when the loop ends; and what an accepting coordinator is left with
 (src/actors/agent_beam_actor.rs:333-434).
 */
module BeamScript {
  import opened Basics
  import opened BeamCoalescer

  // ----- what a script hands over -------------------------------------------------------------

  /** The actions among some polls, in order. */
  function Mores<A>(polls: seq<Poll<A>>): seq<A> {
    if polls == [] then []
    else if polls[0].More? then [polls[0].action] + Mores(polls[1..])
    else Mores(polls[1..])
  }

  /** What one turn hands over if it polls `n` times. */
  function TurnHands<A>(r: Round<A>, n: nat): seq<A>
    requires n <= |r.burst|
  {
    (if r.first.Got? then [r.first.action] else []) + Mores(r.burst[..n])
  }

  ghost predicate CutsFit<A>(script: seq<Round<A>>, cuts: seq<nat>) {
    |cuts| <= |script| && forall i :: 0 <= i < |cuts| ==> cuts[i] <= |script[i].burst|
  }

  /** What the first turns hand over, polling `cuts[i]` times in turn `i`. */
  function Handed<A>(script: seq<Round<A>>, cuts: seq<nat>): seq<A>
    requires CutsFit(script, cuts)
  {
    if cuts == [] then []
    else
      var n := |cuts| - 1;
      Handed(script, cuts[..n]) + TurnHands(script[n], cuts[n])
  }

  // ----- one burst ----------------------------------------------------------------------------

  /**
   Polling stops after `n` polls, with `held` actions in hand before the burst: not before, since none of
   these polls said that there is no more; and rightly, for the burst is over, or says so, or the buffer
   is full.
   */
  ghost predicate StopsAt<A>(held: nat, polls: seq<Poll<A>>, n: nat) {
    && n <= |polls|
    && (forall k :: 0 <= k < n ==> polls[k].More? || polls[k].Behind?)
    && (n == |polls| || polls[n].Empty? || polls[n].HubClosed? || held + |Mores(polls[..n])| >= 256)
    && (n > 0 ==> held + |Mores(polls[..n - 1])| < 256)
  }

  /** The hub was found closed in the poll after the first `n`. */
  predicate FoundClosed<A>(held: nat, polls: seq<Poll<A>>, n: nat)
    requires n <= |polls|
  {
    held + |Mores(polls[..n])| < 256 && n < |polls| && polls[n].HubClosed?
  }

  lemma MoresTail<A>(polls: seq<Poll<A>>, n: nat)
    requires 0 < n <= |polls|
    ensures Mores(polls[..n]) == (if polls[0].More? then [polls[0].action] else []) + Mores(polls[1..][..n - 1])
  {
    assert polls[..n][1..] == polls[1..][..n - 1];
  }

  lemma StopsTail<A>(held: nat, polls: seq<Poll<A>>, n: nat)
    requires polls != [] && (polls[0].More? || polls[0].Behind?) && held < MAX_PER_FLUSH
    requires StopsAt(held + (if polls[0].More? then 1 else 0), polls[1..], n)
    ensures StopsAt(held, polls, n + 1)
    ensures FoundClosed(held, polls, n + 1) <==> FoundClosed(held + (if polls[0].More? then 1 else 0), polls[1..], n)
  {
    MoresTail(polls, n + 1);
    if n > 0 {
      MoresTail(polls, n);
    } else {
      assert polls[..0] == [];
    }
    forall k | 0 <= k < n + 1 ensures polls[k].More? || polls[k].Behind? {
      assert k > 0 ==> polls[k] == polls[1..][k - 1];
    }
  }

  /** `b` once it has taken these actions, with room for all of them. */
  function Taken<A>(b: Beam<A>, es: seq<A>): Beam<A> {
    b.(pending := b.pending + es, received := b.received + es)
  }

  lemma TakenTogether<A>(b: Beam<A>, e: A, rest: seq<A>)
    requires |b.pending| < MAX_PENDING
    ensures Taken(Pushed(b, e), rest) == Taken(b, [e] + rest)
  {
    assert (b.pending + [e]) + rest == b.pending + ([e] + rest);
    assert (b.received + [e]) + rest == b.received + ([e] + rest);
  }

  lemma TakenNothing<A>(b: Beam<A>)
    ensures Taken(b, []) == b
  {
    assert b.pending + [] == b.pending && b.received + [] == b.received;
  }

  /** Absorbing a burst takes every action of a prefix of it, and the prefix ends for a reason. */
  lemma {:induction false} AbsorbedTakes<A>(b: Beam<A>, polls: seq<Poll<A>>) returns (n: nat)
    requires |b.pending| <= MAX_PENDING
    ensures StopsAt(|b.pending|, polls, n)
    ensures Absorbed(b, polls).0 == Taken(b, Mores(polls[..n]))
    ensures Absorbed(b, polls).1 <==> FoundClosed(|b.pending|, polls, n)
    decreases |polls|
  {
    if |b.pending| >= MAX_PER_FLUSH || polls == [] || polls[0].Empty? || polls[0].HubClosed? {
      n := 0;
      assert polls[..0] == [];
      TakenNothing(b);
    } else {
      var b' := if polls[0].More? then Pushed(b, polls[0].action) else b;
      var m := AbsorbedTakes(b', polls[1..]);
      n := m + 1;
      MoresTail(polls, n);
      StopsTail(|b.pending|, polls, m);
      if polls[0].More? {
        TakenTogether(b, polls[0].action, Mores(polls[1..][..m]));
      }
    }
  }

  // ----- one turn -----------------------------------------------------------------------------

  /** A turn that has nothing to hold and begins with no action does not poll. */
  predicate Polls<A>(b: Beam<A>, r: Round<A>) {
    r.first.Got? || b.pending != []
  }

  /** Actions in hand when the polling of a turn begins. */
  function InHand<A>(b: Beam<A>, r: Round<A>): nat {
    Min(|b.pending| + (if r.first.Got? then 1 else 0), 256)
  }

  /** Turn `r` of an open forwarder polls `n` times. */
  ghost predicate TurnPolls<A>(b: Beam<A>, r: Round<A>, n: nat) {
    if Polls(b, r) then StopsAt(InHand(b, r), r.burst, n) else n == 0
  }

  /** The loop goes on after the turn unless the hub is closed, or the coordinator when it was sent something. */
  predicate GoesOn<A>(b: Beam<A>, r: Round<A>, n: nat)
    requires n <= |r.burst|
  {
    && !r.first.Closed?
    && (Polls(b, r) ==> !r.send.CoordinatorClosed? && !FoundClosed(InHand(b, r), r.burst, n))
  }

  lemma FlushedTakes<A>(b: Beam<A>, hubClosed: bool, r: Round<A>) returns (n: nat)
    requires |b.pending| <= MAX_PENDING && b.pending != [] && b.open
    ensures StopsAt(|b.pending|, r.burst, n)
    ensures Flushed(b, hubClosed, r).received == b.received + Mores(r.burst[..n])
    ensures Flushed(b, hubClosed, r).open <==>
              !hubClosed && !r.send.CoordinatorClosed? && !FoundClosed(|b.pending|, r.burst, n)
    ensures Flushed(b, hubClosed, r).pending ==
              if r.send.Accepted? then [] else b.pending + Mores(r.burst[..n])
    ensures Flushed(b, hubClosed, r).sent ==
              if r.send.Accepted? then b.sent + [b.pending + Mores(r.burst[..n])] else b.sent
  {
    n := AbsorbedTakes(b, r.burst);
  }

  /** The batch of a turn: the backlog, less the oldest if it is full, what the turn began with, and the burst. */
  function Batch<A>(b: Beam<A>, r: Round<A>, n: nat): seq<A>
    requires n <= |r.burst|
  {
    (if r.first.Got? && |b.pending| >= 256 then b.pending[1..] else b.pending) + TurnHands(r, n)
  }

  lemma GotTaken<A>(b: Beam<A>, r: Round<A>, n: nat)
    requires r.first.Got? && n <= |r.burst|
    ensures Pushed(b, r.first.action).pending + Mores(r.burst[..n]) == Batch(b, r, n)
    ensures Pushed(b, r.first.action).received + Mores(r.burst[..n]) == b.received + TurnHands(r, n)
  {
    var kept, rest := if |b.pending| >= MAX_PENDING then b.pending[1..] else b.pending, Mores(r.burst[..n]);
    assert (kept + [r.first.action]) + rest == kept + ([r.first.action] + rest);
    assert (b.received + [r.first.action]) + rest == b.received + ([r.first.action] + rest);
  }

  /** What one turn takes, whether the loop goes on, and what becomes of the batch. */
  lemma TurnTakes<A>(b: Beam<A>, r: Round<A>) returns (n: nat)
    requires |b.pending| <= MAX_PENDING && b.open
    ensures n <= |r.burst| && TurnPolls(b, r, n)
    ensures Turned(b, r).received == b.received + TurnHands(r, n)
    ensures Turned(b, r).open <==> GoesOn(b, r, n)
    ensures Turned(b, r).pending == if r.send.Accepted? then [] else Batch(b, r, n)
    ensures Turned(b, r).sent == if r.send.Accepted? && Polls(b, r) then b.sent + [Batch(b, r, n)] else b.sent
  {
    n := 0;
    assert r.burst[..0] == [];
    if r.first.Got? {
      var pushed := Pushed(b, r.first.action);
      n := FlushedTakes(pushed, false, r);
      GotTaken(b, r, n);
    } else if b.pending != [] {
      n := FlushedTakes(b, r.first.Closed?, r);
      assert [] + Mores(r.burst[..n]) == Mores(r.burst[..n]);
    } else {
      assert b.received + TurnHands(r, 0) == b.received && Batch(b, r, 0) == [];
    }
  }

  // ----- whole scripts ------------------------------------------------------------------------

  /** Turn `i` begins with the loop still going and polls `cuts[i]` times. */
  ghost predicate TurnRight<A>(script: seq<Round<A>>, cuts: seq<nat>, i: nat)
    requires CutsFit(script, cuts) && i < |cuts|
  {
    && Run(script[..i]).open && TurnPolls(Run(script[..i]), script[i], cuts[i])
    && (Run(script[..i + 1]).open <==> GoesOn(Run(script[..i]), script[i], cuts[i]))
  }

  /**
   For every script: what the forwarder received is exactly what the turns taken hand over, in order. The
   loop ends with the first turn that finds the hub or the coordinator closed and not before; each turn
   takes the action it begins with and then every action of its burst up to a poll that says there is no
   more, or to a full buffer.
   */
  lemma {:induction false} ReceivedIsHanded<A>(script: seq<Round<A>>) returns (cuts: seq<nat>)
    ensures CutsFit(script, cuts) && Run(script).received == Handed(script, cuts)
    ensures forall i :: 0 <= i < |cuts| ==> TurnRight(script, cuts, i)
    ensures Run(script).open ==> |cuts| == |script|
    ensures |cuts| < |script| ==> !Run(script[..|cuts|]).open
  {
    cuts := [];
    if script != [] {
      var front := script[..|script| - 1];
      var before := ReceivedIsHanded(front);
      SameTurns(script, before);
      if Run(front).open {
        cuts := OneMoreTurn(script, before);
      } else {
        cuts := before;
        assert script[..|cuts|] == front[..|cuts|];
      }
    }
  }

  lemma OneMoreTurn<A>(script: seq<Round<A>>, before: seq<nat>) returns (cuts: seq<nat>)
    requires script != [] && |before| == |script| - 1 && CutsFit(script, before)
    requires Run(script[..|before|]).open && Run(script[..|before|]).received == Handed(script, before)
    requires forall i :: 0 <= i < |before| ==> TurnRight(script, before, i)
    ensures |cuts| == |script| && CutsFit(script, cuts) && Run(script).received == Handed(script, cuts)
    ensures forall i :: 0 <= i < |cuts| ==> TurnRight(script, cuts, i)
  {
    var n := LastTurn(script);
    cuts := before + [n];
    HandedMore(script, before, n);
    forall i | 0 <= i < |cuts| ensures TurnRight(script, cuts, i) {
      if i < |before| {
        SameCut(script, before, cuts, i);
      } else {
        LastCut(script, cuts);
      }
    }
  }

  lemma HandedMore<A>(script: seq<Round<A>>, before: seq<nat>, n: nat)
    requires |before| < |script| && CutsFit(script, before) && n <= |script[|before|].burst|
    ensures CutsFit(script, before + [n])
    ensures Handed(script, before + [n]) == Handed(script, before) + TurnHands(script[|before|], n)
  {
    assert (before + [n])[..|before|] == before;
  }

  lemma LastCut<A>(script: seq<Round<A>>, cuts: seq<nat>)
    requires script != [] && |cuts| == |script| && CutsFit(script, cuts) && Run(script[..|script| - 1]).open
    requires TurnPolls(Run(script[..|script| - 1]), script[|script| - 1], cuts[|script| - 1])
    requires Run(script).open <==> GoesOn(Run(script[..|script| - 1]), script[|script| - 1], cuts[|script| - 1])
    ensures TurnRight(script, cuts, |script| - 1)
  {
    assert script[..|script|] == script;
  }

  lemma SameCut<A>(script: seq<Round<A>>, before: seq<nat>, cuts: seq<nat>, i: nat)
    requires CutsFit(script, before) && CutsFit(script, cuts) && i < |before| && i < |cuts| && cuts[i] == before[i]
    requires TurnRight(script, before, i)
    ensures TurnRight(script, cuts, i)
  {
  }

  lemma LastTurn<A>(script: seq<Round<A>>) returns (n: nat)
    requires script != [] && Run(script[..|script| - 1]).open
    ensures var b, r := Run(script[..|script| - 1]), script[|script| - 1];
            && n <= |r.burst| && TurnPolls(b, r, n)
            && Run(script).received == b.received + TurnHands(r, n)
            && script[..|script|] == script && (Run(script).open <==> GoesOn(b, r, n))
  {
    var front := script[..|script| - 1];
    var slices := BeamConserves(front);
    n := TurnTakes(Run(front), script[|script| - 1]);
  }

  /** What the first turns hand over does not depend on the turns after them. */
  lemma {:induction false} SameTurns<A>(script: seq<Round<A>>, cuts: seq<nat>)
    requires script != [] && CutsFit(script[..|script| - 1], cuts)
    ensures CutsFit(script, cuts) && Handed(script, cuts) == Handed(script[..|script| - 1], cuts)
    ensures forall i :: 0 <= i < |cuts| ==> (TurnRight(script, cuts, i) <==> TurnRight(script[..|script| - 1], cuts, i))
  {
    var front := script[..|script| - 1];
    forall i | 0 <= i < |cuts| ensures TurnRight(script, cuts, i) <==> TurnRight(front, cuts, i) {
      assert script[..i] == front[..i] && script[..i + 1] == front[..i + 1];
    }
    if cuts != [] {
      SameTurns(script, cuts[..|cuts| - 1]);
    }
  }

  /** A coordinator that never refuses is sent what the script hands over, all of it and in order. */
  lemma NothingHandedIsLost<A>(script: seq<Round<A>>) returns (cuts: seq<nat>)
    requires forall i :: 0 <= i < |script| ==> script[i].send != Full
    ensures CutsFit(script, cuts) && Flat(Run(script).sent) + Run(script).pending == Handed(script, cuts)
    ensures forall i :: 0 <= i < |cuts| ==> TurnRight(script, cuts, i)
    ensures |cuts| < |script| ==> !Run(script[..|cuts|]).open
  {
    cuts := ReceivedIsHanded(script);
    NoRefusalNoLoss(script);
  }

  /** A turn that the coordinator accepts leaves nothing behind: a held backlog is offered in every turn. */
  lemma AcceptedLeavesNothing<A>(script: seq<Round<A>>, i: nat)
    requires i < |script| && Run(script[..i]).open && script[i].send.Accepted?
    ensures Run(script[..i + 1]).pending == []
  {
    var slices := BeamConserves(script[..i]);
    assert script[..i + 1][..i] == script[..i];
    var n := TurnTakes(Run(script[..i]), script[i]);
  }
}
