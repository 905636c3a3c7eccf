/**
 The ledger of conversational demand (src/actors/elevation_voice.rs:108-179): each mention counts one and
 fades by half every thirty minutes. The ledger keeps one running score per concept, and pruning drops
 scores that have faded to a twentieth.

 Decay is any function of elapsed time with the laws of an exponential; scores are reals, so rounding is
 not part of the model. Time never runs backwards.
 */
module VoiceDemand {
  import opened Basics

  /** The weight left of a mention after some time. */
  type Decay = nat -> real

  ghost predicate Multiplies(f: Decay, a: nat, b: nat) {
    f(a + b) == f(a) * f(b)
  }

  ghost predicate IsShare(f: Decay, a: nat) {
    0.0 < f(a) <= 1.0
  }

  /** `0.5` to the power of elapsed half-lives has these laws. */
  ghost predicate IsDecay(f: Decay) {
    && f(0) == 1.0
    && (forall a: nat, b: nat {:trigger Multiplies(f, a, b)} :: Multiplies(f, a, b))
    && (forall a: nat {:trigger IsShare(f, a)} :: IsShare(f, a))
  }

  /** What is left of a score after some time. */
  type Fade = (real, nat) -> real

  function FadeBy(f: Decay): Fade {
    (score: real, t: nat) => score * f(t)
  }

  ghost predicate Additive(fade: Fade, x: real, y: real, t: nat) {
    fade(x + y, t) == fade(x, t) + fade(y, t)
  }

  ghost predicate Scales(fade: Fade, k: int, x: real, t: nat) {
    fade(k as real * x, t) == k as real * fade(x, t)
  }

  ghost predicate Chains(fade: Fade, x: real, a: nat, b: nat) {
    fade(fade(x, a), b) == fade(x, a + b)
  }

  ghost predicate Shrinks(fade: Fade, x: real, t: nat) {
    fade(x, 0) == x && (x >= 0.0 ==> 0.0 <= fade(x, t) <= x)
  }

  /** The laws of fading that the ledger relies on. */
  ghost predicate IsFade(fade: Fade) {
    && (forall x: real, y: real, t: nat {:trigger Additive(fade, x, y, t)} :: Additive(fade, x, y, t))
    && (forall k: int, x: real, t: nat {:trigger Scales(fade, k, x, t)} :: Scales(fade, k, x, t))
    && (forall x: real, a: nat, b: nat {:trigger Chains(fade, x, a, b)} :: Chains(fade, x, a, b))
    && (forall x: real, t: nat {:trigger Shrinks(fade, x, t)} :: Shrinks(fade, x, t))
  }

  /** Exponential decay fades scores so. */
  lemma DecayFades(f: Decay)
    requires IsDecay(f)
    ensures IsFade(FadeBy(f))
  {
    var fade := FadeBy(f);
    forall x: real, y: real, t: nat ensures Additive(fade, x, y, t) {
      Distribute(x, y, f(t));
    }
    forall x: real, a: nat, b: nat ensures Chains(fade, x, a, b) {
      assert Multiplies(f, a, b);
      Regroup(x, f(a), f(b));
    }
    forall x: real, t: nat ensures Shrinks(fade, x, t) {
      assert IsShare(f, t);
      ShareOf(x, f(t));
    }
    forall k: int, x: real, t: nat ensures Scales(fade, k, x, t) {
      Regroup(k as real, x, f(t));
    }
  }

  lemma Distribute(x: real, y: real, z: real)
    ensures (x + y) * z == x * z + y * z
  {
  }

  lemma Regroup(x: real, y: real, z: real)
    ensures x * (y * z) == (x * y) * z
  {
  }

  lemma ShareOf(x: real, share: real)
    requires 0.0 < share <= 1.0
    ensures x >= 0.0 ==> 0.0 <= x * share <= x
  {
    if x >= 0.0 {
      assert 0.0 <= x * (1.0 - share);
    }
  }

  const MAX_EXCERPTS: nat := 3
  const NEGLIGIBLE: real := 0.05

  datatype Demand = Demand(mentions: nat, score: real, lastSeen: nat, speakers: seq<string>, excerpts: seq<string>)

  type Ledger = map<string, Demand>

  /** Elapsed time, zero when the clock reads earlier. */
  function Elapsed(since: nat, now: nat): nat {
    if since <= now then now - since else 0
  }

  function Faded(fade: Fade, d: Demand, now: nat): real {
    fade(d.score, Elapsed(d.lastSeen, now))
  }

  /** The score of a concept as the ledger reports it. */
  function ScoreOf(fade: Fade, l: Ledger, concept: string, now: nat): real {
    if concept in l then Faded(fade, l[concept], now) else 0.0
  }

  function DemandOf(l: Ledger, concept: string, now: nat): Demand {
    if concept in l then l[concept] else Demand(0, 0.0, now, [], [])
  }

  function Kept(excerpts: seq<string>): seq<string> {
    if |excerpts| >= MAX_EXCERPTS then excerpts[1..] else excerpts
  }

  function Noted(fade: Fade, l: Ledger, concept: string, excerpt: string, speaker: string, now: nat): Ledger {
    var d := DemandOf(l, concept, now);
    l[concept := Demand(
        d.mentions + 1,
        Faded(fade, d, now) + 1.0,
        now,
        if speaker != "" && speaker !in d.speakers then d.speakers + [speaker] else d.speakers,
        Kept(d.excerpts) + [excerpt])]
  }

  function Pruned(fade: Fade, l: Ledger, now: nat): Ledger {
    map c | c in l && Faded(fade, l[c], now) > NEGLIGIBLE :: l[c]
  }

  // ----- runs ---------------------------------------------------------------------------------

  datatype Event =
    | Note(concept: string, excerpt: string, speaker: string, at: nat)
    | Prune(at: nat)

  function Happened(fade: Fade, l: Ledger, e: Event): Ledger {
    match e
    case Note(c, excerpt, speaker, at) => Noted(fade, l, c, excerpt, speaker, at)
    case Prune(at) => Pruned(fade, l, at)
  }

  function After(fade: Fade, events: seq<Event>): Ledger {
    if events == [] then map[] else Happened(fade, After(fade, events[..|events| - 1]), events[|events| - 1])
  }

  /** When the last event happened. */
  function Clock(events: seq<Event>): nat {
    if events == [] then 0 else events[|events| - 1].at
  }

  ghost predicate InTime(events: seq<Event>) {
    forall i, j :: 0 <= i < j < |events| ==> events[i].at <= events[j].at
  }

  /** What the mentions of a concept add up to, each faded on its own since it was made. */
  function Demanded(fade: Fade, events: seq<Event>, concept: string, now: nat): real {
    if events == [] then 0.0
    else
      var last := events[|events| - 1];
      Demanded(fade, events[..|events| - 1], concept, now)
      + if last.Note? && last.concept == concept then fade(1.0, Elapsed(last.at, now)) else 0.0
  }

  /** Demand fades as a whole exactly as its mentions do one by one. */
  lemma {:induction false} DemandedFades(fade: Fade, events: seq<Event>, concept: string, a: nat, b: nat)
    requires IsFade(fade) && a <= b && forall e :: e in events ==> e.at <= a
    ensures Demanded(fade, events, concept, b) == fade(Demanded(fade, events, concept, a), b - a)
  {
    assert Additive(fade, 0.0, 0.0, b - a);
    if events != [] {
      var n := |events| - 1;
      var last := events[n];
      assert last in events;
      DemandedFades(fade, events[..n], concept, a, b);
      assert Chains(fade, 1.0, a - last.at, b - a);
      assert Additive(fade, Demanded(fade, events[..n], concept, a), fade(1.0, a - last.at), b - a);
      assert Additive(fade, Demanded(fade, events[..n], concept, a), 0.0, b - a);
    }
  }

  lemma ScoreFades(fade: Fade, l: Ledger, concept: string, a: nat, b: nat)
    requires IsFade(fade) && a <= b && (concept in l ==> l[concept].lastSeen <= a)
    ensures ScoreOf(fade, l, concept, b) == fade(ScoreOf(fade, l, concept, a), b - a)
  {
    if concept in l {
      assert Chains(fade, l[concept].score, a - l[concept].lastSeen, b - a);
    } else {
      assert Additive(fade, 0.0, 0.0, b - a);
    }
  }

  lemma {:induction false} SeenBefore(fade: Fade, events: seq<Event>, concept: string)
    requires InTime(events)
    ensures concept in After(fade, events) ==> After(fade, events)[concept].lastSeen <= Clock(events)
  {
    if events != [] {
      SeenBefore(fade, events[..|events| - 1], concept);
    }
  }

  lemma ClockIsLast(events: seq<Event>)
    requires InTime(events)
    ensures forall e :: e in events ==> e.at <= Clock(events)
  {
  }

  // ----- the error of pruning -----------------------------------------------------------------

  /** How much the ledger under-reports. */
  function Missing(fade: Fade, events: seq<Event>, concept: string, now: nat): real {
    Demanded(fade, events, concept, now) - ScoreOf(fade, After(fade, events), concept, now)
  }

  /**
   What pruning can have lost, at the time `now`: never more than a nineteenth, and while the concept is
   on the ledger never more than a nineteenth of its score.
   */
  ghost predicate Bounded(fade: Fade, events: seq<Event>, concept: string, now: nat) {
    var missing := Missing(fade, events, concept, now);
    && 0.0 <= missing && 19.0 * missing <= 1.0
    && (concept in After(fade, events) ==> 19.0 * missing <= ScoreOf(fade, After(fade, events), concept, now))
  }

  lemma MissingFades(fade: Fade, events: seq<Event>, concept: string, a: nat, b: nat)
    requires IsFade(fade) && InTime(events) && Clock(events) <= a <= b
    ensures Missing(fade, events, concept, b) == fade(Missing(fade, events, concept, a), b - a)
    ensures ScoreOf(fade, After(fade, events), concept, b)
            == fade(ScoreOf(fade, After(fade, events), concept, a), b - a)
  {
    ClockIsLast(events);
    SeenBefore(fade, events, concept);
    DemandedFades(fade, events, concept, a, b);
    ScoreFades(fade, After(fade, events), concept, a, b);
    assert Additive(fade, Missing(fade, events, concept, a), ScoreOf(fade, After(fade, events), concept, a), b - a);
  }

  lemma BoundedFades(fade: Fade, events: seq<Event>, concept: string, a: nat, b: nat)
    requires IsFade(fade) && InTime(events) && Clock(events) <= a <= b && Bounded(fade, events, concept, a)
    ensures Bounded(fade, events, concept, b)
  {
    var missing, score := Missing(fade, events, concept, a), ScoreOf(fade, After(fade, events), concept, a);
    MissingFades(fade, events, concept, a, b);
    assert Shrinks(fade, missing, b - a);
    var rest := score - 19.0 * missing;
    assert Scales(fade, 19, missing, b - a) && Additive(fade, rest, 19.0 * missing, b - a)
           && Shrinks(fade, rest, b - a);
  }

  /** One more event at time `e.at`, seen from that time. */
  lemma BoundedHappens(fade: Fade, events: seq<Event>, e: Event, concept: string)
    requires IsFade(fade) && Bounded(fade, events, concept, e.at)
    ensures Bounded(fade, events + [e], concept, e.at)
  {
    var l := After(fade, events);
    assert (events + [e])[..|events|] == events;
    assert After(fade, events + [e]) == Happened(fade, l, e);
    var d := DemandOf(After(fade, events), concept, e.at);
    assert Shrinks(fade, 1.0, 0) && Shrinks(fade, d.score, 0) && Shrinks(fade, Faded(fade, d, e.at) + 1.0, 0);
  }

  /** The bound holds after any events, at any later time. */
  lemma {:induction false} PruningError(fade: Fade, events: seq<Event>, concept: string, now: nat)
    requires IsFade(fade) && InTime(events) && Clock(events) <= now
    ensures Bounded(fade, events, concept, now)
  {
    if events != [] {
      var n := |events| - 1;
      var last := events[n];
      assert InTime(events[..n]) && Clock(events[..n]) <= last.at;
      PruningError(fade, events[..n], concept, last.at);
      BoundedHappens(fade, events[..n], last, concept);
      assert events == events[..n] + [last];
      BoundedFades(fade, events, concept, last.at, now);
    }
  }

  /**
   The pruning error bound: however notes and prunes interleave, the ledger never over-reports a concept
   and under-reports it by at most one nineteenth of a mention, under any exponential decay.
   */
  lemma UnderReportsByANineteenth(f: Decay, events: seq<Event>, concept: string, now: nat)
    requires IsDecay(f) && InTime(events) && Clock(events) <= now
    ensures var fade := FadeBy(f);
            0.0 <= Demanded(fade, events, concept, now) - ScoreOf(fade, After(fade, events), concept, now) <= 1.0 / 19.0
  {
    DecayFades(f);
    PruningError(FadeBy(f), events, concept, now);
  }

  ghost predicate RecordOk(d: Demand) {
    NoDuplicates(d.speakers) && "" !in d.speakers && 1 <= |d.excerpts| <= MAX_EXCERPTS && d.mentions >= 1
  }

  /** After any events every record names its speakers once each and keeps at most three excerpts. */
  lemma {:induction false} RecordsStayBounded(fade: Fade, events: seq<Event>, concept: string)
    ensures concept in After(fade, events) ==> RecordOk(After(fade, events)[concept])
  {
    if events != [] {
      RecordsStayBounded(fade, events[..|events| - 1], concept);
    }
  }

  /** The mentions of one concept, in order. */
  function NotesOf(events: seq<Event>, concept: string): seq<Event> {
    if events == [] then []
    else
      var last := events[|events| - 1];
      NotesOf(events[..|events| - 1], concept) + if last.Note? && last.concept == concept then [last] else []
  }

  /** The record of a concept says of these mentions how many, when last, by whom, and the last three excerpts. */
  ghost predicate Sums(d: Demand, notes: seq<Event>) {
    && notes != [] && (forall e :: e in notes ==> e.Note?)
    && d.mentions == |notes| && d.lastSeen == notes[|notes| - 1].at
    && |d.excerpts| == Min(|notes|, 3)
    && (forall i :: 0 <= i < |d.excerpts| ==> d.excerpts[i] == notes[|notes| - |d.excerpts| + i].excerpt)
    && Spoke(d.speakers, notes)
  }

  lemma SumsFirst(fade: Fade, l: Ledger, e: Event)
    requires e.Note? && e.concept !in l
    ensures Sums(Happened(fade, l, e)[e.concept], [e])
  {
    assert [e][0].speaker == e.speaker;
  }

  lemma SumsNext(fade: Fade, l: Ledger, e: Event, notes: seq<Event>)
    requires e.Note? && e.concept in l && Sums(l[e.concept], notes)
    ensures Sums(Happened(fade, l, e)[e.concept], notes + [e])
  {
    SpokeNext(l[e.concept].speakers, Happened(fade, l, e)[e.concept].speakers, notes, e);
    assert (notes + [e])[|notes|] == e;
  }

  ghost predicate Spoke(speakers: seq<string>, notes: seq<Event>)
    requires forall e :: e in notes ==> e.Note?
  {
    forall s :: s in speakers <==> s != "" && exists i :: 0 <= i < |notes| && notes[i].speaker == s
  }

  lemma SpokeNext(speakers: seq<string>, speakers': seq<string>, notes: seq<Event>, e: Event)
    requires e.Note? && (forall x :: x in notes ==> x.Note?) && Spoke(speakers, notes)
    requires forall s :: s in speakers' <==> s in speakers || (s == e.speaker && s != "")
    ensures Spoke(speakers', notes + [e])
  {
    var all := notes + [e];
    assert all[|notes|] == e;
    forall s ensures s in speakers' <==> s != "" && exists i :: 0 <= i < |all| && all[i].speaker == s {
      if i :| 0 <= i < |all| && all[i].speaker == s {
        assert i < |notes| ==> notes[i].speaker == s;
      }
      if i :| 0 <= i < |notes| && notes[i].speaker == s {
        assert all[i].speaker == s;
      }
    }
  }

  /** The record of the concept was made by event `n`, a mention of it, and was not dropped since. */
  ghost predicate KnownSince(fade: Fade, events: seq<Event>, concept: string, n: nat) {
    && n < |events| && concept !in After(fade, events[..n]) && events[n].Note? && events[n].concept == concept
    && forall m :: n < m <= |events| ==> concept in After(fade, events[..m])
  }

  /** And since then the record sums up every mention. */
  ghost predicate SummedSince(fade: Fade, events: seq<Event>, concept: string, n: nat) {
    && KnownSince(fade, events, concept, n) && concept in After(fade, events)
    && Sums(After(fade, events)[concept], NotesOf(events[n..], concept))
  }

  /**
   A record sums up all mentions of its concept since it was made: their number, the time of the last, every
   speaker that was named, and the last three excerpts in order.
   */
  lemma {:induction false} RecordSumsUp(fade: Fade, events: seq<Event>, concept: string) returns (n: nat)
    requires concept in After(fade, events)
    ensures SummedSince(fade, events, concept, n)
  {
    var front := events[..|events| - 1];
    if concept in After(fade, front) {
      n := RecordSumsUp(fade, front, concept);
      SumsOn(fade, events, concept, n);
    } else {
      n := |events| - 1;
      KnownFromNow(fade, events, concept);
    }
  }

  lemma SumsOn(fade: Fade, events: seq<Event>, concept: string, n: nat)
    requires events != [] && concept in After(fade, events)
    requires SummedSince(fade, events[..|events| - 1], concept, n)
    ensures SummedSince(fade, events, concept, n)
  {
    KnownOn(fade, events, concept, n);
    NotesMore(events, concept, n);
    SumsMore(fade, After(fade, events[..|events| - 1]), events[|events| - 1], concept,
             NotesOf(events[..|events| - 1][n..], concept));
  }

  lemma NotesMore(events: seq<Event>, concept: string, n: nat)
    requires n < |events|
    ensures var last := events[|events| - 1];
            NotesOf(events[n..], concept) == NotesOf(events[..|events| - 1][n..], concept)
              + if last.Note? && last.concept == concept then [last] else []
  {
    assert events[n..][..|events[n..]| - 1] == events[..|events| - 1][n..];
  }

  lemma SumsMore(fade: Fade, l: Ledger, e: Event, concept: string, notes: seq<Event>)
    requires concept in l && Sums(l[concept], notes) && concept in Happened(fade, l, e)
    ensures Sums(Happened(fade, l, e)[concept], notes + if e.Note? && e.concept == concept then [e] else [])
  {
    if e.Note? && e.concept == concept {
      SumsNext(fade, l, e, notes);
    } else {
      assert notes + [] == notes;
    }
  }

  lemma KnownFromNow(fade: Fade, events: seq<Event>, concept: string)
    requires events != [] && concept in After(fade, events) && concept !in After(fade, events[..|events| - 1])
    ensures SummedSince(fade, events, concept, |events| - 1)
  {
    BornNow(fade, events, concept);
    FirstSum(fade, events, concept);
  }

  lemma BornNow(fade: Fade, events: seq<Event>, concept: string)
    requires events != [] && concept in After(fade, events) && concept !in After(fade, events[..|events| - 1])
    ensures KnownSince(fade, events, concept, |events| - 1)
  {
    MadeBy(fade, After(fade, events[..|events| - 1]), events[|events| - 1], concept);
    assert events[..|events|] == events;
  }

  lemma FirstSum(fade: Fade, events: seq<Event>, concept: string)
    requires events != [] && concept in After(fade, events) && concept !in After(fade, events[..|events| - 1])
    ensures Sums(After(fade, events)[concept], NotesOf(events[|events| - 1..], concept))
  {
    var l, e := After(fade, events[..|events| - 1]), events[|events| - 1];
    MadeBy(fade, l, e, concept);
    SumsFirst(fade, l, e);
    NotesOfOne(e);
    assert events[|events| - 1..] == [e];
  }

  lemma MadeBy(fade: Fade, l: Ledger, e: Event, concept: string)
    requires concept !in l && concept in Happened(fade, l, e)
    ensures e.Note? && e.concept == concept
  {
  }

  lemma NotesOfOne(e: Event)
    requires e.Note?
    ensures NotesOf([e], e.concept) == [e]
  {
    assert [e][..0] == [];
  }

  lemma KnownOn(fade: Fade, events: seq<Event>, concept: string, n: nat)
    requires events != [] && concept in After(fade, events) && KnownSince(fade, events[..|events| - 1], concept, n)
    ensures KnownSince(fade, events, concept, n)
  {
    assert events[..|events| - 1][..n] == events[..n];
    forall m | n < m <= |events| ensures concept in After(fade, events[..m]) {
      StillKnown(fade, events, concept, m);
    }
  }

  lemma StillKnown(fade: Fade, events: seq<Event>, concept: string, m: nat)
    requires events != [] && m <= |events| && concept in After(fade, events)
    requires m < |events| ==> concept in After(fade, events[..|events| - 1][..m])
    ensures concept in After(fade, events[..m])
  {
    if m < |events| {
      assert events[..|events| - 1][..m] == events[..m];
    } else {
      assert events[..m] == events;
    }
  }

  /** Pruning drops a concept exactly when its reported score is a twentieth or less, and changes no other record. */
  lemma PruneDropsFaded(fade: Fade, l: Ledger, concept: string, now: nat)
    ensures concept in Pruned(fade, l, now) <==> concept in l && 20.0 * ScoreOf(fade, l, concept, now) > 1.0
    ensures concept in Pruned(fade, l, now) ==> Pruned(fade, l, now)[concept] == l[concept]
  {
  }

  /** Without pruning, the running score is exactly the sum of the faded mentions. */
  lemma {:induction false} UnprunedIsExact(fade: Fade, events: seq<Event>, concept: string, now: nat)
    requires IsFade(fade) && InTime(events) && Clock(events) <= now && forall e :: e in events ==> e.Note?
    ensures IsExact(fade, events, concept, now)
  {
    if events != [] {
      var n := |events| - 1;
      var last := events[n];
      assert last in events && InTime(events[..n]) && Clock(events[..n]) <= last.at;
      UnprunedIsExact(fade, events[..n], concept, last.at);
      ExactHappens(fade, events[..n], last, concept);
      assert events == events[..n] + [last];
      ExactFades(fade, events, concept, last.at, now);
    }
  }

  /** The mentions alone, as a ledger that is never pruned sees them. */
  function Notes(events: seq<Event>): seq<Event> {
    if events == [] then []
    else
      var rest := Notes(events[..|events| - 1]);
      if events[|events| - 1].Note? then rest + [events[|events| - 1]] else rest
  }

  lemma {:induction false} NotesAreMentions(events: seq<Event>)
    requires InTime(events)
    ensures InTime(Notes(events)) && Clock(Notes(events)) <= Clock(events)
    ensures forall e :: e in Notes(events) ==> e.Note? && e.at <= Clock(events)
  {
    if events != [] {
      var n := |events| - 1;
      NotesAreMentions(events[..n]);
      assert Clock(events[..n]) <= Clock(events);
    }
  }

  lemma {:induction false} NotesDemandAsMuch(fade: Fade, events: seq<Event>, concept: string, now: nat)
    ensures Demanded(fade, Notes(events), concept, now) == Demanded(fade, events, concept, now)
  {
    if events != [] {
      var n := |events| - 1;
      var rest := Notes(events[..n]);
      NotesDemandAsMuch(fade, events[..n], concept, now);
      assert (rest + [events[n]])[..|rest|] == rest;
    }
  }

  /**
   Against a ledger that is never pruned: however prunes are mixed into the same mentions, the pruned
   ledger reports every concept within a nineteenth of a mention of the unpruned one, and never above it.
   */
  lemma PrunedAgainstUnpruned(f: Decay, events: seq<Event>, concept: string, now: nat)
    requires IsDecay(f) && InTime(events) && Clock(events) <= now
    ensures var fade := FadeBy(f);
            var unpruned := ScoreOf(fade, After(fade, Notes(events)), concept, now);
            0.0 <= unpruned - ScoreOf(fade, After(fade, events), concept, now) <= 1.0 / 19.0
  {
    DecayFades(f);
    UnderReportsByANineteenth(f, events, concept, now);
    NotesAreMentions(events);
    UnprunedIsExact(FadeBy(f), Notes(events), concept, now);
    NotesDemandAsMuch(FadeBy(f), events, concept, now);
  }

  ghost predicate IsExact(fade: Fade, events: seq<Event>, concept: string, now: nat) {
    ScoreOf(fade, After(fade, events), concept, now) == Demanded(fade, events, concept, now)
  }

  lemma ExactHappens(fade: Fade, events: seq<Event>, e: Event, concept: string)
    requires IsFade(fade) && e.Note? && IsExact(fade, events, concept, e.at)
    ensures IsExact(fade, events + [e], concept, e.at)
  {
    assert (events + [e])[..|events|] == events;
    assert After(fade, events + [e]) == Happened(fade, After(fade, events), e);
    var d := DemandOf(After(fade, events), concept, e.at);
    assert Shrinks(fade, 1.0, 0) && Shrinks(fade, d.score, 0) && Shrinks(fade, Faded(fade, d, e.at) + 1.0, 0);
  }

  lemma ExactFades(fade: Fade, events: seq<Event>, concept: string, a: nat, b: nat)
    requires IsFade(fade) && InTime(events) && Clock(events) <= a <= b && IsExact(fade, events, concept, a)
    ensures IsExact(fade, events, concept, b)
  {
    ClockIsLast(events);
    SeenBefore(fade, events, concept);
    DemandedFades(fade, events, concept, a, b);
    ScoreFades(fade, After(fade, events), concept, a, b);
  }

  // ----- the ledger object --------------------------------------------------------------------

  /** A mention adds one to its own concept's score and leaves the others alone. */
  lemma NoteAddsOne(fade: Fade, l: Ledger, concept: string, excerpt: string, speaker: string, now: nat, other: string)
    requires IsFade(fade)
    ensures ScoreOf(fade, Noted(fade, l, concept, excerpt, speaker, now), other, now)
         == ScoreOf(fade, l, other, now) + if other == concept then 1.0 else 0.0
  {
    var d := DemandOf(l, concept, now);
    assert Shrinks(fade, 0.0, 0) && Shrinks(fade, Faded(fade, d, now) + 1.0, 0);
  }

  class VoiceDemandLedger {
    var demands: Ledger
    const fade: Fade
    const tidy: string -> string   // trims an excerpt and cuts it to 160 bytes

    constructor (fade: Fade, tidy: string -> string)
      ensures demands == map[] && this.fade == fade && this.tidy == tidy
    {
      this.fade, this.tidy := fade, tidy;
      demands := map[];
    }

    /** Record a mention: fade the running score to now, then add one; keep the last three excerpts. */
    method NoteMention(concept: string, excerpt: string, speaker: string, now: nat)
      modifies this`demands
      ensures demands == Noted(fade, old(demands), concept, tidy(excerpt), speaker, now)
    {
      var d := if concept in demands then demands[concept] else Demand(0, 0.0, now, [], []);
      d := d.(score := fade(d.score, Elapsed(d.lastSeen, now)) + 1.0);
      d := d.(mentions := d.mentions + 1, lastSeen := now);
      if speaker != "" && speaker !in d.speakers {
        d := d.(speakers := d.speakers + [speaker]);
      }
      if |d.excerpts| >= MAX_EXCERPTS {
        d := d.(excerpts := d.excerpts[1..]);
      }
      d := d.(excerpts := d.excerpts + [tidy(excerpt)]);
      demands := demands[concept := d];
      assert d == Noted(fade, old(demands), concept, tidy(excerpt), speaker, now)[concept];
    }

    /** Drop what has faded to a twentieth or less; nothing else changes. */
    method PruneFaded(now: nat)
      modifies this`demands
      ensures demands == Pruned(fade, old(demands), now)
    {
      var rest := demands.Keys;
      var kept: Ledger := map[];
      while rest != {}
        invariant rest <= demands.Keys
        invariant forall c :: c in kept <==> c in demands && c !in rest && Faded(fade, demands[c], now) > NEGLIGIBLE
        invariant forall c :: c in kept ==> kept[c] == demands[c]
        decreases |rest|
      {
        var c :| c in rest;
        if fade(demands[c].score, Elapsed(demands[c].lastSeen, now)) > NEGLIGIBLE {
          kept := kept[c := demands[c]];
        }
        rest := rest - {c};
      }
      demands := kept;
    }
  }
}
