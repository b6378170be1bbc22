/** Which publications take effect, in terms of what happened before: packages/ai/src/models.ts. */
module ModelEffects {
  import opened Outcomes
  import opened ModelPublications

  /** How often a provider was replaced or its refresh began: the number of its refresh. */
  function Rounds(events: seq<Event>, p: Id): nat
  {
    if events == [] then 0
    else
      var last := events[|events| - 1];
      Rounds(events[..|events| - 1], p) + if last == Supersedes(p) || last == Begins(p) then 1 else 0
  }

  /** The refresh is the latest of its provider, and nobody gave it up. */
  ghost predicate Wanted(events: seq<Event>, p: Id, generation: nat)
  {
    generation > 0 && generation == Rounds(events, p) && Aborts(p, generation) !in events
  }

  /** What is remembered of refresh `g` of a provider is what happened. */
  predicate Recalls(m: Models, events: seq<Event>, p: Id, g: nat)
  {
    && Generation(m, p) == Rounds(events, p) && (p in m.generations <==> Rounds(events, p) > 0)
    && (p in m.controllers ==> m.controllers[p] <= Rounds(events, p))
    && ((p, g) in m.aborted ==> Aborts(p, g) in events || g < Rounds(events, p))
    && (Aborts(p, g) in events ==> (p, g) in m.aborted)
  }

  lemma {:induction false} RoundsNext(before: seq<Event>, e: Event, p: Id)
    ensures Rounds(before + [e], p) == Rounds(before, p) + if e == Supersedes(p) || e == Begins(p) then 1 else 0
  {
    assert (before + [e])[..|before|] == before;
  }

  lemma {:induction false} AbortsNext(before: seq<Event>, e: Event, p: Id, g: nat)
    ensures Aborts(p, g) in before + [e] <==> Aborts(p, g) in before || e == Aborts(p, g)
  {
    assert (before + [e])[|before|] == e;
  }

  lemma {:induction false} NextRecalls(m: Models, before: seq<Event>, e: Event, p: Id, g: nat)
    requires Recalls(m, before, p, g)
    ensures Recalls(Next(m, e), before + [e], p, g)
  {
    RoundsNext(before, e, p);
    AbortsNext(before, e, p, g);
    match e
    case Supersedes(_) =>
    case Begins(_) =>
    case Finishes(_, _) =>
    case Aborts(_, _) =>
    case _ => OthersSame(m, e);
  }

  predicate SameRefreshes(m: Models, t: Models)
  {
    t.generations == m.generations && t.controllers == m.controllers && t.aborted == m.aborted
  }

  lemma {:induction false} ConcludeSame(m: Models, i: nat)
    requires i < |m.pubs|
    ensures SameRefreshes(m, Conclude(m, i)) && SameRefreshes(m, Settle(m, i, false))
  {
  }

  lemma {:induction false} StartSame(m: Models, i: nat)
    ensures SameRefreshes(m, Start(m, i))
  {
    if i < |m.pubs| {
      ConcludeSame(m, i);
    }
  }

  lemma {:induction false} LandSame(m: Models, i: nat, wrote: bool, ok: bool)
    ensures SameRefreshes(m, Land(m, i, wrote, ok))
  {
    if i < |m.pubs| {
      ConcludeSame(if wrote then Stored(m, m.pubs[i]) else m, i);
    }
  }

  lemma {:induction false} OthersSame(m: Models, e: Event)
    requires e.Publishes? || e.Starts? || e.Lands? || e.Unchains?
    ensures SameRefreshes(m, Next(m, e))
  {
    match e
    case Starts(i) => StartSame(m, i);
    case Lands(i, wrote, ok) => LandSame(m, i, wrote, ok);
    case _ =>
  }

  lemma {:induction false} AlwaysRecalls(events: seq<Event>, p: Id, g: nat)
    ensures Recalls(After(events), events, p, g)
  {
    if events != [] {
      var before, e := events[..|events| - 1], events[|events| - 1];
      AlwaysRecalls(before, p, g);
      NextRecalls(After(before), before, e, p, g);
      assert events == before + [e];
    }
  }

  /** A publication is current exactly if its refresh is the latest of its provider and was not given up. */
  lemma {:induction false} CurrentExactly(events: seq<Event>, pub: Publication)
    ensures Current(After(events), pub) <==> Wanted(events, pub.provider, pub.generation)
  {
    AlwaysRecalls(events, pub.provider, pub.generation);
  }

  // ---- What every event does ------------------------------------------------------------

  /** Whatever the publication waits for has settled. */
  predicate MayStart(m: Models, i: nat)
  {
    && i < |m.pubs| && m.pubs[i].stage == Queued
    && match m.pubs[i].previous
       case None => true
       case Some(j) => j < |m.pubs| && m.pubs[j].stage.Settled?
  }

  predicate Writes(m: Models, i: nat) { i < |m.pubs| && m.pubs[i].stage == Writing }

  predicate Reaches(m: Models, t: Models, i: nat, stage: Stage)
    requires i < |m.pubs|
  {
    t.pubs == m.pubs[i := m.pubs[i].(stage := stage)]
  }

  /** The store is told what the publication is to persist. */
  predicate Persists(m: Models, t: Models, pub: Publication)
  {
    match pub.persist
    case Write(value) => t.store == m.store[pub.provider := value]
    case Erase => t.store == m.store - {pub.provider}
    case Untouched => false
  }

  /** What an event does to the publications, the memory and the store: a publication whose turn it is gives up if
      its refresh is no longer wanted, and otherwise persists what it has to; when the store has taken that, and the
      refresh is still wanted, the memory has its update. */
  ghost predicate Happens(events: seq<Event>, m: Models, e: Event, t: Models)
  {
    match e
    case Starts(i) =>
      if !MayStart(m, i) then t == m
      else
        var pub := m.pubs[i];
        && t.store == m.store
        && if !Wanted(events, pub.provider, pub.generation) then
             Reaches(m, t, i, Settled(false)) && t.memory == m.memory
           else if pub.persist == Untouched then
             Reaches(m, t, i, Settled(true)) && t.memory == m.memory[pub.provider := pub.update]
           else
             Reaches(m, t, i, Writing) && t.memory == m.memory
    case Lands(i, wrote, ok) =>
      if !Writes(m, i) then t == m
      else
        var pub := m.pubs[i];
        && (if wrote then Persists(m, t, pub) else t.store == m.store)
        && if ok && Wanted(events, pub.provider, pub.generation) then
             Reaches(m, t, i, Settled(true)) && t.memory == m.memory[pub.provider := pub.update]
           else
             Reaches(m, t, i, Settled(false)) && t.memory == m.memory
    case Publishes(p, g, persist, update) =>
      && t.memory == m.memory && t.store == m.store
      && if 1 <= g <= Rounds(events, p)
         then |t.pubs| == |m.pubs| + 1 && m.pubs <= t.pubs
              && t.pubs[|m.pubs|] == Publication(p, g, persist, update, t.pubs[|m.pubs|].previous, Queued)
         else t.pubs == m.pubs
    case _ => t.pubs == m.pubs && t.memory == m.memory && t.store == m.store
  }

  /** Only what has something to persist waits for the store. */
  predicate WriterPersists(m: Models, i: nat) { Writes(m, i) ==> m.pubs[i].persist != Untouched }

  lemma {:induction false} NextPersists(m: Models, e: Event, i: nat)
    requires WriterPersists(m, i)
    ensures WriterPersists(Next(m, e), i)
  {
    match e
    case Starts(k) =>
      StartMoves(m, k);
      if k < |m.pubs| && m.pubs[k].stage != Writing {
        StartPersists(m, k);
      }
    case Lands(k, wrote, ok) => LandMoves(m, k, wrote, ok);
    case _ =>
  }

  lemma {:induction false} ConcludeSettles(m: Models, i: nat)
    requires i < |m.pubs|
    ensures var pub, t := m.pubs[i], Conclude(m, i);
            && Reaches(m, t, i, Settled(Current(m, pub))) && t.store == m.store
            && t.memory == if Current(m, pub) then m.memory[pub.provider := pub.update] else m.memory
  {
  }

  lemma {:induction false} StoredStays(m: Models, pub: Publication, i: nat)
    ensures var t := Stored(m, pub); t.pubs == m.pubs && t.memory == m.memory && SameRefreshes(m, t)
  {
  }

  lemma {:induction false} StartPersists(m: Models, i: nat)
    requires i < |m.pubs| && m.pubs[i].stage != Writing
    ensures i < |Start(m, i).pubs| && WriterPersists(Start(m, i), i)
  {
    ConcludeSettles(m, i);
  }

  lemma {:induction false} AlwaysPersists(events: seq<Event>, i: nat)
    ensures WriterPersists(After(events), i)
  {
    if events != [] {
      AlwaysPersists(events[..|events| - 1], i);
      NextPersists(After(events[..|events| - 1]), events[|events| - 1], i);
    }
  }

  lemma {:induction false} StartHappens(events: seq<Event>, i: nat)
    ensures var m := After(events); Happens(events, m, Starts(i), Start(m, i))
  {
    var m := After(events);
    if i < |m.pubs| {
      CurrentExactly(events, m.pubs[i]);
      ConcludeSettles(m, i);
    }
  }

  lemma {:induction false} LandHappens(events: seq<Event>, i: nat, wrote: bool, ok: bool)
    ensures var m := After(events); Happens(events, m, Lands(i, wrote, ok), Land(m, i, wrote, ok))
  {
    var m := After(events);
    AlwaysPersists(events, i);
    if i < |m.pubs| {
      CurrentExactly(events, m.pubs[i]);
      StoredStays(m, m.pubs[i], i);
      ConcludeSettles(if wrote then Stored(m, m.pubs[i]) else m, i);
    }
  }

  lemma {:induction false} PublishHappens(events: seq<Event>, p: Id, g: nat, persist: Persist, update: string)
    ensures var m := After(events);
            Happens(events, m, Publishes(p, g, persist, update), Next(m, Publishes(p, g, persist, update)))
  {
    AlwaysRecalls(events, p, g);
  }

  lemma {:induction false} EventsHappen(events: seq<Event>, e: Event)
    ensures Happens(events, After(events), e, Next(After(events), e))
  {
    match e
    case Starts(i) => StartHappens(events, i);
    case Lands(i, wrote, ok) => LandHappens(events, i, wrote, ok);
    case Publishes(p, g, persist, update) => PublishHappens(events, p, g, persist, update);
    case _ =>
  }
}
