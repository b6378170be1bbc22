/** Publication of refreshed model lists: packages/ai/src/models.ts. Each publication waits for the one queued
    before it for the same provider; a promise it waits for is the publication that settles it. */
module ModelPublications {
  import opened Outcomes

  type Id = string

  datatype Persist = Untouched | Erase | Write(value: string)
  datatype Stage = Queued | Writing | Settled(published: bool)

  /** `previous` is the tail that the chain had when the publication was queued. */
  datatype Publication = Publication(provider: Id, generation: nat, persist: Persist, update: string,
                                     previous: Option<nat>, stage: Stage)

  /** Something that a publication did for a provider, and the generation it belongs to. */
  datatype Effect = Effect(provider: Id, generation: nat)

  /** `controllers` holds the generation whose controller is current. `stored` and `updated` are history:
      the mutations of the store and the in-memory updates, in order. */
  datatype Models = Models(generations: map<Id, nat>, controllers: map<Id, nat>, aborted: set<(Id, nat)>,
                           chains: map<Id, nat>,
                           pubs: seq<Publication>, store: map<Id, string>, memory: map<Id, string>,
                           stored: seq<Effect>, updated: seq<Effect>)

  const EMPTY := Models(map[], map[], {}, map[], [], map[], map[], [], [])

  function Generation(m: Models, p: Id): nat { if p in m.generations then m.generations[p] else 0 }

  function Supersede(m: Models, p: Id): Models
  {
    m.(generations := m.generations[p := Generation(m, p) + 1],
       controllers := m.controllers - {p},
       aborted := if p in m.controllers then m.aborted + {(p, m.controllers[p])} else m.aborted)
  }

  function Begin(m: Models, p: Id): Models
  {
    var s := Supersede(m, p);
    s.(controllers := s.controllers[p := Generation(s, p)])
  }

  function Finish(m: Models, p: Id, generation: nat): Models
  {
    if p in m.controllers && m.controllers[p] == generation then m.(controllers := m.controllers - {p}) else m
  }

  function Enqueue(m: Models, p: Id, generation: nat, persist: Persist, update: string): Models
  {
    var previous := if p in m.chains then Some(m.chains[p]) else None;
    m.(pubs := m.pubs + [Publication(p, generation, persist, update, previous, Queued)],
       chains := m.chains[p := |m.pubs|])
  }

  predicate Current(m: Models, pub: Publication)
  {
    (pub.provider, pub.generation) !in m.aborted && pub.provider in m.generations
    && m.generations[pub.provider] == pub.generation
  }

  predicate Free(m: Models, i: nat)
    requires i < |m.pubs|
  {
    m.pubs[i].previous.None? || (m.pubs[i].previous.value < |m.pubs| && m.pubs[m.pubs[i].previous.value].stage.Settled?)
  }

  function Settle(m: Models, i: nat, published: bool): Models
    requires i < |m.pubs|
  {
    m.(pubs := m.pubs[i := m.pubs[i].(stage := Settled(published))])
  }

  /** The second check, and the update in memory. */
  function Conclude(m: Models, i: nat): Models
    requires i < |m.pubs|
  {
    var pub := m.pubs[i];
    if !Current(m, pub) then Settle(m, i, false)
    else Settle(m, i, true).(memory := m.memory[pub.provider := pub.update],
                             updated := m.updated + [Effect(pub.provider, pub.generation)])
  }

  /** The wait for the previous publication is over. */
  function Start(m: Models, i: nat): Models
  {
    if i >= |m.pubs| || !m.pubs[i].stage.Queued? || !Free(m, i) then m
    else if !Current(m, m.pubs[i]) then Settle(m, i, false)
    else if m.pubs[i].persist.Untouched? then Conclude(m, i)
    else m.(pubs := m.pubs[i := m.pubs[i].(stage := Writing)])
  }

  function Stored(m: Models, pub: Publication): Models
  {
    m.(store := if pub.persist.Write? then m.store[pub.provider := pub.persist.value] else m.store - {pub.provider},
       stored := m.stored + [Effect(pub.provider, pub.generation)])
  }

  /** The store has answered: it succeeded or failed, and may have changed even if it failed. */
  function Land(m: Models, i: nat, wrote: bool, ok: bool): Models
  {
    if i >= |m.pubs| || !m.pubs[i].stage.Writing? then m
    else
      var written := if wrote then Stored(m, m.pubs[i]) else m;
      if ok then Conclude(written, i) else Settle(written, i, false)
  }

  /** A settled tail is taken off its chain. */
  function Unchain(m: Models, i: nat): Models
  {
    if i >= |m.pubs| || !m.pubs[i].stage.Settled? || m.pubs[i].provider !in m.chains
    || m.chains[m.pubs[i].provider] != i then m
    else m.(chains := m.chains - {m.pubs[i].provider})
  }

  datatype Event =
    | Supersedes(provider: Id)
    | Begins(provider: Id)
    | Finishes(provider: Id, generation: nat)
    | Aborts(provider: Id, generation: nat)
    | Publishes(provider: Id, generation: nat, persist: Persist, update: string)
    | Starts(index: nat)
    | Lands(index: nat, wrote: bool, ok: bool)
    | Unchains(index: nat)

  function Next(m: Models, e: Event): Models
  {
    match e
    case Supersedes(p) => Supersede(m, p)
    case Begins(p) => Begin(m, p)
    case Finishes(p, g) => Finish(m, p, g)
    case Aborts(p, g) => m.(aborted := m.aborted + {(p, g)})
    case Publishes(p, g, persist, update) => if 1 <= g <= Generation(m, p) then Enqueue(m, p, g, persist, update) else m
    case Starts(i) => Start(m, i)
    case Lands(i, wrote, ok) => Land(m, i, wrote, ok)
    case Unchains(i) => Unchain(m, i)
  }

  // ---- The chain is a queue ---------------------------------------------------------

  /** Whatever was queued before it for the same provider has settled. */
  ghost predicate Alone(m: Models, i: nat)
    requires i < |m.pubs|
  {
    forall j | 0 <= j < i && m.pubs[j].provider == m.pubs[i].provider :: m.pubs[j].stage.Settled?
  }

  /** When the awaited publication has settled, everything before the waiting one has. */
  ghost predicate WaitsForAll(m: Models, i: nat)
    requires i < |m.pubs|
  {
    match m.pubs[i].previous
    case None => Alone(m, i)
    case Some(j) =>
      && j < i && m.pubs[j].provider == m.pubs[i].provider
      && forall k | j < k < i :: m.pubs[k].provider != m.pubs[i].provider
  }

  /** The tail of a chain is its last publication; without one, all have settled. */
  ghost predicate TailIsLast(m: Models, p: Id)
  {
    if p in m.chains then
      && m.chains[p] < |m.pubs| && m.pubs[m.chains[p]].provider == p
      && forall k | m.chains[p] < k < |m.pubs| :: m.pubs[k].provider != p
    else
      forall k | 0 <= k < |m.pubs| && m.pubs[k].provider == p :: m.pubs[k].stage.Settled?
  }

  ghost predicate Chained(m: Models)
  {
    && (forall i: nat | i < |m.pubs| :: WaitsForAll(m, i))
    && (forall i: nat | i < |m.pubs| && !m.pubs[i].stage.Queued? :: Alone(m, i))
    && (forall p: Id :: TailIsLast(m, p))
  }

  predicate InOrder(effects: seq<Effect>)
  {
    forall i, j | 0 <= i < j < |effects| && effects[i].provider == effects[j].provider ::
      effects[i].generation <= effects[j].generation
  }

  ghost predicate Bounded(m: Models, effects: seq<Effect>)
  {
    forall i | 0 <= i < |effects| :: effects[i].generation <= Generation(m, effects[i].provider)
  }

  /** What has been stored is not newer than what is being written. */
  ghost predicate WritesLast(m: Models)
  {
    forall i, j | 0 <= i < |m.pubs| && 0 <= j < |m.stored| && m.pubs[i].stage.Writing?
    && m.pubs[i].provider == m.stored[j].provider ::
      m.stored[j].generation <= m.pubs[i].generation
  }

  ghost predicate Ordered(m: Models)
  {
    && InOrder(m.stored) && InOrder(m.updated) && Bounded(m, m.stored) && Bounded(m, m.updated) && WritesLast(m)
    && (forall i | 0 <= i < |m.pubs| :: m.pubs[i].generation <= Generation(m, m.pubs[i].provider))
  }

  lemma {:induction false} FreeIsAlone(m: Models, i: nat)
    requires Chained(m) && i < |m.pubs| && Free(m, i)
    ensures Alone(m, i)
  {
    assert WaitsForAll(m, i);
    if m.pubs[i].previous.Some? {
      var j := m.pubs[i].previous.value;
      assert Alone(m, j);
    }
  }

  /** The publication at `i` moves on, and no other. */
  ghost predicate Moves(m: Models, t: Models, i: nat)
  {
    && i < |m.pubs| == |t.pubs| && t.chains == m.chains
    && t.pubs == m.pubs[i := m.pubs[i].(stage := t.pubs[i].stage)] && !t.pubs[i].stage.Queued?
    && (m.pubs[i].stage.Settled? ==> t.pubs[i].stage.Settled?)
  }

  lemma {:induction false} MovesChained(m: Models, t: Models, i: nat)
    requires Chained(m) && Moves(m, t, i) && Alone(m, i)
    ensures Chained(t)
  {
    forall k: nat | k < |t.pubs| ensures WaitsForAll(t, k) {
      assert WaitsForAll(m, k);
    }
    forall k: nat | k < |t.pubs| && !t.pubs[k].stage.Queued? ensures Alone(t, k) {
      assert k != i ==> Alone(m, k);
    }
    forall p: Id ensures TailIsLast(t, p) {
      assert TailIsLast(m, p);
    }
  }

  lemma {:induction false} EnqueueChained(m: Models, p: Id, g: nat, persist: Persist, update: string)
    requires Chained(m)
    ensures Chained(Enqueue(m, p, g, persist, update))
  {
    var t := Enqueue(m, p, g, persist, update);
    assert TailIsLast(m, p);
    forall k: nat | k < |t.pubs| ensures WaitsForAll(t, k) {
      assert k < |m.pubs| ==> WaitsForAll(m, k);
    }
    forall k: nat | k < |t.pubs| && !t.pubs[k].stage.Queued? ensures Alone(t, k) {
      assert Alone(m, k);
    }
    forall q: Id ensures TailIsLast(t, q) {
      assert TailIsLast(m, q);
    }
  }

  lemma {:induction false} UnchainChained(m: Models, i: nat)
    requires Chained(m)
    ensures Chained(Unchain(m, i))
  {
    var t := Unchain(m, i);
    if t != m {
      assert Alone(m, i) && TailIsLast(m, m.pubs[i].provider);
      forall k: nat | k < |t.pubs| ensures WaitsForAll(t, k) && (!t.pubs[k].stage.Queued? ==> Alone(t, k)) {
        assert WaitsForAll(m, k) && (!m.pubs[k].stage.Queued? ==> Alone(m, k));
      }
      forall q: Id ensures TailIsLast(t, q) {
        assert TailIsLast(m, q);
      }
    }
  }

  lemma {:induction false} SameChains(m: Models, t: Models)
    requires Chained(m) && t.pubs == m.pubs && t.chains == m.chains
    ensures Chained(t)
  {
    forall k: nat | k < |t.pubs| ensures WaitsForAll(t, k) && (!t.pubs[k].stage.Queued? ==> Alone(t, k)) {
      assert WaitsForAll(m, k) && (!m.pubs[k].stage.Queued? ==> Alone(m, k));
    }
    forall q: Id ensures TailIsLast(t, q) {
      assert TailIsLast(m, q);
    }
  }

  lemma {:induction false} ConcludeMoves(m: Models, i: nat)
    requires i < |m.pubs|
    ensures Moves(m, Conclude(m, i), i) && Moves(m, Settle(m, i, false), i)
  {
  }

  lemma {:induction false} StartMoves(m: Models, i: nat)
    ensures Start(m, i) == m || (Moves(m, Start(m, i), i) && Free(m, i))
  {
    if i < |m.pubs| {
      ConcludeMoves(m, i);
    }
  }

  lemma {:induction false} LandMoves(m: Models, i: nat, wrote: bool, ok: bool)
    ensures Land(m, i, wrote, ok) == m || (Moves(m, Land(m, i, wrote, ok), i) && m.pubs[i].stage.Writing?)
  {
  }

  lemma {:induction false} NextChained(m: Models, e: Event)
    requires Chained(m)
    ensures Chained(Next(m, e))
  {
    match e
    case Publishes(p, g, persist, update) => EnqueueChained(m, p, g, persist, update);
    case Starts(i) => StartChained(m, i);
    case Lands(i, wrote, ok) => LandChained(m, i, wrote, ok);
    case Unchains(i) => UnchainChained(m, i);
    case _ => SameChains(m, Next(m, e));
  }

  lemma {:induction false} StartChained(m: Models, i: nat)
    requires Chained(m)
    ensures Chained(Start(m, i))
  {
    StartMoves(m, i);
    if Start(m, i) != m {
      FreeIsAlone(m, i);
      MovesChained(m, Start(m, i), i);
    }
  }

  lemma {:induction false} LandChained(m: Models, i: nat, wrote: bool, ok: bool)
    requires Chained(m)
    ensures Chained(Land(m, i, wrote, ok))
  {
    LandMoves(m, i, wrote, ok);
    if Land(m, i, wrote, ok) != m {
      MovesChained(m, Land(m, i, wrote, ok), i);
    }
  }

  // ---- Effects come in the order of generations -------------------------------------

  /** A new effect of a generation that is not older than those before it. */
  lemma {:induction false} InOrderAppend(effects: seq<Effect>, e: Effect)
    requires InOrder(effects)
    requires forall i | 0 <= i < |effects| && effects[i].provider == e.provider :: effects[i].generation <= e.generation
    ensures InOrder(effects + [e])
  {
  }

  lemma {:induction false} GenerationsGrow(m: Models, t: Models)
    requires Ordered(m) && t.pubs == m.pubs && t.stored == m.stored && t.updated == m.updated
    requires forall p: Id :: Generation(m, p) <= Generation(t, p)
    ensures Ordered(t)
  {
    forall i | 0 <= i < |t.stored| ensures t.stored[i].generation <= Generation(t, t.stored[i].provider) {
      assert Generation(m, m.stored[i].provider) <= Generation(t, m.stored[i].provider);
    }
    forall i | 0 <= i < |t.updated| ensures t.updated[i].generation <= Generation(t, t.updated[i].provider) {
      assert Generation(m, m.updated[i].provider) <= Generation(t, m.updated[i].provider);
    }
    forall i | 0 <= i < |t.pubs| ensures t.pubs[i].generation <= Generation(t, t.pubs[i].provider) {
      assert Generation(m, m.pubs[i].provider) <= Generation(t, m.pubs[i].provider);
    }
  }

  lemma {:induction false} SettleOrdered(m: Models, i: nat, published: bool)
    requires Ordered(m) && i < |m.pubs|
    ensures Ordered(Settle(m, i, published))
  {
  }

  lemma {:induction false} ConcludeOrdered(m: Models, i: nat)
    requires Ordered(m) && i < |m.pubs|
    ensures Ordered(Conclude(m, i))
  {
    SettleOrdered(m, i, false);
    SettleOrdered(m, i, true);
    var pub := m.pubs[i];
    if Current(m, pub) {
      InOrderAppend(m.updated, Effect(pub.provider, pub.generation));
    }
  }

  lemma {:induction false} StartOrdered(m: Models, i: nat)
    requires Ordered(m)
    ensures Ordered(Start(m, i))
  {
    if i < |m.pubs| {
      SettleOrdered(m, i, false);
      ConcludeOrdered(m, i);
      var t := m.(pubs := m.pubs[i := m.pubs[i].(stage := Writing)]);
      if Current(m, m.pubs[i]) {
        assert WritesLast(t);
        assert Ordered(t);
      }
    }
  }

  /** The only publication in flight writes. */
  lemma {:induction false} StoredOrdered(m: Models, i: nat)
    requires Ordered(m) && Chained(m) && i < |m.pubs| && m.pubs[i].stage.Writing?
    ensures Ordered(Stored(m, m.pubs[i]))
  {
    var pub := m.pubs[i];
    InOrderAppend(m.stored, Effect(pub.provider, pub.generation));
    OnlyWriter(m, i);
  }

  lemma {:induction false} LandOrdered(m: Models, i: nat, wrote: bool, ok: bool)
    requires Ordered(m) && Chained(m)
    ensures Ordered(Land(m, i, wrote, ok))
  {
    if i < |m.pubs| && m.pubs[i].stage.Writing? {
      StoredOrdered(m, i);
      var written := if wrote then Stored(m, m.pubs[i]) else m;
      SettleOrdered(written, i, false);
      ConcludeOrdered(written, i);
    }
  }

  /** At most one publication of a provider is in flight. */
  lemma {:induction false} OnlyWriter(m: Models, i: nat)
    requires Chained(m) && i < |m.pubs| && m.pubs[i].stage.Writing?
    ensures forall k | 0 <= k < |m.pubs| && m.pubs[k].stage.Writing? && m.pubs[k].provider == m.pubs[i].provider ::
              k == i
  {
    forall k: nat | k < |m.pubs| && m.pubs[k].stage.Writing?
                    && m.pubs[k].provider == m.pubs[i].provider
      ensures k == i
    {
      assert Alone(m, i) && Alone(m, k);
    }
  }

  lemma {:induction false} EnqueueOrdered(m: Models, p: Id, g: nat, persist: Persist, update: string)
    requires Ordered(m) && g <= Generation(m, p)
    ensures Ordered(Enqueue(m, p, g, persist, update))
  {
  }

  lemma {:induction false} NextOrdered(m: Models, e: Event)
    requires Chained(m) && Ordered(m)
    ensures Ordered(Next(m, e))
  {
    match e
    case Publishes(p, g, persist, update) =>
      if g <= Generation(m, p) {
        EnqueueOrdered(m, p, g, persist, update);
      }
    case Starts(i) => StartOrdered(m, i);
    case Lands(i, wrote, ok) => LandOrdered(m, i, wrote, ok);
    case _ => GenerationsGrow(m, Next(m, e));
  }

  // ---- Whole runs -------------------------------------------------------------------

  function After(events: seq<Event>): Models
  {
    if events == [] then EMPTY else Next(After(events[..|events| - 1]), events[|events| - 1])
  }

  lemma {:induction false} Always(events: seq<Event>)
    ensures Chained(After(events)) && Ordered(After(events))
  {
    if events != [] {
      var m := After(events[..|events| - 1]);
      Always(events[..|events| - 1]);
      NextChained(m, events[|events| - 1]);
      NextOrdered(m, events[|events| - 1]);
    }
  }

  /** For every interleaving of refreshes, replacements, aborts and publications: at most one
      publication of a provider is in flight, and store and memory change in the order of generations. */
  lemma {:induction false} PublicationsInOrder(events: seq<Event>)
    ensures var m := After(events);
            && (forall i, k | 0 <= i < |m.pubs| && 0 <= k < |m.pubs| && m.pubs[i].stage.Writing?
                && m.pubs[k].stage.Writing?
                              && m.pubs[i].provider == m.pubs[k].provider :: i == k)
            && InOrder(m.stored) && InOrder(m.updated)
  {
    Always(events);
    var m := After(events);
    forall i: nat, k: nat | i < |m.pubs| && k < |m.pubs| && m.pubs[i].stage.Writing? && m.pubs[k].stage.Writing?
    && m.pubs[i].provider == m.pubs[k].provider
      ensures i == k
    {
      OnlyWriter(m, i);
    }
  }

  /** The publication at `i` took effect in memory, while its generation was current and not aborted. */
  ghost predicate TookEffect(m: Models, t: Models, i: nat)
    requires i < |m.pubs|
  {
    var pub := m.pubs[i];
    && Current(m, pub) && !pub.stage.Settled?
    && t.updated == m.updated + [Effect(pub.provider, pub.generation)]
    && t.memory == m.memory[pub.provider := pub.update]
  }

  /** Every step leaves the memory alone, or is the update of a current publication; so a superseded
      refresh never overwrites anything. */
  lemma {:induction false} OnlyCurrentUpdates(m: Models, e: Event)
    ensures (Next(m, e).updated == m.updated && Next(m, e).memory == m.memory)
            || (exists i: nat | i < |m.pubs| :: TookEffect(m, Next(m, e), i))
  {
    match e
    case Starts(i) => StartUpdates(m, i);
    case Lands(i, wrote, ok) => LandUpdates(m, i, wrote, ok);
    case _ =>
  }

  lemma {:induction false} ConcludeUpdates(m: Models, i: nat)
    requires i < |m.pubs| && !m.pubs[i].stage.Settled?
    ensures (Conclude(m, i).updated == m.updated && Conclude(m, i).memory == m.memory)
            || TookEffect(m, Conclude(m, i), i)
  {
  }

  lemma {:induction false} StartUpdates(m: Models, i: nat)
    ensures (Start(m, i).updated == m.updated && Start(m, i).memory == m.memory)
            || (i < |m.pubs| && TookEffect(m, Start(m, i), i))
  {
    if i < |m.pubs| && m.pubs[i].stage.Queued? {
      ConcludeUpdates(m, i);
    }
  }

  lemma {:induction false} LandUpdates(m: Models, i: nat, wrote: bool, ok: bool)
    ensures (Land(m, i, wrote, ok).updated == m.updated && Land(m, i, wrote, ok).memory == m.memory)
            || (i < |m.pubs| && TookEffect(m, Land(m, i, wrote, ok), i))
  {
  }

  function Continued(m: Models, events: seq<Event>): Models
  {
    if events == [] then m else Next(Continued(m, events[..|events| - 1]), events[|events| - 1])
  }

  lemma {:induction false} NextGenerations(m: Models, e: Event, p: Id)
    ensures Generation(m, p) <= Generation(Next(m, e), p)
    ensures e == Supersedes(p) ==> Generation(m, p) < Generation(Next(m, e), p)
  {
  }

  /** Whatever was published under generations up to `g` stays silent. */
  ghost predicate Silent(m: Models, t: Models, p: Id, g: nat)
  {
    && g < Generation(t, p) && |m.updated| <= |t.updated|
    && forall i | |m.updated| <= i < |t.updated| && t.updated[i].provider == p :: g < t.updated[i].generation
  }

  lemma {:induction false} NextSilent(m: Models, t: Models, e: Event, p: Id, g: nat)
    requires Silent(m, t, p, g)
    ensures Silent(m, Next(t, e), p, g)
  {
    NextGenerations(t, e, p);
    OnlyCurrentUpdates(t, e);
  }

  /** Replacing or removing a provider is final: in no continuation does anything that was published, or
      is still published, by a refresh begun before it reach the memory. */
  lemma {:induction false} SupersededStaysSilent(m: Models, p: Id, events: seq<Event>)
    ensures Silent(m, Continued(Supersede(m, p), events), p, Generation(m, p))
  {
    if events != [] {
      SupersededStaysSilent(m, p, events[..|events| - 1]);
      NextSilent(m, Continued(Supersede(m, p), events[..|events| - 1]), events[|events| - 1], p, Generation(m, p));
    }
  }

  /** Nothing that is current is dropped: once everything before it has settled, a publication of the
      current generation that is not aborted is written and, if the store does its part, takes effect. */
  lemma {:induction false} CurrentTakesEffect(m: Models, i: nat)
    requires Chained(m) && i < |m.pubs| && m.pubs[i].stage.Queued? && Current(m, m.pubs[i])
    requires forall j | 0 <= j < i && m.pubs[j].provider == m.pubs[i].provider :: m.pubs[j].stage.Settled?
    ensures var pub := m.pubs[i];
            var t := if pub.persist.Untouched? then Start(m, i) else Land(Start(m, i), i, true, true);
            && i < |t.pubs| && t.pubs[i].stage == Settled(true)
            && t.memory == m.memory[pub.provider := pub.update]
            && t.store == match pub.persist
                          case Untouched => m.store
                          case Erase => m.store - {pub.provider}
                          case Write(value) => m.store[pub.provider := value]
  {
    assert WaitsForAll(m, i);
    assert Free(m, i);
    CurrentLands(m, i);
  }

  lemma {:induction false} CurrentLands(m: Models, i: nat)
    requires i < |m.pubs| && m.pubs[i].stage.Queued? && Current(m, m.pubs[i]) && Free(m, i)
    ensures if m.pubs[i].persist.Untouched? then Start(m, i) == Conclude(m, i)
            else Start(m, i) == m.(pubs := m.pubs[i := m.pubs[i].(stage := Writing)]) && i < |Start(m, i).pubs|
  {
  }
}
