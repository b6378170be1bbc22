/** The registry object and its methods: packages/ai/src/models.ts, proved against the functions on its state. */
module ModelRegistry {
  import opened Outcomes
  import opened ModelPublications

  /** The state after superseding every provider of `ids`. */
  function SupersedeAll(m: Models, ids: set<Id>): Models
  {
    m.(generations := map p | p in m.generations.Keys + ids :: Generation(m, p) + if p in ids then 1 else 0,
       controllers := m.controllers - ids,
       aborted := m.aborted + set p | p in m.controllers && p in ids :: (p, m.controllers[p]))
  }

  lemma {:induction false} SupersedeNone(m: Models)
    ensures SupersedeAll(m, {}) == m
  {
    assert SupersedeAll(m, {}).generations == m.generations;
    assert m.controllers - {} == m.controllers;
  }

  lemma {:induction false} SupersedeOneMore(m: Models, ids: set<Id>, p: Id)
    requires p !in ids
    ensures Supersede(SupersedeAll(m, ids), p) == SupersedeAll(m, ids + {p})
  {
    var s, t := Supersede(SupersedeAll(m, ids), p), SupersedeAll(m, ids + {p});
    assert s.generations == t.generations;
    assert s.controllers == t.controllers;
    assert s.aborted == t.aborted;
  }

  class ModelsImpl {
    var providers: map<Id, string>
    var refreshGenerations: map<Id, nat>
    var refreshControllers: map<Id, nat>
    var publicationChains: map<Id, nat>
    var publications: seq<Publication>
    var aborted: set<(Id, nat)>
    var modelsStore: map<Id, string>
    var memory: map<Id, string>
    ghost var stored: seq<Effect>
    ghost var updated: seq<Effect>

    ghost function Now(): Models
      reads this
    {
      Models(refreshGenerations, refreshControllers, aborted, publicationChains, publications, modelsStore, memory,
             stored, updated)
    }

    constructor ()
      ensures Now() == EMPTY && providers == map[]
    {
      providers, refreshGenerations, refreshControllers, publicationChains := map[], map[], map[], map[];
      publications, aborted, modelsStore, memory := [], {}, map[], map[];
      stored, updated := [], [];
    }

    method SupersedeProviderRefresh(providerId: Id) returns (generation: nat)
      modifies `refreshGenerations, `refreshControllers, `aborted
      ensures Now() == Supersede(old(Now()), providerId)
      ensures generation == Generation(Now(), providerId) == Generation(old(Now()), providerId) + 1
    {
      generation := 1;
      if providerId in refreshGenerations {
        generation := refreshGenerations[providerId] + 1;
      }
      refreshGenerations := refreshGenerations[providerId := generation];
      if providerId in refreshControllers {
        var previous := refreshControllers[providerId];
        refreshControllers := refreshControllers - {providerId};
        aborted := aborted + {(providerId, previous)};
      } else {
        assert refreshControllers - {providerId} == refreshControllers;
      }
    }

    method BeginProviderRefresh(providerId: Id) returns (generation: nat)
      modifies `refreshGenerations, `refreshControllers, `aborted
      ensures Now() == Begin(old(Now()), providerId)
      ensures generation == Generation(Now(), providerId)
    {
      generation := SupersedeProviderRefresh(providerId);
      refreshControllers := refreshControllers[providerId := generation];
    }

    method FinishProviderRefresh(providerId: Id, generation: nat)
      modifies `refreshControllers
      ensures Now() == Finish(old(Now()), providerId, generation)
    {
      if providerId in refreshControllers && refreshControllers[providerId] == generation {
        refreshControllers := refreshControllers - {providerId};
      }
    }

    method SetProvider(id: Id, provider: string)
      modifies `providers, `refreshGenerations, `refreshControllers, `aborted
      ensures Now() == Supersede(old(Now()), id) && providers == old(providers)[id := provider]
    {
      var _ := SupersedeProviderRefresh(id);
      providers := providers[id := provider];
    }

    method DeleteProvider(id: Id)
      modifies `providers, `refreshGenerations, `refreshControllers, `aborted
      ensures Now() == Supersede(old(Now()), id) && providers == old(providers) - {id}
    {
      var _ := SupersedeProviderRefresh(id);
      providers := providers - {id};
    }

    /** Every provider that is registered or being refreshed is superseded once. */
    method ClearProviders()
      modifies `providers, `refreshGenerations, `refreshControllers, `aborted
      ensures providers == map[]
      ensures Now() == SupersedeAll(old(Now()), old(providers.Keys + refreshControllers.Keys))
    {
      ghost var base := Now();
      var ids := providers.Keys + refreshControllers.Keys;
      var rest := ids;
      SupersedeNone(base);
      assert ids - rest == {};
      while rest != {}
        invariant rest <= ids && providers == old(providers)
        invariant Now() == SupersedeAll(base, ids - rest)
      {
        var id :| id in rest;
        SupersedeOneMore(base, ids - rest, id);
        var _ := SupersedeProviderRefresh(id);
        assert ids - rest + {id} == ids - (rest - {id});
        rest := rest - {id};
      }
      assert ids - rest == ids;
      providers := map[];
    }

    method PublishProviderModels(providerId: Id, generation: nat, persist: Persist, update: string)
      returns (queued: nat)
      modifies `publications, `publicationChains
      ensures Now() == Enqueue(old(Now()), providerId, generation, persist, update) && queued == old(|publications|)
    {
      var previous := None;
      if providerId in publicationChains {
        previous := Some(publicationChains[providerId]);
      }
      queued := |publications|;
      publications := publications + [Publication(providerId, generation, persist, update, previous, Queued)];
      publicationChains := publicationChains[providerId := queued];
    }

    method IsCurrent(pub: Publication) returns (current: bool)
      ensures current == Current(Now(), pub)
    {
      current := (pub.provider, pub.generation) !in aborted && pub.provider in refreshGenerations
        && refreshGenerations[pub.provider] == pub.generation;
    }

    method Settled(i: nat, published: bool)
      requires i < |publications|
      modifies `publications
      ensures Now() == Settle(old(Now()), i, published)
    {
      publications := publications[i := publications[i].(stage := Stage.Settled(published))];
    }

    method Update(i: nat)
      requires i < |publications|
      modifies `publications, `memory, `updated
      ensures Now() == Conclude(old(Now()), i)
    {
      var pub := publications[i];
      var current := IsCurrent(pub);
      Settled(i, current);
      if current {
        memory := memory[pub.provider := pub.update];
        updated := updated + [Effect(pub.provider, pub.generation)];
      }
    }

    /** Whatever the publication waited for has settled. */
    method Resume(i: nat)
      requires i < |publications| && publications[i].stage.Queued? && Free(Now(), i)
      modifies `publications, `memory, `updated
      ensures Now() == Start(old(Now()), i)
    {
      var pub := publications[i];
      var current := IsCurrent(pub);
      if !current {
        Settled(i, false);
      } else if pub.persist.Untouched? {
        Update(i);
      } else {
        publications := publications[i := pub.(stage := Writing)];
      }
    }

    /** The store answers the publication that writes. */
    method StoreAnswered(i: nat, wrote: bool, ok: bool)
      requires i < |publications| && publications[i].stage.Writing?
      modifies `publications, `memory, `updated, `modelsStore, `stored
      ensures Now() == Land(old(Now()), i, wrote, ok)
    {
      var pub := publications[i];
      if wrote {
        modelsStore := if pub.persist.Write? then modelsStore[pub.provider := pub.persist.value]
        else modelsStore - {pub.provider};
        stored := stored + [Effect(pub.provider, pub.generation)];
      }
      if ok {
        Update(i);
      } else {
        Settled(i, false);
      }
    }

    method TailSettled(i: nat)
      requires i < |publications| && publications[i].stage.Settled?
      modifies `publicationChains
      ensures Now() == Unchain(old(Now()), i)
    {
      var p := publications[i].provider;
      if p in publicationChains && publicationChains[p] == i {
        publicationChains := publicationChains - {p};
      }
    }
  }

  /** Clearing the registry is final for everything that was registered or being refreshed. */
  lemma {:induction false} ClearedStaysSilent(m: Models, ids: set<Id>, p: Id, events: seq<Event>)
    requires p in ids
    ensures Silent(m, Continued(SupersedeAll(m, ids), events), p, Generation(m, p))
  {
    if events != [] {
      ClearedStaysSilent(m, ids, p, events[..|events| - 1]);
      NextSilent(m, Continued(SupersedeAll(m, ids), events[..|events| - 1]), events[|events| - 1], p, Generation(m, p));
    }
  }
}
