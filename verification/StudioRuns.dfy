/** Whole runs of the Studio side: any mixture of commands, selections, manual edits and failed
    writes. Optimistic revisions and command IDs do what they are for over every run. */
module StudioRuns {
  import opened Outcomes
  import opened StudioContract
  import opened StudioRecords
  import opened StudioPlanner
  import opened StudioAdapter
  import opened StudioAgreement

  datatype Event =
    | Sent(command: Command, mint: Mint, stamp: string, failSave: bool, written: bool)
    | Picked(ids: seq<Id>)
    | Nudged(objectId: Id, patch: TransformPatch, stamp: string, written: bool)

  /** What an event leaves, as the methods of JsonStudioAdapter promise it. */
  function Next(tabId: Id, catalog: Catalog, s: Store, e: Event): (next: Store)
    requires ValidSnapshot(s.snapshot)
    ensures ValidSnapshot(next.snapshot)
  {
    match e
    case Sent(command, mint, stamp, failSave, written) =>
      if command.commandId in s.commands || !written then s
      else ExecuteNew(s, tabId, catalog, failSave, command, mint, stamp)
    case Picked(ids) => var r := SelectOn(s, ids); if r.Ok? then r.value else s
    case Nudged(objectId, patch, stamp, written) =>
      var r := ManualEditOn(s, objectId, patch, stamp);
      if r.Ok? && written then r.value else s
  }

  /** A run: the document before and after every event. */
  datatype Run = Run(tabId: Id, catalog: Catalog, states: seq<Store>, events: seq<Event>)
  {
    ghost predicate Sized() { |states| == |events| + 1 }

    function Revision(k: nat): string
      requires k < |states|
    {
      states[k].snapshot.revision
    }
  }

  ghost predicate Legal(run: Run)
  {
    && run.Sized() && ValidSnapshot(run.states[0].snapshot) && run.states[0] == Store(run.states[0].snapshot, map[], 0)
    && (forall k | 0 <= k < |run.states| :: ValidSnapshot(run.states[k].snapshot))
    && (forall k | 0 <= k < |run.events| ::
          run.states[k + 1] == Next(run.tabId, run.catalog, run.states[k], run.events[k]))
  }

  /** Names invented during the run are new: `randomUUID` neither repeats nor guesses the revision the room
      came with. */
  ghost predicate FreshStamps(run: Run)
    requires run.Sized()
  {
    && (forall i | 0 <= i < |run.events| && run.events[i].Nudged? :: run.Revision(0) != ManualName(run.events[i].stamp))
    && (forall i, n: nat | 0 <= i < |run.events| && run.events[i].Sent? ::
          run.Revision(0) != SavedName(n, run.events[i].stamp))
    && (forall i, j | 0 <= i < j < |run.events| && run.events[i].Nudged? && run.events[j].Nudged? ::
          run.events[i].stamp != run.events[j].stamp)
  }

  function ManualName(stamp: string): string { "simulated-manual:" + stamp }

  function SavedName(n: nat, stamp: string): string { "simulated:" + Decimal(n) + ":" + stamp }

  // ---- Steps ------------------------------------------------------------------------

  predicate SameContents(a: Snapshot, b: Snapshot)
  {
    b == a.(selected := b.selected)
  }

  /** One more command is recorded. */
  predicate Records(a: Store, b: Store, id: Id, saved: bool)
  {
    && id !in a.commands && id in b.commands && b.commands == a.commands[id := b.commands[id]]
    && b.commands[id].result.Saved? == saved
  }

  /** The event changed at most the selection and the log of commands that were not saved. */
  predicate Quiet(a: Store, b: Store, e: Event)
  {
    && SameContents(a.snapshot, b.snapshot) && b.saveCount == a.saveCount
    && (b.commands != a.commands ==> e.Sent? && Records(a, b, e.command.commandId, false))
  }

  predicate Saves(a: Store, b: Store, e: Event)
  {
    && e.Sent? && b.saveCount == a.saveCount + 1 && b.snapshot.designId == a.snapshot.designId
    && Records(a, b, e.command.commandId, true)
    && var count := ExpandedCount(e.command.payload.Edits());
       count >= 1 && b.snapshot.revision == NextRevision(a.snapshot.revision, count, b.saveCount, e.stamp)
  }

  predicate Nudges(a: Store, b: Store, e: Event)
  {
    && e.Nudged? && b.saveCount == a.saveCount && b.snapshot.designId == a.snapshot.designId && b.commands == a.commands
    && b.snapshot.revision == ManualName(e.stamp)
  }

  predicate Step(a: Store, b: Store, e: Event)
  {
    Quiet(a, b, e) || Saves(a, b, e) || Nudges(a, b, e)
  }

  lemma {:induction false} EveryStep(tabId: Id, catalog: Catalog, a: Store, e: Event)
    requires ValidSnapshot(a.snapshot)
    ensures Step(a, Next(tabId, catalog, a, e), e)
  {
    if e.Sent? {
      SentStep(tabId, catalog, a, e);
    }
  }

  lemma SentStep(tabId: Id, catalog: Catalog, a: Store, e: Event)
    requires ValidSnapshot(a.snapshot) && e.Sent?
    ensures Step(a, Next(tabId, catalog, a, e), e)
  {
  }

  /** All that the following proofs use of a run. */
  ghost predicate Stepwise(run: Run)
  {
    && run.Sized() && FreshStamps(run) && run.states[0].saveCount == 0 && run.states[0].commands == map[]
    && forall k | 0 <= k < |run.events| :: Step(run.states[k], run.states[k + 1], run.events[k])
  }

  lemma {:induction false} RunStepwise(run: Run)
    requires Legal(run) && FreshStamps(run)
    ensures Stepwise(run)
  {
    forall k | 0 <= k < |run.events| ensures Step(run.states[k], run.states[k + 1], run.events[k]) {
      EveryStep(run.tabId, run.catalog, run.states[k], run.events[k]);
    }
  }

  // ---- Names ------------------------------------------------------------------------

  function FirstColon(s: string): nat
  {
    if s == "" || s[0] == ':' then 0 else 1 + FirstColon(s[1..])
  }

  lemma {:induction false} DigitsBeforeColon(a: string, s: string)
    requires AllDigits(a)
    ensures FirstColon(a + ":" + s) == |a|
  {
    if a != "" {
      assert (a + ":" + s)[1..] == a[1..] + ":" + s;
      DigitsBeforeColon(a[1..], s);
    } else {
      assert a + ":" + s == ":" + s;
    }
  }

  lemma {:induction false} NamesDiffer(m: nat, s: string, n: nat, t: string)
    ensures SavedName(m, s) == SavedName(n, t) ==> m == n
    ensures SavedName(m, s) != ManualName(t)
    ensures !IsDecimal(SavedName(m, s)) && !IsDecimal(ManualName(t))
    ensures ManualName(s) == ManualName(t) ==> s == t
  {
    var x, y := SavedName(m, s), SavedName(n, t);
    assert x[0] == 's' && x[9] == ':' && ManualName(t)[9] == '-' && ManualName(t)[0] == 's';
    assert x[10..] == Decimal(m) + ":" + s && y[10..] == Decimal(n) + ":" + t;
    DigitsBeforeColon(Decimal(m), s);
    DigitsBeforeColon(Decimal(n), t);
    assert x[10..][..|Decimal(m)|] == Decimal(m) && y[10..][..|Decimal(n)|] == Decimal(n);
    assert ManualName(s)[17..] == s && ManualName(t)[17..] == t;
  }

  // ---- Revisions --------------------------------------------------------------------

  lemma {:induction false} NumbersGrow(run: Run, i: nat, j: nat)
    requires Stepwise(run) && i <= j < |run.states| && IsDecimal(run.Revision(j))
    ensures IsDecimal(run.Revision(i)) && DecimalValue(run.Revision(i)) <= DecimalValue(run.Revision(j))
  {
    if i < j {
      NumberBefore(run.states[j - 1], run.states[j], run.events[j - 1]);
      NumbersGrow(run, i, j - 1);
    }
  }

  lemma {:induction false} NumberBefore(a: Store, b: Store, e: Event)
    requires Step(a, b, e) && IsDecimal(b.snapshot.revision)
    ensures IsDecimal(a.snapshot.revision) && DecimalValue(a.snapshot.revision) <= DecimalValue(b.snapshot.revision)
  {
    if e.Nudged? {
      NamesDiffer(0, "", 0, e.stamp);
    } else if e.Sent? {
      NamesDiffer(b.saveCount, e.stamp, 0, "");
    }
  }

  lemma {:induction false} SavesCounted(run: Run, i: nat, j: nat)
    requires Stepwise(run) && i <= j < |run.states|
    ensures run.states[i].saveCount <= run.states[j].saveCount
  {
    if i < j {
      SavesCounted(run, i, j - 1);
      assert Step(run.states[j - 1], run.states[j], run.events[j - 1]);
    }
  }

  /** The name that the later event at `n` would give is not in use before it. */
  ghost predicate Unused(revision: string, e: Event, m: nat)
  {
    && (e.Sent? ==> revision != SavedName(m, e.stamp))
    && (e.Nudged? ==> revision != ManualName(e.stamp))
  }

  lemma {:induction false} NameUnused(run: Run, i: nat, n: nat, m: nat)
    requires Stepwise(run) && i <= n < |run.events| && run.states[i].saveCount < m
    ensures Unused(run.Revision(i), run.events[n], m)
  {
    if i > 0 {
      SavesCounted(run, i - 1, i);
      NameUnused(run, i - 1, n, m);
      StepName(run.states[i - 1], run.states[i], run.events[i - 1], run.events[n], m);
    }
  }

  lemma {:induction false} StepName(a: Store, b: Store, e: Event, later: Event, m: nat)
    requires Step(a, b, e) && b.saveCount < m && Unused(a.snapshot.revision, later, m)
    requires e.Nudged? && later.Nudged? ==> e.stamp != later.stamp
    ensures Unused(b.snapshot.revision, later, m)
  {
    var s, t := if e.Picked? then "" else e.stamp, if later.Picked? then "" else later.stamp;
    NamesDiffer(b.saveCount, s, m, t);
    NamesDiffer(m, t, 0, s);
  }

  /** A step that changes the room gives it a revision that it never had before. */
  lemma {:induction false} ChangeIsNew(run: Run, i: nat, k: nat)
    requires Stepwise(run) && i <= k < |run.events| && !Quiet(run.states[k], run.states[k + 1], run.events[k])
    ensures run.Revision(i) != run.Revision(k + 1)
  {
    SavesCounted(run, i, k);
    NameUnused(run, i, k, run.states[k].saveCount + 1);
    if IsDecimal(run.Revision(k)) {
      NumbersGrow(run, i, k);
    }
    assert Step(run.states[k], run.states[k + 1], run.events[k]);
  }

  lemma {:induction false} EqualRevisions(run: Run, i: nat, j: nat)
    requires Stepwise(run) && i <= j < |run.states| && run.Revision(i) == run.Revision(j)
    ensures run.states[i].saveCount == run.states[j].saveCount
            && SameContents(run.states[i].snapshot, run.states[j].snapshot)
  {
    if i < j {
      if !Quiet(run.states[j - 1], run.states[j], run.events[j - 1]) {
        ChangeIsNew(run, i, j - 1);
      }
      EqualRevisions(run, i, j - 1);
    }
  }

  /** Equal revisions mean equal rooms, selection apart, over the whole run. */
  lemma {:induction false} EqualRevisionsEqualRooms(run: Run, i: nat, j: nat)
    requires Legal(run) && FreshStamps(run) && i <= j < |run.states| && run.Revision(i) == run.Revision(j)
    ensures run.states[i].saveCount == run.states[j].saveCount
            && SameContents(run.states[i].snapshot, run.states[j].snapshot)
  {
    RunStepwise(run);
    EqualRevisions(run, i, j);
  }

  // ---- Commands ---------------------------------------------------------------------

  lemma {:induction false} RecordKept(run: Run, i: nat, j: nat, id: Id)
    requires Stepwise(run) && i <= j < |run.states| && id in run.states[i].commands
    ensures id in run.states[j].commands && run.states[j].commands[id] == run.states[i].commands[id]
  {
    if i < j {
      RecordKept(run, i, j - 1, id);
      assert Step(run.states[j - 1], run.states[j], run.events[j - 1]);
    }
  }

  /** A command has one outcome for ever: whatever happens later, its record stays and sending it again
      changes nothing. */
  lemma {:induction false} RecordedForever(run: Run, i: nat, j: nat, again: Event)
    requires Legal(run) && FreshStamps(run) && i <= j < |run.states|
    requires again.Sent? && again.command.commandId in run.states[i].commands
    ensures var id := again.command.commandId;
            && id in run.states[j].commands && run.states[j].commands[id] == run.states[i].commands[id]
            && Next(run.tabId, run.catalog, run.states[j], again) == run.states[j]
  {
    RunStepwise(run);
    RecordKept(run, i, j, again.command.commandId);
  }

  function SavedIds(commands: map<Id, Recorded>): set<Id>
  {
    set id | id in commands && commands[id].result.Saved?
  }

  lemma {:induction false} OneMoreRecord(commands: map<Id, Recorded>, id: Id, r: Recorded)
    requires id !in commands
    ensures |SavedIds(commands[id := r])| == |SavedIds(commands)| + if r.result.Saved? then 1 else 0
  {
    var more := SavedIds(commands[id := r]);
    assert more == if r.result.Saved? then SavedIds(commands) + {id} else SavedIds(commands);
  }

  lemma {:induction false} SavesAreCommands(run: Run, k: nat)
    requires Stepwise(run) && k < |run.states|
    ensures run.states[k].saveCount == |SavedIds(run.states[k].commands)|
  {
    if k > 0 {
      SavesAreCommands(run, k - 1);
      var a, b, e := run.states[k - 1], run.states[k], run.events[k - 1];
      assert Step(a, b, e);
      if b.commands != a.commands {
        OneMoreRecord(a.commands, e.command.commandId, b.commands[e.command.commandId]);
      }
    }
  }

  /** Every save is the save of one command. */
  lemma {:induction false} SaveCountIsSavedCommands(run: Run, k: nat)
    requires Legal(run) && FreshStamps(run) && k < |run.states|
    ensures run.states[k].saveCount == |SavedIds(run.states[k].commands)|
  {
    RunStepwise(run);
    SavesAreCommands(run, k);
  }

  lemma {:induction false} SameDesign(run: Run, i: nat, j: nat)
    requires Stepwise(run) && i <= j < |run.states|
    ensures run.states[i].snapshot.designId == run.states[j].snapshot.designId
  {
    if i < j {
      SameDesign(run, i, j - 1);
      assert Step(run.states[j - 1], run.states[j], run.events[j - 1]);
    }
  }

  /** Optimistic concurrency, end to end. A command planned on the room as it was at time `i` and
      executed at any later time `j` is saved exactly if the revision is still the same and the Studio
      can supply what the edits ask for. The room it is applied to is then the one it was planned
      on, and it is applied as it was planned; otherwise the room stays as it is. */
  lemma {:induction false} SavedOnThePlannedRoom(run: Run, i: nat, j: nat, desk: Desk, inputs: seq<EditInput>,
                                                 batch: bool, command: Command, mint: Mint, stamp: string)
    requires !batch ==> |inputs| == 1
    requires Legal(run) && FreshStamps(run) && i <= j < |run.states|
    requires desk.planned == run.states[i].snapshot && desk.binding == Binding(desk.planned.designId, run.tabId)
    requires PlanCommand(desk, command.commandId, inputs, batch) == Ok(command)
    requires FreshMint(mint, run.states[j].snapshot.objects) && command.commandId !in run.states[j].commands
    requires forall p | p in run.catalog :: run.catalog[p].catalogId == p
    ensures var next := Next(run.tabId, run.catalog, run.states[j], Sent(command, mint, stamp, false, true));
            var saved := next.commands[command.commandId].result.Saved?;
            && (saved <==> run.Revision(i) == run.Revision(j) && AllAcceptable(run.catalog, command.payload.Edits()))
            && (saved ==> SameContents(run.states[i].snapshot, run.states[j].snapshot))
            && (saved ==>
                  Restrict(next.snapshot.objects, Ids(desk.planned.objects))
                    == StagedAfter(desk, desk.planned.objects, inputs))
            && (!saved ==> next.snapshot == run.states[j].snapshot && next.saveCount == run.states[j].saveCount)
  {
    RunStepwise(run);
    SameDesign(run, i, j);
    if run.Revision(i) == run.Revision(j) {
      EqualRevisions(run, i, j);
      PlannerAdapterBrokerAgree(desk, run.states[j], run.tabId, run.catalog, inputs, batch, command, mint, stamp);
    }
  }
}
