/**
 The life of a database: passes over hosts, complete or not, prepares, finalised
 decisions and whatever else writes, in any order.

 What the comparison with the host rests on is shown here to hold in every state of
 every life: a managed row's container names the row, an operation's resource is a
 row of the operation's host, and no container or service is held twice.
 */
module RecoveryRuns {
  import opened Wrappers
  import opened AgentSpec
  import opened Records
  import opened Recovery
  import opened Discovery
  import opened Reconciliation
  import Ops = Operations

  datatype Change =
    | Pass(v: View, complete: bool)
    | Decision(ctx: Context, decision: Recovery.Decision)
    | Preparing(job: Ops.Job, ids: Ops.Ids)
    | Bystander

  /** The tables, and the stacks with their hosts. */
  datatype World = World(tables: Tables, stacks: map<string, string>)

  /**
   Other services write rows of their own, for services of a stack that have no
   container yet, and neither configurations nor mutations. A stack never changes its
   host and goes only together with its rows.
   */
  ghost predicate Bystanding(w: World, u: World)
  {
    && Respects(w.tables, u.tables)
    && (forall r :: r in u.tables.containers && r in w.tables.issued ==>
      r in w.tables.containers && SamePlace(w.tables.containers[r], u.tables.containers[r]))
    && (forall r :: r in u.tables.containers && r !in w.tables.issued ==> Allocated(u.tables.containers[r], u.stacks))
    && (forall r :: r in u.tables.containers && ServiceKey(u.tables.containers[r]).Some? ==>
      u.tables.containers[r].stackId.value in u.stacks)
    && (forall s :: s in w.stacks && s in u.stacks ==> u.stacks[s] == w.stacks[s])
    && ServiceOnce(u.tables.containers) && NoMutationOf(w.tables, u.tables)
  }

  ghost predicate NoMutationOf(t: Tables, u: Tables)
  {
    && (forall c :: c in u.configs ==> c in t.configs && u.configs[c].container == t.configs[c].container)
    && (forall a :: IsMutation(u, a) ==> a in t.actions)
  }

  predicate SamePlace(a: Row, b: Row)
  {
    && a.host == b.host && a.dockerId == b.dockerId && a.snapshot == b.snapshot
    && a.stackId == b.stackId && a.stackService == b.stackService
  }

  /** A row written for a service of a stack before it has a container. */
  predicate Allocated(row: Row, stacks: map<string, string>)
  {
    row.dockerId == None && (row.stackId.Some? ==> row.stackId.value in stacks && stacks[row.stackId.value] == row.host)
  }

  /** `made` holds the labels of every container there will ever have been: labels do not change. */
  ghost predicate Next(w: World, c: Change, u: World, made: Made)
  {
    match c
    case Pass(v, complete) =>
      && v.start == w.tables && v.stacks == w.stacks == u.stacks && Truthful(v, made)
      && if complete then Settled(v, u.tables) else Harmless(v, u.tables)
    case Decision(ctx, d) => u == w.(tables := Effect(w.tables, ctx, d).tables)
    case Preparing(job, ids) =>
      && Ops.Unused(w.tables, ids) && Ops.CanRecord(w.tables, job)
      && u == w.(tables := Ops.Recorded(w.tables, job, ids))
    case Bystander => Bystanding(w, u)
  }

  const EMPTY := World(Tables(map[], map[], map[], {}), map[])

  ghost predicate Life(states: seq<World>, changes: seq<Change>, made: Made)
  {
    && |states| == |changes| + 1 && states[0] == EMPTY
    && forall i :: 0 <= i < |changes| ==> Next(states[i], changes[i], states[i + 1], made)
  }

  /** A mutation is of a resource that was given out, and of the host the resource is on. */
  ghost predicate AtHome(t: Tables)
  {
    forall a :: IsMutation(t, a) ==> t.actions[a].target in t.issued && OnItsHost(t, t.actions[a])
  }

  predicate OnItsHost(t: Tables, a: Action)
  {
    a.target in t.containers ==> t.containers[a.target].host == a.host
  }

  ghost predicate Known(w: World, made: Made)
  {
    && Sound(w.tables) && AllAnchored(w.tables, made) && AtHome(w.tables)
    && Consistent(w.tables.containers, w.stacks)
  }

  // ---- every change keeps it -----------------------------------------------------------

  lemma PassKeepsKnown(v: View, complete: bool, u: Tables, made: Made)
    requires Known(World(v.start, v.stacks), made)
    requires Next(World(v.start, v.stacks), Pass(v, complete), World(u, v.stacks), made)
    ensures Known(World(u, v.stacks), made)
  {
    hide Sound, AllAnchored, Truthful, Settled, Harmless, Consistent;
    if complete {
      SettledIsConsistent(v, u);
      SettledIsSound(v, u);
      PassKeepsAnchored(v, made, u);
      SettledKeepsHosts(v, u);
    } else {
      HarmlessIsConsistent(v, u);
      Reconciler.HarmlessIsSound(v, u);
      IncompleteKeepsAnchored(v, made, u);
      HarmlessKeepsHosts(v, u);
    }
  }

  lemma HarmlessIsConsistent(v: View, u: Tables)
    requires Harmless(v, u)
    ensures Consistent(u.containers, v.stacks)
  {
  }

  /** Rows that go, or on which a conflict is noted, put nothing out of order. */
  lemma FewerRows(rows: map<string, Row>, fewer: map<string, Row>, stacks: map<string, string>)
    requires Consistent(rows, stacks)
    requires forall r :: r in fewer ==> r in rows && fewer[r] == rows[r].(conflict := fewer[r].conflict)
    ensures Consistent(fewer, stacks)
  {
    assert forall r, s :: r in fewer && s in fewer && SameDocker(fewer[r], fewer[s]) ==> SameDocker(rows[r], rows[s]);
    assert forall r, s :: r in fewer && s in fewer && SameService(fewer[r], fewer[s]) ==> SameService(rows[r], rows[s]);
  }

  /** Nor does a row without container and stack. */
  lemma BareRow(rows: map<string, Row>, stacks: map<string, string>, r: string, row: Row)
    requires Consistent(rows, stacks) && row.dockerId == None && row.stackId == None
    ensures Consistent(rows[r := row], stacks)
  {
    assert forall s :: s in rows ==> !SameDocker(row, rows[s]) && !SameService(row, rows[s]);
    WriteKeepsConsistent(rows, stacks, r, row);
  }

  lemma HarmlessKeepsHosts(v: View, u: Tables)
    requires Harmless(v, u)
    ensures u.actions == v.start.actions && v.start.issued <= u.issued
    ensures forall r :: r in u.containers && r in v.start.issued ==>
      r in v.start.containers && u.containers[r].host == v.start.containers[r].host
  {
    hide Consistent, MovedTo;
  }

  lemma SettledKeepsHosts(v: View, u: Tables)
    requires Settled(v, u)
    ensures u.actions == v.start.actions && v.start.issued <= u.issued
    ensures forall r :: r in u.containers && r in v.start.issued ==>
      r in v.start.containers && u.containers[r].host == v.start.containers[r].host
  {
    hide Harmless, Written, Discovered, Inserted;
    var mid: Tables :| PassEnded(v, mid) && u == Swept(mid, v.host, v.snapshot);
    HarmlessKeepsHosts(v, mid);
  }

  lemma DecisionKeepsKnown(w: World, ctx: Context, d: Recovery.Decision, made: Made)
    requires Known(w, made)
    ensures Known(w.(tables := Effect(w.tables, ctx, d).tables), made)
  {
    hide Effect, Sound, AllAnchored, Consistent;
    var t, u := w.tables, Effect(w.tables, ctx, d).tables;
    EffectSound(t, ctx, d);
    FinalisingKeepsAnchored(t, made, ctx, d);
    EffectKeepsIdentity(t, ctx, d);
    FewerRows(t.containers, u.containers, w.stacks);
    forall a | IsMutation(u, a)
      ensures u.actions[a].target in u.issued && OnItsHost(u, u.actions[a])
    {
      FinalisingCloses(t, ctx, d, a);
      FinalisingKeepsAction(t, ctx, d, a);
    }
  }

  /** Only a row that has a configuration gets another, and a new row has no container yet. */
  lemma PreparingKeepsAnchored(t: Tables, job: Ops.Job, f: Ops.Ids, made: Made)
    requires Sound(t) && AllAnchored(t, made) && Ops.Unused(t, f) && Ops.CanRecord(t, job)
    ensures AllAnchored(Ops.Recorded(t, job, f), made)
  {
    hide NamesRow;
    var u := Ops.Recorded(t, job, f);
    forall r | r in u.containers && Managed(u, r)
      ensures NamesRow(u.containers[r], r, made)
    {
      if job.operation == Create && r == f.container {
        NoContainerYet(u.containers[r], r, made);
      } else {
        assert r in t.containers && u.containers[r] == t.containers[r];
        assert Managed(t, r);
      }
    }
  }

  lemma NoContainerYet(row: Row, r: string, made: Made)
    requires row.dockerId == None
    ensures NamesRow(row, r, made)
  {
  }

  lemma PreparingKeepsKnown(w: World, job: Ops.Job, f: Ops.Ids, made: Made)
    requires Known(w, made) && Ops.Unused(w.tables, f) && Ops.CanRecord(w.tables, job)
    ensures Known(w.(tables := Ops.Recorded(w.tables, job, f)), made)
  {
    hide AllAnchored, Consistent;
    var t := w.tables;
    if job.operation == Create {
      BareRow(t.containers, w.stacks, f.container, Ops.Recorded(t, job, f).containers[f.container]);
    }
    Ops.RecordedSound(t, job, f);
    PreparingKeepsAnchored(t, job, f, made);
    Ops.RecordedTarget(t, job, f);
  }

  lemma BystandersKeepOrder(w: World, u: World)
    requires Consistent(w.tables.containers, w.stacks) && Bystanding(w, u)
    ensures Consistent(u.tables.containers, u.stacks)
  {
    hide Respects, NoMutationOf;
    var rows, later := w.tables.containers, u.tables.containers;
    forall r, s | r in later && s in later && SameDocker(later[r], later[s])
      ensures r == s
    {
      assert SameDocker(rows[r], rows[s]);
    }
  }

  lemma BystanderKeepsKnown(w: World, w': World, made: Made)
    requires Known(w, made) && Bystanding(w, w')
    ensures Known(w', made)
  {
    hide NamesRow, Consistent, ServiceOnce;
    BystandersKeepOrder(w, w');
    var t, u := w.tables, w'.tables;
    forall r | r in u.containers && Managed(u, r)
      ensures NamesRow(u.containers[r], r, made)
    {
      assert Managed(t, r) && r in t.containers;
      SameName(t.containers[r], u.containers[r], r, made);
    }
  }

  lemma SameName(a: Row, b: Row, r: string, made: Made)
    requires SamePlace(a, b) && NamesRow(a, r, made)
    ensures NamesRow(b, r, made)
  {
  }

  lemma {:induction false} EveryStateIsKnown(states: seq<World>, changes: seq<Change>, made: Made, n: nat)
    requires Life(states, changes, made) && n < |states|
    ensures Known(states[n], made)
  {
    hide Known, Settled, Harmless, Effect, Truthful, Bystanding, Ops.Recorded, Ops.CanRecord, Ops.Unused;
    if n == 0 {
      NothingKnown(made);
    } else {
      EveryStateIsKnown(states, changes, made, n - 1);
      var t, u := states[n - 1], states[n];
      assert Next(t, changes[n - 1], u, made);
      match changes[n - 1]
      case Pass(v, complete) => PassKeepsKnown(v, complete, u.tables, made);
      case Decision(ctx, d) => DecisionKeepsKnown(t, ctx, d, made);
      case Preparing(job, ids) => PreparingKeepsKnown(t, job, ids, made);
      case Bystander => BystanderKeepsKnown(t, u, made);
    }
  }

  lemma NothingKnown(made: Made)
    ensures Known(EMPTY, made)
  {
  }

  // ---- what follows for every operation ---------------------------------------------------

  /** In every state of every life, a reading of an operation's host concerns the operation's resource. */
  lemma OperationsConcern(states: seq<World>, changes: seq<Change>, made: Made, n: nat, v: View, action: string)
    requires Life(states, changes, made) && n < |states| && Truthful(v, made)
    requires v.start == states[n].tables && v.stacks == states[n].stacks
    requires IsMutation(v.start, action) && v.host == v.start.actions[action].host
    ensures Sound(v.start) && Consistent(v.start.containers, v.stacks)
    ensures Concerns(v, v.start.actions[action].target)
  {
    hide Next, Anchored, Consistent;
    EveryStateIsKnown(states, changes, made, n);
    var r := v.start.actions[action].target;
    assert OnItsHost(v.start, v.start.actions[action]);
    if Managed(v.start, r) { ManagedIsAnchored(v, made, r); }
  }

  /** The operation a recorded mutation stands for. */
  function OperationOf(t: Tables, action: string): PendingOperation
    requires IsMutation(t, action)
  {
    PendingOperation(t.actions[action].target, t.actions[action].capability.operation, Some(action))
  }

  /**
   Whatever happened before, a mutation finalised after a complete reading of its host
   makes the database agree with the host if and only if the decision is conclusive.
   All that is asked of the reading is that its stamp is a new one.
   */
  lemma EveryOperationSettlesTruly(states: seq<World>, changes: seq<Change>, made: Made, n: nat, v: View, t: Tables,
      action: string)
    requires Life(states, changes, made) && n < |states| && Truthful(v, made)
    requires v.start == states[n].tables && v.stacks == states[n].stacks
    requires IsMutation(v.start, action) && v.host == v.start.actions[action].host
    requires FreshStamp(v) && Plain(v) && Settled(v, t)
    requires var op := OperationOf(v.start, action);
      Writes(DecisionFor(t, op, true)) && Effect(t, ContextFor(t, op), DecisionFor(t, op, true)).reply == Finalised
    ensures var op := OperationOf(v.start, action);
      Agrees(v, Effect(t, ContextFor(t, op), DecisionFor(t, op, true)).tables, op.container) <==>
      Conclusive(v, t, op, DecisionFor(t, op, true))
  {
    hide Next, Settled, Plain, Truthful, Concerns, Agrees, Conclusive, Effect, DecisionFor, Consistent, FreshStamp;
    OperationsConcern(states, changes, made, n, v, action);
    FinalisedAgrees(v, t, OperationOf(v.start, action));
  }

  // ---- one exception, shown -------------------------------------------------------------

  const CANDIDATE := "00000000-0000-4000-8000-000000000001"
  const REPLACEMENT_IDS := Ops.Ids("a1", CANDIDATE, "r1", "h", "")
  const LOST_REMOVAL := PendingOperation("r", Remove, Some("a2"))

  /** The tables after a replacement and a removal that both passed the guard, with the row as given. */
  function Interrupted(row: Row): Tables
  {
    Ops.BothRecorded(Replace, REPLACEMENT_IDS).(containers := map["r" := row])
  }

  /** The row once a pass has seen the replacement running. */
  function SeenRunning(): Row
  {
    Ops.BUILT.(dockerId := Some("d2"), observedConfig := Some(CANDIDATE), snapshot := Some("s"))
  }

  lemma RunsCandidate(item: Item)
    requires item.labels == map[MANAGED := "true", CONTAINER_ID := "r", DESIRED_CONFIG_ID := CANDIDATE]
    ensures ObservedConfig(item) == Some(CANDIDATE) && Identity(item) == Some("r") && ObservedStack(item) == NOBODY
  {
    LabelsDiffer();
    assert DESIRED_CONFIG_ID != MANAGED && CONTAINER_ID != MANAGED && DESIRED_CONFIG_ID != CONTAINER_ID;
    assert STACK_ID != MANAGED && STACK_ID != CONTAINER_ID && STACK_ID != DESIRED_CONFIG_ID;
    assert IsUuid(CANDIDATE);
  }

  lemma InterruptedIs(row: Row)
    ensures var t := Interrupted(row);
      && t.configs == map["c" := Config("r", Current, None), CANDIDATE := Config("r", Pending, Some("a1"))]
      && t.actions.Keys == {"a1", "a2"} && t.actions["a2"] == Action(Mutation(Remove), "r", "h", Running, "")
      && {"r", "c", CANDIDATE, "a1", "a2"} <= t.issued
    ensures Interrupted(Ops.BUILT) == Ops.BothRecorded(Replace, REPLACEMENT_IDS)
  {
  }

  lemma InterruptedSound(row: Row)
    ensures Sound(Interrupted(row)) && ConfigIn(Interrupted(row), "r", Current) == Some("c")
    ensures ConfigIn(Interrupted(row), "r", Pending) == Some(CANDIDATE)
  {
    hide Interrupted;
    InterruptedIs(row);
    var t := Interrupted(row);
    assert t.containers == map["r" := row] by { ItsRow(row); }
    assert CANDIDATE != "c" by { assert |CANDIDATE| == 36; }
    ConfigInHolds(t, "r", Current);
    ConfigInHolds(t, "r", Pending);
    assert Holds(t, "c", "r", Current) && Holds(t, CANDIDATE, "r", Pending);
  }

  lemma ItsRow(row: Row)
    ensures Interrupted(row).containers == map["r" := row]
  {
  }

  lemma InterruptedDecides()
    ensures var t := Interrupted(SeenRunning());
      && DecisionFor(t, LOST_REMOVAL, true) == FailOperation
      && Effect(t, ContextFor(t, LOST_REMOVAL), FailOperation).reply == Finalised
  {
    hide Interrupted, ConfigIn;
    InterruptedSound(SeenRunning());
    InterruptedIs(SeenRunning());
    ItsRow(SeenRunning());
  }

  /** A pass over one container that names the one row there is. */
  lemma OneIsMatched(v: View, item: Item, was: Row, now: Row)
    requires v.reported == [item] && v.inFlight == {} && v.start.containers == map["r" := was] && was.host == v.host
    requires item.dockerId != "" && Identity(item) == Some("r") && ObservedStack(item) == NOBODY
    requires now == Row(v.host, Some(item.dockerId), item.name, ObservedConfig(item), None, None, None,
      Some(v.snapshot), was.conflict)
    ensures Claimants(v.reported, "r") == [item.dockerId] && Matches(v, item, "r") && Written(v, 1, map["r" := now])
  {
    hide ObservedConfig, ObservedStack, Identity;
    assert Claimants([item], "r") == [item.dockerId];
    assert Matches(v, item, "r") && !Keeps(v, item, "r");
    assert LastMatch(v, 1, "r") == Some(0) && LastConflict(v, 1, "r") == None;
  }

  lemma OneRowConsistent(row: Row)
    requires row.dockerId.Some? ==> row.snapshot.Some?
    requires row.stackId == None
    ensures Consistent(map["r" := row], map[])
  {
  }

  lemma OneIsSettled(v: View, t: Tables, item: Item, was: Row, now: Row)
    requires v.reported == [item] && Matches(v, item, "r")
    requires v.start.containers == map["r" := was] && was.host == v.host
    requires t == v.start.(containers := map["r" := now]) && Written(v, 1, t.containers) && Records.Named(v.start)
    requires now.host == v.host && now.dockerId == Some(item.dockerId) && now.snapshot == Some(v.snapshot)
    requires now.stackId == None && v.stacks == map[]
    ensures Settled(v, t)
  {
    hide Settled, Written, Consistent, Matches;
    OneRowConsistent(now);
    assert MovedTo(v, "r", now) by { assert item in v.reported; }
    assert !Newcomer(v, item) by { assert Matches(v, item, "r"); SomeTarget(v, item); }
    assert PassEnded(v, t);
    OnePass(v, t);
  }

  lemma SomeTarget(v: View, item: Item)
    requires Matches(v, item, "r")
    ensures exists r :: Target(v, item, r)
  {
    assert Target(v, item, "r");
  }

  lemma InterruptedPass(v: View, t: Tables, item: Item)
    requires v == Reporting(Interrupted(Ops.BUILT), item) && t == Interrupted(SeenRunning())
    requires item.dockerId == "d2" && Identity(item) == Some("r") && Matches(v, item, "r")
    requires Written(v, 1, t.containers)
    ensures Ready(v) && Sound(v.start) && Plain(v) && Settled(v, t) && Concerns(v, "r")
  {
    hide Settled, Written, Consistent, Sound, Interrupted, Matches;
    ItsRow(Ops.BUILT);
    ItsRow(SeenRunning());
    InterruptedSound(Ops.BUILT);
    OneRowConsistent(Ops.BUILT);
    InterruptedElsewhere(v, t);
    OneIsSettled(v, t, item, Ops.BUILT, SeenRunning());
  }

  lemma InterruptedElsewhere(v: View, t: Tables)
    requires v.start == Interrupted(Ops.BUILT) && t == Interrupted(SeenRunning())
    ensures t == v.start.(containers := map["r" := SeenRunning()])
    ensures Records.Named(v.start) && "r" in v.start.issued
  {
    InterruptedIs(Ops.BUILT);
    ItsRow(Ops.BUILT);
  }

  /**
   A replacement and a removal both passed the guard and both lost their answers; the
   replacement happened and the removal did not. The container runs the candidate, and
   the removal, recorded as failed, leaves it a candidate.
   */
  lemma FailedRemovalMayLeaveACandidate() returns (states: seq<Ops.State>, events: seq<Ops.Event>, v: View, t: Tables)
    ensures Ops.Run(states, events) && v.start == states[|events|].tables
    ensures Shows(v, t, LOST_REMOVAL, FailOperation)
    ensures !Agrees(v, Effect(t, ContextFor(t, LOST_REMOVAL), FailOperation).tables, "r")
  {
    hide Agrees, Settled, Written, Matches, ObservedConfig, ObservedStack, Identity, Claimants, Sound, DecisionFor,
      Effect, Ready, Plain, Concerns, ConfigIn, Interrupted, Ops.BothRecorded, Ops.Run;
    assert Ops.FirstIds(REPLACEMENT_IDS) by { assert |CANDIDATE| == 36; }
    states, events := Ops.BothMayBeOpen(Replace, REPLACEMENT_IDS);
    InterruptedIs(Ops.BUILT);
    var item := Item("d2", "web", map[MANAGED := "true", CONTAINER_ID := "r", DESIRED_CONFIG_ID := CANDIDATE]);
    RunsCandidate(item);
    v, t := Reporting(Interrupted(Ops.BUILT), item), Interrupted(SeenRunning());
    ItsRow(Ops.BUILT);
    ItsRow(SeenRunning());
    OneIsMatched(v, item, Ops.BUILT, SeenRunning());
    InterruptedPass(v, t, item);
    InterruptedDecides();
    InterruptedSound(SeenRunning());
    assert CANDIDATE != "c" by { assert |CANDIDATE| == 36; }
    FailureAgrees(v, t, LOST_REMOVAL, item);
  }

  // ---- the other one --------------------------------------------------------------------

  const RUNNING_LABELS := map[MANAGED := "true", CONTAINER_ID := "r", DESIRED_CONFIG_ID := CANDIDATE]
  const CREATE_IDS := Ops.Ids("a1", CANDIDATE, "r", "h", "web")
  const REMOVE_IDS := Ops.Ids("a2", "c2", "r2", "h", "")
  const REMOVAL := PendingOperation("r", Remove, Some("a2"))
  const BUILT_CONTEXT := Context("r", Create, Some("a1"), ["d"])

  /** A container that was seen running the first configuration. */
  function Observed(dockerId: string, snapshot: string): Row
  {
    Row("h", Some(dockerId), "web", Some(CANDIDATE), None, None, None, Some(snapshot), None)
  }

  /** A container is being created, is there, was settled, is being removed, and its row was deleted. */
  ghost function Chapter(i: nat): Tables
  {
    if i == 0 then EMPTY.tables
    else if i == 1 then Ops.Recorded(EMPTY.tables, Ops.Changing(Create), CREATE_IDS)
    else if i == 2 then Chapter(1).(containers := map["r" := Observed("d", "first")])
    else if i == 3 then Effect(Chapter(2), BUILT_CONTEXT, PromotePending(CANDIDATE)).tables
    else if i == 4 then Ops.Recorded(Chapter(3), Ops.Changing(Remove), REMOVE_IDS)
    else WithoutContainer(Chapter(4), "r")
  }

  lemma Created()
    ensures Ops.Unused(EMPTY.tables, CREATE_IDS) && Ops.CanRecord(EMPTY.tables, Ops.Changing(Create))
    ensures Sound(Chapter(1)) && Chapter(1).issued == {"a1", CANDIDATE, "r"} && Chapter(1).actions.Keys == {"a1"}
    ensures Chapter(1).containers == map["r" := Row("h", None, "web", None, None, None, None, None, None)]
  {
    assert |CANDIDATE| == 36;
    Ops.RecordedSound(EMPTY.tables, Ops.Changing(Create), CREATE_IDS);
  }

  lemma FirstSeen(v: View, item: Item)
    requires item == Item("d", "web", RUNNING_LABELS)
    requires v == Reporting(Chapter(1), item).(snapshot := "first")
    ensures Settled(v, Chapter(2)) && Sound(Chapter(2))
  {
    hide Settled, Sound, ObservedConfig, ObservedStack, Identity, Matches, Written, Chapter;
    Created();
    RunsCandidate(item);
    var was := Row("h", None, "web", None, None, None, None, None, None);
    assert Chapter(2) == Chapter(1).(containers := map["r" := Observed("d", "first")]) by { SecondChapter(); }
    OneIsMatched(v, item, was, Observed("d", "first"));
    assert Records.Named(v.start) by { SoundIsNamed(v.start); }
    OneIsSettled(v, Chapter(2), item, was, Observed("d", "first"));
    SettledIsSound(v, Chapter(2));
  }

  lemma SecondChapter()
    ensures Chapter(2) == Chapter(1).(containers := map["r" := Observed("d", "first")])
  {
  }

  lemma SoundIsNamed(t: Tables)
    requires Sound(t)
    ensures Records.Named(t)
  {
  }

  lemma PromotingKeepsRows(t: Tables, ctx: Context, c: string)
    ensures Effect(t, ctx, PromotePending(c)).tables.containers == t.containers
  {
  }

  lemma RemovalRecorded()
    requires Sound(Chapter(2))
    ensures Ops.Unused(Chapter(3), REMOVE_IDS) && Ops.CanRecord(Chapter(3), Ops.Changing(Remove)) && Sound(Chapter(4))
    ensures "a2" in Chapter(4).actions && Chapter(4).actions["a2"] == Action(Mutation(Remove), "r", "h", Running, "")
    ensures Chapter(4).containers == map["r" := Observed("d", "first")]
    ensures Chapter(4).issued == {"a1", CANDIDATE, "r", "a2", "c2", "r2"}
  {
    hide Effect, Sound;
    assert |CANDIDATE| == 36;
    Created();
    SecondChapter();
    EffectSound(Chapter(2), BUILT_CONTEXT, PromotePending(CANDIDATE));
    PromotingKeepsRows(Chapter(2), BUILT_CONTEXT, CANDIDATE);
    assert Chapter(3) == Effect(Chapter(2), BUILT_CONTEXT, PromotePending(CANDIDATE)).tables;
    Ops.RecordedSound(Chapter(3), Ops.Changing(Remove), REMOVE_IDS);
    assert Chapter(4) == Ops.Recorded(Chapter(3), Ops.Changing(Remove), REMOVE_IDS);
  }

  /** The row goes when a look at its old container finds that one gone. */
  lemma RowDeleted(t: Tables)
    requires Sound(t) && t.containers == map["r" := Observed("d", "first")]
    ensures Bystanding(World(t, map[]), World(WithoutContainer(t, "r"), map[]))
    ensures Sound(WithoutContainer(t, "r"))
    ensures WithoutContainer(t, "r").containers == map[] && WithoutContainer(t, "r").configs == map[]
  {
    WithoutContainerSound(t, "r");
    assert WithoutContainer(t, "r").containers == map[];
  }

  lemma MissedPass(v: View, t: Tables, item: Item)
    requires item == Item("d2", "web", RUNNING_LABELS) && v == Reporting(v.start, item)
    requires v.start.containers == map[] && v.start.configs == map[] && Sound(v.start)
    requires "r" in v.start.issued && "n" !in v.start.issued
    requires t == v.start.(containers := map["n" := Observed("d2", "s")], issued := v.start.issued + {"n"})
    ensures Ready(v) && Plain(v) && Settled(v, t) && Concerns(v, "r") && Claimants(v.reported, "r") == ["d2"]
  {
    hide Settled, ObservedConfig, ObservedStack, Identity;
    RunsCandidate(item);
    assert Claimants([item], "r") == ["d2"];
    assert Describes(v, Observed("d2", "s"), 0) && v.reported[0] == item;
    assert t.containers["n"] == Observed("d2", "s") && HasRow(v, t.containers, 0);
    assert PassEnded(v, t);
    OnePass(v, t);
  }

  lemma MissedDecides(t: Tables)
    requires "r" !in t.containers && Unfinished(t, "a2")
    ensures DecisionFor(t, REMOVAL, true) == FinalizeRemove
    ensures Effect(t, ContextFor(t, REMOVAL), FinalizeRemove).reply == Finalised
  {
    hide ConfigIn;
  }

  ghost function Story(v: View): (changes: seq<Change>)
  {
    [Preparing(Ops.Changing(Create), CREATE_IDS), Pass(v, true), Decision(BUILT_CONTEXT, PromotePending(CANDIDATE)),
      Preparing(Ops.Changing(Remove), REMOVE_IDS), Bystander]
  }

  lemma StoryIsALife(v: View, item: Item, made: Made) returns (states: seq<World>)
    requires item == Item("d", "web", RUNNING_LABELS) && v == Reporting(Chapter(1), item).(snapshot := "first")
    requires Truthful(v, made)
    ensures Life(states, Story(v), made) && states[5] == World(Chapter(5), map[])
    ensures Sound(Chapter(5)) && Chapter(5).containers == map[] && Chapter(5).configs == map[]
    ensures Chapter(5).issued == {"a1", CANDIDATE, "r", "a2", "c2", "r2"} && Unfinished(Chapter(5), "a2")
  {
    hide Settled, Sound, Effect, Bystanding, Truthful, Ops.Recorded, Ops.Unused, Ops.CanRecord;
    Created();
    FirstSeen(v, item);
    RemovalRecorded();
    RowDeleted(Chapter(4));
    states := seq(6, i requires 0 <= i => World(Chapter(i), map[]));
    assert Chapter(0) == EMPTY.tables;
    assert Next(states[0], Story(v)[0], states[1], made);
    assert Next(states[1], Story(v)[1], states[2], made);
    assert Next(states[2], Story(v)[2], states[3], made);
    assert Next(states[3], Story(v)[3], states[4], made);
    assert Next(states[4], Story(v)[4], states[5], made);
  }

  /**
   The row is gone, deleted because a look at its old container found that one gone;
   its removal is still open, and a container still names it.
   */
  lemma RemovalMayMissAContainer() returns (states: seq<World>, changes: seq<Change>, made: Made, v: View, t: Tables)
    ensures Life(states, changes, made) && Truthful(v, made)
    ensures v.start == states[|changes|].tables && v.stacks == states[|changes|].stacks
    ensures Shows(v, t, REMOVAL, FinalizeRemove)
    ensures !Agrees(v, Effect(t, ContextFor(t, REMOVAL), FinalizeRemove).tables, "r")
  {
    hide Agrees, Settled, Ready, Sound, Plain, Concerns, DecisionFor, Effect, Life, Chapter, Claimants;
    var first, later := Item("d", "web", RUNNING_LABELS), Item("d2", "web", RUNNING_LABELS);
    made := map[("h", "d") := RUNNING_LABELS, ("h", "d2") := RUNNING_LABELS];
    var seen := Reporting(Chapter(1), first).(snapshot := "first");
    states := StoryIsALife(seen, first, made);
    changes := Story(seen);
    v := Reporting(Chapter(5), later);
    t := v.start.(containers := map["n" := Observed("d2", "s")], issued := v.start.issued + {"n"});
    assert |CANDIDATE| == 36;
    MissedPass(v, t, later);
    MissedDecides(t);
    RemovalAgrees(v, t, REMOVAL);
  }
}
