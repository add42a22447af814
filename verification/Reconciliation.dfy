/**
 Reading the host, deciding what happened, and writing it down
 (api/src/containers/reconciliation.service.ts).

 Discovery, the classifier and the finalizer are put together here, and what
 they write is compared with the host itself: after a complete pass a finalised
 operation leaves the database agreeing with what is there.
 */
module Reconciliation {
  import opened Wrappers
  import opened AgentSpec
  import opened Records
  import opened Recovery
  import opened Discovery

  // ---- what the report says about one resource ---------------------------------

  /** The one reported container that names a resource. */
  ghost predicate Sole(v: View, r: string, item: Item)
  {
    && item in v.reported && item.dockerId != "" && Identity(item) == Some(r)
    && Claimants(v.reported, r) == [item.dockerId]
  }

  /** A reported container that the row already had names the row: labels do not change. */
  ghost predicate Anchored(v: View, r: string)
  {
    forall item :: item in v.reported && item.dockerId != "" && HadDocker(v, r, item.dockerId) ==>
      Identity(item) == Some(r)
  }

  /** Nothing is registered as in flight, and rows' identifiers read back as themselves. */
  ghost predicate Plain(v: View)
  {
    v.inFlight == {} && forall r :: r in v.start.containers ==> v.parse(r) == Some(r)
  }

  lemma {:induction false} NamedAmongClaimants(items: seq<Item>, r: string, item: Item)
    requires item in items && item.dockerId != "" && Identity(item) == Some(r)
    ensures item.dockerId in Claimants(items, r)
  {
    if item != items[|items| - 1] {
      NamedAmongClaimants(items[..|items| - 1], r, item);
    }
  }

  lemma {:induction false} ClaimantIsReported(items: seq<Item>, r: string) returns (item: Item)
    requires Claimants(items, r) != []
    ensures item in items && item.dockerId != "" && Identity(item) == Some(r)
  {
    item := items[|items| - 1];
    if item.dockerId == "" || Identity(item) != Some(r) {
      item := ClaimantIsReported(items[..|items| - 1], r);
    }
  }

  /** Whatever is written to an anchored row names it. */
  lemma MatchNames(v: View, r: string, item: Item)
    requires Anchored(v, r) && item in v.reported && Matches(v, item, r)
    ensures Identity(item) == Some(r) && |Claimants(v.reported, r)| == 1 && Sole(v, r, item)
  {
    NamedAmongClaimants(v.reported, r, item);
  }

  lemma {:induction false} MatchIsFound(v: View, n: nat, r: string, k: nat)
    requires k < n <= |v.reported| && Matches(v, v.reported[k], r)
    ensures LastMatch(v, n, r).Some?
  {
    hide Matches;
    if !Matches(v, v.reported[n - 1], r) {
      MatchIsFound(v, n - 1, r, k);
    }
  }

  lemma {:induction false} ConflictIsFound(v: View, n: nat, r: string, k: nat)
    requires k < n <= |v.reported| && Keeps(v, v.reported[k], r) && Contended(v, v.reported[k])
    ensures LastConflict(v, n, r).Some?
  {
    hide Keeps, Contended;
    if !(Keeps(v, v.reported[n - 1], r) && Contended(v, v.reported[n - 1])) {
      ConflictIsFound(v, n - 1, r, k);
    }
  }

  /** With nothing in flight, a row is seen by being matched or by being contested. */
  lemma {:induction false} TouchedHow(v: View, n: nat, r: string)
    requires v.inFlight == {} && n <= |v.reported| && Touched(v, n, r)
    ensures LastMatch(v, n, r).Some? || LastConflict(v, n, r).Some?
  {
    hide Matches, Contended;
    if !Matches(v, v.reported[n - 1], r) && !Keeps(v, v.reported[n - 1], r) {
      TouchedHow(v, n - 1, r);
    }
  }

  /** If anything names a row, the row was matched or a conflict was noted on it. */
  lemma ClaimedIsNoticed(v: View, r: string)
    requires Plain(v) && Existing(v, r) && Claimants(v.reported, r) != []
    ensures LastMatch(v, |v.reported|, r).Some? || LastConflict(v, |v.reported|, r).Some?
  {
    hide LastMatch, LastConflict, Claimants;
    var item := ClaimantIsReported(v.reported, r);
    var k :| 0 <= k < |v.reported| && v.reported[k] == item;
    if |Claimants(v.reported, r)| > 1 {
      ConflictIsFound(v, |v.reported|, r, k);
    } else {
      MatchIsFound(v, |v.reported|, r, k);
    }
  }

  /** The row is there and no conflict is noted on it. */
  predicate Uncontested(t: Tables, r: string)
  {
    r in t.containers && t.containers[r].conflict == None
  }

  /** What a row that existed says after a complete pass, in terms of the host. */
  lemma RowTells(v: View, t: Tables, r: string)
    requires Ready(v) && Settled(v, t) && Plain(v) && Existing(v, r)
    ensures Anchored(v, r) && Uncontested(t, r) && t.containers[r].dockerId.Some? ==>
      exists item :: Sole(v, r, item) && t.containers[r].observedConfig == ObservedConfig(item)
    ensures Uncontested(t, r) && t.containers[r].dockerId == None ==>
      Claimants(v.reported, r) == []
    ensures r !in t.containers ==> Claimants(v.reported, r) == []
  {
    hide Consistent, Harmless, Discovered, ClaimAt, Matches, LastMatch, LastConflict, Touched, ObservedConfig,
      Sole, Anchored, Inserted;
    var n := |v.reported|;
    var mid: Tables :| PassEnded(v, mid) && t == Swept(mid, v.host, v.snapshot);
    assert Expected(v, n, r, mid.containers[r]);
    SurvivesIffSeen(v, t, r);
    if LastMatch(v, n, r).Some? {
      MatchTouches(v, n, r);
      if Anchored(v, r) { MatchNames(v, r, v.reported[LastMatch(v, n, r).value]); }
    } else if Touched(v, n, r) {
      TouchedHow(v, n, r);
    }
    if Claimants(v.reported, r) != [] {
      ClaimedIsNoticed(v, r);
      NoticedIsTouched(v, n, r);
    }
  }

  lemma {:induction false} NoticedIsTouched(v: View, n: nat, r: string)
    requires n <= |v.reported| && (LastMatch(v, n, r).Some? || LastConflict(v, n, r).Some?)
    ensures Touched(v, n, r)
  {
    hide Matches, Keeps, Contended;
    if !Matches(v, v.reported[n - 1], r) && !Keeps(v, v.reported[n - 1], r) {
      NoticedIsTouched(v, n - 1, r);
    }
  }

  // ---- deciding from the rows -----------------------------------------------------

  datatype PendingOperation = PendingOperation(container: string, operation: Operation, action: Option<string>)

  ghost function ConfigIn(t: Tables, container: string, state: ConfigState): Option<string>
  {
    if exists c :: Holds(t, c, container, state) then
      var c :| Holds(t, c, container, state);
      Some(c)
    else None
  }

  function ClaimsOf(t: Tables, container: string): seq<Claim>
  {
    if container in t.containers && t.containers[container].dockerId.Some?
    then [Claim(t.containers[container].dockerId.value, t.containers[container].observedConfig)]
    else []
  }

  predicate InConflict(t: Tables, container: string)
  {
    container in t.containers && t.containers[container].conflict.Some?
  }

  ghost function EvidenceFor(t: Tables, op: PendingOperation, complete: bool): Evidence
  {
    Evidence(op.operation, ConfigIn(t, op.container, Current), ConfigIn(t, op.container, Pending),
             ClaimsOf(t, op.container), complete, true, InConflict(t, op.container))
  }

  /** The Docker containers on record as claiming this resource. */
  function ClaimedDockerIds(t: Tables, container: string): seq<string>
  {
    if InConflict(t, container) then t.containers[container].conflict.value
    else if container in t.containers && t.containers[container].dockerId.Some?
      then [t.containers[container].dockerId.value]
    else []
  }

  function ContextFor(t: Tables, op: PendingOperation): Context
  {
    Context(op.container, op.operation, op.action, ClaimedDockerIds(t, op.container))
  }

  ghost function DecisionFor(t: Tables, op: PendingOperation, complete: bool): Decision
  {
    Classify(EvidenceFor(t, op, complete))
  }

  /** A decision made from the rows is about the container's own configuration. */
  lemma DecisionFits(t: Tables, op: PendingOperation, complete: bool)
    ensures Fits(t, ContextFor(t, op), DecisionFor(t, op, complete))
  {
  }

  /** Recording an identity conflict leaves the claimants as discovery noted them. */
  lemma ConflictKeepsClaimants(t: Tables, op: PendingOperation, complete: bool)
    requires DecisionFor(t, op, complete) == IdentityConflict
    ensures InConflict(t, op.container)
    ensures Effect(t, ContextFor(t, op), IdentityConflict).tables.containers == t.containers
  {
  }

  // ---- agreement with the host -----------------------------------------------------

  /**
   The current configuration is the one the only container that names the
   resource carries, or the row and the container are both gone.
   */
  ghost predicate Agrees(v: View, t: Tables, r: string)
  {
    || (exists item :: Sole(v, r, item) && Runs(t, r, ObservedConfig(item)))
    || (r !in t.containers && Claimants(v.reported, r) == [])
  }

  predicate Runs(t: Tables, r: string, config: Option<string>)
  {
    config.Some? && Holds(t, config.value, r, Current)
  }

  ghost predicate Managed(t: Tables, r: string)
  {
    exists c :: c in t.configs && t.configs[c].container == r
  }

  /** The resource of an operation was a row of this host once; if it has a configuration, its container names it. */
  ghost predicate Concerns(v: View, r: string)
  {
    && r in v.start.issued && (r in v.start.containers ==> Existing(v, r))
    && (Managed(v.start, r) ==> Anchored(v, r))
  }

  lemma SettledIsSound(v: View, t: Tables)
    requires Sound(v.start) && Settled(v, t)
    ensures Sound(t) && v.start.issued <= t.issued
    ensures forall c :: c in t.configs ==> c in v.start.configs && t.configs[c] == v.start.configs[c]
    ensures t.actions == v.start.actions
  {
    hide Consistent, Written, Discovered;
    var mid: Tables :| PassEnded(v, mid) && t == Swept(mid, v.host, v.snapshot);
  }

  lemma AbsentStaysAbsent(v: View, t: Tables, r: string)
    requires Settled(v, t) && r in v.start.issued && r !in v.start.containers
    ensures r !in t.containers
  {
    hide Consistent, Written, Harmless;
    var mid: Tables :| PassEnded(v, mid) && t == Swept(mid, v.host, v.snapshot);
  }

  /** What the rows say about an operation's resource, in terms of the host. */
  lemma EvidenceTells(v: View, t: Tables, op: PendingOperation)
    requires Ready(v) && Sound(v.start) && Plain(v) && Settled(v, t) && Concerns(v, op.container)
    requires !InConflict(t, op.container)
    ensures var r := op.container;
      && |ClaimsOf(t, r)| <= 1
      && (ClaimsOf(t, r) != [] && Managed(v.start, r) ==>
        exists item :: Sole(v, r, item) && ClaimsOf(t, r)[0].config == ObservedConfig(item))
      && (ClaimsOf(t, r) == [] && r in v.start.containers ==> Claimants(v.reported, r) == [])
  {
    hide Ready, Plain, Anchored, Settled, Sole, ObservedConfig, Claimants;
    var r := op.container;
    if r in v.start.containers {
      RowTells(v, t, r);
    } else {
      AbsentStaysAbsent(v, t, r);
    }
  }

  ghost predicate Writes(d: Decision)
  {
    d != IdentityConflict && d != NeedsAttention && d != NoAction
  }

  /** The decision, made from these rows, settles what the host has. */
  ghost predicate Conclusive(v: View, t: Tables, op: PendingOperation, d: Decision)
  {
    match d
    case FinalizeRemove => op.container in v.start.containers || Claimants(v.reported, op.container) == []
    case FailOperation =>
      ClaimsOf(t, op.container) != [] && ClaimsOf(t, op.container)[0].config == ConfigIn(t, op.container, Current)
    case _ => true
  }

  lemma ConfigInHolds(t: Tables, container: string, state: ConfigState)
    requires OneOfEach(t)
    ensures forall c :: Holds(t, c, container, state) <==> ConfigIn(t, container, state) == Some(c)
  {
    forall c, d | Holds(t, c, container, state) && Holds(t, d, container, state)
      ensures c == d
    {
      assert SameSlot(t.configs[c], t.configs[d]);
    }
  }

  lemma {:induction false} TwoNamedAreTwo(items: seq<Item>, r: string, a: Item, b: Item)
    requires a in items && b in items && a != b && a.dockerId != "" && b.dockerId != ""
    requires Identity(a) == Some(r) && Identity(b) == Some(r)
    ensures |Claimants(items, r)| >= 2
  {
    var rest, last := items[..|items| - 1], items[|items| - 1];
    if last == a {
      NamedAmongClaimants(rest, r, b);
    } else if last == b {
      NamedAmongClaimants(rest, r, a);
    } else {
      TwoNamedAreTwo(rest, r, a, b);
    }
  }

  lemma SoleIsOne(v: View, r: string, a: Item, b: Item)
    requires Sole(v, r, a) && Sole(v, r, b)
    ensures a == b
  {
    if a != b {
      TwoNamedAreTwo(v.reported, r, a, b);
    }
  }

  lemma PromotionAgrees(v: View, t: Tables, op: PendingOperation, c: string, item: Item)
    requires Sound(t) && ConfigIn(t, op.container, Pending) == Some(c)
    requires Sole(v, op.container, item) && ObservedConfig(item) == Some(c)
    requires Effect(t, ContextFor(t, op), PromotePending(c)).reply == Finalised
    ensures Agrees(v, Effect(t, ContextFor(t, op), PromotePending(c)).tables, op.container)
  {
    hide Effect, Sole, ObservedConfig, Claimants;
    ConfigInHolds(t, op.container, Pending);
    PromotionSettles(t, ContextFor(t, op), c);
    var u := Effect(t, ContextFor(t, op), PromotePending(c)).tables;
    assert Holds(u, c, op.container, Current) && Runs(u, op.container, ObservedConfig(item));
  }

  /** A replacement that never took: what runs is still what is current. */
  lemma RollbackAgrees(v: View, t: Tables, op: PendingOperation, c: string, item: Item)
    requires Sound(t) && op.operation != Create && ConfigIn(t, op.container, Pending) == Some(c)
    requires Sole(v, op.container, item) && ObservedConfig(item).Some?
    requires ObservedConfig(item) == ConfigIn(t, op.container, Current)
    requires Effect(t, ContextFor(t, op), DiscardPending(c)).reply == Finalised
    ensures Agrees(v, Effect(t, ContextFor(t, op), DiscardPending(c)).tables, op.container)
  {
    hide Sole, ObservedConfig, Claimants;
    ConfigInHolds(t, op.container, Current);
    ConfigInHolds(t, op.container, Pending);
    var u := Effect(t, ContextFor(t, op), DiscardPending(c)).tables;
    assert Holds(u, ObservedConfig(item).value, op.container, Current) && Runs(u, op.container, ObservedConfig(item));
  }

  /** A create that left nothing behind: the resource goes as well. */
  lemma NothingMadeAgrees(v: View, t: Tables, op: PendingOperation, c: string)
    requires op.operation == Create && Claimants(v.reported, op.container) == []
    requires Effect(t, ContextFor(t, op), DiscardPending(c)).reply == Finalised
    ensures Agrees(v, Effect(t, ContextFor(t, op), DiscardPending(c)).tables, op.container)
  {
    hide Sole, ObservedConfig, Claimants;
  }

  lemma RemovalAgrees(v: View, t: Tables, op: PendingOperation)
    requires Effect(t, ContextFor(t, op), FinalizeRemove).reply == Finalised
    ensures Agrees(v, Effect(t, ContextFor(t, op), FinalizeRemove).tables, op.container) <==>
      Claimants(v.reported, op.container) == []
  {
    hide Sole, ObservedConfig, Claimants;
  }

  lemma FailureAgrees(v: View, t: Tables, op: PendingOperation, item: Item)
    requires Sound(t) && op.container in t.containers
    requires Sole(v, op.container, item) && ObservedConfig(item).Some?
    requires Effect(t, ContextFor(t, op), FailOperation).reply == Finalised
    ensures Agrees(v, Effect(t, ContextFor(t, op), FailOperation).tables, op.container) <==>
      ObservedConfig(item) == ConfigIn(t, op.container, Current)
  {
    hide Sole, ObservedConfig, Claimants;
    ConfigInHolds(t, op.container, Current);
    var u := Effect(t, ContextFor(t, op), FailOperation).tables;
    assert u.configs == t.configs && u.containers == t.containers;
    forall other | Sole(v, op.container, other)
      ensures other == item
    {
      SoleIsOne(v, op.container, item, other);
    }
    assert Runs(u, op.container, ObservedConfig(item)) <==> ObservedConfig(item) == ConfigIn(t, op.container, Current);
  }

  /**
   A finalised outcome makes the database agree with the host, with two exact
   conditions: a removal finalised for a row that was already gone says nothing
   about containers that still name it, and a removal recorded as failed leaves a
   pending candidate pending even when that is what the container runs.
   */
  lemma FinalisedAgrees(v: View, t: Tables, op: PendingOperation)
    requires Ready(v) && Sound(v.start) && Plain(v) && Settled(v, t) && Concerns(v, op.container)
    requires Writes(DecisionFor(t, op, true))
    requires Effect(t, ContextFor(t, op), DecisionFor(t, op, true)).reply == Finalised
    ensures Agrees(v, Effect(t, ContextFor(t, op), DecisionFor(t, op, true)).tables, op.container) <==>
      Conclusive(v, t, op, DecisionFor(t, op, true))
  {
    hide Ready, Plain, Anchored, Settled, Sole, ObservedConfig, Claimants, Sound, Clashes, Classify, Effect, Agrees,
      ConfigIn, Managed;
    var r, e := op.container, EvidenceFor(t, op, true);
    DecidedFromEvidence(e);
    SettledIsSound(v, t);
    EvidenceTells(v, t, op);
    ConfiguredIsManaged(v, t, r);
    match Classify(e)
    case PromotePending(c) =>
      var item :| Sole(v, r, item) && ClaimsOf(t, r)[0].config == ObservedConfig(item);
      PromotionAgrees(v, t, op, c, item);
    case DiscardPending(c) =>
      if ClaimsOf(t, r) == [] {
        NothingMadeAgrees(v, t, op, c);
      } else {
        CreateWithClaimDeclines(t, op, c);
        var item :| Sole(v, r, item) && ClaimsOf(t, r)[0].config == ObservedConfig(item);
        RollbackAgrees(v, t, op, c, item);
      }
    case FinalizeRemove => RemovalAgrees(v, t, op);
    case FailOperation =>
      var item :| Sole(v, r, item) && ClaimsOf(t, r)[0].config == ObservedConfig(item);
      FailureAgrees(v, t, op, item);
    case _ =>
  }

  /** A configuration found after the pass was there before it, and so was its container. */
  lemma ConfiguredIsManaged(v: View, t: Tables, r: string)
    requires Sound(v.start) && Settled(v, t)
    ensures ConfigIn(t, r, Current).Some? || ConfigIn(t, r, Pending).Some? ==>
      Managed(v.start, r) && r in v.start.containers
  {
    hide Settled;
    SettledIsSound(v, t);
    forall c, state | Holds(t, c, r, state)
      ensures Managed(v.start, r) && r in v.start.containers
    {
      assert c in v.start.configs;
    }
  }

  /** A create whose container is there is never discarded. */
  lemma CreateWithClaimDeclines(t: Tables, op: PendingOperation, c: string)
    requires ClaimsOf(t, op.container) != []
    ensures Effect(t, ContextFor(t, op), DiscardPending(c)).reply == Finalised ==> op.operation != Create
  {
  }

  // ---- why rows are anchored ---------------------------------------------------

  /** The labels of every container ever made, by host and Docker identifier. */
  type Made = map<(string, string), map<string, string>>

  ghost predicate Truthful(v: View, made: Made)
  {
    forall item :: item in v.reported && item.dockerId != "" ==>
      (v.host, item.dockerId) in made && made[(v.host, item.dockerId)] == item.labels
  }

  /** The Docker container of a managed row names the row. */
  ghost predicate NamesRow(row: Row, r: string, made: Made)
  {
    row.dockerId.Some? && row.dockerId.value != "" ==>
      && r != "" && (row.host, row.dockerId.value) in made
      && CONTAINER_ID in made[(row.host, row.dockerId.value)] && made[(row.host, row.dockerId.value)][CONTAINER_ID] == r
  }

  ghost predicate AllAnchored(t: Tables, made: Made)
  {
    forall r :: r in t.containers && Managed(t, r) ==> NamesRow(t.containers[r], r, made)
  }

  lemma ManagedIsAnchored(v: View, made: Made, r: string)
    requires Truthful(v, made) && AllAnchored(v.start, made) && Existing(v, r) && Managed(v.start, r)
    ensures Anchored(v, r)
  {
    assert NamesRow(v.start.containers[r], r, made);
  }

  /** A pass gives a managed row a new Docker container only if that one names it. */
  lemma StaysNamed(v: View, made: Made, r: string, row: Row)
    requires Truthful(v, made) && r in v.start.containers && NamesRow(v.start.containers[r], r, made)
    requires Remains(v, r, v.start.containers[r], row)
    ensures NamesRow(row, r, made)
  {
    hide Contended, Claimants, ObservedConfig;
  }

  /** A pass that ended early keeps managed rows anchored. */
  lemma IncompleteKeepsAnchored(v: View, made: Made, t: Tables)
    requires Sound(v.start) && Harmless(v, t) && Truthful(v, made) && AllAnchored(v.start, made)
    ensures AllAnchored(t, made)
  {
    hide Consistent, NamesRow, Truthful, Remains;
    forall r | r in t.containers && Managed(t, r)
      ensures NamesRow(t.containers[r], r, made)
    {
      assert Managed(v.start, r) && r in v.start.containers;
      StaysNamed(v, made, r, t.containers[r]);
    }
  }

  /** So does a complete one. */
  lemma PassKeepsAnchored(v: View, made: Made, t: Tables)
    requires Sound(v.start) && Settled(v, t) && Truthful(v, made) && AllAnchored(v.start, made)
    ensures AllAnchored(t, made)
  {
    hide Consistent, Harmless, Discovered, Written, NamesRow, Truthful, Inserted;
    var mid: Tables :| PassEnded(v, mid) && t == Swept(mid, v.host, v.snapshot);
    IncompleteKeepsAnchored(v, made, mid);
    forall r | r in t.containers && Managed(t, r)
      ensures NamesRow(t.containers[r], r, made)
    {
      assert Managed(mid, r);
    }
  }

  lemma FinalisingKeepsAnchored(t: Tables, made: Made, ctx: Context, d: Decision)
    requires AllAnchored(t, made)
    ensures AllAnchored(Effect(t, ctx, d).tables, made)
  {
    hide Effect;
    EffectKeepsIdentity(t, ctx, d);
    var u := Effect(t, ctx, d).tables;
    forall r | r in u.containers && Managed(u, r)
      ensures NamesRow(u.containers[r], r, made)
    {
      assert Managed(t, r) && NamesRow(t.containers[r], r, made);
    }
  }

  // ---- for showing the exceptions ----------------------------------------------------

  /** A finished pass over one reported container, and the rows it left. */
  ghost predicate Shows(v: View, t: Tables, op: PendingOperation, d: Decision)
  {
    && Ready(v) && Sound(v.start) && Plain(v) && Settled(v, t) && Concerns(v, op.container)
    && DecisionFor(t, op, true) == d && Effect(t, ContextFor(t, op), d).reply == Finalised
  }

  /** A host "h" that reports one container. */
  function Reporting(start: Tables, item: Item): View
  {
    View(start, "h", [item], {}, "s", map[], (written: string) => Some(written))
  }

  lemma OnePass(v: View, t: Tables)
    requires PassEnded(v, t) && forall r :: r in t.containers ==> t.containers[r].snapshot == Some(v.snapshot)
    ensures Settled(v, t)
  {
    hide PassEnded;
    assert Swept(t, v.host, v.snapshot) == t;
  }

  // ---- the service ---------------------------------------------------------------

  class Reconciler {
    const db: Database
    const discovery: Discoverer
    const finalizer: Finalizer

    ghost predicate Wired()
    {
      discovery.db == db && finalizer.db == db
    }

    constructor (db: Database)
      ensures this.db == db && Wired()
    {
      this.db := db;
      this.discovery := new Discoverer(db);
      this.finalizer := new Finalizer(db);
    }

    /** The row of a container in a state, as `configs.find` reads it. */
    method Find(container: string, state: ConfigState) returns (found: Option<string>)
      requires OneOfEach(db.tables)
      ensures found == ConfigIn(db.tables, container, state)
    {
      ConfigInHolds(db.tables, container, state);
      if c :| c in db.tables.configs && Holds(db.tables, c, container, state) {
        return Some(c);
      }
      return None;
    }

    method ClassifyOperation(op: PendingOperation, complete: bool) returns (decision: Decision)
      requires Sound(db.tables)
      ensures decision == DecisionFor(db.tables, op, complete)
    {
      var current := Find(op.container, Current);
      var pending := Find(op.container, Pending);
      decision := Classify(Evidence(op.operation, current, pending, ClaimsOf(db.tables, op.container), complete, true,
        InConflict(db.tables, op.container)));
    }

    /**
     Reads the host, decides and records. `seen` is what the database held
     between the reading and the recording.
     */
    method ReconcileAndFinalize(v: View, op: PendingOperation, agent: Option<Answers>)
      returns (decision: Decision, complete: bool, ghost seen: Tables, ghost reply: Reply)
      requires Wired() && Ready(v) && Sound(v.start) && db.tables == v.start
      modifies db
      ensures Sound(db.tables) && Sound(seen)
      ensures if complete then Settled(v, seen) else Harmless(v, seen)
      // On a database that works, the reading is complete exactly when an agent answered and no container is stuck.
      ensures agent.None? ==> !complete && seen == v.start
      ensures db.faultless ==>
        (complete <==> agent.Some? && agent.value == Answers(true, true, true, true) && NoneStuck(v))
      ensures decision == DecisionFor(seen, op, complete)
      ensures Finish(db.tables, reply) == Effect(seen, ContextFor(seen, op), decision)
      ensures !complete ==> decision == NoAction || decision == IdentityConflict
      ensures complete && Plain(v) && Concerns(v, op.container) && reply == Finalised && Writes(decision) ==>
        (Agrees(v, db.tables, op.container) <==> Conclusive(v, seen, op, decision))
    {
      hide Ready, Settled, Harmless, Effect, Classify, ConfigIn, Agrees, Sound, Plain, Concerns;
      complete := false;
      if agent.Some? {
        var applied;
        complete, applied := discovery.Sync(v, agent.value);
      } else {
        Discoverer.StartIsHarmless(v);
      }
      seen := db.tables;
      if complete {
        SettledIsSound(v, seen);
      } else {
        HarmlessIsSound(v, seen);
      }
      decision := ClassifyOperation(op, complete);
      DecidedFromEvidence(EvidenceFor(seen, op, complete));
      IncompleteDecidesNothing(seen, op);
      reply := Declined;
      EffectOfNothing(seen, ContextFor(seen, op));
      if decision != NoAction {
        var wrote := finalizer.Finalize(ContextFor(db.tables, op), decision);
        reply := wrote;
      }
      if complete && Plain(v) && Concerns(v, op.container) && reply == Finalised && Writes(decision) {
        FinalisedAgrees(v, seen, op);
      }
    }

    static lemma EffectOfNothing(t: Tables, ctx: Context)
      ensures Effect(t, ctx, NoAction) == Finish(t, Declined)
    {
    }

    static lemma IncompleteDecidesNothing(t: Tables, op: PendingOperation)
      ensures DecisionFor(t, op, false) == NoAction || DecisionFor(t, op, false) == IdentityConflict
    {
    }

    static lemma HarmlessIsSound(v: View, t: Tables)
      requires Sound(v.start) && Harmless(v, t)
      ensures Sound(t)
    {
      hide Consistent;
    }
  }
}
