/**
 What an interrupted mutation turned out to mean, and writing it down once
 (api/src/containers/recovery.ts and recovery-finalizer.ts).

 The decision is a pure function of what was observed. The finalizer runs as one
 transaction: it changes the tables statement by statement and goes back to
 where it began when a statement finds the rows are not what was decided about.
 */
module Recovery {
  import opened Wrappers
  import opened Records

  datatype Decision =
    | PromotePending(config: string)
    | DiscardPending(config: string)
    | FinalizeRemove
    | FailOperation
    | IdentityConflict
    | NeedsAttention
    | NoAction

  /** What a container on the host says it is. */
  datatype Claim = Claim(dockerId: string, config: Option<string>)

  datatype Evidence = Evidence(
    operation: Operation,
    current: Option<string>,
    pending: Option<string>,
    claims: seq<Claim>,
    complete: bool,
    eligible: bool,
    conflict: bool)

  function Classify(e: Evidence): Decision
  {
    if !e.eligible then NoAction
    else if e.conflict || |e.claims| > 1 then IdentityConflict
    else if !e.complete then NoAction
    else if |e.claims| == 1 && e.claims[0].config == None then NeedsAttention
    else if |e.claims| == 1 && e.claims[0].config != e.current && e.claims[0].config != e.pending then NeedsAttention
    else if e.operation == Remove then if e.claims == [] then FinalizeRemove else FailOperation
    else if e.pending == None then NoAction
    else if e.claims == [] then
      if e.operation == Create then DiscardPending(e.pending.value) else NeedsAttention
    else if e.claims[0].config == e.pending then PromotePending(e.pending.value)
    else DiscardPending(e.pending.value)
  }

  /** The evidence each decision that writes an outcome rests on, and that it is enough. */
  lemma DecidedFromEvidence(e: Evidence)
    ensures var settled := e.eligible && e.complete && !e.conflict;
      var carried := if |e.claims| == 1 then e.claims[0].config else None;
      && (forall c :: Classify(e) == PromotePending(c) <==>
        settled && e.operation != Remove && |e.claims| == 1 && e.pending == Some(c) && carried == Some(c))
      && (forall c :: Classify(e) == DiscardPending(c) <==>
        settled && e.operation != Remove && e.pending == Some(c) &&
        ((e.claims == [] && e.operation == Create) ||
         (|e.claims| == 1 && carried != None && carried == e.current && carried != Some(c))))
      && (Classify(e) == FinalizeRemove <==> settled && e.operation == Remove && e.claims == [])
      && (Classify(e) == FailOperation <==>
        settled && e.operation == Remove && |e.claims| == 1 && carried != None &&
          (carried == e.current || carried == e.pending))
      && (Classify(e) == IdentityConflict <==> e.eligible && (e.conflict || |e.claims| > 1))
      && (Classify(e) == NeedsAttention <==>
        settled && |e.claims| <= 1 &&
        ((|e.claims| == 1 && (carried == None || (carried != e.current && carried != e.pending))) ||
         (e.claims == [] && e.operation == Replace && e.pending != None)))
  {
  }

  // ---- what finalising does ----------------------------------------------

  datatype Context = Context(container: string, operation: Operation, action: Option<string>, observed: seq<string>)

  /** Whether this call finalised the mutation, wrote nothing, or failed and wrote nothing. */
  datatype Reply = Finalised | Declined | Threw

  datatype Finish = Finish(tables: Tables, reply: Reply)

  predicate Claimable(t: Tables, ctx: Context, config: Option<string>)
  {
    match ctx.action
    case Some(action) => Unfinished(t, action)
    case None => config.Some? && IsPending(t, config.value) && t.configs[config.value].action == None
  }

  function Closed(t: Tables, ctx: Context, status: Status, errorCode: string): Tables
  {
    if ctx.action.Some? && ctx.action.value in t.actions
    then t.(actions :=
      t.actions[ctx.action.value := t.actions[ctx.action.value].(status := status, errorCode := errorCode)])
    else t
  }

  /** Without the container's current configuration. */
  function WithoutCurrent(t: Tables, container: string): Tables
  {
    t.(configs := map c | c in t.configs && !Holds(t, c, container, Current) :: t.configs[c])
  }

  /** The candidate in place of the container's current configuration, all at once. */
  function Promoted(t: Tables, container: string, config: string): Tables
    requires config in t.configs
  {
    t.(configs := map c | c in t.configs && (c == config || !Holds(t, c, container, Current)) ::
      if c == config then t.configs[c].(state := Current, action := None) else t.configs[c])
  }

  /** The owner of the candidate has a current configuration that this would not replace. */
  ghost predicate Clashes(t: Tables, container: string, config: string)
    requires config in t.configs
  {
    t.configs[config].container != container &&
    exists d :: Holds(t, d, t.configs[config].container, Current)
  }

  ghost function Effect(t: Tables, ctx: Context, d: Decision): Finish
  {
    match d
    case NoAction => Finish(t, Declined)
    case PromotePending(c) =>
      if !Claimable(t, ctx, Some(c)) || !IsPending(t, c) then Finish(t, Declined)
      else if Clashes(t, ctx.container, c) then Finish(t, Threw)
      else Finish(Closed(Promoted(t, ctx.container, c), ctx, Succeeded, ""), Finalised)
    case DiscardPending(c) =>
      if !Claimable(t, ctx, Some(c)) then Finish(t, Declined)
      else if ctx.operation == Create then
        if ctx.container in t.containers && t.containers[ctx.container].dockerId == None
        then Finish(Closed(WithoutContainer(t, ctx.container), ctx, Failed, "CONTAINER_CREATE_FAILED"), Finalised)
        else Finish(t, Declined)
      else if IsPending(t, c)
      then Finish(Closed(t.(configs := t.configs - {c}), ctx, Failed, "REPLACEMENT_FAILED"), Finalised)
      else Finish(t, Declined)
    case FinalizeRemove =>
      if Claimable(t, ctx, None) then Finish(Closed(WithoutContainer(t, ctx.container), ctx, Succeeded, ""), Finalised)
      else Finish(t, Declined)
    case FailOperation =>
      if Claimable(t, ctx, None) then Finish(Closed(t, ctx, Failed, "CONTAINER_REMOVE_FAILED"), Finalised)
      else Finish(t, Declined)
    case IdentityConflict =>
      if Claimable(t, ctx, None)
      then
        var noted := Conflicted(t, ctx.container, ctx.observed);
        Finish(Closed(noted, ctx, Failed, "CONTAINER_IDENTITY_CONFLICT"), Finalised)
      else Finish(t, Declined)
    case NeedsAttention =>
      if Claimable(t, ctx, None) then Finish(Closed(t, ctx, Failed, "CONTAINER_STATE_UNRESOLVED"), Finalised)
      else Finish(t, Declined)
  }

  function Conflicted(t: Tables, container: string, dockerIds: seq<string>): Tables
  {
    if container in t.containers
    then t.(containers := t.containers[container := t.containers[container].(conflict := Some(dockerIds))])
    else t
  }

  // ---- the finalizer, statement by statement -----------------------------

  /** How a transaction body ended; the last two undo what it had done. */
  datatype Ended = Committed | Nothing | Stale | Violation

  class Finalizer {
    const db: Database

    constructor (db: Database)
      ensures this.db == db
    {
      this.db := db;
    }

    method Claim(ctx: Context, config: Option<string>) returns (claimed: bool)
      ensures claimed == Claimable(db.tables, ctx, config)
    {
      if ctx.action.Some? {
        return ctx.action.value in db.tables.actions && Open(db.tables.actions[ctx.action.value]);
      }
      if config.None? {
        return false;
      }
      return IsPending(db.tables, config.value) && db.tables.configs[config.value].action == None;
    }

    method FinishAction(ctx: Context, status: Status, errorCode: string)
      modifies db
      ensures db.tables == Closed(old(db.tables), ctx, status, errorCode)
    {
      if ctx.action.None? {
        return;
      }
      var id := ctx.action.value;
      if id in db.tables.actions {
        db.tables := db.tables.(actions := db.tables.actions[id := db.tables.actions[id].(status := status,
          errorCode := errorCode)]);
      }
    }

    method DeleteCurrent(container: string)
      modifies db
      ensures db.tables == WithoutCurrent(old(db.tables), container)
    {
      var t := db.tables;
      db.tables := t.(configs := map c | c in t.configs && !Holds(t, c, container, Current) :: t.configs[c]);
    }

    /** `UPDATE ... SET state = 'current' WHERE id = $1 AND state = 'pending'`, under the unique index. */
    method MarkCurrent(config: string) returns (ended: Ended)
      modifies db
      ensures ended == Stale <==> !IsPending(old(db.tables), config)
      ensures ended == Violation <==>
        IsPending(old(db.tables), config) &&
          exists d :: Holds(old(db.tables), d, old(db.tables).configs[config].container, Current)
      ensures ended == Stale || ended == Violation || ended == Committed
      ensures ended == Committed ==>
        db.tables == old(db.tables).(configs :=
          old(db.tables).configs[config :=
          old(db.tables).configs[config].(state := Current, action := None)])
      ensures ended != Committed ==> db.tables == old(db.tables)
    {
      if !IsPending(db.tables, config) {
        return Stale;
      }
      var owner := db.tables.configs[config].container;
      if exists d :: d in db.tables.configs && Holds(db.tables, d, owner, Current) {
        return Violation;
      }
      db.tables := db.tables.(configs := db.tables.configs[config := db.tables.configs[config].(state := Current,
        action := None)]);
      return Committed;
    }

    method Promote(ctx: Context, config: string) returns (ended: Ended)
      requires OneOfEach(db.tables)
      modifies db
      ensures var e := Effect(old(db.tables), ctx, PromotePending(config));
        && (ended == Committed <==> e.reply == Finalised) && (ended == Violation <==> e.reply == Threw)
        && (ended == Committed ==> db.tables == e.tables) && (ended == Nothing ==> db.tables == old(db.tables))
    {
      ghost var before := db.tables;
      var claimed := Claim(ctx, Some(config));
      if !claimed {
        return Nothing;
      }
      DeleteCurrent(ctx.container);
      ghost var deleted := db.tables;
      ended := MarkCurrent(config);
      if ended != Committed {
        ClashesLater(before, deleted, ctx.container, config);
        return;
      }
      ClashesLater(before, deleted, ctx.container, config);
      assert db.tables.configs == Promoted(before, ctx.container, config).configs;
      FinishAction(ctx, Succeeded, "");
    }

    /** What is left after the container's current configuration went decides the clash. */
    static lemma ClashesLater(before: Tables, deleted: Tables, container: string, config: string)
      requires deleted == WithoutCurrent(before, container)
      ensures IsPending(deleted, config) <==> IsPending(before, config)
      ensures IsPending(before, config) ==>
        (Clashes(before, container, config) <==>
          exists d :: Holds(deleted, d, deleted.configs[config].container, Current))
    {
      if IsPending(before, config) {
        var owner := before.configs[config].container;
        if d :| Holds(before, d, owner, Current) && owner != container {
          assert Holds(deleted, d, owner, Current);
        }
        if d :| Holds(deleted, d, owner, Current) {
          assert Holds(before, d, owner, Current);
        }
      }
    }

    method Discard(ctx: Context, config: string) returns (ended: Ended)
      modifies db
      ensures ended == Committed || ended == Nothing
      ensures Finish(db.tables, if ended == Committed then Finalised else Declined) ==
        Effect(old(db.tables), ctx, DiscardPending(config))
    {
      var claimed := Claim(ctx, Some(config));
      if !claimed {
        return Nothing;
      }
      if ctx.operation == Create {
        if ctx.container !in db.tables.containers || db.tables.containers[ctx.container].dockerId != None {
          return Nothing;
        }
        db.tables := WithoutContainer(db.tables, ctx.container);
        FinishAction(ctx, Failed, "CONTAINER_CREATE_FAILED");
        return Committed;
      }
      if !IsPending(db.tables, config) {
        return Nothing;
      }
      db.tables := db.tables.(configs := db.tables.configs - {config});
      FinishAction(ctx, Failed, "REPLACEMENT_FAILED");
      return Committed;
    }

    /** The decisions that name no configuration and only need the action. */
    method Settle(ctx: Context, d: Decision) returns (ended: Ended)
      requires d == FinalizeRemove || d == FailOperation || d == IdentityConflict || d == NeedsAttention
      modifies db
      ensures ended == Committed || ended == Nothing
      ensures Finish(db.tables, if ended == Committed then Finalised else Declined) == Effect(old(db.tables), ctx, d)
    {
      var claimed := Claim(ctx, None);
      if !claimed {
        return Nothing;
      }
      match d {
      case FinalizeRemove =>
        db.tables := WithoutContainer(db.tables, ctx.container);
        FinishAction(ctx, Succeeded, "");
      case FailOperation => FinishAction(ctx, Failed, "CONTAINER_REMOVE_FAILED");
      case IdentityConflict =>
        db.tables := Conflicted(db.tables, ctx.container, ctx.observed);
        FinishAction(ctx, Failed, "CONTAINER_IDENTITY_CONFLICT");
      case NeedsAttention => FinishAction(ctx, Failed, "CONTAINER_STATE_UNRESOLVED");
      }
      return Committed;
    }

    /** One transaction: all of the decision's effect, or none of it. */
    method Finalize(ctx: Context, d: Decision) returns (reply: Reply)
      requires Sound(db.tables)
      modifies db
      ensures Finish(db.tables, reply) == Effect(old(db.tables), ctx, d)
      ensures Sound(db.tables)
    {
      EffectSound(db.tables, ctx, d);
      if d == NoAction {
        return Declined;
      }
      var before := db.tables;
      var ended;
      if d.PromotePending? {
        ended := Promote(ctx, d.config);
      } else if d.DiscardPending? {
        ended := Discard(ctx, d.config);
      } else {
        ended := Settle(ctx, d);
      }
      match ended
      case Committed => return Finalised;
      case Nothing => return Declined;
      case Stale =>
        db.tables := before;
        return Declined;
      case Violation =>
        db.tables := before;
        return Threw;
    }
  }

  // ---- one call ------------------------------------------------------------

  lemma EffectSound(t: Tables, ctx: Context, d: Decision)
    requires Sound(t)
    ensures Sound(Effect(t, ctx, d).tables)
    ensures Effect(t, ctx, d).tables.issued == t.issued
  {
    hide Sound, Clashes, Promoted, WithoutContainer;
    match d
    case PromotePending(c) =>
      if Claimable(t, ctx, Some(c)) && IsPending(t, c) && !Clashes(t, ctx.container, c) {
        PromotedSound(t, ctx.container, c);
        ClosedSound(Promoted(t, ctx.container, c), ctx, Succeeded, "");
      }
    case DiscardPending(c) =>
      WithoutContainerSound(t, ctx.container);
      ClosedSound(WithoutContainer(t, ctx.container), ctx, Failed, "CONTAINER_CREATE_FAILED");
      DiscardedSound(t, c);
      ClosedSound(t.(configs := t.configs - {c}), ctx, Failed, "REPLACEMENT_FAILED");
    case FinalizeRemove =>
      WithoutContainerSound(t, ctx.container);
      ClosedSound(WithoutContainer(t, ctx.container), ctx, Succeeded, "");
    case IdentityConflict =>
      ConflictedSound(t, ctx.container, ctx.observed);
      ClosedSound(Conflicted(t, ctx.container, ctx.observed), ctx, Failed, "CONTAINER_IDENTITY_CONFLICT");
    case FailOperation => ClosedSound(t, ctx, Failed, "CONTAINER_REMOVE_FAILED");
    case NeedsAttention => ClosedSound(t, ctx, Failed, "CONTAINER_STATE_UNRESOLVED");
    case NoAction =>
  }

  lemma EffectKeepsIssued(t: Tables, ctx: Context, d: Decision)
    ensures Effect(t, ctx, d).tables.issued == t.issued
  {
    hide Clashes;
  }

  lemma ClosedSound(t: Tables, ctx: Context, status: Status, errorCode: string)
    requires Sound(t)
    ensures Sound(Closed(t, ctx, status, errorCode)) && Closed(t, ctx, status, errorCode).issued == t.issued
  {
  }

  lemma ConflictedSound(t: Tables, container: string, dockerIds: seq<string>)
    requires Sound(t)
    ensures Sound(Conflicted(t, container, dockerIds)) && Conflicted(t, container, dockerIds).issued == t.issued
  {
  }

  lemma DiscardedSound(t: Tables, config: string)
    requires Sound(t)
    ensures Sound(t.(configs := t.configs - {config}))
  {
  }

  lemma PromotedSound(t: Tables, container: string, config: string)
    requires Sound(t) && config in t.configs && !Clashes(t, container, config)
    ensures Sound(Promoted(t, container, config)) && Promoted(t, container, config).issued == t.issued
  {
    var p := Promoted(t, container, config);
    forall c, d | c in p.configs && d in p.configs && SameSlot(p.configs[c], p.configs[d])
      ensures c == d
    {
      if c == config && d != config {
        assert Holds(t, d, t.configs[config].container, Current);
      } else if d == config && c != config {
        assert Holds(t, c, t.configs[config].container, Current);
      }
    }
  }

  /** A decision that does not find its candidate pending leaves every row as it was. */
  lemma StaleDecisionWritesNothing(t: Tables, ctx: Context, c: string)
    requires !IsPending(t, c)
    ensures Effect(t, ctx, PromotePending(c)) == Finish(t, Declined)
    ensures ctx.operation != Create ==> Effect(t, ctx, DiscardPending(c)) == Finish(t, Declined)
  {
  }

  ghost predicate HasCurrent(t: Tables, container: string)
  {
    exists c :: Holds(t, c, container, Current)
  }

  /** A promotion leaves the candidate as the one current configuration of its container. */
  lemma PromotionSettles(t: Tables, ctx: Context, c: string)
    requires Sound(t) && Effect(t, ctx, PromotePending(c)).reply == Finalised
    ensures var u := Effect(t, ctx, PromotePending(c)).tables;
      var owner := t.configs[c].container;
      && (forall d :: Holds(u, d, owner, Current) <==> d == c)
      && (forall d :: !Holds(u, d, owner, Pending))
      && (forall d :: d in u.configs && d != c ==> d in t.configs && u.configs[d] == t.configs[d])
      && (forall d :: d in t.configs && d != c ==> (d in u.configs <==> !Holds(t, d, ctx.container, Current)))
      && u.containers == t.containers
      && (HasCurrent(u, ctx.container) <==> owner == ctx.container)
  {
    var u := Effect(t, ctx, PromotePending(c)).tables;
    var owner := t.configs[c].container;
    assert Holds(u, c, owner, Current);
    if owner != ctx.container {
      if d :| Holds(u, d, owner, Current) && d != c {
        assert Holds(t, d, owner, Current);
      }
    }
  }

  /** A replacement that did not happen loses its candidate and nothing else, whoever decided it. */
  lemma DiscardSettles(t: Tables, ctx: Context, c: string)
    requires ctx.operation != Create && Effect(t, ctx, DiscardPending(c)).reply == Finalised
    ensures var u := Effect(t, ctx, DiscardPending(c)).tables;
      && IsPending(t, c) && c !in u.configs && u.containers == t.containers
      && (forall d :: d != c ==> (d in u.configs <==> d in t.configs))
      && forall d :: d in u.configs ==> u.configs[d] == t.configs[d]
  {
  }

  /** A removal that happened, or a create that did not, takes the container's row and configurations and no other. */
  lemma RemovalTakesAll(t: Tables, ctx: Context, d: Decision)
    requires d == FinalizeRemove || (d.DiscardPending? && ctx.operation == Create)
    requires Effect(t, ctx, d).reply == Finalised
    ensures var u := Effect(t, ctx, d).tables;
      && (forall r :: r in u.containers <==> r in t.containers && r != ctx.container)
      && (forall r :: r in u.containers ==> u.containers[r] == t.containers[r])
      && (forall c :: c in u.configs <==> c in t.configs && t.configs[c].container != ctx.container)
      && (forall c :: c in u.configs ==> u.configs[c] == t.configs[c])
    ensures d.DiscardPending? ==> ctx.container in t.containers && t.containers[ctx.container].dockerId == None
  {
  }

  /** Any other decision leaves every configuration, and notes at most a conflict on the one row. */
  lemma OthersLeaveConfigurations(t: Tables, ctx: Context, d: Decision)
    requires d == FailOperation || d == NeedsAttention || d == IdentityConflict
    ensures var f := Effect(t, ctx, d);
      && f.tables.configs == t.configs && f.tables.containers.Keys == t.containers.Keys
      && forall r :: r in t.containers ==>
        var noted := d == IdentityConflict && f.reply == Finalised && r == ctx.container;
        f.tables.containers[r] ==
          if noted then t.containers[r].(conflict := Some(ctx.observed)) else t.containers[r]
  {
  }

  /**
   When a decision is finalised: its action is open, or without one its candidate is
   unowned, and what it is about is still as it was decided about.
   */
  lemma FinalisedIff(t: Tables, ctx: Context, d: Decision)
    ensures Effect(t, ctx, d).reply == Finalised <==>
      && d != NoAction
      && (ctx.action.Some? ==> Unfinished(t, ctx.action.value))
      && (ctx.action.None? ==>
        (d.PromotePending? || d.DiscardPending?) && IsPending(t, d.config) && t.configs[d.config].action == None)
      && (d.PromotePending? ==> IsPending(t, d.config) && !Clashes(t, ctx.container, d.config))
      && (d.DiscardPending? && ctx.operation == Create ==>
        ctx.container in t.containers && t.containers[ctx.container].dockerId == None)
      && (d.DiscardPending? && ctx.operation != Create ==> IsPending(t, d.config))
  {
  }

  /** The decision is about a configuration of the container it is applied to. */
  predicate Fits(t: Tables, ctx: Context, d: Decision)
  {
    (d.PromotePending? || d.DiscardPending?) && d.config in t.configs ==> t.configs[d.config].container == ctx.container
  }

  /** Whatever is decided, a container that stays keeps a current configuration if it had one. */
  lemma CurrentIsNeverLost(t: Tables, ctx: Context, d: Decision, container: string)
    requires Sound(t) && Fits(t, ctx, d) && HasCurrent(t, container)
    requires container in Effect(t, ctx, d).tables.containers
    ensures HasCurrent(Effect(t, ctx, d).tables, container)
  {
    hide Sound, Clashes;
    var f := Effect(t, ctx, d);
    var c :| Holds(t, c, container, Current);
    if f.reply == Finalised && d.PromotePending? && container == ctx.container {
      assert Holds(f.tables, d.config, container, Current);
    } else {
      assert Holds(f.tables, c, container, Current);
    }
  }

  /** Finalising moves no configuration and gives no row another Docker container. */
  lemma EffectKeepsIdentity(t: Tables, ctx: Context, d: Decision)
    ensures var u := Effect(t, ctx, d).tables;
      && (forall c :: c in u.configs ==> c in t.configs && u.configs[c].container == t.configs[c].container)
      && (forall r :: r in u.containers ==>
        r in t.containers && u.containers[r] == t.containers[r].(conflict := u.containers[r].conflict))
  {
    hide Clashes;
  }

  /** Only the call that closes the action it names finalises anything. */
  lemma FinalisingCloses(t: Tables, ctx: Context, d: Decision, action: string)
    ensures var f := Effect(t, ctx, d);
      && (f.reply != Finalised ==> f.tables == t)
      && f.tables.actions.Keys == t.actions.Keys
      && (action in t.actions && ctx.action != Some(action) ==> f.tables.actions[action] == t.actions[action])
      && (ctx.action == Some(action) && f.reply == Finalised ==> Unfinished(t, action) && !Unfinished(f.tables, action))
  {
    hide Clashes, Promoted, WithoutContainer;
    PromotedKeeps(t, ctx.container, if d.PromotePending? then d.config else "");
    WithoutContainerKeeps(t, ctx.container);
  }

  /** The action records success exactly for what happened as it was asked. */
  lemma OutcomeIsRecorded(t: Tables, ctx: Context, d: Decision)
    requires ctx.action.Some? && Effect(t, ctx, d).reply == Finalised
    ensures ctx.action.value in Effect(t, ctx, d).tables.actions
    ensures Effect(t, ctx, d).tables.actions[ctx.action.value].status ==
      if d.PromotePending? || d == FinalizeRemove then Succeeded else Failed
    ensures Effect(t, ctx, d).tables.actions[ctx.action.value].errorCode ==
      match d
      case DiscardPending(_) => if ctx.operation == Create then "CONTAINER_CREATE_FAILED" else "REPLACEMENT_FAILED"
      case FailOperation => "CONTAINER_REMOVE_FAILED"
      case IdentityConflict => "CONTAINER_IDENTITY_CONFLICT"
      case NeedsAttention => "CONTAINER_STATE_UNRESOLVED"
      case _ => ""
  {
    hide Clashes, Promoted, WithoutContainer;
    PromotedKeeps(t, ctx.container, if d.PromotePending? then d.config else "");
    WithoutContainerKeeps(t, ctx.container);
  }

  /** Finalising closes an action and says nothing else about it. */
  lemma FinalisingKeepsAction(t: Tables, ctx: Context, d: Decision, action: string)
    requires action in t.actions
    ensures var u := Effect(t, ctx, d).tables;
      && action in u.actions && u.actions[action].capability == t.actions[action].capability
      && u.actions[action].target == t.actions[action].target && u.actions[action].host == t.actions[action].host
  {
    hide Clashes, Promoted, WithoutContainer;
    PromotedKeeps(t, ctx.container, if d.PromotePending? then d.config else "");
    WithoutContainerKeeps(t, ctx.container);
  }

  lemma PromotedKeeps(t: Tables, container: string, config: string)
    ensures config in t.configs ==>
      Promoted(t, container, config).actions == t.actions && Promoted(t, container, config).containers == t.containers
  {
  }

  lemma WithoutContainerKeeps(t: Tables, container: string)
    ensures WithoutContainer(t, container).actions == t.actions
  {
  }

  /** Without an action only a pending, unowned candidate is settled, and it is not pending after. */
  lemma FinalisingSpends(t: Tables, ctx: Context, d: Decision)
    requires Sound(t) && ctx.action == None && Fits(t, ctx, d) && Effect(t, ctx, d).reply == Finalised
    ensures d.PromotePending? || d.DiscardPending?
    ensures IsPending(t, d.config) && !IsPending(Effect(t, ctx, d).tables, d.config)
  {
  }

  // ---- every run -------------------------------------------------------------

  /** Any worker finalises any decision, however old, or something else writes. */
  datatype Step = Finalise(ctx: Context, decision: Decision) | Meanwhile(tables: Tables)

  /** A create, a replacement or a removal of one container. */
  predicate IsMutation(t: Tables, action: string)
  {
    action in t.actions && t.actions[action].capability.Mutation?
  }

  /** The same action, which its own service may have moved on if it is not a mutation. */
  predicate SameAction(a: Action, b: Action)
  {
    b.capability == a.capability && b.target == a.target && b.host == a.host && (a.capability.Mutation? ==> b == a)
  }

  /**
   What the other writers keep: mutations as they were recorded, and candidates only
   under new identifiers. Other services complete actions of their own.
   */
  ghost predicate Respects(t: Tables, u: Tables)
  {
    && Sound(u) && t.issued <= u.issued
    && (forall a :: a in t.actions ==> a in u.actions && SameAction(t.actions[a], u.actions[a]))
    && (forall a :: a in u.actions ==> a in t.actions || a !in t.issued)
    && (forall c :: c in u.configs ==>
      c !in t.issued || (c in t.configs && u.configs[c].container == t.configs[c].container))
    && (forall c :: IsPending(u, c) ==> c !in t.issued || IsPending(t, c))
  }

  ghost predicate Next(t: Tables, s: Step, u: Tables)
  {
    match s
    case Finalise(ctx, d) => u == Effect(t, ctx, d).tables
    case Meanwhile(v) => u == v && Respects(t, v)
  }

  ghost predicate Run(states: seq<Tables>, steps: seq<Step>)
  {
    && |states| == |steps| + 1 && Sound(states[0])
    && forall i :: 0 <= i < |steps| ==> Next(states[i], steps[i], states[i + 1])
  }

  ghost predicate Wins(t: Tables, s: Step, action: string)
  {
    s.Finalise? && s.ctx.action == Some(action) && Effect(t, s.ctx, s.decision).reply == Finalised
  }

  /** How many calls of the run finalised this action. */
  ghost function CallsThatFinalised(states: seq<Tables>, steps: seq<Step>, action: string): nat
    requires |states| == |steps| + 1
  {
    if steps == [] then 0
    else
      var n := |steps| - 1;
      CallsThatFinalised(states[..n + 1], steps[..n], action) + if Wins(states[n], steps[n], action) then 1 else 0
  }

  lemma {:induction false} RunsAreSound(states: seq<Tables>, steps: seq<Step>, n: nat)
    requires Run(states, steps) && n < |states|
    ensures Sound(states[n])
  {
    hide Sound, Effect, Respects;
    if n > 0 {
      RunsAreSound(states, steps, n - 1);
      var s := steps[n - 1];
      assert Next(states[n - 1], s, states[n]);
      match s
      case Finalise(ctx, d) => EffectSound(states[n - 1], ctx, d);
      case Meanwhile(v) => RespectsSound(states[n - 1], v);
    }
  }

  lemma RespectsSound(t: Tables, u: Tables)
    requires Respects(t, u)
    ensures Sound(u) && t.issued <= u.issued
  {
  }

  /** A start, stop or restart that its own service completes is such a write. */
  lemma CompletingRespects(t: Tables, action: string, status: Status, errorCode: string)
    requires Sound(t) && action in t.actions && !IsMutation(t, action)
    ensures Respects(t,
      t.(actions := t.actions[action := t.actions[action].(status := status, errorCode := errorCode)]))
  {
  }

  /** One step: a recorded mutation changes only in the one call that finalises it. */
  lemma StepOnAction(t: Tables, s: Step, u: Tables, action: string)
    requires Next(t, s, u) && IsMutation(t, action)
    ensures IsMutation(u, action)
    ensures !Wins(t, s, action) ==> u.actions[action] == t.actions[action]
    ensures Wins(t, s, action) ==> Unfinished(t, action) && !Unfinished(u, action)
  {
    hide Effect, Sound, Claimable;
    if s.Finalise? {
      FinalisingCloses(t, s.ctx, s.decision, action);
      FinalisingKeepsAction(t, s.ctx, s.decision, action);
    }
  }

  /** Exactly one call finalises a mutation that leaves the open state, and none one that does not. */
  lemma {:induction false} EachActionIsFinalisedOnce(states: seq<Tables>, steps: seq<Step>, action: string)
    requires Run(states, steps) && IsMutation(states[0], action)
    ensures IsMutation(states[|steps|], action)
    ensures CallsThatFinalised(states, steps, action) ==
      if Unfinished(states[0], action) && !Unfinished(states[|steps|], action) then 1 else 0
    ensures CallsThatFinalised(states, steps, action) == 0 ==>
      states[|steps|].actions[action] == states[0].actions[action]
  {
    hide Next, Sound, Wins;
    if steps != [] {
      var n := |steps| - 1;
      EachActionIsFinalisedOnce(states[..n + 1], steps[..n], action);
      StepOnAction(states[n], steps[n], states[n + 1], action);
    }
  }

  /** A mutation that is closed stays as it is, whoever still holds a decision about it. */
  lemma {:induction false} ClosedStaysClosed(states: seq<Tables>, steps: seq<Step>, action: string, i: nat, j: nat)
    requires Run(states, steps) && i <= j <= |steps|
    requires IsMutation(states[i], action) && !Unfinished(states[i], action)
    ensures IsMutation(states[j], action) && states[j].actions[action] == states[i].actions[action]
  {
    hide Next, Sound;
    if i < j {
      ClosedStaysClosed(states, steps, action, i, j - 1);
      StepOnAction(states[j - 1], steps[j - 1], states[j], action);
    }
  }

  /** A candidate that is no longer pending never becomes pending again. */
  lemma StepOnCandidate(t: Tables, s: Step, u: Tables, c: string)
    requires Sound(t) && Next(t, s, u) && c in t.issued && !IsPending(t, c)
    ensures c in u.issued && !IsPending(u, c)
  {
    hide Sound, Clashes;
    if s.Finalise? {
      EffectSound(t, s.ctx, s.decision);
    }
  }

  lemma {:induction false} SpentStaysSpent(states: seq<Tables>, steps: seq<Step>, c: string, i: nat, j: nat)
    requires Run(states, steps) && i <= j <= |steps|
    requires c in states[i].issued && !IsPending(states[i], c)
    ensures !IsPending(states[j], c) && c in states[j].issued
  {
    hide Next, Sound, IsPending;
    if i < j {
      SpentStaysSpent(states, steps, c, i, j - 1);
      RunsAreSound(states, steps, j - 1);
      StepOnCandidate(states[j - 1], steps[j - 1], states[j], c);
    }
  }

  /** A configuration never moves to another container, so an old decision still fits. */
  lemma {:induction false} DecisionsKeepFitting(states: seq<Tables>, steps: seq<Step>, c: string, i: nat, j: nat)
    requires Run(states, steps) && i <= j <= |steps| && c in states[i].configs
    ensures c in states[j].issued
    ensures c in states[j].configs ==> states[j].configs[c].container == states[i].configs[c].container
  {
    hide Next, Sound;
    RunsAreSound(states, steps, j);
    if i < j {
      RunsAreSound(states, steps, j - 1);
      DecisionsKeepFitting(states, steps, c, i, j - 1);
      StepKeepsOwner(states, steps, c, j - 1);
    } else {
      SoundIssued(states[j], c);
    }
  }

  lemma SoundIssued(t: Tables, c: string)
    requires Sound(t) && c in t.configs
    ensures c in t.issued
  {
  }

  lemma StepKeepsOwner(states: seq<Tables>, steps: seq<Step>, c: string, n: nat)
    requires Run(states, steps) && n < |steps| && c in states[n].issued && Sound(states[n])
    ensures c in states[n + 1].issued
    ensures c in states[n + 1].configs ==>
      c in states[n].configs && states[n + 1].configs[c].container == states[n].configs[c].container
  {
    hide Sound, Effect;
    var t, s, u := states[n], steps[n], states[n + 1];
    assert Next(t, s, u);
    if s.Finalise? {
      EffectSound(t, s.ctx, s.decision);
      EffectKeepsIdentity(t, s.ctx, s.decision);
    }
  }

  /** Repeating a call that finalised changes nothing, whatever happened in between. */
  lemma RepeatingChangesNothing(states: seq<Tables>, steps: seq<Step>, i: nat, ctx: Context, d: Decision,
      again: Decision, j: nat)
    requires Run(states, steps) && i < j <= |steps|
    requires steps[i] == Finalise(ctx, d) && Effect(states[i], ctx, d).reply == Finalised
    requires ctx.action.Some? ==> IsMutation(states[i], ctx.action.value)
    requires ctx.action == None ==> again == d && Fits(states[i], ctx, d)
    ensures Effect(states[j], ctx, again) == Finish(states[j], Declined)
  {
    hide Sound, Clashes;
    RunsAreSound(states, steps, i);
    assert Next(states[i], steps[i], states[i + 1]);
    if ctx.action.Some? {
      FinalisingCloses(states[i], ctx, d, ctx.action.value);
      FinalisingKeepsAction(states[i], ctx, d, ctx.action.value);
      ClosedStaysClosed(states, steps, ctx.action.value, i + 1, j);
    } else {
      FinalisingSpends(states[i], ctx, d);
      RunsAreSound(states, steps, i + 1);
      SoundIssued(states[i], d.config);
      EffectSound(states[i], ctx, d);
      SpentStaysSpent(states, steps, d.config, i + 1, j);
    }
  }
}
