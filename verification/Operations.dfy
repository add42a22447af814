/**
 Replacing, removing and creating containers while answers are lost and the
 process dies (api/src/containers/container-management.service.ts, the guard in
 pending-guard.ts and the lock in api/src/operations/mutation-registry.ts).

 Every request runs on its own, so what it does between two awaits is one step
 here and requests interleave as they please: ask the guard, take the lock, write
 the operation down, dispatch it, and end with or without an answer. Workers
 finalise whatever they decided about at any time, other writers keep to
 `Respects`, and a crash forgets every request and every lock.
 */
module Operations {
  import opened Wrappers
  import opened Records
  import opened Recovery
  import opened Discovery

  // ---- the guard ----------------------------------------------------------------

  /** An open create, replacement or removal of this container. */
  predicate Unresolved(t: Tables, action: string, container: string)
  {
    Unfinished(t, action) && t.actions[action].capability.Mutation? && t.actions[action].target == container
  }

  datatype Answer = Allowed | Conflict(code: string)

  /** Refuses a container with a candidate, or with an operation that was never resolved. */
  function AssertResolved(t: Tables, container: string): Answer
  {
    if exists c :: c in t.configs && Holds(t, c, container, Pending) then Conflict("ACTION_CONFLICT")
    else if exists a :: a in t.actions && Unresolved(t, a, container) then Conflict("ACTION_CONFLICT")
    else Allowed
  }

  /** More than one container claims to be this one. */
  predicate Contested(t: Tables, container: string)
  {
    container in t.containers && t.containers[container].conflict.Some?
  }

  /** Also refuses a contested container; `stackSettled` is what the stack's own rows say. */
  function AssertOperable(t: Tables, container: string, stackSettled: bool): Answer
  {
    if AssertResolved(t, container) != Allowed then AssertResolved(t, container)
    else if !stackSettled then Conflict("STACK")
    else if Contested(t, container) then Conflict("CONTAINER_IDENTITY_CONFLICT")
    else Allowed
  }

  /** Everything `mutable` asks before a lock is taken. */
  predicate Mutable(t: Tables, container: string, stackSettled: bool)
  {
    && container in t.containers
    && AssertOperable(t, container, stackSettled) == Allowed
    && t.containers[container].stackId == None
    && exists c :: c in t.configs && t.configs[c].container == container
  }

  lemma GuardRefusesUnresolved(t: Tables, container: string)
    ensures AssertResolved(t, container) == Allowed <==>
      (forall c :: !Holds(t, c, container, Pending)) && (forall a :: !Unresolved(t, a, container))
    ensures forall settled :: AssertOperable(t, container, settled) == Allowed <==>
      AssertResolved(t, container) == Allowed && settled && !Contested(t, container)
    // Which of the three is said: the unresolved change first, the conflict last.
    ensures AssertResolved(t, container) == Allowed || AssertResolved(t, container) == Conflict("ACTION_CONFLICT")
    ensures forall settled :: AssertOperable(t, container, settled) == Conflict("ACTION_CONFLICT") <==>
      AssertResolved(t, container) != Allowed
    ensures forall settled :: AssertOperable(t, container, settled) == Conflict("CONTAINER_IDENTITY_CONFLICT") <==>
      AssertResolved(t, container) == Allowed && settled && Contested(t, container)
  {
    assert "ACTION_CONFLICT" != "STACK" && "ACTION_CONFLICT" != "CONTAINER_IDENTITY_CONFLICT";
    assert "STACK" != "CONTAINER_IDENTITY_CONFLICT";
  }

  // ---- the machine ------------------------------------------------------------------

  datatype Phase = Asked | Locked | Prepared(action: string) | Dispatched(action: string)

  /** One request: what it holds the lock on is the container, or a name for a create. */
  datatype Job = Job(container: string, operation: Operation, key: string, phase: Phase)

  /**
   `held` is the registry and `jobs` the requests of the running process; both are
   memory. The three sets only remember what happened, for the statements below.
   */
  datatype State = State(
    tables: Tables,
    held: set<string>,
    jobs: map<nat, Job>,
    recorded: set<string>,
    dispatched: set<string>,
    finalised: set<string>)

  datatype Event =
    | Ask(job: nat, container: string, operation: Operation, stackSettled: bool)
    | AskCreate(job: nat, key: string)
    | Lock(job: nat)
    | Prepare(job: nat, ids: Ids)
    | Dispatch(job: nat)
    | End(job: nat)
    | Finalising(ctx: Context, decision: Decision)
    | Crash
    | Elsewhere(after: Tables)

  /** The identifiers a prepare is given, and what a created row says. */
  datatype Ids = Ids(action: string, config: string, container: string, host: string, name: string)

  predicate Unused(t: Tables, f: Ids)
  {
    && f.action !in t.issued && f.config !in t.issued && f.container !in t.issued
    && f.action != f.config && f.config != f.container && f.container != f.action
  }

  /** What is written before the agent is asked, in one transaction. */
  function Recorded(t: Tables, job: Job, f: Ids): Tables
  {
    var target := if job.operation == Create then f.container else job.container;
    var host := if target in t.containers then t.containers[target].host else f.host;
    var t1 := t.(actions := t.actions[f.action := Action(Mutation(job.operation), target, host, Running, "")],
                 issued := t.issued + {f.action, f.config, f.container});
    match job.operation
    case Remove => t1
    case Replace => t1.(configs := t.configs[f.config := Config(target, Pending, Some(f.action))])
    case Create => t1.(
      containers := t.containers[target := Row(f.host, None, f.name, None, None, None, None, None, None)],
      configs := t.configs[f.config := Config(target, Pending, Some(f.action))])
  }

  /** The transaction goes through: the container is there, and no index refuses the candidate. */
  predicate CanRecord(t: Tables, job: Job)
  {
    match job.operation
    case Create => true
    case Remove => job.container in t.containers && t.containers[job.container].dockerId.Some?
    case Replace =>
      && job.container in t.containers && t.containers[job.container].dockerId.Some?
      && (exists c :: c in t.configs && Holds(t, c, job.container, Current))
      && !(exists c :: c in t.configs && Holds(t, c, job.container, Pending))
  }

  ghost predicate Next(s: State, e: Event, u: State)
  {
    match e
    case Ask(j, container, operation, stackSettled) =>
      && j !in s.jobs && operation != Create && Mutable(s.tables, container, stackSettled)
      && u == s.(jobs := s.jobs[j := Job(container, operation, container, Asked)])
    case AskCreate(j, key) =>
      && j !in s.jobs && key != ""
      && u == s.(jobs := s.jobs[j := Job("", Create, key, Asked)])
    case Lock(j) =>
      && j in s.jobs && s.jobs[j].phase == Asked && s.jobs[j].key !in s.held
      && u == s.(held := s.held + {s.jobs[j].key}, jobs := s.jobs[j := s.jobs[j].(phase := Locked)])
    case Prepare(j, f) =>
      && j in s.jobs && s.jobs[j].phase == Locked && Unused(s.tables, f) && CanRecord(s.tables, s.jobs[j])
      && u == s.(tables := Recorded(s.tables, s.jobs[j], f),
                 jobs := s.jobs[j := s.jobs[j].(
                   container := if s.jobs[j].operation == Create then f.container else s.jobs[j].container,
                   phase := Prepared(f.action))],
                 recorded := s.recorded + {f.action})
    case Dispatch(j) =>
      && j in s.jobs && s.jobs[j].phase.Prepared?
      && u == s.(jobs := s.jobs[j := s.jobs[j].(phase := Dispatched(s.jobs[j].phase.action))],
                 dispatched := s.dispatched + {s.jobs[j].phase.action})
    case End(j) =>
      // Reported, refused, lost or thrown: the request is over and its lock is given back.
      && j in s.jobs
      && u == s.(jobs := s.jobs - {j}, held := if s.jobs[j].phase == Asked then s.held else s.held - {s.jobs[j].key})
    case Finalising(ctx, d) =>
      var f := Effect(s.tables, ctx, d);
      u == s.(tables := f.tables,
              finalised := if f.reply == Finalised && ctx.action.Some? then s.finalised + {ctx.action.value}
                else s.finalised)
    case Crash => u == s.(held := {}, jobs := map[])
    case Elsewhere(after) => Respects(s.tables, after) && u == s.(tables := after)
  }

  ghost predicate Initial(s: State)
  {
    Sound(s.tables) && s.held == {} && s.jobs == map[] && s.recorded == {} && s.dispatched == {} && s.finalised == {}
  }

  ghost predicate Steps(states: seq<State>, events: seq<Event>)
  {
    && |states| == |events| + 1
    && forall i :: 0 <= i < |events| ==> Next(states[i], events[i], states[i + 1])
  }

  ghost predicate Run(states: seq<State>, events: seq<Event>)
  {
    Steps(states, events) && Initial(states[0])
  }

  // ---- what every reachable state keeps ------------------------------------------------

  /** An operation that was written down is open until a worker finalises it. */
  ghost predicate OpenUntilFinalised(s: State)
  {
    forall a :: a in s.recorded ==>
      && IsMutation(s.tables, a) && (Open(s.tables.actions[a]) || a in s.finalised)
      && s.tables.actions[a].target in s.tables.issued
  }

  /** Nothing was dispatched, or is about to be, that was not written down. */
  ghost predicate WrittenBeforeDispatch(s: State)
  {
    && s.dispatched <= s.recorded
    && forall j :: j in s.jobs && (s.jobs[j].phase.Prepared? || s.jobs[j].phase.Dispatched?) ==>
      s.jobs[j].phase.action in s.recorded && TargetOf(s, s.jobs[j].phase.action) == s.jobs[j].container
  }

  function TargetOf(s: State, action: string): string
  {
    if action in s.tables.actions then s.tables.actions[action].target else ""
  }

  predicate Collide(a: Job, b: Job)
  {
    a.phase != Asked && b.phase != Asked && a.key == b.key
  }

  /** Some request is past the lock this key stands for. */
  ghost predicate Kept(s: State, key: string)
  {
    exists j :: j in s.jobs && s.jobs[j].phase != Asked && s.jobs[j].key == key
  }

  /** Whoever is past the lock holds its key, and nobody else does. */
  ghost predicate Exclusive(s: State)
  {
    && (forall j :: j in s.jobs && s.jobs[j].phase != Asked ==> s.jobs[j].key in s.held)
    && (forall key :: key in s.held ==> Kept(s, key))
    && (forall j, k :: j in s.jobs && k in s.jobs && Collide(s.jobs[j], s.jobs[k]) ==> j == k)
    && (forall j :: j in s.jobs && s.jobs[j].operation != Create ==> s.jobs[j].key == s.jobs[j].container)
  }

  ghost predicate Inv(s: State)
  {
    Sound(s.tables) && OpenUntilFinalised(s) && WrittenBeforeDispatch(s) && Exclusive(s)
  }

  lemma RecordedSound(t: Tables, job: Job, f: Ids)
    requires Sound(t) && Unused(t, f) && CanRecord(t, job)
    ensures Sound(Recorded(t, job, f))
  {
    var u := Recorded(t, job, f);
    var target := if job.operation == Create then f.container else job.container;
    forall c | c in t.configs && job.operation != Remove
      ensures !SameSlot(t.configs[c], Config(target, Pending, Some(f.action)))
    {
      assert !Holds(t, c, target, Pending);
    }
    assert u.configs.Keys <= t.configs.Keys + {f.config};
  }

  lemma RecordedRespects(t: Tables, job: Job, f: Ids)
    requires Sound(t) && Unused(t, f) && CanRecord(t, job)
    ensures Respects(t, Recorded(t, job, f))
  {
    hide CanRecord, Attached, OneOfEach;
    RecordedSound(t, job, f);
  }

  lemma RecordedTarget(t: Tables, job: Job, f: Ids)
    requires Sound(t) && CanRecord(t, job)
    ensures IsMutation(Recorded(t, job, f), f.action)
    ensures Recorded(t, job, f).actions[f.action].target in Recorded(t, job, f).issued
  {
  }

  /** What other writers and prepares do to the actions that are recorded: nothing. */
  lemma RespectKeepsOpen(s: State, u: State)
    requires OpenUntilFinalised(s) && Respects(s.tables, u.tables)
    requires u.recorded == s.recorded && u.finalised == s.finalised
    ensures OpenUntilFinalised(u)
    ensures forall a :: a in s.recorded ==> TargetOf(u, a) == TargetOf(s, a)
  {
  }

  lemma FinalisingKeepsOpen(s: State, u: State, ctx: Context, d: Decision)
    requires OpenUntilFinalised(s) && Next(s, Finalising(ctx, d), u)
    ensures OpenUntilFinalised(u)
    ensures forall a :: a in s.recorded ==> TargetOf(u, a) == TargetOf(s, a)
  {
    hide Effect, Respects;
    forall a | a in s.recorded
      ensures IsMutation(u.tables, a) && (Open(u.tables.actions[a]) || a in u.finalised)
      ensures u.tables.actions[a].target in u.tables.issued
      ensures TargetOf(u, a) == TargetOf(s, a)
    {
      FinalisingCloses(s.tables, ctx, d, a);
      FinalisingKeepsAction(s.tables, ctx, d, a);
      EffectKeepsIssued(s.tables, ctx, d);
    }
  }

  lemma StepKeepsKept(s: State, e: Event, u: State, key: string)
    requires Exclusive(s) && Next(s, e, u) && key in u.held
    ensures Kept(u, key)
  {
    hide Sound, Respects, Effect, CanRecord, Mutable, Recorded, Unused;
    if key in s.held {
      assert Kept(s, key);
      var j :| j in s.jobs && s.jobs[j].phase != Asked && s.jobs[j].key == key;
      assert j in u.jobs && u.jobs[j].phase != Asked && u.jobs[j].key == key;
    } else {
      assert e.Lock? && u.jobs[e.job].key == key && u.jobs[e.job].phase != Asked;
    }
  }

  /** What one step does to one request: nothing, or a move within its own operation. */
  lemma StepOnJob(s: State, e: Event, u: State, j: nat)
    requires Next(s, e, u) && j in u.jobs
    ensures j !in s.jobs ==> u.jobs[j].phase == Asked
    ensures j in s.jobs ==> u.jobs[j].key == s.jobs[j].key && (s.jobs[j].phase != Asked ==> u.jobs[j].phase != Asked)
    ensures j in s.jobs && s.jobs[j].phase == Asked && u.jobs[j].phase != Asked ==>
      e == Lock(j) && s.jobs[j].key !in s.held && u.held == s.held + {s.jobs[j].key}
    ensures j in s.jobs ==> u.jobs[j].operation == s.jobs[j].operation
    ensures u.jobs[j].operation != Create && (j in s.jobs ==> s.jobs[j].key == s.jobs[j].container) ==>
      u.jobs[j].key == u.jobs[j].container
  {
    hide Sound, Respects, Effect, CanRecord, Mutable, Recorded, Unused;
  }

  lemma StepKeepsKey(s: State, e: Event, u: State, j: nat)
    requires Exclusive(s) && Next(s, e, u) && j in u.jobs && u.jobs[j].phase != Asked
    ensures u.jobs[j].key in u.held
  {
    hide Sound, Respects, Effect, CanRecord, Mutable, Recorded, Unused, Kept;
    StepOnJob(s, e, u, j);
    if e.End? && s.jobs[e.job].phase != Asked { assert !Collide(s.jobs[e.job], s.jobs[j]); }
  }

  lemma StepKeepsApart(s: State, e: Event, u: State, j: nat, k: nat)
    requires Exclusive(s) && Next(s, e, u) && j in u.jobs && k in u.jobs && Collide(u.jobs[j], u.jobs[k])
    ensures j == k
  {
    hide Next, Kept;
    StepOnJob(s, e, u, j);
    StepOnJob(s, e, u, k);
  }

  lemma StepKeepsExclusive(s: State, e: Event, u: State)
    requires Exclusive(s) && Next(s, e, u)
    ensures Exclusive(u)
  {
    hide Next, Kept, Collide;
    forall key | key in u.held
      ensures Kept(u, key)
    {
      StepKeepsKept(s, e, u, key);
    }
    forall j | j in u.jobs
      ensures u.jobs[j].phase != Asked ==> u.jobs[j].key in u.held
      ensures u.jobs[j].operation != Create ==> u.jobs[j].key == u.jobs[j].container
    {
      StepOnJob(s, e, u, j);
      if u.jobs[j].phase != Asked { StepKeepsKey(s, e, u, j); }
    }
    forall j, k | j in u.jobs && k in u.jobs && Collide(u.jobs[j], u.jobs[k])
      ensures j == k
    {
      StepKeepsApart(s, e, u, j, k);
    }
  }

  lemma StepKeepsOpen(s: State, e: Event, u: State)
    requires Sound(s.tables) && OpenUntilFinalised(s) && Next(s, e, u)
    ensures OpenUntilFinalised(u)
    ensures forall a :: a in s.recorded ==> TargetOf(u, a) == TargetOf(s, a)
  {
    hide Sound, Respects, Effect, CanRecord, Mutable;
    match e
    case Prepare(j, f) =>
      RecordedRespects(s.tables, s.jobs[j], f);
      RecordedTarget(s.tables, s.jobs[j], f);
      RespectKeepsOpen(s, u.(recorded := s.recorded));
    case Finalising(ctx, d) => FinalisingKeepsOpen(s, u, ctx, d);
    case Elsewhere(_) => RespectKeepsOpen(s, u);
    case _ => assert u.tables == s.tables && u.recorded == s.recorded && u.finalised == s.finalised;
  }

  lemma StepKeepsSound(s: State, e: Event, u: State)
    requires Sound(s.tables) && Next(s, e, u)
    ensures Sound(u.tables)
  {
    hide Sound, Respects, Effect, CanRecord, Mutable;
    match e
    case Prepare(j, f) => RecordedSound(s.tables, s.jobs[j], f);
    case Finalising(ctx, d) => EffectSound(s.tables, ctx, d);
    case Elsewhere(after) => RespectsSound(s.tables, after);
    case _ => assert u.tables == s.tables;
  }

  lemma StepKeepsWritten(s: State, e: Event, u: State)
    requires WrittenBeforeDispatch(s) && Next(s, e, u)
    requires forall a :: a in s.recorded ==> TargetOf(u, a) == TargetOf(s, a)
    ensures WrittenBeforeDispatch(u)
  {
    hide Sound, Respects, Effect, CanRecord, Mutable;
    assert s.recorded <= u.recorded;
  }

  lemma StepKeepsInv(s: State, e: Event, u: State)
    requires Inv(s) && Next(s, e, u)
    ensures Inv(u)
  {
    hide Sound, Next, Exclusive, OpenUntilFinalised, WrittenBeforeDispatch;
    StepKeepsSound(s, e, u);
    StepKeepsOpen(s, e, u);
    StepKeepsExclusive(s, e, u);
    StepKeepsWritten(s, e, u);
  }

  lemma {:induction false} EveryStateKeepsInv(states: seq<State>, events: seq<Event>, n: nat)
    requires Run(states, events) && n < |states|
    ensures Inv(states[n])
  {
    hide Next, Inv;
    if n == 0 {
      InitialInv(states[0]);
    } else {
      EveryStateKeepsInv(states, events, n - 1);
      StepKeepsInv(states[n - 1], events[n - 1], states[n]);
    }
  }

  lemma InitialInv(s: State)
    requires Initial(s)
    ensures Inv(s)
  {
  }

  // ---- what that means --------------------------------------------------------------------

  /** From the moment an operation is written down until it is finalised, its container is refused. */
  lemma RecordedStaysBlocked(states: seq<State>, events: seq<Event>, n: nat, action: string)
    requires Run(states, events) && n < |states|
    requires action in states[n].recorded && action !in states[n].finalised
    ensures Unresolved(states[n].tables, action, TargetOf(states[n], action))
    ensures AssertResolved(states[n].tables, TargetOf(states[n], action)) == Conflict("ACTION_CONFLICT")
    ensures forall settled :: !Mutable(states[n].tables, TargetOf(states[n], action), settled)
  {
    hide Next;
    EveryStateKeepsInv(states, events, n);
    GuardRefusesUnresolved(states[n].tables, TargetOf(states[n], action));
  }

  /**
   In every reachable state, after any crashes and lost answers, an operation that
   was dispatched and not finalised is open in the database, and its container is
   refused to every further request.
   */
  lemma DispatchedStaysBlocked(states: seq<State>, events: seq<Event>, n: nat, action: string)
    requires Run(states, events) && n < |states|
    requires action in states[n].dispatched && action !in states[n].finalised
    ensures Unresolved(states[n].tables, action, TargetOf(states[n], action))
    ensures AssertResolved(states[n].tables, TargetOf(states[n], action)) == Conflict("ACTION_CONFLICT")
    ensures forall settled :: !Mutable(states[n].tables, TargetOf(states[n], action), settled)
  {
    hide Next, Mutable, AssertResolved, Unresolved;
    EveryStateKeepsInv(states, events, n);
    RecordedStaysBlocked(states, events, n, action);
  }

  /** Outcomes that settle nothing go on refusing the container: by its candidate, or by the conflict. */
  lemma UnsettledStaysBlocked(t: Tables, ctx: Context, d: Decision, stackSettled: bool)
    requires Effect(t, ctx, d).reply == Finalised
    requires (d == IdentityConflict && ctx.container in t.containers) ||
      (d == NeedsAttention && exists c :: Holds(t, c, ctx.container, Pending))
    ensures AssertOperable(Effect(t, ctx, d).tables, ctx.container, stackSettled) != Allowed
  {
    var u := Effect(t, ctx, d).tables;
    GuardRefusesUnresolved(u, ctx.container);
    if d == NeedsAttention {
      var c :| Holds(t, c, ctx.container, Pending);
      assert Holds(u, c, ctx.container, Pending);
    }
  }

  /** An outcome that leaves the container without a candidate. */
  predicate Spends(d: Decision)
  {
    d.PromotePending? || d.DiscardPending? || d == FinalizeRemove
  }

  /**
   After a finalised outcome the guard lets the container through again if and only if
   no other operation on it is open and no candidate was left.
   */
  lemma ReleasedIff(t: Tables, ctx: Context, d: Decision)
    requires Sound(t) && Fits(t, ctx, d) && Effect(t, ctx, d).reply == Finalised
    ensures AssertResolved(Effect(t, ctx, d).tables, ctx.container) == Allowed <==>
      && (forall a :: Unresolved(t, a, ctx.container) ==> ctx.action == Some(a))
      && (Spends(d) || forall c :: !Holds(t, c, ctx.container, Pending))
  {
    hide Effect, Clashes, AssertResolved;
    var u := Effect(t, ctx, d).tables;
    GuardRefusesUnresolved(u, ctx.container);
    NoCandidateIffSpent(t, ctx, d);
    forall a
      ensures Unresolved(u, a, ctx.container) <==> Unresolved(t, a, ctx.container) && ctx.action != Some(a)
    {
      FinalisingCloses(t, ctx, d, a);
      if a in t.actions { FinalisingKeepsAction(t, ctx, d, a); }
    }
  }

  lemma NoCandidateIffSpent(t: Tables, ctx: Context, d: Decision)
    requires Sound(t) && Fits(t, ctx, d) && Effect(t, ctx, d).reply == Finalised
    ensures (forall c :: !Holds(Effect(t, ctx, d).tables, c, ctx.container, Pending)) <==>
      Spends(d) || forall c :: !Holds(t, c, ctx.container, Pending)
  {
    hide Effect, Clashes;
    var u := Effect(t, ctx, d).tables;
    FinalisedIff(t, ctx, d);
    if d.PromotePending? {
      PromotionSettles(t, ctx, d.config);
    } else if d == FinalizeRemove || (d.DiscardPending? && ctx.operation == Create) {
      RemovalTakesAll(t, ctx, d);
    } else if d.DiscardPending? {
      DiscardSettles(t, ctx, d.config);
      forall c
        ensures !Holds(u, c, ctx.container, Pending)
      {
        if Holds(t, c, ctx.container, Pending) { assert SameSlot(t.configs[c], t.configs[d.config]); }
      }
    } else {
      OthersLeaveConfigurations(t, ctx, d);
      assert forall c :: Holds(u, c, ctx.container, Pending) <==> Holds(t, c, ctx.container, Pending);
    }
  }

  // ---- a prepare and what recovery makes of it ---------------------------------------

  function Target(job: Job, f: Ids): string
  {
    if job.operation == Create then f.container else job.container
  }

  /** What a prepare writes: the action, the candidate it owns and, for a create, a row without a container. */
  lemma RecordedWrites(t: Tables, job: Job, f: Ids)
    requires Sound(t) && Unused(t, f) && CanRecord(t, job)
    ensures var u := Recorded(t, job, f);
      && Target(job, f) in u.containers && f.action in u.actions && u.actions.Keys == t.actions.Keys + {f.action}
      && u.actions[f.action] ==
        Action(Mutation(job.operation), Target(job, f), u.containers[Target(job, f)].host, Running, "")
      && (forall a :: a in t.actions ==> u.actions[a] == t.actions[a])
      && (forall c :: c in u.configs <==> c in t.configs || (c == f.config && job.operation != Remove))
      && (forall c :: c in t.configs ==> u.configs[c] == t.configs[c])
      && (job.operation != Remove ==> u.configs[f.config] == Config(Target(job, f), Pending, Some(f.action)))
      && (forall r :: r in u.containers <==> r in t.containers || (r == f.container && job.operation == Create))
      && (forall r :: r in t.containers ==> u.containers[r] == t.containers[r])
      && (job.operation == Create ==>
        u.containers[f.container] == Row(f.host, None, f.name, None, None, None, None, None, None))
  {
  }

  /** The decision for an operation of which nothing happened. */
  function Undone(job: Job, f: Ids): Decision
  {
    if job.operation == Remove then FailOperation else DiscardPending(f.config)
  }

  function ContextOf(job: Job, f: Ids, observed: seq<string>): Context
  {
    Context(Target(job, f), job.operation, Some(f.action), observed)
  }

  /** An operation of which nothing happened leaves only its record behind. */
  lemma PreparedThenUndone(t: Tables, job: Job, f: Ids, observed: seq<string>)
    requires Sound(t) && Unused(t, f) && CanRecord(t, job)
    ensures var u := Effect(Recorded(t, job, f), ContextOf(job, f, observed), Undone(job, f));
      && u.reply == Finalised && u.tables.containers == t.containers && u.tables.configs == t.configs
      && forall a :: a in t.actions ==> a in u.tables.actions && u.tables.actions[a] == t.actions[a]
  {
    hide Recorded, Effect, CanRecord, Sound;
    var p, ctx, d := Recorded(t, job, f), ContextOf(job, f, observed), Undone(job, f);
    UndoneIsFinalised(t, job, f, observed);
    if job.operation == Create { CreateUndone(t, job, f, observed); } else { RowsUndone(t, job, f, observed); }
    RecordedWrites(t, job, f);
    FreshOwnsNothing(t, f);
    forall a | a in t.actions
      ensures a in Effect(p, ctx, d).tables.actions && Effect(p, ctx, d).tables.actions[a] == t.actions[a]
    {
      FinalisingCloses(p, ctx, d, a);
    }
  }

  lemma UndoneIsFinalised(t: Tables, job: Job, f: Ids, observed: seq<string>)
    requires Sound(t) && Unused(t, f) && CanRecord(t, job)
    ensures Effect(Recorded(t, job, f), ContextOf(job, f, observed), Undone(job, f)).reply == Finalised
  {
    hide Recorded, Effect, CanRecord, Sound, Clashes;
    RecordedWrites(t, job, f);
    FinalisedIff(Recorded(t, job, f), ContextOf(job, f, observed), Undone(job, f));
  }

  lemma CreateUndone(t: Tables, job: Job, f: Ids, observed: seq<string>)
    requires Sound(t) && Unused(t, f) && CanRecord(t, job) && job.operation == Create
    ensures var u := Effect(Recorded(t, job, f), ContextOf(job, f, observed), Undone(job, f)).tables;
      u.containers == t.containers && u.configs == t.configs
  {
    hide Recorded, Effect, CanRecord, Sound;
    RecordedWrites(t, job, f);
    UndoneIsFinalised(t, job, f, observed);
    RemovalTakesAll(Recorded(t, job, f), ContextOf(job, f, observed), Undone(job, f));
    FreshOwnsNothing(t, f);
    var u := Effect(Recorded(t, job, f), ContextOf(job, f, observed), Undone(job, f)).tables;
    assert u.containers == t.containers;
    assert u.configs == t.configs;
  }

  lemma RowsUndone(t: Tables, job: Job, f: Ids, observed: seq<string>)
    requires Sound(t) && Unused(t, f) && CanRecord(t, job) && job.operation != Create
    ensures var u := Effect(Recorded(t, job, f), ContextOf(job, f, observed), Undone(job, f)).tables;
      u.containers == t.containers && u.configs == t.configs
  {
    hide Recorded, Effect, CanRecord, Sound;
    RecordedWrites(t, job, f);
    UndoneIsFinalised(t, job, f, observed);
    FreshOwnsNothing(t, f);
    var p := Recorded(t, job, f);
    assert p.containers == t.containers;
    if job.operation == Replace {
      DiscardSettles(p, ContextOf(job, f, observed), f.config);
    } else {
      OthersLeaveConfigurations(p, ContextOf(job, f, observed), FailOperation);
    }
    var u := Effect(p, ContextOf(job, f, observed), Undone(job, f)).tables;
    assert u.containers == t.containers;
    assert u.configs == t.configs;
  }

  lemma FreshOwnsNothing(t: Tables, f: Ids)
    requires Sound(t) && Unused(t, f)
    ensures f.container !in t.containers && f.config !in t.configs && f.action !in t.actions
    ensures forall c :: c in t.configs ==> t.configs[c].container != f.container
  {
  }

  /** An operation that happened: the candidate is what the container is, or the container is gone. */
  lemma PreparedThenDone(t: Tables, job: Job, f: Ids, observed: seq<string>)
    requires Sound(t) && Unused(t, f) && CanRecord(t, job)
    ensures var p := Recorded(t, job, f);
      var d := if job.operation == Remove then FinalizeRemove else PromotePending(f.config);
      var u := Effect(p, ContextOf(job, f, observed), d);
      && u.reply == Finalised
      && (job.operation != Remove ==>
        && u.tables.containers == p.containers
        && forall c :: Holds(u.tables, c, Target(job, f), Current) <==> c == f.config)
      && (job.operation == Remove ==> forall r :: r in u.tables.containers <==> r in t.containers && r != job.container)
  {
    hide Recorded, Effect, CanRecord;
    var p, ctx := Recorded(t, job, f), ContextOf(job, f, observed);
    RecordedWrites(t, job, f);
    RecordedSound(t, job, f);
    if job.operation == Remove {
      FinalisedIff(p, ctx, FinalizeRemove);
      RemovalTakesAll(p, ctx, FinalizeRemove);
    } else {
      FinalisedIff(p, ctx, PromotePending(f.config));
      PromotionSettles(p, ctx, f.config);
    }
  }

  /** Two requests of one process are never past the lock of one container. */
  lemma OneRequestPerContainer(states: seq<State>, events: seq<Event>, n: nat, j: nat, k: nat)
    requires Run(states, events) && n < |states| && j in states[n].jobs && k in states[n].jobs && j != k
    requires states[n].jobs[j].phase != Asked && states[n].jobs[k].phase != Asked
    requires states[n].jobs[j].operation != Create && states[n].jobs[k].operation != Create
    ensures states[n].jobs[j].container != states[n].jobs[k].container
  {
    hide Next;
    EveryStateKeepsInv(states, events, n);
    assert !Collide(states[n].jobs[j], states[n].jobs[k]);
  }

  /** A request for this container that passed the guard and has written nothing yet. */
  predicate Waiting(s: State, j: nat, container: string)
  {
    j in s.jobs && s.jobs[j].container == container && s.jobs[j].operation != Create &&
    (s.jobs[j].phase == Asked || s.jobs[j].phase == Locked)
  }

  lemma {:induction false} TargetStays(states: seq<State>, events: seq<Event>, i: nat, n: nat, action: string)
    requires Run(states, events) && i <= n < |states| && action in states[i].recorded
    ensures action in states[n].recorded && TargetOf(states[n], action) == TargetOf(states[i], action)
  {
    hide Next, Inv, TargetOf;
    if i < n {
      TargetStays(states, events, i, n - 1, action);
      EveryStateKeepsInv(states, events, n - 1);
      InvParts(states[n - 1]);
      StepKeepsOpen(states[n - 1], events[n - 1], states[n]);
      RecordsOnlyGrow(states[n - 1], events[n - 1], states[n]);
    }
  }

  lemma InvParts(s: State)
    requires Inv(s)
    ensures Sound(s.tables) && OpenUntilFinalised(s) && s.dispatched <= s.recorded
  {
  }

  lemma RecordsOnlyGrow(s: State, e: Event, u: State)
    requires Next(s, e, u)
    ensures s.recorded <= u.recorded
  {
    hide Sound, Respects, Effect, CanRecord, Mutable, Recorded;
  }

  lemma WaitedBefore(s: State, e: Event, u: State, container: string, j: nat)
    requires Next(s, e, u) && forall settled :: !Mutable(s.tables, container, settled)
    requires Waiting(u, j, container)
    ensures Waiting(s, j, container)
  {
    hide Sound, Respects, Effect, CanRecord, Mutable, Recorded;
  }

  /**
   While an operation is unresolved, a request that may still write one of its own
   is one that was already past the guard before.
   */
  lemma {:induction false} NobodyElseGetsIn(states: seq<State>, events: seq<Event>, i: nat, n: nat, action: string,
      j: nat)
    requires Run(states, events) && i <= n < |states|
    requires forall k :: i <= k <= n ==> action in states[k].dispatched && action !in states[k].finalised
    requires Waiting(states[n], j, TargetOf(states[i], action))
    ensures Waiting(states[i], j, TargetOf(states[i], action))
  {
    hide Next, Mutable, Inv, TargetOf, Waiting;
    if i < n {
      EveryStateKeepsInv(states, events, i);
      InvParts(states[i]);
      TargetStays(states, events, i, n - 1, action);
      DispatchedStaysBlocked(states, events, n - 1, action);
      WaitedBefore(states[n - 1], events[n - 1], states[n], TargetOf(states[i], action), j);
      NobodyElseGetsIn(states, events, i, n - 1, action, j);
    }
  }

  // ---- who can still write, exactly -------------------------------------------------------------

  /** What requests do, and nothing else: nobody finalises, writes elsewhere or crashes. */
  predicate IsRequest(e: Event)
  {
    e.Ask? || e.AskCreate? || e.Lock? || e.Prepare? || e.Dispatch? || e.End?
  }

  ghost predicate Requests(states: seq<State>, events: seq<Event>)
  {
    Steps(states, events) && forall i :: 0 <= i < |events| ==> IsRequest(events[i])
  }

  /** This event writes an operation on the container down. */
  predicate WritesOn(s: State, e: Event, container: string)
  {
    e.Prepare? && e.job in s.jobs && s.jobs[e.job].container == container && s.jobs[e.job].operation != Create
  }

  /** Requests alone can get to where another operation on the container is written down. */
  ghost predicate GetsIn(s: State, container: string)
  {
    exists states, events :: EndsIn(states, events, s, container)
  }

  ghost predicate EndsIn(states: seq<State>, events: seq<Event>, s: State, container: string)
  {
    && Requests(states, events) && states[0] == s && events != []
    && WritesOn(states[|events| - 1], events[|events| - 1], container)
  }

  /** A request is past the guard, and what it would write is not refused. */
  ghost predicate CanGetIn(s: State, container: string)
  {
    exists j :: Waiting(s, j, container) && CanRecord(s.tables, s.jobs[j])
  }

  /** The operation is dispatched, not finalised, and its target is this container. */
  ghost predicate Unsettled(s: State, action: string, container: string)
  {
    action in s.dispatched && action !in s.finalised && TargetOf(s, action) == container
  }

  lemma UnsettledRefuses(s: State, action: string, container: string)
    requires Inv(s) && Unsettled(s, action, container)
    ensures container in s.tables.issued && forall settled :: !Mutable(s.tables, container, settled)
  {
    hide Sound, Exclusive;
    GuardRefusesUnresolved(s.tables, container);
    assert Unresolved(s.tables, action, container);
  }

  lemma RequestKeepsUnsettled(s: State, e: Event, u: State, action: string, container: string)
    requires Inv(s) && Unsettled(s, action, container) && Next(s, e, u) && IsRequest(e)
    ensures Inv(u) && Unsettled(u, action, container)
  {
    hide Sound, Exclusive, Respects, Effect, CanRecord, Mutable, Recorded, TargetOf;
    StepKeepsInv(s, e, u);
    InvParts(s);
    StepKeepsOpen(s, e, u);
  }

  /** Somebody else's record changes nothing about whether this request could write its own. */
  lemma OtherRecordKeeps(t: Tables, other: Job, f: Ids, job: Job)
    requires Named(t) && Unused(t, f) && job.operation != Create && job.container in t.issued
    requires other.operation == Create || other.container != job.container
    ensures CanRecord(Recorded(t, other, f), job) <==> CanRecord(t, job)
  {
    hide Recorded;
    var u, r := Recorded(t, other, f), job.container;
    SameHoldings(t, other, f, r);
    SameExistence(t, u, r, Current);
    SameExistence(t, u, r, Pending);
  }

  lemma SameExistence(t: Tables, u: Tables, r: string, state: ConfigState)
    requires forall c :: Holds(u, c, r, state) <==> Holds(t, c, r, state)
    ensures (exists c :: c in u.configs && Holds(u, c, r, state)) <==>
      (exists c :: c in t.configs && Holds(t, c, r, state))
  {
    if c :| c in u.configs && Holds(u, c, r, state) { assert Holds(t, c, r, state); }
    if c :| c in t.configs && Holds(t, c, r, state) { assert Holds(u, c, r, state); }
  }

  lemma SameHoldings(t: Tables, other: Job, f: Ids, r: string)
    requires Named(t) && Unused(t, f) && r in t.issued && (other.operation == Create || other.container != r)
    ensures var u := Recorded(t, other, f);
      && (r in u.containers <==> r in t.containers) && (r in t.containers ==> u.containers[r] == t.containers[r])
      && forall c, state :: Holds(u, c, r, state) <==> Holds(t, c, r, state)
  {
  }

  /** One request step back: whoever waits now waited then, and could write then if it can now. */
  lemma OneBack(s: State, e: Event, u: State, action: string, container: string, j: nat)
    requires Inv(s) && Unsettled(s, action, container) && Next(s, e, u) && IsRequest(e) && !WritesOn(s, e, container)
    requires Waiting(u, j, container) && CanRecord(u.tables, u.jobs[j])
    ensures Waiting(s, j, container) && CanRecord(s.tables, s.jobs[j])
  {
    hide Sound, Exclusive, Respects, Effect, Recorded, CanRecord, Mutable, TargetOf;
    UnsettledRefuses(s, action, container);
    WaitedBefore(s, e, u, container, j);
    SameJob(u.tables, s.jobs[j], u.jobs[j]);
    if e.Prepare? {
      InvIsSound(s);
      OtherRecordKeeps(s.tables, s.jobs[e.job], e.ids, s.jobs[j]);
    }
  }

  lemma InvIsSound(s: State)
    requires Inv(s)
    ensures Sound(s.tables)
  {
  }

  lemma SameJob(t: Tables, a: Job, b: Job)
    requires a.operation == b.operation && a.container == b.container
    ensures CanRecord(t, a) <==> CanRecord(t, b)
  {
  }

  lemma {:induction false} AllTheWayBack(states: seq<State>, events: seq<Event>, n: nat, action: string,
      container: string, j: nat)
    requires Requests(states, events) && n < |states| && Inv(states[0]) && Unsettled(states[0], action, container)
    requires forall i :: 0 <= i < n ==> !WritesOn(states[i], events[i], container)
    requires Waiting(states[n], j, container) && CanRecord(states[n].tables, states[n].jobs[j])
    ensures Waiting(states[0], j, container) && CanRecord(states[0].tables, states[0].jobs[j])
  {
    hide Next, Inv, Unsettled, Waiting, CanRecord, WritesOn;
    if n > 0 {
      UnsettledSoFar(states, events, n - 1, action, container);
      OneBack(states[n - 1], events[n - 1], states[n], action, container, j);
      AllTheWayBack(states, events, n - 1, action, container, j);
    }
  }

  lemma {:induction false} UnsettledSoFar(states: seq<State>, events: seq<Event>, n: nat, action: string,
      container: string)
    requires Requests(states, events) && n < |states| && Inv(states[0]) && Unsettled(states[0], action, container)
    ensures Inv(states[n]) && Unsettled(states[n], action, container)
  {
    hide Next, Inv, Unsettled;
    if n > 0 {
      UnsettledSoFar(states, events, n - 1, action, container);
      RequestKeepsUnsettled(states[n - 1], events[n - 1], states[n], action, container);
    }
  }

  /** The first that writes was waiting, and could. */
  lemma {:induction false} FirstToWrite(states: seq<State>, events: seq<Event>, action: string, container: string)
    requires |states| == |events| + 1 && Inv(states[0]) && Unsettled(states[0], action, container)
    requires EndsIn(states, events, states[0], container)
    ensures CanGetIn(states[0], container)
    decreases |events|
  {
    hide Inv, Unsettled, CanRecord, Recorded, Mutable, Respects, Effect;
    var n := |events| - 1;
    if k :| 0 <= k < n && WritesOn(states[k], events[k], container) {
      assert EndsIn(states[..k + 2], events[..k + 1], states[0], container);
      FirstToWrite(states[..k + 2], events[..k + 1], action, container);
    } else {
      assert Next(states[n], events[n], states[n + 1]);
      AllTheWayBack(states, events, n, action, container, events[n].job);
    }
  }

  // ---- and there is a way --------------------------------------------------------------------------

  lemma {:induction false} LongerThanAll(names: set<string>) returns (n: nat)
    ensures forall x :: x in names ==> |x| < n
  {
    if names == {} {
      n := 0;
    } else {
      var x :| x in names;
      n := LongerThanAll(names - {x});
      n := if |x| < n then n else |x| + 1;
    }
  }

  lemma UnusedIds(t: Tables) returns (f: Ids)
    ensures Unused(t, f)
  {
    var n := LongerThanAll(t.issued);
    f := Ids(seq(n + 1, _ => 'a'), seq(n + 2, _ => 'a'), seq(n + 3, _ => 'a'), "h", "");
    assert |f.action| == n + 1 && |f.config| == n + 2 && |f.container| == n + 3;
  }

  /** With the lock taken, the operation is written down and unresolved. */
  lemma WritesItself(s: State, j: nat, container: string) returns (f: Ids, u: State)
    requires Waiting(s, j, container) && s.jobs[j].phase == Locked && CanRecord(s.tables, s.jobs[j])
    ensures Next(s, Prepare(j, f), u) && WritesOn(s, Prepare(j, f), container)
    ensures f.action !in s.tables.issued && Unresolved(u.tables, f.action, container)
  {
    hide Next, CanRecord;
    f := UnusedIds(s.tables);
    u := Prepares(s, j, f);
  }

  lemma TakesLock(s: State, j: nat, container: string) returns (u: State)
    requires Waiting(s, j, container) && s.jobs[j].phase == Asked && s.jobs[j].key !in s.held
    ensures Next(s, Lock(j), u) && u.tables == s.tables && Waiting(u, j, container)
    ensures u.jobs[j] == s.jobs[j].(phase := Locked)
  {
    hide Next;
    u := Locks(s, j);
  }

  /** Whoever has the lock ends, and gives it back. */
  lemma LockIsGivenBack(s: State, j: nat, container: string) returns (k: nat, u: State)
    requires Exclusive(s) && Waiting(s, j, container) && s.jobs[j].phase == Asked && s.jobs[j].key in s.held
    ensures Next(s, End(k), u) && u.tables == s.tables && Waiting(u, j, container) && u.jobs[j] == s.jobs[j]
    ensures u.jobs[j].key !in u.held
  {
    hide Next;
    assert Kept(s, s.jobs[j].key);
    k :| k in s.jobs && s.jobs[k].phase != Asked && s.jobs[k].key == s.jobs[j].key;
    u := Finishes(s, k);
  }

  /** A request that is past the guard gets in by requests alone, and what it writes is unresolved too. */
  lemma WayIn(s: State, j: nat, container: string) returns (states: seq<State>, events: seq<Event>, own: string)
    requires Exclusive(s) && Waiting(s, j, container) && CanRecord(s.tables, s.jobs[j])
    ensures EndsIn(states, events, s, container)
    ensures own !in s.tables.issued && Unresolved(states[|events|].tables, own, container)
  {
    hide Next, CanRecord, Mutable, Exclusive, Unresolved;
    var at := s;
    states, events := [s], [];
    if s.jobs[j].phase == Asked && s.jobs[j].key in s.held {
      var k, free := LockIsGivenBack(s, j, container);
      states, events, at := [s, free], [End(k)], free;
    }
    if at.jobs[j].phase == Asked {
      var locked := TakesLock(at, j, container);
      SameJob(s.tables, s.jobs[j], locked.jobs[j]);
      states, events, at := states + [locked], events + [Lock(j)], locked;
    }
    var f, u := WritesItself(at, j, container);
    own := f.action;
    states, events := states + [u], events + [Prepare(j, f)];
  }

  /**
   While an operation on a container is unresolved, requests alone can write another
   one down if and only if a request is already past the guard and would not be
   refused by what it has to write.
   */
  lemma AnotherOneIffWaiting(run: seq<State>, happened: seq<Event>, n: nat, action: string, container: string)
    requires Run(run, happened) && n < |run| && Unsettled(run[n], action, container)
    ensures GetsIn(run[n], container) <==> CanGetIn(run[n], container)
  {
    hide Next, Inv, Unsettled, CanRecord, EndsIn;
    var s := run[n];
    EveryStateKeepsInv(run, happened, n);
    if GetsIn(s, container) {
      var states, events :| EndsIn(states, events, s, container);
      EndsMeans(states, events, s, container);
      FirstToWrite(states, events, action, container);
    }
    if CanGetIn(s, container) {
      var j :| Waiting(s, j, container) && CanRecord(s.tables, s.jobs[j]);
      InvIsExclusive(s);
      var states, events, own := WayIn(s, j, container);
    }
  }

  lemma EndsMeans(states: seq<State>, events: seq<Event>, s: State, container: string)
    requires EndsIn(states, events, s, container)
    ensures |states| == |events| + 1 && states[0] == s
  {
  }

  lemma InvIsExclusive(s: State)
    requires Inv(s)
    ensures Exclusive(s)
  {
  }

  /** A discovery pass, complete or not, is one of the other writers. */
  lemma DiscoveryRespects(v: View, t: Tables)
    requires Sound(v.start) && (Settled(v, t) || Harmless(v, t))
    ensures Respects(v.start, t)
  {
    hide Consistent, Written, Discovered, Harmless, Swept, Respects;
    if Harmless(v, t) {
      HarmlessRespects(v, t);
    } else {
      var mid: Tables :| PassEnded(v, mid) && t == Swept(mid, v.host, v.snapshot);
      HarmlessRespects(v, mid);
      SweptRespects(v.start, mid, v.host, v.snapshot);
    }
  }

  lemma HarmlessRespects(v: View, t: Tables)
    requires Sound(v.start) && Harmless(v, t)
    ensures Respects(v.start, t)
  {
    hide Consistent;
  }

  lemma SweptRespects(t: Tables, mid: Tables, host: string, snapshot: string)
    requires Respects(t, mid)
    ensures Respects(t, Swept(mid, host, snapshot))
  {
  }

  // ---- what the guard alone does not prevent ------------------------------------------------

  const BUILT := Row("h", Some("d"), "web", Some("c"), None, None, None, Some("before"), None)
  const SETTLED_TABLES := Tables(map["r" := BUILT], map["c" := Config("r", Current, None)], map[], {"r", "c"})
  const SECOND_IDS := Ids("a2", "c2", "r2", "h", "")

  /** A replacement or a removal of the one container there is. */
  function Changing(operation: Operation): Job
  {
    Job("r", operation, "r", Asked)
  }

  /** Identifiers for the first operation that the second one does not use. */
  predicate FirstIds(f: Ids)
  {
    f.action == "a1" && Unused(SETTLED_TABLES, f) && {f.config, f.container} !! {"a2", "c2", "r2"}
  }

  lemma FirstCanRecord(first: Operation, f: Ids)
    requires first != Create && FirstIds(f)
    ensures Unused(SETTLED_TABLES, f) && CanRecord(SETTLED_TABLES, Changing(first).(phase := Locked))
    ensures Recorded(SETTLED_TABLES, Changing(first).(phase := Locked), f) ==
      Recorded(SETTLED_TABLES, Changing(first), f)
  {
    assert Holds(SETTLED_TABLES, "c", "r", Current);
  }

  lemma Locks(s: State, j: nat) returns (u: State)
    requires j in s.jobs && s.jobs[j].phase == Asked && s.jobs[j].key !in s.held
    ensures u == s.(held := s.held + {s.jobs[j].key}, jobs := s.jobs[j := s.jobs[j].(phase := Locked)])
    ensures Next(s, Lock(j), u)
  {
    u := s.(held := s.held + {s.jobs[j].key}, jobs := s.jobs[j := s.jobs[j].(phase := Locked)]);
  }

  lemma Prepares(s: State, j: nat, f: Ids) returns (u: State)
    requires j in s.jobs && s.jobs[j].phase == Locked && s.jobs[j].operation != Create
    requires Unused(s.tables, f) && CanRecord(s.tables, s.jobs[j])
    ensures u == s.(tables := Recorded(s.tables, s.jobs[j], f), recorded := s.recorded + {f.action},
                    jobs := s.jobs[j := s.jobs[j].(phase := Prepared(f.action))])
    ensures Next(s, Prepare(j, f), u)
  {
    hide CanRecord, Unused, Recorded;
    u := s.(tables := Recorded(s.tables, s.jobs[j], f), recorded := s.recorded + {f.action},
            jobs := s.jobs[j := s.jobs[j].(phase := Prepared(f.action))]);
  }

  lemma Dispatches(s: State, j: nat) returns (u: State)
    requires j in s.jobs && s.jobs[j].phase.Prepared?
    ensures u == s.(jobs := s.jobs[j := s.jobs[j].(phase := Dispatched(s.jobs[j].phase.action))],
                    dispatched := s.dispatched + {s.jobs[j].phase.action})
    ensures Next(s, Dispatch(j), u)
  {
    u := s.(jobs := s.jobs[j := s.jobs[j].(phase := Dispatched(s.jobs[j].phase.action))],
            dispatched := s.dispatched + {s.jobs[j].phase.action});
  }

  lemma Finishes(s: State, j: nat) returns (u: State)
    requires j in s.jobs && s.jobs[j].phase != Asked
    ensures u == s.(jobs := s.jobs - {j}, held := s.held - {s.jobs[j].key})
    ensures Next(s, End(j), u)
  {
    u := s.(jobs := s.jobs - {j}, held := s.held - {s.jobs[j].key});
  }

  lemma FourSteps(a: State, w: Event, b: State, x: Event, c: State, y: Event, d: State, z: Event, e: State)
    requires Next(a, w, b) && Next(b, x, c) && Next(c, y, d) && Next(d, z, e)
    ensures Steps([a, b, c, d, e], [w, x, y, z])
  {
    hide Next;
  }

  /** The first one: lock, record, dispatch, and an answer that never came. */
  lemma FirstGoes(first: Operation, f: Ids, s: State, u: State) returns (events: seq<Event>, states: seq<State>)
    requires first != Create && FirstIds(f)
    requires s == State(SETTLED_TABLES, {}, map[1 := Changing(first), 2 := Changing(Remove)], {}, {}, {})
    requires u == State(Recorded(SETTLED_TABLES, Changing(first), f), {},
      map[2 := Changing(Remove)], {"a1"}, {"a1"}, {})
    ensures |events| == 4 && Steps(states, events) && states[0] == s && states[4] == u
  {
    hide Next, CanRecord, Recorded, Unused, Steps;
    FirstCanRecord(first, f);
    var locked := Locks(s, 1);
    var written := Prepares(locked, 1, f);
    var sent := Dispatches(written, 1);
    var over := Finishes(sent, 1);
    assert over.jobs == u.jobs && over.held == u.held && over.recorded == u.recorded && over.dispatched == u.dispatched;
    FourSteps(s, Lock(1), locked, Prepare(1, f), written, Dispatch(1), sent, End(1), u);
    events, states := [Lock(1), Prepare(1, f), Dispatch(1), End(1)], [s, locked, written, sent, u];
  }

  /** The second one, which had passed the guard before the first was written down. */
  lemma SecondGoes(s: State, u: State) returns (events: seq<Event>, states: seq<State>)
    requires s.jobs == map[2 := Changing(Remove)] && s.held == {} && s.recorded == {"a1"} && s.dispatched == {"a1"}
    requires s.tables.containers == SETTLED_TABLES.containers && Unused(s.tables, SECOND_IDS)
    requires u == s.(tables := Recorded(s.tables, Changing(Remove), SECOND_IDS), held := {"r"},
      jobs := map[2 := Changing(Remove).(phase := Dispatched("a2"))],
        recorded := {"a1", "a2"}, dispatched := {"a1", "a2"})
    ensures |events| == 3 && Steps(states, events) && states[0] == s && states[3] == u
  {
    hide Next, Unused;
    var locked := Locks(s, 2);
    var written := Prepares(locked, 2, SECOND_IDS);
    var sent := Dispatches(written, 2);
    assert sent.jobs == u.jobs && sent.held == u.held && sent.recorded == u.recorded && sent.dispatched == u.dispatched;
    events, states := [Lock(2), Prepare(2, SECOND_IDS), Dispatch(2)], [s, locked, written, u];
  }

  lemma BothAsk(first: Operation, s: State, u: State) returns (events: seq<Event>, states: seq<State>)
    requires first != Create && s == State(SETTLED_TABLES, {}, map[], {}, {}, {})
    requires u == s.(jobs := map[1 := Changing(first), 2 := Changing(Remove)])
    ensures |events| == 2 && Steps(states, events) && states[0] == s && states[2] == u
  {
    hide Effect, Respects;
    var one := s.(jobs := map[1 := Changing(first)]);
    events := [Ask(1, "r", first, true), Ask(2, "r", Remove, true)];
    assert SETTLED_TABLES.configs["c"].container == "r";
    assert Next(s, events[0], one);
    assert Next(one, events[1], u);
    states := [s, one, u];
  }

  lemma Joined(states: seq<State>, events: seq<Event>, more: seq<State>, later: seq<Event>)
    requires Steps(states, events) && Steps(more, later) && states[|events|] == more[0]
    ensures Steps(states + more[1..], events + later)
  {
    hide Next;
    var all, es := states + more[1..], events + later;
    forall i | 0 <= i < |es|
      ensures Next(all[i], es[i], all[i + 1])
    {
      if i >= |events| {
        var k := i - |events|;
        assert Next(more[k], later[k], more[k + 1]);
        assert all[i] == more[k] && all[i + 1] == more[k + 1];
      } else {
        assert Next(states[i], events[i], states[i + 1]);
      }
    }
  }

  /** What both of them leave in the database. */
  function BothRecorded(first: Operation, f: Ids): Tables
  {
    Recorded(Recorded(SETTLED_TABLES, Changing(first), f), Changing(Remove), SECOND_IDS)
  }

  /** Both requests asked the guard first, so both operations on one container end up open. */
  lemma BothMayBeOpen(first: Operation, f: Ids) returns (states: seq<State>, events: seq<Event>)
    requires first != Create && FirstIds(f)
    ensures Run(states, events)
    ensures var last := states[|events|];
      && {"a1", "a2"} <= last.dispatched && last.finalised == {} && last.tables == BothRecorded(first, f)
      && Unresolved(last.tables, "a1", "r") && Unresolved(last.tables, "a2", "r")
  {
    hide Next, Steps, Recorded, Unresolved;
    SecondUnused(first, f);
    var s0 := State(SETTLED_TABLES, {}, map[], {}, {}, {});
    var s2 := s0.(jobs := map[1 := Changing(first), 2 := Changing(Remove)]);
    var s3 := State(Recorded(SETTLED_TABLES, Changing(first), f), {}, map[2 := Changing(Remove)], {"a1"}, {"a1"}, {});
    var s4 := s3.(tables := Recorded(s3.tables, Changing(Remove), SECOND_IDS), held := {"r"},
      jobs := map[2 := Changing(Remove).(phase := Dispatched("a2"))],
        recorded := {"a1", "a2"}, dispatched := {"a1", "a2"});
    var asks, asked := BothAsk(first, s0, s2);
    var one, upTo := FirstGoes(first, f, s2, s3);
    var two, after := SecondGoes(s3, s4);
    StepsLength(asked, asks);
    StepsLength(upTo, one);
    StepsLength(after, two);
    Joined(upTo, one, after, two);
    Joined(asked, asks, upTo + after[1..], one + two);
    states, events := asked + (upTo + after[1..])[1..], asks + (one + two);
    assert states[|events|] == s4;
    BothUnresolved(first, f);
  }

  lemma SecondUnused(first: Operation, f: Ids)
    requires first != Create && FirstIds(f)
    ensures Unused(Recorded(SETTLED_TABLES, Changing(first), f), SECOND_IDS)
    ensures Recorded(SETTLED_TABLES, Changing(first), f).containers == SETTLED_TABLES.containers
  {
  }

  lemma BothUnresolved(first: Operation, f: Ids)
    requires FirstIds(f)
    ensures Unresolved(BothRecorded(first, f), "a1", "r") || first == Create
    ensures Unresolved(BothRecorded(first, f), "a2", "r")
  {
  }

  /** In particular two removals. */
  lemma TwoRemovalsMayBeOpen() returns (states: seq<State>, events: seq<Event>)
    ensures Run(states, events)
    ensures var last := states[|events|];
      && {"a1", "a2"} <= last.dispatched && last.finalised == {}
      && Unresolved(last.tables, "a1", "r") && Unresolved(last.tables, "a2", "r")
  {
    hide Run;
    states, events := BothMayBeOpen(Remove, Ids("a1", "c1", "r1", "h", ""));
  }

  lemma StepsLength(states: seq<State>, events: seq<Event>)
    requires Steps(states, events)
    ensures |states| == |events| + 1
  {
  }
}
