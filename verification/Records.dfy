/**
 The rows that recovery and discovery work on (api/src/database/schema.ts).

 One value holds the three tables, so that a transaction is a value kept aside to
 go back to. What the database refuses on its own is `Sound`: a configuration
 belongs to a container that exists, and a container has at most one current and
 one pending configuration.
 */
module Records {
  import opened Wrappers

  datatype Operation = Create | Replace | Remove

  datatype ConfigState = Current | Pending
  datatype Config = Config(container: string, state: ConfigState, action: Option<string>)

  datatype Capability = Mutation(operation: Operation) | Other(name: string)
  datatype Status = Queued | Running | Succeeded | Failed | TimedOut | Cancelled
  datatype Action = Action(capability: Capability, target: string, host: string, status: Status, errorCode: string)

  datatype Row = Row(
    host: string,
    dockerId: Option<string>,
    name: string,
    observedConfig: Option<string>,
    stackId: Option<string>,
    stackService: Option<string>,
    stackRevision: Option<string>,
    snapshot: Option<string>,
    conflict: Option<seq<string>>)

  /** `issued` holds every identifier given out: a random identifier never comes back. */
  datatype Tables = Tables(
    containers: map<string, Row>,
    configs: map<string, Config>,
    actions: map<string, Action>,
    issued: set<string>)

  predicate Open(a: Action)
  {
    a.status == Queued || a.status == Running
  }

  predicate Unfinished(t: Tables, action: string)
  {
    action in t.actions && Open(t.actions[action])
  }

  predicate IsPending(t: Tables, config: string)
  {
    config in t.configs && t.configs[config].state == Pending
  }

  /** A configuration of this container in this state. */
  predicate Holds(t: Tables, config: string, container: string, state: ConfigState)
  {
    config in t.configs && t.configs[config].container == container && t.configs[config].state == state
  }

  ghost predicate Attached(t: Tables)
  {
    forall c :: c in t.configs ==> t.configs[c].container in t.containers
  }

  predicate SameSlot(a: Config, b: Config)
  {
    a.container == b.container && a.state == b.state
  }

  /** `container_desired_current_unique` and `container_desired_pending_unique`. */
  ghost predicate OneOfEach(t: Tables)
  {
    forall c, d :: c in t.configs && d in t.configs && SameSlot(t.configs[c], t.configs[d]) ==> c == d
  }

  ghost predicate Named(t: Tables)
  {
    t.containers.Keys <= t.issued && t.configs.Keys <= t.issued && t.actions.Keys <= t.issued
  }

  ghost predicate Sound(t: Tables)
  {
    Attached(t) && OneOfEach(t) && Named(t)
  }

  /** Deleting a container takes its configurations along. */
  function WithoutContainer(t: Tables, container: string): Tables
  {
    t.(containers := t.containers - {container},
       configs := map c | c in t.configs && t.configs[c].container != container :: t.configs[c])
  }

  lemma WithoutContainerSound(t: Tables, container: string)
    requires Sound(t)
    ensures Sound(WithoutContainer(t, container)) && WithoutContainer(t, container).issued == t.issued
  {
  }

  /** The database everything shares; a transaction is one assignment to it. */
  class Database {
    var tables: Tables
    /** No statement fails for a reason of its own. */
    const faultless: bool

    constructor (tables: Tables, faultless: bool)
      ensures this.tables == tables && this.faultless == faultless
    {
      this.tables, this.faultless := tables, faultless;
    }
  }
}
