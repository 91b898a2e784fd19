/** Entities of the protocol_love zome (zomes/protocol_love/src, the newer
    hdk): people bound to an agent key, collectives that record their
    creator's key and an optional admin, ledgers, and actions carrying the
    data they set and the data they replaced. */
module Plove2Types {
  import opened Results
  import opened Substrate
  import opened Ledgers

  /** Whether a person currently takes part in a collective. */
  datatype PersonStatus = Inactive | Active

  /** `PersonStatus::default`. */
  const DefaultStatus := Active

  /** A person, bound to the Holochain agent whose key is `agentInitialPubkey`. */
  datatype Person = Person(agentInitialPubkey: Address, name: string, status: PersonStatus)

  /** A collective, the key of the agent its admin represents, and the entry
      hash of its admin Person, if any. */
  datatype Collective = Collective(name: string, agentInitialPubkey: Address, adminEntryHash: Option<Address>)

  datatype ActionOp = CreateCollective | AddCollectivePerson | SetCollectiveName

  datatype ActionStatus = Open | Executed

  datatype ActionStrategy = SystemAutomatic | PrivilegedAction | NewDiscussionMessage

  /** The serialised payloads an action carries: `()`, a collective, a
      `{name}` record or a `{person_entry_hash}` record. */
  datatype ActionData =
    | Unit
    | CollectiveData(collective: Collective)
    | NameData(name: string)
    | PersonData(personEntryHash: Address)

  /** An action: what was done, the data it set, the data it replaced (for
      undo), and the tag it is linked from its collective with. */
  datatype Action = Action(op: ActionOp, status: ActionStatus, data: ActionData, prevData: ActionData, tag: string, strategy: ActionStrategy)

  /** `ActionEntry`: the action's entry hash, its entry and the action. */
  datatype ActionCommit = ActionCommit(actionHash: Address, entry: Entry, action: Action)

  datatype Entry =
    | PersonEntry(person: Person)
    | CollectiveEntry(collective: Collective)
    | LedgerEntry(ledger: Ledger)
    | ActionEntry(action: Action)

  function AsAction(e: Entry): (r: Option<Action>)
    ensures r.Some? <==> e.ActionEntry?
    ensures r.Some? ==> e == ActionEntry(r.value)
  {
    if e.ActionEntry? then Some(e.action) else None
  }

  predicate IsCollective(e: Entry)
  {
    e.CollectiveEntry?
  }

  /** The store is content addressed and only collectives are ever updated
      (`update_collective` is the zome's only `update`). */
  ghost predicate Wellformed(hash: Entry -> Address, db: Db<Entry>)
  {
    ContentAddressed(hash, db) && SupersedesOnly(db, IsCollective)
  }

  /** A validation callback's answer (`ValidateCallbackResult`). */
  datatype Verdict = Valid | Invalid(reason: string)

  /** The kind of write a callback is asked to judge. */
  datatype WriteOp = CreateOp | UpdateOp | DeleteOp

  /** The conductor runs an entry type's general callback and then the one for
      the kind of write; the first refusal is the answer. */
  function Both(general: Verdict, specific: Verdict): (r: Verdict)
    ensures r.Valid? <==> general.Valid? && specific.Valid?
    ensures general.Invalid? ==> r == general
  {
    if general.Invalid? then general else specific
  }
}
