/** Entities of the protocol-love zome (zomes/protocol-love/code, the classic
    hdk): people bound to an agent, collectives with an optional admin, their
    ledgers and actions. The zome's action.rs is not part of this model; the
    action fields are those collective.rs sets. */
module PloveTypes {
  import opened Results
  import opened Substrate
  import opened Ledgers

  /** Whether a person currently takes part in a collective. */
  datatype PersonStatus = Inactive | Active

  /** A person, bound to the Holochain agent at `agentAddress`. */
  datatype Person = Person(agentAddress: Address, name: string, status: PersonStatus)

  /** A collective and the address of the Person administering it, if any. */
  datatype Collective = Collective(name: string, adminAddress: Option<Address>)

  datatype CreateCollectiveParams = CreateCollectiveParams(name: string, adminAddress: Option<Address>)

  /** `Into<Collective> for CreateCollectiveParams`: a field-for-field copy. */
  function ToCollective(p: CreateCollectiveParams): (c: Collective)
    ensures c.name == p.name && c.adminAddress == p.adminAddress
  {
    Collective(p.name, p.adminAddress)
  }

  /** `Collective::default`: "unnamed collective" with no admin. */
  function DefaultCollective(): (c: Collective)
    ensures c.name == "unnamed collective" && c.adminAddress.None?
  {
    Collective("unnamed collective", None)
  }

  datatype ActionOp = CreateCollective | AddCollectivePerson | SetCollectiveName

  datatype ActionStatus = Open | Executed

  /** The only strategy collective.rs journals with. */
  datatype ActionStrategy = SystemAutomatic

  /** The payloads the three action builders serialise. */
  datatype ActionData =
    | CollectiveData(collective: Collective)
    | NameData(name: string)
    | PersonAddressData(personAddress: Address)

  datatype Action = Action(op: ActionOp, status: ActionStatus, data: ActionData, tag: string, strategy: ActionStrategy)

  /** What `create_collective_action` returns: the action's address, its entry
      and the action. */
  datatype ActionCommit = ActionCommit(address: Address, entry: Entry, action: Action)

  datatype Entry =
    | PersonEntry(person: Person)
    | CollectiveEntry(collective: Collective)
    | LedgerEntry(ledger: Ledger)
    | ActionEntry(action: Action)

  function AsPerson(e: Entry): (r: Option<Person>)
    ensures r.Some? <==> e.PersonEntry?
    ensures r.Some? ==> e == PersonEntry(r.value)
  {
    if e.PersonEntry? then Some(e.person) else None
  }

  function AsCollective(e: Entry): (r: Option<Collective>)
    ensures r.Some? <==> e.CollectiveEntry?
    ensures r.Some? ==> e == CollectiveEntry(r.value)
  {
    if e.CollectiveEntry? then Some(e.collective) else None
  }

  function AsAction(e: Entry): (r: Option<Action>)
    ensures r.Some? <==> e.ActionEntry?
    ensures r.Some? ==> e == ActionEntry(r.value)
  {
    if e.ActionEntry? then Some(e.action) else None
  }

  predicate IsCollective(e: Entry)
  {
    e.CollectiveEntry?
  }

  /** The store is content addressed and only collectives are ever updated
      (`update_collective` is the zome's only `update_entry`). */
  ghost predicate Wellformed(hash: Entry -> Address, db: Db<Entry>)
  {
    ContentAddressed(hash, db) && SupersedesOnly(db, IsCollective)
  }

  /** What an entry type's validation callback is asked to judge
      (`EntryValidationData`): a new entry, a new version of an old entry, or
      the deletion of an old entry. */
  datatype Validation<T> = Create(entry: T) | Modify(newEntry: T, oldEntry: T) | Delete(oldEntry: T)
}
