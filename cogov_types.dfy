/** Entities of the cogov zome (zomes/cogov/code): collectives, their ledgers,
    their actions and the people linked to them, all stored as entries of one
    content-addressed store. */
module CogovTypes {
  import opened Results
  import opened Substrate
  import opened Ledgers

  datatype Collective = Collective(name: string)

  /** What a caller supplies to create a collective: its name and the person
      to link as its creator. */
  datatype CollectiveParams = CollectiveParams(name: string, personAddress: Address)

  /** `Into<Collective> for CollectiveParams`: the creator's address is not
      part of the collective entry. */
  function ToCollective(p: CollectiveParams): (c: Collective)
    ensures c.name == p.name
  {
    Collective(p.name)
  }

  /** Two parameter sets that differ only in the creator give the same entry. */
  lemma ToCollectiveDropsPerson(p: CollectiveParams, q: CollectiveParams)
    requires p.name == q.name
    ensures ToCollective(p) == ToCollective(q)
  {
  }

  function DefaultCollective(): (c: Collective)
    ensures c.name == "unnamed collective"
  {
    Collective("unnamed collective")
  }

  /** cogov's Person entry (person.rs) carries only a name. */
  datatype Person = Person(name: string)

  datatype ActionOp = CreateCollective | AddCollectivePerson | SetCollectiveName | SetCollectiveTotalShares

  datatype ActionStatus = Open | Executed

  datatype ActionIntent = SystemAutomatic | PrivilegedAction | NewDiscussionMessage

  /** The structured payload an action records (serialised JSON in the zome). */
  datatype ActionData =
    | CollectiveData(collective: Collective)
    | NameData(name: string)
    | PersonAddressData(personAddress: Address)

  datatype Action = Action(op: ActionOp, status: ActionStatus, data: ActionData, tag: string, intent: ActionIntent)

  /** A committed action: its address, the stored entry and the action itself. */
  datatype ActionCommit = ActionCommit(address: Address, entry: Entry, action: Action)

  datatype Entry =
    | PersonEntry(person: Person)
    | CollectiveEntry(collective: Collective)
    | LedgerEntry(ledger: Ledger)
    | ActionEntry(action: Action)

  function AsCollective(e: Entry): (r: Option<Collective>)
    ensures r.Some? <==> e.CollectiveEntry?
    ensures r.Some? ==> e == CollectiveEntry(r.value)
  {
    if e.CollectiveEntry? then Some(e.collective) else None
  }

  function AsPerson(e: Entry): (r: Option<Person>)
    ensures r.Some? <==> e.PersonEntry?
    ensures r.Some? ==> e == PersonEntry(r.value)
  {
    if e.PersonEntry? then Some(e.person) else None
  }

  function AsAction(e: Entry): (r: Option<Action>)
    ensures r.Some? <==> e.ActionEntry?
    ensures r.Some? ==> e == ActionEntry(r.value)
  {
    if e.ActionEntry? then Some(e.action) else None
  }

  predicate IsCollective(e: Entry)
  {
    e.CollectiveEntry?
  }

  /** The store of a cogov DNA is well formed when it is content addressed and
      only collectives have ever been updated (the only `update_entry` of the
      zome is the rename). */
  ghost predicate Wellformed(hash: Entry -> Address, db: Db<Entry>)
  {
    ContentAddressed(hash, db) && SupersedesOnly(db, IsCollective)
  }
}
