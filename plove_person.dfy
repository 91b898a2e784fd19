/** People of the protocol-love zome (zomes/protocol-love/code/src/person.rs):
    the admission rule for Person entries, the name limit, the parameter
    defaults and `create_person`. */
module PlovePerson {
  import opened Results
  import opened Substrate
  import opened Text
  import opened PloveUtils
  import opened PloveTypes

  const NotByAgent := "Person representing agent must be created by agent"
  const AgentChanged := "agent_address cannot be updated"
  const NotBySelf := "Person can only update by oneself"
  const CannotDelete := "Person cannot be deleted"
  const NameTooLong := "Name is too long"
  /** The longest admissible name, in UTF-8 bytes. */
  const MaxNameBytes := 64
  const CreatePersonTag := "create_person: "

  // ----- validation -----

  /** `validate_name`: at most 64 bytes of UTF-8. */
  function ValidateName(name: string): (r: Result<()>)
    ensures r.Ok? <==> Utf8Length(name) <= MaxNameBytes
    ensures r.Err? ==> r.msg == NameTooLong
  {
    if Utf8Length(name) > MaxNameBytes then Err(NameTooLong) else Ok(())
  }

  /** When a Person write is admissible, with `sources` the agents that signed
      it: a new person must be the signer's own and a new version must keep
      its agent and be signed by it; the name must fit; nothing is deleted. */
  predicate PersonAdmissible(v: Validation<Person>, sources: set<Address>)
  {
    match v
    case Create(e) => e.agentAddress in sources && Utf8Length(e.name) <= MaxNameBytes
    case Modify(n, o) => n.agentAddress == o.agentAddress && o.agentAddress in sources && Utf8Length(n.name) <= MaxNameBytes
    case Delete(_) => false
  }

  /** The validation callback of `person_def`. The checks run in the order
      the zome writes them, so the first that fails names the error. */
  function ValidatePerson(v: Validation<Person>, sources: set<Address>): (r: Result<()>)
    ensures r.Ok? <==> PersonAdmissible(v, sources)
    ensures v.Create? && v.entry.agentAddress !in sources ==> r == Err(NotByAgent)
    ensures v.Modify? && v.newEntry.agentAddress != v.oldEntry.agentAddress ==> r == Err(AgentChanged)
    ensures v.Modify? && v.newEntry.agentAddress == v.oldEntry.agentAddress && v.oldEntry.agentAddress !in sources
            ==> r == Err(NotBySelf)
    ensures v.Delete? ==> r == Err(CannotDelete)
    ensures !v.Delete? && r == Err(NameTooLong) ==> Utf8Length((if v.Create? then v.entry else v.newEntry).name) > MaxNameBytes
  {
    match v
    case Create(e) =>
      if e.agentAddress !in sources then Err(NotByAgent) else ValidateName(e.name)
    case Modify(n, o) =>
      if n.agentAddress != o.agentAddress then Err(AgentChanged)
      else if o.agentAddress !in sources then Err(NotBySelf)
      else ValidateName(n.name)
    case Delete(_) => Err(CannotDelete)
  }

  /** On ASCII names the limit is 64 characters. */
  lemma NameLimitAscii(name: string)
    requires IsAscii(name)
    ensures ValidateName(name).Ok? <==> |name| <= MaxNameBytes
  {
    Utf8LengthAscii(name);
  }

  /** A name of more than 64 characters is always too long. */
  lemma NameLimitChars(name: string)
    requires |name| > MaxNameBytes
    ensures ValidateName(name) == Err(NameTooLong)
  {
    Utf8LengthBounds(name);
  }

  /** The limit counts bytes: 33 copies of 'é' (two bytes each) are too long
      though far under 64 characters. */
  lemma NameLimitBytes()
    ensures |seq(33, _ => 'é')| == 33
    ensures ValidateName(seq(33, _ => 'é')) == Err(NameTooLong)
  {
    Utf8LengthRepeat('é', 33);
  }

  /** An agent may always create a person for itself under a name that fits. */
  lemma OwnPersonAdmitted(agent: Address, name: string, status: PersonStatus)
    requires Utf8Length(name) <= MaxNameBytes
    ensures ValidatePerson(Create(Person(agent, name, status)), {agent}) == Ok(())
  {
  }

  /** The name limit is checked only once authorship is settled: an agent
      writing somebody else's person is told so whatever the name. */
  lemma AuthorshipBeforeName(p: Person, q: Person, sources: set<Address>)
    requires p.agentAddress == q.agentAddress && p.agentAddress !in sources
    ensures ValidatePerson(Create(p), sources) == ValidatePerson(Create(q), sources) == Err(NotByAgent)
  {
  }

  // ----- parameters -----

  datatype OptionalPersonParams = OptionalPersonParams(name: string, agentAddress: Option<Address>, status: Option<PersonStatus>)

  datatype PersonParams = PersonParams(name: string, agentAddress: Address, status: PersonStatus)

  datatype PersonPayload = PersonPayload(personAddress: Address, person: Person)

  /** `PersonParams::default` for the calling agent `agent`. */
  function DefaultPersonParams(agent: Address): (p: PersonParams)
    ensures p.name == "" && p.agentAddress == agent && p.status == Active
  {
    PersonParams("", agent, Active)
  }

  /** `Into<PersonParams> for OptionalPersonParams`: every supplied field is
      kept, the missing ones come from the defaults. */
  function ToPersonParams(o: OptionalPersonParams, agent: Address): (p: PersonParams)
    ensures p.name == o.name
    ensures o.agentAddress.Some? ==> p.agentAddress == o.agentAddress.value
    ensures o.agentAddress.None? ==> p.agentAddress == DefaultPersonParams(agent).agentAddress
    ensures o.status.Some? ==> p.status == o.status.value
    ensures o.status.None? ==> p.status == DefaultPersonParams(agent).status
  {
    PersonParams(
      o.name,
      match o.agentAddress { case Some(a) => a case None => DefaultPersonParams(agent).agentAddress },
      match o.status { case Some(s) => s case None => DefaultPersonParams(agent).status })
  }

  /** Supplying every field gives those parameters back, whoever calls. */
  lemma ToPersonParamsRoundTrip(p: PersonParams, agent: Address)
    ensures ToPersonParams(OptionalPersonParams(p.name, Some(p.agentAddress), Some(p.status)), agent) == p
  {
  }

  /** Supplying only a name gives the caller's own, active person. */
  lemma ToPersonParamsDefaults(name: string, agent: Address)
    ensures ToPersonParams(OptionalPersonParams(name, None, None), agent) == DefaultPersonParams(agent).(name := name)
  {
  }

  /** The person `create_person` builds: the parameters' own name, agent and status. */
  function PersonOf(params: PersonParams): (p: Person)
    ensures p.name == params.name && p.agentAddress == params.agentAddress && p.status == params.status
  {
    Person(params.agentAddress, params.name, params.status)
  }

  // ----- create_person -----

  /** The one write of `commit_person`. */
  function PersonPlan(hash: Entry -> Address, person: Person, agent: Address): seq<Write<Entry>>
  {
    [PutEntry(hash, PersonEntry(person), agent)]
  }

  /** `commit_person`. The classic hdk runs the entry type's validation before
      storing, with the committing agent as the only source: an inadmissible
      person is refused with the validator's message and nothing is written. */
  method CommitPerson(store: Store<Entry>, person: Person, agent: Address)
    returns (r: Result<Address>, ghost written: seq<Write<Entry>>)
    requires store.Valid()
    modifies store
    ensures store.Valid()
    ensures written <= PersonPlan(store.hash, person, agent)
    ensures store.State() == ApplyAll(old(store.State()), written)
    ensures r.Ok? <==> written == PersonPlan(store.hash, person, agent)
    ensures r.Ok? ==> r.value == store.hash(PersonEntry(person)) && PersonAdmissible(Create(person), {agent})
    ensures !PersonAdmissible(Create(person), {agent}) ==> r == Err(ValidatePerson(Create(person), {agent}).msg)
  {
    var verdict := ValidatePerson(Create(person), {agent});
    if verdict.Err? {
      return Err(verdict.msg), [];
    }
    r := store.Commit(PersonEntry(person), agent);
    written := if r.Ok? then PersonPlan(store.hash, person, agent) else [];
  }

  /** `create_person`: a person is created only for the calling agent and
      under a name that fits; every failure is prefixed "create_person: ". */
  method CreatePerson(store: Store<Entry>, params: PersonParams, agent: Address)
    returns (r: Result<PersonPayload>, ghost written: seq<Write<Entry>>)
    requires store.Valid()
    modifies store
    ensures store.Valid()
    ensures written <= PersonPlan(store.hash, PersonOf(params), agent)
    ensures store.State() == ApplyAll(old(store.State()), written)
    ensures r.Ok? <==> written == PersonPlan(store.hash, PersonOf(params), agent)
    ensures r.Ok? ==> r.value == PersonPayload(store.hash(PersonEntry(PersonOf(params))), PersonOf(params))
    ensures r.Ok? ==> params.agentAddress == agent && Utf8Length(params.name) <= MaxNameBytes
    ensures r.Err? ==> CreatePersonTag <= r.msg
    ensures params.agentAddress != agent ==> r == Err(CreatePersonTag + NotByAgent)
  {
    var person := PersonOf(params);
    var committed;
    committed, written := CommitPerson(store, person, agent);
    var tagged := T(CreatePersonTag, committed);
    if tagged.Err? {
      return Err(tagged.msg), written;
    }
    r := Ok(PersonPayload(tagged.value, person));
  }
}
