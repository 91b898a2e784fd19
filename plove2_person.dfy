/** People of the protocol_love zome (zomes/protocol_love/src/person.rs): the
    Person validation callbacks, the parameter conversions, `create_person`
    and `get_person`. The newer hdk judges a write by its header's author
    alone: a person must carry the key of the agent who writes it. */
module Plove2Person {
  import opened Results
  import opened Substrate
  import opened Text
  import opened Plove2Types
  import PloveTypes
  import PlovePerson

  const NoPersonGeneral := "No Person"
  const NoPerson := "No person"
  const CreateNotSelf := "Agent can only create Person representing oneself"
  const UpdateNotSelf := "Agent can only update Person representing oneself"
  const NameTooLong := "Name is too long"
  /** The longest admissible name, in UTF-8 bytes. */
  const MaxNameBytes := 64
  const PersonNotFound := "person hash not found"

  // ----- validation -----

  /** `validate_name`: at most 64 bytes of UTF-8. */
  function ValidateName(name: string): (r: Verdict)
    ensures r.Valid? <==> Utf8Length(name) <= MaxNameBytes
    ensures r.Invalid? ==> r.reason == NameTooLong
  {
    if Utf8Length(name) > MaxNameBytes then Invalid(NameTooLong) else Valid
  }

  /** The name rule is the classic zome's, byte for byte. */
  lemma NameRuleUnchanged(name: string)
    ensures ValidateName(name).Valid? <==> PlovePerson.ValidateName(name).Ok?
    ensures ValidateName(name).Invalid? ==> ValidateName(name).reason == PlovePerson.ValidateName(name).msg
  {
  }

  /** The limit counts bytes, not characters: 32 copies of 'é' fit, 33 do not. */
  lemma NameLimitBytes()
    ensures ValidateName(seq(32, _ => 'é')) == Valid
    ensures ValidateName(seq(33, _ => 'é')) == Invalid(NameTooLong)
  {
    Utf8LengthRepeat('é', 32);
    Utf8LengthRepeat('é', 33);
  }

  /** `validate_person`: any Person is valid. */
  function ValidatePerson(e: Entry): (r: Verdict)
    ensures r.Valid? <==> e.PersonEntry?
    ensures r.Invalid? ==> r.reason == NoPersonGeneral
  {
    if e.PersonEntry? then Valid else Invalid(NoPersonGeneral)
  }

  /** A Person write is admissible when the person carries its author's key
      and its name fits. */
  predicate PersonAdmissible(e: Entry, author: Address)
  {
    e.PersonEntry? && e.person.agentInitialPubkey == author && Utf8Length(e.person.name) <= MaxNameBytes
  }

  /** `validate_create_person`, for an entry written by `author`. */
  function ValidateCreatePerson(e: Entry, author: Address): (r: Verdict)
    ensures r.Valid? <==> PersonAdmissible(e, author)
    ensures !e.PersonEntry? ==> r == Invalid(NoPerson)
    ensures e.PersonEntry? && e.person.agentInitialPubkey != author ==> r == Invalid(CreateNotSelf)
    ensures e.PersonEntry? && e.person.agentInitialPubkey == author ==> r == ValidateName(e.person.name)
  {
    match e
    case PersonEntry(p) => if p.agentInitialPubkey == author then ValidateName(p.name) else Invalid(CreateNotSelf)
    case _ => Invalid(NoPerson)
  }

  /** `validate_update_person`: the rule of a create, with its own message.
      Only the new version is looked at. */
  function ValidateUpdatePerson(e: Entry, author: Address): (r: Verdict)
    ensures r.Valid? <==> PersonAdmissible(e, author)
    ensures !e.PersonEntry? ==> r == Invalid(NoPerson)
    ensures e.PersonEntry? && e.person.agentInitialPubkey != author ==> r == Invalid(UpdateNotSelf)
    ensures e.PersonEntry? && e.person.agentInitialPubkey == author ==> r == ValidateName(e.person.name)
  {
    match e
    case PersonEntry(p) => if p.agentInitialPubkey == author then ValidateName(p.name) else Invalid(UpdateNotSelf)
    case _ => Invalid(NoPerson)
  }

  /** The callbacks the conductor runs for a Person write by `author`. No
      delete callback is defined, so a delete only meets `validate_person`. */
  function ValidatePersonWrite(op: WriteOp, e: Entry, author: Address): (r: Verdict)
    ensures op != DeleteOp ==> (r.Valid? <==> PersonAdmissible(e, author))
    ensures op == DeleteOp ==> (r.Valid? <==> e.PersonEntry?)
    ensures !e.PersonEntry? ==> r == Invalid(NoPersonGeneral)
  {
    Both(ValidatePerson(e),
         match op
         case CreateOp => ValidateCreatePerson(e, author)
         case UpdateOp => ValidateUpdatePerson(e, author)
         case DeleteOp => Valid)
  }

  /** Since the old version is never consulted, any agent may replace any
      person by one carrying its own key: the classic zome refused a changed
      agent. */
  lemma UpdateMayRebindPerson(before: Person, agent: Address, name: string)
    requires Utf8Length(name) <= MaxNameBytes
    ensures ValidatePersonWrite(UpdateOp, PersonEntry(before.(agentInitialPubkey := agent, name := name)), agent) == Valid
    ensures before.agentInitialPubkey != agent ==>
              PlovePerson.ValidatePerson(PloveTypes.Modify(PloveTypes.Person(agent, name, PloveTypes.Active), PloveTypes.Person(before.agentInitialPubkey, before.name, PloveTypes.Active)), {agent})
              == Err(PlovePerson.AgentChanged)
  {
  }

  // ----- parameters -----

  datatype OptionalPersonParams = OptionalPersonParams(agentInitialPubkey: Option<Address>, collectiveEntryHash: Address, name: string, status: Option<PersonStatus>)

  datatype PersonParams = PersonParams(collectiveEntryHash: Option<Address>, name: string, status: PersonStatus)

  datatype PersonPayload = PersonPayload(personHeaderHash: Address, personEntryHash: Address, person: Person)

  /** `Into<PersonParams> for OptionalPersonParams`: the collective becomes
      optional, a missing status becomes the default. */
  function ToPersonParams(o: OptionalPersonParams): (p: PersonParams)
    ensures p.collectiveEntryHash == Some(o.collectiveEntryHash)
    ensures p.name == o.name
    ensures o.status.Some? ==> p.status == o.status.value
    ensures o.status.None? ==> p.status == DefaultStatus
  {
    PersonParams(Some(o.collectiveEntryHash), o.name, match o.status { case Some(s) => s case None => DefaultStatus })
  }

  /** The optional agent key is dropped by the conversion, whatever it says. */
  lemma ToPersonParamsIgnoresKey(o: OptionalPersonParams, key: Option<Address>)
    ensures ToPersonParams(o.(agentInitialPubkey := key)) == ToPersonParams(o)
  {
  }

  /** Supplying collective, name and status gives those parameters back. */
  lemma ToPersonParamsRoundTrip(collective: Address, name: string, status: PersonStatus, key: Option<Address>)
    ensures ToPersonParams(OptionalPersonParams(key, collective, name, Some(status))) == PersonParams(Some(collective), name, status)
  {
  }

  /** The person the parameters describe for the calling agent `agent`. */
  function PersonOf(params: PersonParams, agent: Address): Person
  {
    Person(agent, params.name, params.status)
  }

  /** `Into<ExternResult<Person>> for PersonParams`: the person always carries
      the calling agent's key, so only its name can make validation refuse it;
      an `agent_info` failure is passed on. */
  method ToPerson(params: PersonParams, agent: Address) returns (r: Result<Person>)
    ensures r.Ok? ==> r.value == PersonOf(params, agent)
    ensures r.Ok? ==> (PersonAdmissible(PersonEntry(r.value), agent) <==> Utf8Length(params.name) <= MaxNameBytes)
  {
    var info := AgentInfo(agent);
    match info {
      case Err(e) => r := Err(e);
      case Ok(key) => r := Ok(Person(key, params.name, params.status));
    }
  }

  // ----- create_person -----

  /** The tag of the collective -> person link: the serialised entry hash of
      the person, here its decimal spelling. */
  function HashTag(personEntryHash: Address): string
  {
    Decimal(personEntryHash)
  }

  /** A hash tag is all digits, so it is never a word of the zome's. */
  lemma HashTagNotWord(personEntryHash: Address, word: string, i: nat)
    requires i < |word| && !('0' <= word[i] <= '9')
    ensures HashTag(personEntryHash) != word
  {
    var t := HashTag(personEntryHash);
    if |t| > i {
      assert '0' <= t[i] <= '9';
    }
  }

  /** The writes of `create_person`: the person, then, when a collective is
      given, the link from it tagged with the person's hash. */
  function PersonPlan(hash: Entry -> Address, person: Person, collective: Option<Address>, agent: Address): seq<Write<Entry>>
  {
    var a := hash(PersonEntry(person));
    [PutEntry(hash, PersonEntry(person), agent)]
    + (match collective
       case Some(c) => [Append(Link(c, a, "", HashTag(a)))]
       case None => [])
  }

  /** `create_entry` of a Person by `agent`, judged by the Person callbacks
      first: a refused person is not written and the callback's reason is
      returned. */
  method CreatePersonEntry(store: Store<Entry>, person: Person, agent: Address)
    returns (r: Result<Address>)
    requires store.Valid()
    modifies store
    ensures store.Valid()
    ensures r.Ok? ==> && r.value == store.hash(PersonEntry(person))
                      && store.State() == Apply(old(store.State()), PutEntry(store.hash, PersonEntry(person), agent))
                      && PersonAdmissible(PersonEntry(person), agent)
    ensures r.Err? ==> store.State() == old(store.State())
    ensures !PersonAdmissible(PersonEntry(person), agent)
            ==> r == Err(ValidatePersonWrite(CreateOp, PersonEntry(person), agent).reason)
  {
    var verdict := ValidatePersonWrite(CreateOp, PersonEntry(person), agent);
    if verdict.Invalid? {
      return Err(verdict.reason);
    }
    r := store.Commit(PersonEntry(person), agent);
  }

  /** `create_person`: the calling agent's own person, under the given name
      and status, linked from the collective when one is given. A failure
      leaves the person in place if it was already written. */
  method CreatePerson(store: Store<Entry>, params: PersonParams, agent: Address)
    returns (r: Result<PersonPayload>, ghost written: seq<Write<Entry>>)
    requires store.Valid()
    modifies store
    ensures store.Valid()
    ensures written <= PersonPlan(store.hash, PersonOf(params, agent), params.collectiveEntryHash, agent)
    ensures store.State() == ApplyAll(old(store.State()), written)
    ensures r.Ok? <==> written == PersonPlan(store.hash, PersonOf(params, agent), params.collectiveEntryHash, agent)
    ensures r.Ok? ==> var a := store.hash(PersonEntry(PersonOf(params, agent)));
                      r.value == PersonPayload(a, a, PersonOf(params, agent))
    ensures Utf8Length(params.name) > MaxNameBytes ==> r.Err? && written == []
  {
    ghost var plan := PersonPlan(store.hash, PersonOf(params, agent), params.collectiveEntryHash, agent);
    written := [];
    var converted := ToPerson(params, agent);
    if converted.Err? {
      return Err(converted.msg), written;
    }
    var person := converted.value;
    var committed := CreatePersonEntry(store, person, agent);
    if committed.Err? {
      return Err(committed.msg), written;
    }
    var personHash := committed.value;
    written := [plan[0]];
    match params.collectiveEntryHash {
      case Some(c) =>
        var linked := store.CreateLink(Link(c, personHash, "", HashTag(personHash)));
        if linked.Err? {
          return Err(linked.msg), written;
        }
        ApplyAllSnoc(old(store.State()), written, plan[1]);
        written := written + [plan[1]];
      case None =>
    }
    r := Ok(PersonPayload(personHash, personHash, person));
  }

  lemma PersonPlanShape(hash: Entry -> Address, person: Person, collective: Option<Address>, agent: Address)
    ensures var p := PersonPlan(hash, person, collective, agent);
            var a := hash(PersonEntry(person));
            && Addressed(hash, p) && NoSupersede(p)
            && p[0] == PutEntry(hash, PersonEntry(person), agent)
            && AppendedLinks(p) == (if collective.Some? then [Link(collective.value, a, "", HashTag(a))] else [])
  {
    var p := PersonPlan(hash, person, collective, agent);
    if collective.Some? {
      assert p[1..][1..] == [];
      assert AppendedLinks(p[1..][1..]) == [];
    } else {
      assert p[1..] == [];
    }
  }

  // ----- get_person -----

  /** `get_person`: the Person stored at the hash, with its header hash (an
      entry and its header share one address here). */
  function GetPerson(db: Db<Entry>, personEntryHash: Address): (r: Result<PersonPayload>)
    ensures r.Ok? <==> EntryAt(db, personEntryHash).Some? && EntryAt(db, personEntryHash).value.PersonEntry?
    ensures r.Ok? ==> && r.value.personEntryHash == personEntryHash && r.value.personHeaderHash == personEntryHash
                      && EntryAt(db, personEntryHash) == Some(PersonEntry(r.value.person))
    ensures r.Err? ==> r.msg == PersonNotFound
  {
    match EntryAt(db, personEntryHash)
    case Some(e) => if e.PersonEntry? then Ok(PersonPayload(personEntryHash, personEntryHash, e.person)) else Err(PersonNotFound)
    case None => Err(PersonNotFound)
  }

  /** What `create_person` writes, `get_person` reads back: the payload it
      returned. */
  lemma CreateThenGet(hash: Entry -> Address, db: Db<Entry>, params: PersonParams, agent: Address)
    requires Injective(hash) && ContentAddressed(hash, db)
    ensures var person := PersonOf(params, agent);
            var a := hash(PersonEntry(person));
            GetPerson(ApplyAll(db, PersonPlan(hash, person, params.collectiveEntryHash, agent)), a)
              == Ok(PersonPayload(a, a, person))
  {
    var person := PersonOf(params, agent);
    PersonPlanShape(hash, person, params.collectiveEntryHash, agent);
    WrittenReadable(hash, db, PersonPlan(hash, person, params.collectiveEntryHash, agent), 0);
  }
}
