/** protocol_love collectives (zomes/protocol_love/src/collective.rs): the
    Collective validation callbacks, creating a collective with its admin,
    journal and ledger, renaming it, and the lookups. Every `create_entry` and
    `update` of a Person or Collective is judged by its callbacks first, its
    header's author being the calling agent. */
module Plove2Collective {
  import opened Results
  import opened Substrate
  import opened Text
  import opened Ledgers
  import opened Plove2Utils
  import opened Plove2Types
  import Plove2Person
  import Plove2Ledger
  import Plove2Action
  import PloveLedger

  const NoCollective := "No Collective"
  const CollectiveCannotDelete := "Collective cannot be deleted"
  const NoAdminHash := "No admin_entry_hash"
  const NotSameAgent := "Collective must be modified with same agent as the given person"
  const NoAdmin := "No admin"
  const CollectiveNotFound := "collective hash not found"
  const CouldNotFind := "Could not find collective"

  const CreateTag := "create_collective: "
  const AddPersonTag := "add_collective_person: "

  /** `CollectivePersonTag`: the tag `get_collective_people` looks for. */
  const PeopleLinkTag := "collective_person"
  /** `CreateCollectiveTag`, `AddCollectivePersonTag`, `AddCollectiveNameTag`
      and `SetCollectiveNameTag`. */
  const CreatedActionTag := "create_collective"
  const AddPersonLinkTag := "add_collective_person"
  const AddPersonActionTag := "add_collective_name"
  const RenamedActionTag := "set_collective_name"

  datatype CreateCollectiveParams = CreateCollectiveParams(name: string, agentInitialPubkey: Option<Address>, adminEntryHash: Option<Address>)
  datatype CollectivePayload = CollectivePayload(collectiveEntryHash: Address, collective: Collective)
  datatype PeoplePayload = PeoplePayload(collectiveEntryHash: Address, people: seq<Address>)

  // ----- validation -----

  /** `validate_collective`: any Collective is valid. */
  function ValidateCollective(e: Entry): (r: Verdict)
    ensures r.Valid? <==> e.CollectiveEntry?
    ensures r.Invalid? ==> r.reason == NoCollective
  {
    if e.CollectiveEntry? then Valid else Invalid(NoCollective)
  }

  /** The admin hash names a Person stored by the agent whose key it carries. */
  predicate AdminSelfAuthored(db: Db<Entry>, admin: Option<Address>)
  {
    && admin.Some?
    && EntryAt(db, admin.value).Some? && EntryAt(db, admin.value).value.PersonEntry?
    && EntryAt(db, admin.value).value.person.agentInitialPubkey == db.entries[admin.value].author
  }

  /** `validate_upsert_collective`, reading the admin's element from `db`.
      Nothing in it depends on who writes the collective. */
  function ValidateUpsertCollective(db: Db<Entry>, c: Collective): (r: Verdict)
    ensures r.Valid? <==> AdminSelfAuthored(db, c.adminEntryHash)
    ensures c.adminEntryHash.None? ==> r == Invalid(NoAdminHash)
    ensures c.adminEntryHash.Some? && !(EntryAt(db, c.adminEntryHash.value).Some? && EntryAt(db, c.adminEntryHash.value).value.PersonEntry?)
            ==> r == Invalid(NoAdmin)
    ensures c.adminEntryHash.Some? && EntryAt(db, c.adminEntryHash.value).Some? && EntryAt(db, c.adminEntryHash.value).value.PersonEntry?
            && !AdminSelfAuthored(db, c.adminEntryHash)
            ==> r == Invalid(NotSameAgent)
  {
    match c.adminEntryHash
    case None => Invalid(NoAdminHash)
    case Some(h) =>
      if h in db.entries && db.entries[h].entry.PersonEntry? then
        if db.entries[h].entry.person.agentInitialPubkey == db.entries[h].author then Valid else Invalid(NotSameAgent)
      else Invalid(NoAdmin)
  }

  /** `get_validate_collective` around `validate_upsert_collective`, the body
      of both `validate_create_collective` and `validate_update_collective`. */
  function ValidateUpsertEntry(db: Db<Entry>, e: Entry): (r: Verdict)
    ensures r.Valid? <==> e.CollectiveEntry? && AdminSelfAuthored(db, e.collective.adminEntryHash)
    ensures !e.CollectiveEntry? ==> r == Invalid(NoCollective)
    ensures e.CollectiveEntry? ==> r == ValidateUpsertCollective(db, e.collective)
  {
    if e.CollectiveEntry? then ValidateUpsertCollective(db, e.collective) else Invalid(NoCollective)
  }

  /** The callbacks the conductor runs for a Collective write:
      `validate_collective`, then the one for the kind of write. */
  function ValidateCollectiveWrite(db: Db<Entry>, op: WriteOp, e: Entry): (r: Verdict)
    ensures r.Valid? <==> op != DeleteOp && e.CollectiveEntry? && AdminSelfAuthored(db, e.collective.adminEntryHash)
    ensures !e.CollectiveEntry? ==> r == Invalid(NoCollective)
    ensures op == DeleteOp && e.CollectiveEntry? ==> r == Invalid(CollectiveCannotDelete)
    ensures op != DeleteOp && e.CollectiveEntry? ==> r == ValidateUpsertCollective(db, e.collective)
  {
    Both(ValidateCollective(e),
         match op
         case CreateOp => ValidateUpsertEntry(db, e)
         case UpdateOp => ValidateUpsertEntry(db, e)
         case DeleteOp => Invalid(CollectiveCannotDelete))
  }

  /** Only the admin named by the new version matters: renaming, or any other
      change that keeps the admin hash, gets the verdict of the original. */
  lemma VerdictFollowsAdmin(db: Db<Entry>, c: Collective, d: Collective)
    requires c.adminEntryHash == d.adminEntryHash
    ensures ValidateCollectiveWrite(db, UpdateOp, CollectiveEntry(c)) == ValidateCollectiveWrite(db, UpdateOp, CollectiveEntry(d))
  {
  }

  /** In a store where every person passed `validate_create_person`, any
      existing person may be named admin: the author check can no longer fail. */
  lemma AnyPersonQualifies(db: Db<Entry>, c: Collective)
    requires forall a :: a in db.entries && db.entries[a].entry.PersonEntry? ==>
               Plove2Person.PersonAdmissible(db.entries[a].entry, db.entries[a].author)
    requires c.adminEntryHash.Some? && Plove2Person.GetPerson(db, c.adminEntryHash.value).Ok?
    ensures ValidateCollectiveWrite(db, CreateOp, CollectiveEntry(c)) == Valid
  {
    assert c.adminEntryHash.value in db.entries;
  }

  // ----- create_collective_action and the journal -----

  /** The writes of `create_collective_action`: the action, then the link
      from the collective tagged with the action's tag. */
  function ActionPlan(hash: Entry -> Address, collectiveHash: Address, action: Action, agent: Address): seq<Write<Entry>>
  {
    [PutEntry(hash, ActionEntry(action), agent),
     Append(Link(collectiveHash, hash(ActionEntry(action)), "", action.tag))]
  }

  /** The action `create_collective_action` journals: always Executed, with
      the link tag as its tag. */
  function Journalled(op: ActionOp, data: ActionData, prevData: ActionData, linkTag: string, strategy: ActionStrategy): (a: Action)
    ensures a.status == Executed && a.tag == linkTag
    ensures a.op == op && a.data == data && a.prevData == prevData && a.strategy == strategy
  {
    Action(op, Executed, data, prevData, linkTag, strategy)
  }

  /** `create_collective_action`. */
  method CreateCollectiveAction(store: Store<Entry>, collectiveHash: Address, op: ActionOp, data: ActionData, prevData: ActionData, linkTag: string, strategy: ActionStrategy, agent: Address)
    returns (r: Result<ActionCommit>, ghost written: seq<Write<Entry>>)
    requires store.Valid()
    modifies store
    ensures store.Valid()
    ensures written <= ActionPlan(store.hash, collectiveHash, Journalled(op, data, prevData, linkTag, strategy), agent)
    ensures store.State() == ApplyAll(old(store.State()), written)
    ensures r.Ok? <==> written == ActionPlan(store.hash, collectiveHash, Journalled(op, data, prevData, linkTag, strategy), agent)
    ensures r.Ok? ==> var a := Journalled(op, data, prevData, linkTag, strategy);
                      r.value == ActionCommit(store.hash(ActionEntry(a)), ActionEntry(a), a)
  {
    var action := Journalled(op, data, prevData, linkTag, strategy);
    ghost var plan := ActionPlan(store.hash, collectiveHash, action, agent);
    written := [];
    var committed := store.Commit(ActionEntry(action), agent);
    if committed.Err? {
      return Err(committed.msg), written;
    }
    written := [plan[0]];
    var linked := store.CreateLink(Link(collectiveHash, committed.value, "", linkTag));
    if linked.Err? {
      return Err(linked.msg), written;
    }
    ApplyAllSnoc(old(store.State()), written, plan[1]);
    written := plan;
    r := Ok(ActionCommit(committed.value, ActionEntry(action), action));
  }

  lemma ActionPlanShape(hash: Entry -> Address, collectiveHash: Address, action: Action, agent: Address)
    ensures Addressed(hash, ActionPlan(hash, collectiveHash, action, agent))
    ensures NoSupersede(ActionPlan(hash, collectiveHash, action, agent))
    ensures AppendedLinks(ActionPlan(hash, collectiveHash, action, agent))
         == [Link(collectiveHash, hash(ActionEntry(action)), "", action.tag)]
  {
    var p := ActionPlan(hash, collectiveHash, action, agent);
    assert p[1..][1..] == [];
    assert AppendedLinks(p[1..][1..]) == [];
    assert AppendedLinks(p[1..]) == [p[1].link];
  }

  /** The action `create_create_collective_action` journals. */
  function CreatedAction(c: Collective): Action
  {
    Journalled(ActionOp.CreateCollective, CollectiveData(c), Unit, CreatedActionTag, SystemAutomatic)
  }

  /** The action `create_set_collective_name_action` journals; `prev` is the
      name replaced, if any. */
  function RenamedAction(name: string, prev: Option<string>): Action
  {
    Journalled(ActionOp.SetCollectiveName, NameData(name), match prev { case Some(p) => NameData(p) case None => Unit },
               RenamedActionTag, SystemAutomatic)
  }

  /** The action `create_add_collective_person_action` journals: tagged
      `add_collective_name`, not `add_collective_person`. */
  function PersonAddedAction(person: Address): Action
  {
    Journalled(ActionOp.AddCollectivePerson, PersonData(person), Unit, AddPersonActionTag, SystemAutomatic)
  }

  // ----- add_collective_person and the lookups -----

  /** The writes of `add_collective_person`: the link tagged
      `add_collective_person`, then the AddCollectivePerson action. */
  function AddPersonPlan(hash: Entry -> Address, collectiveHash: Address, person: Address, agent: Address): seq<Write<Entry>>
  {
    [Append(Link(collectiveHash, person, "", AddPersonLinkTag))]
    + ActionPlan(hash, collectiveHash, PersonAddedAction(person), agent)
  }

  /** `add_collective_person`: a failed link has the "add_collective_person: "
      breadcrumb, a failed action none. */
  method AddCollectivePerson(store: Store<Entry>, collectiveHash: Address, person: Address, agent: Address)
    returns (r: Result<()>, ghost written: seq<Write<Entry>>)
    requires store.Valid()
    modifies store
    ensures store.Valid()
    ensures written <= AddPersonPlan(store.hash, collectiveHash, person, agent)
    ensures store.State() == ApplyAll(old(store.State()), written)
    ensures r.Ok? <==> written == AddPersonPlan(store.hash, collectiveHash, person, agent)
    ensures r.Err? && written == [] ==> AddPersonTag <= r.msg
  {
    ghost var db0 := store.State();
    ghost var p0 := [Append(Link(collectiveHash, person, "", AddPersonLinkTag))];
    ghost var p1 := ActionPlan(store.hash, collectiveHash, PersonAddedAction(person), agent);
    written := [];
    var linked := store.CreateLink(Link(collectiveHash, person, "", AddPersonLinkTag));
    var tagged := T(linked, AddPersonTag);
    if tagged.Err? {
      return Err(tagged.msg), written;
    }
    written := p0;
    var journalled, w := CreateCollectiveAction(store, collectiveHash, ActionOp.AddCollectivePerson, PersonData(person), Unit, AddPersonActionTag, SystemAutomatic, agent);
    Step(db0, written, w, p1, []);
    assert p0 + p1 + [] == p0 + p1;
    written := written + w;
    if journalled.Err? {
      return Err(journalled.msg), written;
    }
    r := Ok(());
  }

  /** `get_collective_people`: the targets of the links tagged exactly
      `collective_person`, in link order. */
  function GetCollectivePeople(db: Db<Entry>, collectiveHash: Address): (r: PeoplePayload)
    ensures r.collectiveEntryHash == collectiveHash
    ensures r.people == Targets(Query(db.links, collectiveHash, Any, Exactly(PeopleLinkTag)))
  {
    PeoplePayload(collectiveHash, Targets(Query(db.links, collectiveHash, Any, Exactly(PeopleLinkTag))))
  }

  /** A person is listed exactly when a `collective_person` link leads to it. */
  lemma PeopleMembers(db: Db<Entry>, collectiveHash: Address, person: Address)
    ensures person in GetCollectivePeople(db, collectiveHash).people
            <==> exists l :: l in db.links && l.source == collectiveHash && l.tag == PeopleLinkTag && l.target == person
  {
    var q := Query(db.links, collectiveHash, Any, Exactly(PeopleLinkTag));
    QueryMembers(db.links, collectiveHash, Any, Exactly(PeopleLinkTag));
    if person in Targets(q) {
      var i :| 0 <= i < |q| && Targets(q)[i] == person;
      assert q[i] in q;
    }
    if exists l :: l in db.links && l.source == collectiveHash && l.tag == PeopleLinkTag && l.target == person {
      var l :| l in db.links && l.source == collectiveHash && l.tag == PeopleLinkTag && l.target == person;
      assert l in q;
      var i :| 0 <= i < |q| && q[i] == l;
      assert Targets(q)[i] == person;
    }
  }

  /** No link of `ls` carries `tag`, so a query for it finds nothing. */
  lemma {:induction false} NoTaggedLink(ls: seq<Link>, source: Address, tag: string)
    requires forall i :: 0 <= i < |ls| ==> ls[i].tag != tag
    ensures Query(ls, source, Any, Exactly(tag)) == []
  {
    if ls != [] {
      QueryCons(ls[0], ls[1..], source, Any, Exactly(tag));
      assert [ls[0]] + ls[1..] == ls;
      assert forall i :: 0 <= i < |ls[1..]| ==> ls[1..][i] == ls[i + 1];
      NoTaggedLink(ls[1..], source, tag);
    }
  }

  /** Writes whose links carry no `tag` leave every query for it as it was. */
  lemma QueryUnchanged(db: Db<Entry>, ws: seq<Write<Entry>>, source: Address, tag: string)
    requires forall i :: 0 <= i < |AppendedLinks(ws)| ==> AppendedLinks(ws)[i].tag != tag
    ensures Query(ApplyAll(db, ws).links, source, Any, Exactly(tag)) == Query(db.links, source, Any, Exactly(tag))
  {
    var ls := AppendedLinks(ws);
    LinksAfter(db, ws);
    QueryConcat(db.links, ls, source, Any, Exactly(tag));
    NoTaggedLink(ls, source, tag);
    assert Query(db.links, source, Any, Exactly(tag)) + [] == Query(db.links, source, Any, Exactly(tag));
  }

  /** Writes whose links carry no `collective_person` tag leave every list of
      people as it was. */
  lemma PeopleUnchanged(db: Db<Entry>, ws: seq<Write<Entry>>, collectiveHash: Address)
    requires forall i :: 0 <= i < |AppendedLinks(ws)| ==> AppendedLinks(ws)[i].tag != PeopleLinkTag
    ensures GetCollectivePeople(ApplyAll(db, ws), collectiveHash) == GetCollectivePeople(db, collectiveHash)
  {
    QueryUnchanged(db, ws, collectiveHash, PeopleLinkTag);
  }

  /** `get_collective`: the Collective stored at the hash. */
  function GetCollective(db: Db<Entry>, collectiveHash: Address): (r: Result<CollectivePayload>)
    ensures r.Ok? <==> EntryAt(db, collectiveHash).Some? && EntryAt(db, collectiveHash).value.CollectiveEntry?
    ensures r.Ok? ==> r.value.collectiveEntryHash == collectiveHash
                      && EntryAt(db, collectiveHash) == Some(CollectiveEntry(r.value.collective))
    ensures r.Err? ==> r.msg == CollectiveNotFound
  {
    match EntryAt(db, collectiveHash)
    case Some(e) => if e.CollectiveEntry? then Ok(CollectivePayload(collectiveHash, e.collective)) else Err(CollectiveNotFound)
    case None => Err(CollectiveNotFound)
  }

  // ----- create_collective -----

  /** `create_entry` of a Collective by `agent`, judged by the Collective
      callbacks first: a refused collective is not written and the callback's
      reason is the error. */
  method CreateCollectiveEntry(store: Store<Entry>, collective: Collective, agent: Address)
    returns (r: Result<Address>)
    requires store.Valid()
    modifies store
    ensures store.Valid()
    ensures r.Ok? ==> && r.value == store.hash(CollectiveEntry(collective))
                      && store.State() == Apply(old(store.State()), PutEntry(store.hash, CollectiveEntry(collective), agent))
                      && AdminSelfAuthored(old(store.State()), collective.adminEntryHash)
    ensures r.Err? ==> store.State() == old(store.State())
    ensures !AdminSelfAuthored(old(store.State()), collective.adminEntryHash)
            ==> r == Err(ValidateUpsertCollective(old(store.State()), collective).reason)
  {
    var verdict := ValidateCollectiveWrite(store.State(), CreateOp, CollectiveEntry(collective));
    if verdict.Invalid? {
      return Err(verdict.reason);
    }
    r := store.Commit(CollectiveEntry(collective), agent);
  }

  /** The Person at the given admin hash, if the hash is given and holds one. */
  function GivenAdmin(db: Db<Entry>, params: CreateCollectiveParams): Option<Person>
  {
    match params.adminEntryHash
    case Some(h) => if EntryAt(db, h).Some? && EntryAt(db, h).value.PersonEntry? then Some(EntryAt(db, h).value.person) else None
    case None => None
  }

  /** `create_collective_admin`'s parameters: no collective, the collective's
      name, the default status. */
  function AdminParams(name: string): Plove2Person.PersonParams
  {
    Plove2Person.PersonParams(None, name, DefaultStatus)
  }

  /** The admin `create_collective` works with: the given person, or else the
      calling agent's own person named after the collective. */
  function AdminPerson(db: Db<Entry>, params: CreateCollectiveParams, agent: Address): Person
  {
    match GivenAdmin(db, params)
    case Some(p) => p
    case None => Plove2Person.PersonOf(AdminParams(params.name), agent)
  }

  /** That admin's entry hash. */
  function AdminHash(hash: Entry -> Address, db: Db<Entry>, params: CreateCollectiveParams, agent: Address): Address
  {
    if GivenAdmin(db, params).Some? then params.adminEntryHash.value else hash(PersonEntry(AdminPerson(db, params, agent)))
  }

  /** The writes that resolve the admin: none for a given person, the new
      person otherwise. */
  function AdminPlan(hash: Entry -> Address, db: Db<Entry>, params: CreateCollectiveParams, agent: Address): seq<Write<Entry>>
  {
    if GivenAdmin(db, params).Some? then []
    else Plove2Person.PersonPlan(hash, Plove2Person.PersonOf(AdminParams(params.name), agent), None, agent)
  }

  /** The collective `create_collective` commits: the admin's key, and the
      admin hash exactly as supplied, possibly none. */
  function Created(db: Db<Entry>, params: CreateCollectiveParams, agent: Address): Collective
  {
    Collective(params.name, AdminPerson(db, params, agent).agentInitialPubkey, params.adminEntryHash)
  }

  /** The writes after the admin is known: the collective, its CreateCollective
      action, its primary ledger, its SetCollectiveName action, and, when the
      collective names an admin, the admin's link with its AddCollectivePerson
      action. */
  function CollectivePlan(hash: Entry -> Address, c: Collective, agent: Address): seq<Write<Entry>>
  {
    var a := hash(CollectiveEntry(c));
    [PutEntry(hash, CollectiveEntry(c), agent)]
    + ActionPlan(hash, a, CreatedAction(c), agent)
    + Plove2Ledger.LedgerPlan(hash, c, a, agent)
    + ActionPlan(hash, a, RenamedAction(c.name, None), agent)
    + (match c.adminEntryHash case Some(h) => AddPersonPlan(hash, a, h, agent) case None => [])
  }

  /** Everything a successful `create_collective` writes, in order. */
  function CreatePlan(hash: Entry -> Address, db: Db<Entry>, params: CreateCollectiveParams, agent: Address): seq<Write<Entry>>
  {
    AdminPlan(hash, db, params, agent) + CollectivePlan(hash, Created(db, params, agent), agent)
  }

  /** Resolving the admin: a given hash holding a Person is used as it is;
      otherwise (no hash, nothing there, or no Person there) a person named
      after the collective is created, and its failure is passed on. */
  method ResolveAdmin(store: Store<Entry>, params: CreateCollectiveParams, agent: Address)
    returns (r: Result<Plove2Person.PersonPayload>, ghost written: seq<Write<Entry>>)
    requires store.Valid()
    modifies store
    ensures store.Valid()
    ensures written <= AdminPlan(store.hash, old(store.State()), params, agent)
    ensures store.State() == ApplyAll(old(store.State()), written)
    ensures r.Ok? <==> written == AdminPlan(store.hash, old(store.State()), params, agent)
    ensures r.Ok? ==> && r.value.person == AdminPerson(old(store.State()), params, agent)
                      && r.value.personEntryHash == AdminHash(store.hash, old(store.State()), params, agent)
    ensures GivenAdmin(old(store.State()), params).None? && Utf8Length(params.name) > Plove2Person.MaxNameBytes
            ==> r.Err? && written == []
  {
    match params.adminEntryHash {
      case Some(h) =>
        var got := EntryAt(store.State(), h);
        if got.Some? && got.value.PersonEntry? {
          return Ok(Plove2Person.PersonPayload(h, h, got.value.person)), [];
        }
      case None =>
    }
    r, written := Plove2Person.CreatePerson(store, AdminParams(params.name), agent);
  }

  /** The first follow-up writes: the CreateCollective action, then the
      primary ledger. */
  function FoundingPlan(hash: Entry -> Address, c: Collective, a: Address, agent: Address): seq<Write<Entry>>
  {
    ActionPlan(hash, a, CreatedAction(c), agent) + Plove2Ledger.LedgerPlan(hash, c, a, agent)
  }

  /** The last follow-up writes: the SetCollectiveName action, then the
      admin's link with its AddCollectivePerson action. */
  function NamingPlan(hash: Entry -> Address, c: Collective, a: Address, admin: Address, agent: Address): seq<Write<Entry>>
  {
    ActionPlan(hash, a, RenamedAction(c.name, None), agent) + AddPersonPlan(hash, a, admin, agent)
  }

  /** The writes after the collective itself when it names `admin`. */
  function FollowUpPlan(hash: Entry -> Address, c: Collective, a: Address, admin: Address, agent: Address): seq<Write<Entry>>
  {
    FoundingPlan(hash, c, a, agent) + NamingPlan(hash, c, a, admin, agent)
  }

  /** Journal CreateCollective, then create the ledger; a failure carries the
      "create_collective: " breadcrumb. */
  method CreateFounding(store: Store<Entry>, collective: Collective, a: Address, agent: Address)
    returns (r: Result<()>, ghost written: seq<Write<Entry>>)
    requires store.Valid()
    modifies store
    ensures store.Valid()
    ensures written <= FoundingPlan(store.hash, collective, a, agent)
    ensures store.State() == ApplyAll(old(store.State()), written)
    ensures r.Ok? <==> written == FoundingPlan(store.hash, collective, a, agent)
    ensures r.Err? ==> CreateTag <= r.msg
  {
    ghost var db0 := store.State();
    ghost var p1 := ActionPlan(store.hash, a, CreatedAction(collective), agent);
    ghost var p2 := Plove2Ledger.LedgerPlan(store.hash, collective, a, agent);
    ghost var plan := FoundingPlan(store.hash, collective, a, agent);
    assert plan == [] + (p1 + p2);
    written := [];
    var journalled, w := CreateCollectiveAction(store, a, ActionOp.CreateCollective, CollectiveData(collective), Unit, CreatedActionTag, SystemAutomatic, agent);
    Advance(db0, plan, written, w, p1, p2);
    written := written + w;
    if journalled.Err? {
      return T(Err(journalled.msg), CreateTag), written;
    }
    assert plan == written + (p2 + []);
    var ledger;
    ledger, w := Plove2Ledger.CreateCollectiveLedger(store, collective, a, agent);
    Advance(db0, plan, written, w, p2, []);
    written := written + w;
    if ledger.Err? {
      return T(Err(ledger.msg), CreateTag), written;
    }
    r := Ok(());
  }

  /** Journal SetCollectiveName, then add the admin; a failure carries the
      "create_collective: " breadcrumb. */
  method CreateNaming(store: Store<Entry>, collective: Collective, a: Address, admin: Address, agent: Address)
    returns (r: Result<()>, ghost written: seq<Write<Entry>>)
    requires store.Valid()
    modifies store
    ensures store.Valid()
    ensures written <= NamingPlan(store.hash, collective, a, admin, agent)
    ensures store.State() == ApplyAll(old(store.State()), written)
    ensures r.Ok? <==> written == NamingPlan(store.hash, collective, a, admin, agent)
    ensures r.Err? ==> CreateTag <= r.msg
  {
    ghost var db0 := store.State();
    ghost var p3 := ActionPlan(store.hash, a, RenamedAction(collective.name, None), agent);
    ghost var p4 := AddPersonPlan(store.hash, a, admin, agent);
    ghost var plan := NamingPlan(store.hash, collective, a, admin, agent);
    assert plan == [] + (p3 + p4);
    written := [];
    var journalled, w := CreateCollectiveAction(store, a, ActionOp.SetCollectiveName, NameData(collective.name), Unit, RenamedActionTag, SystemAutomatic, agent);
    Advance(db0, plan, written, w, p3, p4);
    written := written + w;
    if journalled.Err? {
      return T(Err(journalled.msg), CreateTag), written;
    }
    assert plan == written + (p4 + []);
    var added;
    added, w := AddCollectivePerson(store, a, admin, agent);
    Advance(db0, plan, written, w, p4, []);
    written := written + w;
    if added.Err? {
      return T(Err(added.msg), CreateTag), written;
    }
    r := Ok(());
  }

  /** The steps of `create_collective` after the collective is committed at
      `a`: journal CreateCollective, create the ledger, journal
      SetCollectiveName, add the admin. Every failure is returned with the
      "create_collective: " breadcrumb. */
  method CreateFollowUps(store: Store<Entry>, collective: Collective, a: Address, admin: Address, agent: Address)
    returns (r: Result<()>, ghost written: seq<Write<Entry>>)
    requires store.Valid()
    modifies store
    ensures store.Valid()
    ensures written <= FollowUpPlan(store.hash, collective, a, admin, agent)
    ensures store.State() == ApplyAll(old(store.State()), written)
    ensures r.Ok? <==> written == FollowUpPlan(store.hash, collective, a, admin, agent)
    ensures r.Err? ==> CreateTag <= r.msg
  {
    ghost var db0 := store.State();
    ghost var pa := FoundingPlan(store.hash, collective, a, agent);
    ghost var pb := NamingPlan(store.hash, collective, a, admin, agent);
    ghost var plan := FollowUpPlan(store.hash, collective, a, admin, agent);
    assert plan == [] + (pa + pb);
    var founded, w := CreateFounding(store, collective, a, agent);
    Advance(db0, plan, [], w, pa, pb);
    written := w;
    if founded.Err? {
      return founded, written;
    }
    assert plan == written + (pb + []);
    var named;
    named, w := CreateNaming(store, collective, a, admin, agent);
    Advance(db0, plan, written, w, pb, []);
    written := written + w;
    r := named;
  }

  /** The steps of `create_collective` once the admin is known: commit the
      collective, then the follow-up steps, each failure with the
      "create_collective: " breadcrumb. A collective its validation refuses
      is not written. */
  method CreateResolved(store: Store<Entry>, collective: Collective, agent: Address)
    returns (r: Result<CollectivePayload>, ghost written: seq<Write<Entry>>)
    requires store.Valid()
    modifies store
    ensures store.Valid()
    ensures written <= CollectivePlan(store.hash, collective, agent)
    ensures store.State() == ApplyAll(old(store.State()), written)
    ensures r.Ok? <==> written == CollectivePlan(store.hash, collective, agent)
    ensures r.Ok? ==> r.value == CollectivePayload(store.hash(CollectiveEntry(collective)), collective)
    ensures r.Err? ==> CreateTag <= r.msg
    ensures !AdminSelfAuthored(old(store.State()), collective.adminEntryHash)
            ==> written == [] && r == Err(CreateTag + ValidateUpsertCollective(old(store.State()), collective).reason)
  {
    ghost var h := store.hash;
    ghost var db0 := store.State();
    ghost var a := h(CollectiveEntry(collective));
    ghost var p0 := [PutEntry(h, CollectiveEntry(collective), agent)];
    written := [];

    var committed := CreateCollectiveEntry(store, collective, agent);
    var tagged := T(committed, CreateTag);
    if tagged.Err? {
      return Err(tagged.msg), written;
    }
    written := p0;
    var collectiveHash := tagged.value;

    match collective.adminEntryHash {
      case Some(admin) =>
        ghost var pf := FollowUpPlan(h, collective, a, admin, agent);
        assert CollectivePlan(h, collective, agent) == p0 + (pf + []);
        var followed, w := CreateFollowUps(store, collective, collectiveHash, admin, agent);
        Advance(db0, CollectivePlan(h, collective, agent), written, w, pf, []);
        written := written + w;
        if followed.Err? {
          return Err(followed.msg), written;
        }
      case None =>
        // validation refused a collective without an admin hash above
        assert false;
    }
    r := Ok(CollectivePayload(collectiveHash, collective));
  }

  /** `create_collective`. The collective keeps the admin hash it was given;
      since its own validation refuses a collective without one, a call
      without an admin never writes a collective, though it may leave the
      admin person it created. Without a usable given admin the collective's
      name becomes a person's name, so a name over 64 bytes fails at once. */
  method CreateCollective(store: Store<Entry>, params: CreateCollectiveParams, agent: Address)
    returns (r: Result<CollectivePayload>, ghost written: seq<Write<Entry>>)
    requires store.Valid()
    modifies store
    ensures store.Valid()
    ensures written <= CreatePlan(store.hash, old(store.State()), params, agent)
    ensures store.State() == ApplyAll(old(store.State()), written)
    ensures r.Ok? <==> written == CreatePlan(store.hash, old(store.State()), params, agent)
    ensures r.Ok? ==> var c := Created(old(store.State()), params, agent);
                      r.value == CollectivePayload(store.hash(CollectiveEntry(c)), c)
    ensures r.Ok? ==> AdminSelfAuthored(ApplyAll(old(store.State()), AdminPlan(store.hash, old(store.State()), params, agent)), params.adminEntryHash)
    ensures params.adminEntryHash.None? ==> r.Err? && written <= AdminPlan(store.hash, old(store.State()), params, agent)
    ensures GivenAdmin(old(store.State()), params).None? && Utf8Length(params.name) > Plove2Person.MaxNameBytes
            ==> r.Err? && written == []
  {
    ghost var h := store.hash;
    ghost var db0 := store.State();
    ghost var pc := CollectivePlan(h, Created(db0, params, agent), agent);
    var admin;
    admin, written := ResolveAdmin(store, params, agent);
    if admin.Err? {
      return Err(admin.msg), written;
    }
    var collective := Collective(params.name, admin.value.person.agentInitialPubkey, params.adminEntryHash);
    assert collective == Created(db0, params, agent);
    ghost var w;
    r, w := CreateResolved(store, collective, agent);
    Step(db0, written, w, pc, []);
    assert written + pc + [] == CreatePlan(h, db0, params, agent);
    written := written + w;
  }

  /** The collective the zome evidently means to create: one naming the
      resolved admin, given or created. */
  function CorrectedCreated(hash: Entry -> Address, db: Db<Entry>, params: CreateCollectiveParams, agent: Address): Collective
  {
    Collective(params.name, AdminPerson(db, params, agent).agentInitialPubkey, Some(AdminHash(hash, db, params, agent)))
  }

  /** `create_collective` with the admin hash set to the resolved admin's. */
  method CreateCollectiveWithAdmin(store: Store<Entry>, params: CreateCollectiveParams, agent: Address)
    returns (r: Result<CollectivePayload>, ghost written: seq<Write<Entry>>)
    requires store.Valid()
    modifies store
    ensures store.Valid()
    ensures written <= AdminPlan(store.hash, old(store.State()), params, agent) + CollectivePlan(store.hash, CorrectedCreated(store.hash, old(store.State()), params, agent), agent)
    ensures store.State() == ApplyAll(old(store.State()), written)
    ensures r.Ok? <==> written == AdminPlan(store.hash, old(store.State()), params, agent) + CollectivePlan(store.hash, CorrectedCreated(store.hash, old(store.State()), params, agent), agent)
    ensures r.Ok? ==> var c := CorrectedCreated(store.hash, old(store.State()), params, agent);
                      r.value == CollectivePayload(store.hash(CollectiveEntry(c)), c)
  {
    ghost var h := store.hash;
    ghost var db0 := store.State();
    ghost var pc := CollectivePlan(h, CorrectedCreated(h, db0, params, agent), agent);
    var admin;
    admin, written := ResolveAdmin(store, params, agent);
    if admin.Err? {
      return Err(admin.msg), written;
    }
    var collective := Collective(params.name, admin.value.person.agentInitialPubkey, Some(admin.value.personEntryHash));
    assert collective == CorrectedCreated(h, db0, params, agent);
    ghost var w;
    r, w := CreateResolved(store, collective, agent);
    Step(db0, written, w, pc, []);
    assert written + pc + [] == AdminPlan(h, db0, params, agent) + pc;
    written := written + w;
  }

  /** As written, validation refuses every collective created without an
      admin hash, right after its admin person was created. */
  lemma NoAdminRefused(hash: Entry -> Address, db: Db<Entry>, params: CreateCollectiveParams, agent: Address)
    requires params.adminEntryHash.None?
    ensures ValidateCollectiveWrite(ApplyAll(db, AdminPlan(hash, db, params, agent)), CreateOp, CollectiveEntry(Created(db, params, agent)))
         == Invalid(NoAdminHash)
  {
  }

  /** With the correction, validation admits the collective whenever the admin
      was created for the caller: the new person is the caller's own. */
  lemma CorrectedAdmitted(hash: Entry -> Address, db: Db<Entry>, params: CreateCollectiveParams, agent: Address)
    requires Injective(hash) && ContentAddressed(hash, db)
    requires GivenAdmin(db, params).None?
    ensures ValidateCollectiveWrite(ApplyAll(db, AdminPlan(hash, db, params, agent)), CreateOp, CollectiveEntry(CorrectedCreated(hash, db, params, agent)))
         == Valid
  {
    var person := AdminPerson(db, params, agent);
    var pa := AdminPlan(hash, db, params, agent);
    Plove2Person.PersonPlanShape(hash, person, None, agent);
    WrittenReadable(hash, db, pa, 0);
    EntriesStable(hash, db, pa);
    var db' := ApplyAll(db, pa);
    assert pa == [PutEntry(hash, PersonEntry(person), agent)];
    assert db' == Apply(db, pa[0]);
  }

  /** When the given hash holds a Person, the correction changes nothing. */
  lemma CorrectionAgreesWhenGiven(hash: Entry -> Address, db: Db<Entry>, params: CreateCollectiveParams, agent: Address)
    requires GivenAdmin(db, params).Some?
    ensures CorrectedCreated(hash, db, params, agent) == Created(db, params, agent)
    ensures AdminPlan(hash, db, params, agent) == []
  {
  }

  // ----- what a creation leaves behind -----

  /** The links a creation appends once the admin is known, in order: the
      CreateCollective journal link, the ledger link, the SetCollectiveName
      journal link, the admin's link and its AddCollectivePerson journal link. */
  function CreateLinks(hash: Entry -> Address, c: Collective, admin: Address): seq<Link>
  {
    var a := hash(CollectiveEntry(c));
    [Link(a, hash(ActionEntry(CreatedAction(c))), "", CreatedActionTag),
     Link(a, hash(LedgerEntry(PrimaryLedger(c.name))), PloveLedger.LedgerLinkType, PloveLedger.PrimaryTag),
     Link(a, hash(ActionEntry(RenamedAction(c.name, None))), "", RenamedActionTag),
     Link(a, admin, "", AddPersonLinkTag),
     Link(a, hash(ActionEntry(PersonAddedAction(admin))), "", AddPersonActionTag)]
  }

  /** Every write of a creation is addressed and none supersedes. */
  lemma CollectivePlanClean(hash: Entry -> Address, c: Collective, admin: Address, agent: Address)
    requires c.adminEntryHash == Some(admin)
    ensures Addressed(hash, CollectivePlan(hash, c, agent)) && NoSupersede(CollectivePlan(hash, c, agent))
  {
    var a := hash(CollectiveEntry(c));
    var p0 := [PutEntry(hash, CollectiveEntry(c), agent)];
    var p1 := ActionPlan(hash, a, CreatedAction(c), agent);
    var p2 := Plove2Ledger.LedgerPlan(hash, c, a, agent);
    var p3 := ActionPlan(hash, a, RenamedAction(c.name, None), agent);
    var p4 := AddPersonPlan(hash, a, admin, agent);
    ActionPlanShape(hash, a, CreatedAction(c), agent);
    Plove2Ledger.LedgerPlanShape(hash, c, a, agent);
    ActionPlanShape(hash, a, RenamedAction(c.name, None), agent);
    AddPersonPlanShape(hash, a, admin, agent);
    AddressedConcat(hash, p0, p1);
    AddressedConcat(hash, p0 + p1, p2);
    AddressedConcat(hash, p0 + p1 + p2, p3);
    AddressedConcat(hash, p0 + p1 + p2 + p3, p4);
    NoSupersedeConcat(p0, p1);
    NoSupersedeConcat(p0 + p1, p2);
    NoSupersedeConcat(p0 + p1 + p2, p3);
    NoSupersedeConcat(p0 + p1 + p2 + p3, p4);
  }

  /** The links a creation appends are those of `CreateLinks`. */
  lemma CollectivePlanLinks(hash: Entry -> Address, c: Collective, admin: Address, agent: Address)
    requires c.adminEntryHash == Some(admin)
    ensures AppendedLinks(CollectivePlan(hash, c, agent)) == CreateLinks(hash, c, admin)
  {
    var a := hash(CollectiveEntry(c));
    var p0 := [PutEntry(hash, CollectiveEntry(c), agent)];
    var p1 := ActionPlan(hash, a, CreatedAction(c), agent);
    var p2 := Plove2Ledger.LedgerPlan(hash, c, a, agent);
    var p3 := ActionPlan(hash, a, RenamedAction(c.name, None), agent);
    var p4 := AddPersonPlan(hash, a, admin, agent);
    assert AppendedLinks(p0) == [] by { assert p0[1..] == []; }
    ActionPlanShape(hash, a, CreatedAction(c), agent);
    Plove2Ledger.LedgerPlanShape(hash, c, a, agent);
    ActionPlanShape(hash, a, RenamedAction(c.name, None), agent);
    AddPersonPlanShape(hash, a, admin, agent);
    AppendedLinksConcat(p0, p1);
    AppendedLinksConcat(p0 + p1, p2);
    AppendedLinksConcat(p0 + p1 + p2, p3);
    AppendedLinksConcat(p0 + p1 + p2 + p3, p4);
  }

  lemma CollectivePlanShape(hash: Entry -> Address, c: Collective, admin: Address, agent: Address)
    requires c.adminEntryHash == Some(admin)
    ensures var plan := CollectivePlan(hash, c, agent);
            && Addressed(hash, plan) && NoSupersede(plan) && |plan| == 10
            && plan[0] == PutEntry(hash, CollectiveEntry(c), agent)
            && AppendedLinks(plan) == CreateLinks(hash, c, admin)
  {
    CollectivePlanClean(hash, c, admin, agent);
    CollectivePlanLinks(hash, c, admin, agent);
  }

  /** Everything the corrected creation writes. */
  function CorrectedPlan(hash: Entry -> Address, db: Db<Entry>, params: CreateCollectiveParams, agent: Address): seq<Write<Entry>>
  {
    AdminPlan(hash, db, params, agent) + CollectivePlan(hash, CorrectedCreated(hash, db, params, agent), agent)
  }

  /** The whole corrected plan: at most one person entry, which links nothing,
      then the ten writes of the collective. */
  /** Every write of the corrected creation is addressed and none supersedes. */
  lemma CorrectedPlanClean(hash: Entry -> Address, db: Db<Entry>, params: CreateCollectiveParams, agent: Address)
    ensures Addressed(hash, CorrectedPlan(hash, db, params, agent)) && NoSupersede(CorrectedPlan(hash, db, params, agent))
  {
    var pa := AdminPlan(hash, db, params, agent);
    var c := CorrectedCreated(hash, db, params, agent);
    CollectivePlanClean(hash, c, AdminHash(hash, db, params, agent), agent);
    if GivenAdmin(db, params).None? {
      Plove2Person.PersonPlanShape(hash, AdminPerson(db, params, agent), None, agent);
    }
    AddressedConcat(hash, pa, CollectivePlan(hash, c, agent));
    NoSupersedeConcat(pa, CollectivePlan(hash, c, agent));
  }

  /** The corrected creation appends the links of `CreateLinks`, the admin
      person linking nothing. */
  lemma CorrectedPlanLinks(hash: Entry -> Address, db: Db<Entry>, params: CreateCollectiveParams, agent: Address)
    ensures AppendedLinks(CorrectedPlan(hash, db, params, agent))
         == CreateLinks(hash, CorrectedCreated(hash, db, params, agent), AdminHash(hash, db, params, agent))
  {
    var pa := AdminPlan(hash, db, params, agent);
    var c := CorrectedCreated(hash, db, params, agent);
    CollectivePlanLinks(hash, c, AdminHash(hash, db, params, agent), agent);
    if GivenAdmin(db, params).None? {
      assert pa[1..] == [];
    }
    assert AppendedLinks(pa) == [];
    AppendedLinksConcat(pa, CollectivePlan(hash, c, agent));
  }

  lemma CorrectedPlanShape(hash: Entry -> Address, db: Db<Entry>, params: CreateCollectiveParams, agent: Address)
    ensures var plan := CorrectedPlan(hash, db, params, agent);
            var k := |AdminPlan(hash, db, params, agent)|;
            var c := CorrectedCreated(hash, db, params, agent);
            && Addressed(hash, plan) && NoSupersede(plan)
            && k == (if GivenAdmin(db, params).Some? then 0 else 1) && |plan| == k + 10
            && (k == 1 ==> plan[0] == PutEntry(hash, PersonEntry(AdminPerson(db, params, agent)), agent))
            && plan[k] == PutEntry(hash, CollectiveEntry(c), agent)
            && AppendedLinks(plan) == CreateLinks(hash, c, AdminHash(hash, db, params, agent))
  {
    var pa := AdminPlan(hash, db, params, agent);
    var c := CorrectedCreated(hash, db, params, agent);
    CollectivePlanShape(hash, c, AdminHash(hash, db, params, agent), agent);
    CorrectedPlanClean(hash, db, params, agent);
    CorrectedPlanLinks(hash, db, params, agent);
  }

  /** After the corrected creation the collective reads back, naming its admin,
      and the admin reads as the resolved person. */
  lemma CorrectedStored(hash: Entry -> Address, db: Db<Entry>, params: CreateCollectiveParams, agent: Address)
    requires Injective(hash) && ContentAddressed(hash, db)
    ensures var c := CorrectedCreated(hash, db, params, agent);
            var db' := ApplyAll(db, CorrectedPlan(hash, db, params, agent));
            && GetCollective(db', hash(CollectiveEntry(c))) == Ok(CollectivePayload(hash(CollectiveEntry(c)), c))
            && c.adminEntryHash == Some(AdminHash(hash, db, params, agent))
            && Plove2Person.GetPerson(db', AdminHash(hash, db, params, agent)).Ok?
            && Plove2Person.GetPerson(db', AdminHash(hash, db, params, agent)).value.person == AdminPerson(db, params, agent)
  {
    var plan := CorrectedPlan(hash, db, params, agent);
    CorrectedPlanShape(hash, db, params, agent);
    WrittenReadable(hash, db, plan, |AdminPlan(hash, db, params, agent)|);
    if GivenAdmin(db, params).None? {
      WrittenReadable(hash, db, plan, 0);
    } else {
      EntriesStable(hash, db, plan);
    }
  }

  /** What `get_collective_people` would evidently list: the targets of the
      links `add_collective_person` writes. */
  function CollectivePeople(db: Db<Entry>, collectiveHash: Address): (r: PeoplePayload)
    ensures r.collectiveEntryHash == collectiveHash
    ensures forall p :: p in r.people <==>
              exists l :: l in db.links && l.source == collectiveHash && l.tag == AddPersonLinkTag && l.target == p
  {
    var q := Query(db.links, collectiveHash, Any, Exactly(AddPersonLinkTag));
    QueryMembers(db.links, collectiveHash, Any, Exactly(AddPersonLinkTag));
    assert forall p :: p in Targets(q) <==> exists l :: l in q && l.target == p by {
      forall p ensures p in Targets(q) <==> exists l :: l in q && l.target == p {
        if p in Targets(q) {
          var i :| 0 <= i < |q| && Targets(q)[i] == p;
          assert q[i] in q;
        }
        if exists l :: l in q && l.target == p {
          var l :| l in q && l.target == p;
          var i :| 0 <= i < |q| && q[i] == l;
          assert Targets(q)[i] == p;
        }
      }
    }
    PeoplePayload(collectiveHash, Targets(q))
  }

  /** The tags the zome writes differ from the one `get_collective_people`
      asks for. */
  lemma TagsNotPeople()
    ensures CreatedActionTag != PeopleLinkTag && PloveLedger.PrimaryTag != PeopleLinkTag
            && RenamedActionTag != PeopleLinkTag && AddPersonLinkTag != PeopleLinkTag
            && AddPersonActionTag != PeopleLinkTag
  {
    assert CreatedActionTag[1] != PeopleLinkTag[1];
    assert PloveLedger.PrimaryTag[0] != PeopleLinkTag[0];
    assert RenamedActionTag[0] != PeopleLinkTag[0];
    assert AddPersonLinkTag[0] != PeopleLinkTag[0];
    assert AddPersonActionTag[0] != PeopleLinkTag[0];
  }

  /** Only the admin's link carries the `add_collective_person` tag. */
  lemma TagsNotAddPerson()
    ensures CreatedActionTag != AddPersonLinkTag && PloveLedger.PrimaryTag != AddPersonLinkTag
            && RenamedActionTag != AddPersonLinkTag && AddPersonActionTag != AddPersonLinkTag
  {
    assert CreatedActionTag[0] != AddPersonLinkTag[0];
    assert PloveLedger.PrimaryTag[0] != AddPersonLinkTag[0];
    assert RenamedActionTag[0] != AddPersonLinkTag[0];
    assert AddPersonActionTag[15] != AddPersonLinkTag[15];
  }

  /** No link a creation writes carries `collective_action`. */
  lemma TagsNotCollectiveAction()
    ensures CreatedActionTag != Plove2Action.CollectiveActionTag && PloveLedger.PrimaryTag != Plove2Action.CollectiveActionTag
            && RenamedActionTag != Plove2Action.CollectiveActionTag && AddPersonLinkTag != Plove2Action.CollectiveActionTag
            && AddPersonActionTag != Plove2Action.CollectiveActionTag
  {
    assert CreatedActionTag[1] != Plove2Action.CollectiveActionTag[1];
    assert PloveLedger.PrimaryTag[0] != Plove2Action.CollectiveActionTag[0];
    assert RenamedActionTag[0] != Plove2Action.CollectiveActionTag[0];
    assert AddPersonLinkTag[0] != Plove2Action.CollectiveActionTag[0];
    assert AddPersonActionTag[0] != Plove2Action.CollectiveActionTag[0];
  }

  lemma AddPersonPlanShape(hash: Entry -> Address, collectiveHash: Address, person: Address, agent: Address)
    ensures var p := AddPersonPlan(hash, collectiveHash, person, agent);
            && Addressed(hash, p) && NoSupersede(p)
            && AppendedLinks(p) == [Link(collectiveHash, person, "", AddPersonLinkTag),
                                    Link(collectiveHash, hash(ActionEntry(PersonAddedAction(person))), "", AddPersonActionTag)]
  {
    var p0 := [Append(Link(collectiveHash, person, "", AddPersonLinkTag))];
    var p1 := ActionPlan(hash, collectiveHash, PersonAddedAction(person), agent);
    assert AppendedLinks(p0) == [p0[0].link] by { assert p0[1..] == []; }
    ActionPlanShape(hash, collectiveHash, PersonAddedAction(person), agent);
    AppendedLinksConcat(p0, p1);
    AddressedConcat(hash, p0, p1);
    NoSupersedeConcat(p0, p1);
  }

  /** As written, `add_collective_person` never changes what
      `get_collective_people` returns: its link is tagged
      `add_collective_person`, the lookup asks for `collective_person`. */
  lemma AddPersonUnlisted(hash: Entry -> Address, db: Db<Entry>, collectiveHash: Address, person: Address, agent: Address, queried: Address)
    ensures GetCollectivePeople(ApplyAll(db, AddPersonPlan(hash, collectiveHash, person, agent)), queried)
         == GetCollectivePeople(db, queried)
  {
    var p := AddPersonPlan(hash, collectiveHash, person, agent);
    AddPersonPlanShape(hash, collectiveHash, person, agent);
    TagsNotPeople();
    PeopleUnchanged(db, p, queried);
  }

  /** So however many people are added, a collective nobody linked
      `collective_person` to lists nobody. */
  lemma AddedPersonNotListed(hash: Entry -> Address, db: Db<Entry>, collectiveHash: Address, person: Address, agent: Address)
    requires GetCollectivePeople(db, collectiveHash).people == []
    ensures person !in GetCollectivePeople(ApplyAll(db, AddPersonPlan(hash, collectiveHash, person, agent)), collectiveHash).people
  {
    AddPersonUnlisted(hash, db, collectiveHash, person, agent, collectiveHash);
  }

  /** With the lookup reading the tag the zome writes, an added person is
      listed last. */
  lemma AddPersonListed(hash: Entry -> Address, db: Db<Entry>, collectiveHash: Address, person: Address, agent: Address)
    ensures CollectivePeople(ApplyAll(db, AddPersonPlan(hash, collectiveHash, person, agent)), collectiveHash).people
         == CollectivePeople(db, collectiveHash).people + [person]
  {
    var p := AddPersonPlan(hash, collectiveHash, person, agent);
    var l0 := Link(collectiveHash, person, "", AddPersonLinkTag);
    var l1 := Link(collectiveHash, hash(ActionEntry(PersonAddedAction(person))), "", AddPersonActionTag);
    AddPersonPlanShape(hash, collectiveHash, person, agent);
    TagsNotAddPerson();
    LinksAfter(db, p);
    QueryConcat(db.links, [l0, l1], collectiveHash, Any, Exactly(AddPersonLinkTag));
    QueryCons(l0, [l1], collectiveHash, Any, Exactly(AddPersonLinkTag));
    QuerySingle(l1, collectiveHash, Any, Exactly(AddPersonLinkTag));
    assert [l0] + [l1] == [l0, l1];
    TargetsConcat(Query(db.links, collectiveHash, Any, Exactly(AddPersonLinkTag)), [l0]);
  }

  /** After the corrected creation the collective lists its admin, after
      whatever it listed before. */
  lemma CreateListsAdmin(hash: Entry -> Address, db: Db<Entry>, params: CreateCollectiveParams, agent: Address)
    ensures var a := hash(CollectiveEntry(CorrectedCreated(hash, db, params, agent)));
            CollectivePeople(ApplyAll(db, CorrectedPlan(hash, db, params, agent)), a).people
              == CollectivePeople(db, a).people + [AdminHash(hash, db, params, agent)]
  {
    var c := CorrectedCreated(hash, db, params, agent);
    var a := hash(CollectiveEntry(c));
    var admin := AdminHash(hash, db, params, agent);
    var plan := CorrectedPlan(hash, db, params, agent);
    var ls := CreateLinks(hash, c, admin);
    CorrectedPlanLinks(hash, db, params, agent);
    TagsNotAddPerson();
    LinksAfter(db, plan);
    QueryConcat(db.links, ls, a, Any, Exactly(AddPersonLinkTag));
    Query5(ls[0], ls[1], ls[2], ls[3], ls[4], a, Any, Exactly(AddPersonLinkTag));
    assert Query(ls, a, Any, Exactly(AddPersonLinkTag)) == [ls[3]];
    TargetsConcat(Query(db.links, a, Any, Exactly(AddPersonLinkTag)), [ls[3]]);
  }

  /** Creating a collective lists no action in `get_actions`: the zome's own
      journal links carry the action's tag, never `collective_action`.
      Every collective's actions read as before. */
  lemma CreateLeavesActions(hash: Entry -> Address, db: Db<Entry>, params: CreateCollectiveParams, agent: Address, queried: Address)
    requires Injective(hash) && ContentAddressed(hash, db)
    requires Plove2Action.GetActions(db, queried).Ok?
    ensures Plove2Action.GetActions(ApplyAll(db, CorrectedPlan(hash, db, params, agent)), queried)
         == Plove2Action.GetActions(db, queried)
  {
    var plan := CorrectedPlan(hash, db, params, agent);
    CorrectedPlanClean(hash, db, params, agent);
    CorrectedPlanLinks(hash, db, params, agent);
    TagsNotCollectiveAction();
    QueryUnchanged(db, plan, queried, Plove2Action.CollectiveActionTag);
    LoadAllStable(hash, db, plan, Plove2Action.Reverse(Targets(Query(db.links, queried, Any, Exactly(Plove2Action.CollectiveActionTag)))), AsAction, true);
  }

  // ----- set_collective_name -----

  /** `update_collective`: `update` of the entry at the header hash by
      `agent`, judged by the Collective callbacks first. Its failure carries no
      breadcrumb. */
  method UpdateCollective(store: Store<Entry>, headerHash: Address, collective: Collective, agent: Address)
    returns (r: Result<Address>)
    requires store.Valid()
    modifies store
    ensures store.Valid()
    ensures r.Ok? ==> && r.value == store.hash(CollectiveEntry(collective))
                      && store.State() == Apply(old(store.State()), SupersedeEntry(store.hash, headerHash, CollectiveEntry(collective), agent))
                      && AdminSelfAuthored(old(store.State()), collective.adminEntryHash)
    ensures r.Err? ==> store.State() == old(store.State())
    ensures !AdminSelfAuthored(old(store.State()), collective.adminEntryHash)
            ==> r == Err(ValidateUpsertCollective(old(store.State()), collective).reason)
  {
    var verdict := ValidateCollectiveWrite(store.State(), UpdateOp, CollectiveEntry(collective));
    if verdict.Invalid? {
      return Err(verdict.reason);
    }
    r := store.Update(headerHash, CollectiveEntry(collective), agent);
  }

  /** The writes of a successful `set_collective_name` on `saved`: its new
      version, then the SetCollectiveName action, recording the old name and
      linked from the new version's hash. */
  function RenamePlan(hash: Entry -> Address, headerHash: Address, saved: Collective, name: string, agent: Address): seq<Write<Entry>>
  {
    var renamed := saved.(name := name);
    [SupersedeEntry(hash, headerHash, CollectiveEntry(renamed), agent)]
    + ActionPlan(hash, hash(CollectiveEntry(renamed)), RenamedAction(name, Some(saved.name)), agent)
  }

  /** `set_collective_name`. Nothing is written for a hash that holds no
      Collective; otherwise only the name changes, the new version is judged
      like any update, and the result carries the new version's hash. */
  method SetCollectiveName(store: Store<Entry>, headerHash: Address, name: string, agent: Address)
    returns (r: Result<CollectivePayload>, ghost written: seq<Write<Entry>>)
    requires store.Valid()
    modifies store
    ensures store.Valid()
    ensures store.State() == ApplyAll(old(store.State()), written)
    ensures GetCollective(old(store.State()), headerHash).Err? ==> r == Err(CouldNotFind) && written == []
    ensures GetCollective(old(store.State()), headerHash).Ok? ==>
              var saved := GetCollective(old(store.State()), headerHash).value.collective;
              var renamed := saved.(name := name);
              && written <= RenamePlan(store.hash, headerHash, saved, name, agent)
              && (r.Ok? <==> written == RenamePlan(store.hash, headerHash, saved, name, agent))
              && (r.Ok? ==> r.value == CollectivePayload(store.hash(CollectiveEntry(renamed)), renamed))
              && (!AdminSelfAuthored(old(store.State()), saved.adminEntryHash)
                  ==> written == [] && r == Err(ValidateUpsertCollective(old(store.State()), renamed).reason))
  {
    ghost var db0 := store.State();
    written := [];
    var found := GetCollective(store.State(), headerHash);
    if found.Err? {
      return Err(CouldNotFind), written;
    }
    var saved := found.value.collective;
    var renamed := saved.(name := name);
    ghost var p0 := [SupersedeEntry(store.hash, headerHash, CollectiveEntry(renamed), agent)];
    ghost var p1 := ActionPlan(store.hash, store.hash(CollectiveEntry(renamed)), RenamedAction(name, Some(saved.name)), agent);
    var updated := UpdateCollective(store, headerHash, renamed, agent);
    if updated.Err? {
      return Err(updated.msg), written;
    }
    written := p0;
    var collectiveHash := store.hash(CollectiveEntry(renamed));
    var journalled, w := CreateCollectiveAction(store, collectiveHash, ActionOp.SetCollectiveName, NameData(name), NameData(saved.name), RenamedActionTag, SystemAutomatic, agent);
    Step(db0, written, w, p1, []);
    assert p0 + p1 + [] == RenamePlan(store.hash, headerHash, saved, name, agent);
    written := written + w;
    if journalled.Err? {
      return Err(journalled.msg), written;
    }
    r := Ok(CollectivePayload(collectiveHash, renamed));
  }

  lemma RenamePlanShape(hash: Entry -> Address, headerHash: Address, saved: Collective, name: string, agent: Address)
    ensures var p := RenamePlan(hash, headerHash, saved, name, agent);
            var n := hash(CollectiveEntry(saved.(name := name)));
            && Addressed(hash, p) && NoSupersede(p[1..])
            && p[0] == SupersedeEntry(hash, headerHash, CollectiveEntry(saved.(name := name)), agent)
            && AppendedLinks(p) == [Link(n, hash(ActionEntry(RenamedAction(name, Some(saved.name)))), "", RenamedActionTag)]
  {
    var n := hash(CollectiveEntry(saved.(name := name)));
    var p0 := [SupersedeEntry(hash, headerHash, CollectiveEntry(saved.(name := name)), agent)];
    var p1 := ActionPlan(hash, n, RenamedAction(name, Some(saved.name)), agent);
    var p := RenamePlan(hash, headerHash, saved, name, agent);
    assert p == p0 + p1 && p[1..] == p1;
    assert AppendedLinks(p0) == [] by { assert p0[1..] == []; }
    ActionPlanShape(hash, n, RenamedAction(name, Some(saved.name)), agent);
    AppendedLinksConcat(p0, p1);
    AddressedConcat(hash, p0, p1);
  }

  /** Renaming moves the collective: the new version's hash differs from the
      one renamed, so the caller gets back an address it did not pass. */
  lemma RenameMovesAddress(hash: Entry -> Address, db: Db<Entry>, headerHash: Address, name: string)
    requires Injective(hash) && ContentAddressed(hash, db)
    requires GetCollective(db, headerHash).Ok? && GetCollective(db, headerHash).value.collective.name != name
    ensures var saved := GetCollective(db, headerHash).value.collective;
            hash(CollectiveEntry(saved.(name := name))) != headerHash
  {
    var saved := GetCollective(db, headerHash).value.collective;
    assert CollectiveEntry(saved.(name := name)) != CollectiveEntry(saved);
  }

  /** After a rename both versions read back, each at its own hash, and the
      store stays well formed. */
  lemma RenameReadBack(hash: Entry -> Address, db: Db<Entry>, headerHash: Address, name: string, agent: Address)
    requires Injective(hash) && Wellformed(hash, db)
    requires GetCollective(db, headerHash).Ok?
    ensures var saved := GetCollective(db, headerHash).value.collective;
            var renamed := saved.(name := name);
            var db' := ApplyAll(db, RenamePlan(hash, headerHash, saved, name, agent));
            && Wellformed(hash, db')
            && GetCollective(db', headerHash) == GetCollective(db, headerHash)
            && GetCollective(db', hash(CollectiveEntry(renamed))) == Ok(CollectivePayload(hash(CollectiveEntry(renamed)), renamed))
  {
    var saved := GetCollective(db, headerHash).value.collective;
    var renamed := saved.(name := name);
    var p := RenamePlan(hash, headerHash, saved, name, agent);
    RenamePlanShape(hash, headerHash, saved, name, agent);
    EntriesStable(hash, db, p);
    WrittenReadable(hash, db, p, 0);
    var db1 := Apply(db, p[0]);
    ApplyAllConcat(db, [p[0]], p[1..]);
    assert [p[0]] + p[1..] == p;
    assert ApplyAll(db, [p[0]]) == db1 by { assert [p[0]][1..] == []; }
    SupersedeStable(hash, db, headerHash, CollectiveEntry(renamed), agent, IsCollective);
    ActionPlanShape(hash, hash(CollectiveEntry(renamed)), RenamedAction(name, Some(saved.name)), agent);
    SupersedesOnlyAfter(hash, db1, p[1..], IsCollective);
  }

  /** The rename is journalled from the new hash only: the renamed hash's
      links are untouched, and the new hash gains the SetCollectiveName link. */
  lemma RenameJournalsNewHash(hash: Entry -> Address, db: Db<Entry>, headerHash: Address, saved: Collective, name: string, agent: Address)
    requires hash(CollectiveEntry(saved.(name := name))) != headerHash
    ensures var n := hash(CollectiveEntry(saved.(name := name)));
            var links' := ApplyAll(db, RenamePlan(hash, headerHash, saved, name, agent)).links;
            && Query(links', headerHash, Any, Any) == Query(db.links, headerHash, Any, Any)
            && Query(links', n, Any, Exactly(RenamedActionTag))
               == Query(db.links, n, Any, Exactly(RenamedActionTag))
                  + [Link(n, hash(ActionEntry(RenamedAction(name, Some(saved.name)))), "", RenamedActionTag)]
  {
    var n := hash(CollectiveEntry(saved.(name := name)));
    var p := RenamePlan(hash, headerHash, saved, name, agent);
    var l := Link(n, hash(ActionEntry(RenamedAction(name, Some(saved.name)))), "", RenamedActionTag);
    RenamePlanShape(hash, headerHash, saved, name, agent);
    LinksAfter(db, p);
    QueryConcat(db.links, [l], headerHash, Any, Any);
    QuerySingle(l, headerHash, Any, Any);
    assert Query(db.links, headerHash, Any, Any) + [] == Query(db.links, headerHash, Any, Any);
    QueryConcat(db.links, [l], n, Any, Exactly(RenamedActionTag));
    QuerySingle(l, n, Any, Exactly(RenamedActionTag));
  }
}
