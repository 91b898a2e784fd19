/** protocol-love collectives (zomes/protocol-love/code/src/collective.rs):
    the admission rule for Collective entries, creating a collective with its
    admin, journal and ledger, renaming it, and listing its people. Every
    commit and update is judged by its entry type's validation first. */
module PloveCollective {
  import opened Results
  import opened Substrate
  import opened Ledgers
  import opened PloveUtils
  import opened PloveTypes
  import PlovePerson
  import PloveLedger

  const ActionLinkType := "collective->action"
  const PersonLinkType := "collective->person"
  /** `CollectivePersonTag::Creator.to_string()`. */
  const CreatorTag := "Creator"

  const NoAdmin := "Collective being created must have an admin"
  const NotSameAgent := "Collective must be created with same agent as the given person"
  const OnlyAdmin := "Collective can only be modified by the admin"
  const NeedsProposal := "Collective can only be modified with an executed proposal"
  const CollectiveCannotDelete := "Collective cannot be deleted"
  const FetchAdminTag := "validation error: collective: fetch admin: "

  const CreateTag := "create_collective: "
  const GetAsTypeTag := "create_collective: get_as_type: "
  const CreatePersonTag := "create_collective: create_person: "
  const CommitTag := "commit_collective: "
  const ActionCommitTag := "create_collective_action: commit_entry: "
  const ActionLinkTag := "create_collective_action: collective->action: "
  const AddPersonTag := "add_collective_person: "
  const PeopleTag := "get_collective_people: get_links_and_load_type: "

  datatype CollectivePayload = CollectivePayload(collectiveAddress: Address, collective: Collective)
  datatype PeoplePayload = PeoplePayload(collectiveAddress: Address, people: seq<Person>)

  // ----- validation -----

  /** The admin at `admin` loads as a Person whose agent signed the write. */
  predicate SignedByAdmin(db: Db<Entry>, admin: Option<Address>, sources: set<Address>)
  {
    && admin.Some?
    && Load(db, admin.value, AsPerson, true).Ok?
    && Load(db, admin.value, AsPerson, true).value.agentAddress in sources
  }

  /** When a Collective write is admissible: a new collective must name an
      admin whose agent signs it; a new version must be signed by the agent of
      the OLD version's admin, whatever the new version says; nothing is
      deleted. */
  predicate CollectiveAdmissible(v: Validation<Collective>, sources: set<Address>, db: Db<Entry>)
  {
    match v
    case Create(e) => SignedByAdmin(db, e.adminAddress, sources)
    case Modify(_, o) => SignedByAdmin(db, o.adminAddress, sources)
    case Delete(_) => false
  }

  /** The validation callback of `collective_def`, reading the admin Person
      from `db`. */
  function ValidateCollective(v: Validation<Collective>, sources: set<Address>, db: Db<Entry>): (r: Result<()>)
    ensures r.Ok? <==> CollectiveAdmissible(v, sources, db)
    ensures v.Create? && v.entry.adminAddress.None? ==> r == Err(NoAdmin)
    ensures v.Create? && v.entry.adminAddress.Some? && Load(db, v.entry.adminAddress.value, AsPerson, true).Err?
            ==> r == Err(FetchAdminTag + Load(db, v.entry.adminAddress.value, AsPerson, true).msg)
    ensures v.Create? && v.entry.adminAddress.Some? && Load(db, v.entry.adminAddress.value, AsPerson, true).Ok?
            && Load(db, v.entry.adminAddress.value, AsPerson, true).value.agentAddress !in sources
            ==> r == Err(NotSameAgent)
    ensures v.Modify? && v.oldEntry.adminAddress.None? ==> r == Err(NeedsProposal)
    ensures v.Modify? && v.oldEntry.adminAddress.Some? && Load(db, v.oldEntry.adminAddress.value, AsPerson, true).Err?
            ==> r == Err(Load(db, v.oldEntry.adminAddress.value, AsPerson, true).msg)
    ensures v.Modify? && v.oldEntry.adminAddress.Some? && Load(db, v.oldEntry.adminAddress.value, AsPerson, true).Ok?
            && Load(db, v.oldEntry.adminAddress.value, AsPerson, true).value.agentAddress !in sources
            ==> r == Err(OnlyAdmin)
    ensures v.Delete? ==> r == Err(CollectiveCannotDelete)
  {
    match v
    case Create(e) =>
      (match e.adminAddress
       case Some(a) =>
         (match T(FetchAdminTag, Load(db, a, AsPerson, true))
          case Err(m) => Err(m)
          case Ok(admin) => if admin.agentAddress !in sources then Err(NotSameAgent) else Ok(()))
       case None => Err(NoAdmin))
    case Modify(_, o) =>
      (match o.adminAddress
       case Some(a) =>
         (match Load(db, a, AsPerson, true)
          case Err(m) => Err(m)
          case Ok(admin) => if admin.agentAddress !in sources then Err(OnlyAdmin) else Ok(()))
       case None => Err(NeedsProposal))
    case Delete(_) => Err(CollectiveCannotDelete)
  }

  /** A modification is judged by the old version alone: two new versions of
      the same collective get the same verdict, even one naming another admin. */
  lemma ModifyJudgedByOldVersion(n1: Collective, n2: Collective, o: Collective, sources: set<Address>, db: Db<Entry>)
    ensures ValidateCollective(Modify(n1, o), sources, db) == ValidateCollective(Modify(n2, o), sources, db)
  {
  }

  // ----- the journal -----

  /** The action `create_create_collective_action` journals. */
  function CreatedAction(c: Collective): Action
  {
    Action(ActionOp.CreateCollective, Executed, CollectiveData(c), "create_collective", SystemAutomatic)
  }

  /** The action `create_set_collective_name_action` journals. */
  function RenamedAction(name: string): Action
  {
    Action(ActionOp.SetCollectiveName, Executed, NameData(name), "set_collective_name", SystemAutomatic)
  }

  /** The action `create_add_collective_person_action` journals. */
  function PersonAddedAction(person: Address): Action
  {
    Action(ActionOp.AddCollectivePerson, Executed, PersonAddressData(person), "add_collective_person", SystemAutomatic)
  }

  /** The actions linked from `collectiveAddress`, in link order (the zome's
      own listing lives in action.rs, which is not part of this model). */
  function Journal(db: Db<Entry>, collectiveAddress: Address): (r: Result<seq<Action>>)
    ensures r.Ok? ==> |r.value| == |Query(db.links, collectiveAddress, Exactly(ActionLinkType), Any)|
  {
    LoadTargets(db, collectiveAddress, Exactly(ActionLinkType), Any, AsAction, true)
  }

  /** The writes of `create_collective_action`: the action, then the link from
      the collective whose tag is the action's own tag. */
  function ActionPlan(hash: Entry -> Address, collectiveAddress: Address, action: Action, agent: Address): seq<Write<Entry>>
  {
    [PutEntry(hash, ActionEntry(action), agent),
     Append(Link(collectiveAddress, hash(ActionEntry(action)), ActionLinkType, action.tag))]
  }

  /** `create_collective_action`: the journalled action is always Executed and
      keeps the given op, data, tag and strategy. */
  method CreateCollectiveAction(store: Store<Entry>, collectiveAddress: Address, op: ActionOp, data: ActionData, tag: string, strategy: ActionStrategy, agent: Address)
    returns (r: Result<ActionCommit>, ghost written: seq<Write<Entry>>)
    requires store.Valid()
    modifies store
    ensures store.Valid()
    ensures written <= ActionPlan(store.hash, collectiveAddress, Action(op, Executed, data, tag, strategy), agent)
    ensures store.State() == ApplyAll(old(store.State()), written)
    ensures r.Ok? <==> written == ActionPlan(store.hash, collectiveAddress, Action(op, Executed, data, tag, strategy), agent)
    ensures r.Ok? ==> var a := Action(op, Executed, data, tag, strategy);
                      r.value == ActionCommit(store.hash(ActionEntry(a)), ActionEntry(a), a)
    ensures r.Err? && written == [] ==> ActionCommitTag <= r.msg
    ensures r.Err? && written != [] ==> ActionLinkTag <= r.msg
  {
    var action := Action(op, Executed, data, tag, strategy);
    ghost var plan := ActionPlan(store.hash, collectiveAddress, action, agent);
    written := [];
    var committed := store.Commit(ActionEntry(action), agent);
    var tagged := T(ActionCommitTag, committed);
    if tagged.Err? {
      return Err(tagged.msg), written;
    }
    written := [plan[0]];
    var linked := store.CreateLink(Link(collectiveAddress, tagged.value, ActionLinkType, tag));
    var linkTagged := T(ActionLinkTag, linked);
    if linkTagged.Err? {
      return Err(linkTagged.msg), written;
    }
    ApplyAllSnoc(old(store.State()), written, plan[1]);
    written := written + [plan[1]];
    r := Ok(ActionCommit(tagged.value, ActionEntry(action), action));
  }

  lemma ActionPlanShape(hash: Entry -> Address, collectiveAddress: Address, action: Action, agent: Address)
    ensures Addressed(hash, ActionPlan(hash, collectiveAddress, action, agent))
    ensures NoSupersede(ActionPlan(hash, collectiveAddress, action, agent))
    ensures AppendedLinks(ActionPlan(hash, collectiveAddress, action, agent))
         == [Link(collectiveAddress, hash(ActionEntry(action)), ActionLinkType, action.tag)]
  {
    var p := ActionPlan(hash, collectiveAddress, action, agent);
    assert p[1..][1..] == [];
    assert AppendedLinks(p[1..][1..]) == [];
    assert AppendedLinks(p[1..]) == [p[1].link];
    assert AppendedLinks(p) == [] + AppendedLinks(p[1..]);
  }

  /** An action entry written by `ws` loads as that action afterwards. */
  lemma LoadsWrittenAction(hash: Entry -> Address, db: Db<Entry>, ws: seq<Write<Entry>>, i: nat)
    requires Injective(hash) && Wellformed(hash, db) && Addressed(hash, ws) && NoSupersede(ws)
    requires i < |ws| && !ws[i].Append? && ws[i].record.entry.ActionEntry?
    ensures Load(ApplyAll(db, ws), ws[i].at, AsAction, true) == Ok(ws[i].record.entry.action)
  {
    WrittenReadable(hash, db, ws, i);
    UpdatesAfter(db, ws);
    NotSuperseded(hash, db, IsCollective, ws[i].record.entry);
  }

  /** Journalling an action appends it to the collective's journal. */
  lemma ActionPlanListed(hash: Entry -> Address, db: Db<Entry>, collectiveAddress: Address, action: Action, agent: Address)
    requires Injective(hash) && Wellformed(hash, db)
    requires Journal(db, collectiveAddress).Ok?
    ensures Wellformed(hash, ApplyAll(db, ActionPlan(hash, collectiveAddress, action, agent)))
    ensures Journal(ApplyAll(db, ActionPlan(hash, collectiveAddress, action, agent)), collectiveAddress)
         == Ok(Journal(db, collectiveAddress).value + [action])
  {
    var p := ActionPlan(hash, collectiveAddress, action, agent);
    var l := Link(collectiveAddress, hash(ActionEntry(action)), ActionLinkType, action.tag);
    ActionPlanShape(hash, collectiveAddress, action, agent);
    SupersedesOnlyAfter(hash, db, p, IsCollective);
    QuerySingle(l, collectiveAddress, Exactly(ActionLinkType), Any);
    LoadsWrittenAction(hash, db, p, 0);
    var db' := ApplyAll(db, p);
    assert LoadAll(db', [hash(ActionEntry(action))], AsAction, true) == Ok([action]) by {
      assert p[0].at == hash(ActionEntry(action));
      assert [hash(ActionEntry(action))][1..] == [];
      assert [action] + [] == [action];
    }
    LoadTargetsAfter(hash, db, p, collectiveAddress, Exactly(ActionLinkType), Any, AsAction, true);
  }

  // ----- people -----

  /** The writes of `add_collective_person`: the `Creator` link, then the
      AddCollectivePerson journal entry. */
  function AddPersonPlan(hash: Entry -> Address, collectiveAddress: Address, person: Address, agent: Address): seq<Write<Entry>>
  {
    [Append(Link(collectiveAddress, person, PersonLinkType, CreatorTag))]
    + ActionPlan(hash, collectiveAddress, PersonAddedAction(person), agent)
  }

  /** `add_collective_person`: link first, journal second. A failed link is
      reported with the "add_collective_person: " breadcrumb, a failed journal
      entry with that of `create_collective_action`. */
  method AddCollectivePerson(store: Store<Entry>, collectiveAddress: Address, person: Address, agent: Address)
    returns (r: Result<()>, ghost written: seq<Write<Entry>>)
    requires store.Valid()
    modifies store
    ensures store.Valid()
    ensures written <= AddPersonPlan(store.hash, collectiveAddress, person, agent)
    ensures store.State() == ApplyAll(old(store.State()), written)
    ensures r.Ok? <==> written == AddPersonPlan(store.hash, collectiveAddress, person, agent)
    ensures r.Err? && written == [] ==> AddPersonTag <= r.msg
    ensures r.Err? && written != [] ==> ActionCommitTag <= r.msg || ActionLinkTag <= r.msg
  {
    ghost var db0 := store.State();
    ghost var p0 := [Append(Link(collectiveAddress, person, PersonLinkType, CreatorTag))];
    ghost var p1 := ActionPlan(store.hash, collectiveAddress, PersonAddedAction(person), agent);
    written := [];
    var linked := store.CreateLink(Link(collectiveAddress, person, PersonLinkType, CreatorTag));
    var tagged := T(AddPersonTag, linked);
    if tagged.Err? {
      return Err(tagged.msg), written;
    }
    written := p0;
    var journalled, w := CreateCollectiveAction(store, collectiveAddress, ActionOp.AddCollectivePerson, PersonAddressData(person), "add_collective_person", SystemAutomatic, agent);
    Step(db0, written, w, p1, []);
    assert p0 + p1 + [] == p0 + p1;
    written := written + w;
    if journalled.Err? {
      return Err(journalled.msg), written;
    }
    r := Ok(());
  }

  /** `get_collective_people`: the targets of the `collective->person` links,
      whatever the tag, that load as people. The untagged `get_links` before it
      reads the same links and cannot fail here. */
  function GetCollectivePeople(db: Db<Entry>, collectiveAddress: Address): (r: Result<PeoplePayload>)
    ensures r.Ok? ==> r.value.collectiveAddress == collectiveAddress
    ensures r.Ok? ==> |r.value.people| <= |Query(db.links, collectiveAddress, Exactly(PersonLinkType), Any)|
    ensures r.Err? ==> PeopleTag <= r.msg
  {
    match T(PeopleTag, LinksAndLoadType(db, collectiveAddress, Exactly(PersonLinkType), Any, AsPerson, true))
    case Err(e) => Err(e)
    case Ok(people) => Ok(PeoplePayload(collectiveAddress, people))
  }

  /** The people listing fails exactly when some linked target is missing, with
      the breadcrumb before the `unwrap` panic. Otherwise each person listed is
      what a linked target loads as, and when every target is a person they are
      listed in link order, one per link. */
  lemma PeopleInLinkOrder(db: Db<Entry>, collectiveAddress: Address)
    ensures GetCollectivePeople(db, collectiveAddress).Ok? <==>
              forall a :: a in Targets(Query(db.links, collectiveAddress, Exactly(PersonLinkType), Any)) ==> LatestAt(db, a).Some?
    ensures GetCollectivePeople(db, collectiveAddress).Err? ==> GetCollectivePeople(db, collectiveAddress).msg == PeopleTag + UnwrapNone
    ensures var q := Query(db.links, collectiveAddress, Exactly(PersonLinkType), Any);
      GetCollectivePeople(db, collectiveAddress).Ok? ==>
        forall x :: x in GetCollectivePeople(db, collectiveAddress).value.people ==>
          exists i :: 0 <= i < |q| && Load(db, q[i].target, AsPerson, true) == Ok(x)
    ensures var q := Query(db.links, collectiveAddress, Exactly(PersonLinkType), Any);
      (forall i :: 0 <= i < |q| ==> Load(db, q[i].target, AsPerson, true).Ok?) ==>
        && GetCollectivePeople(db, collectiveAddress).Ok? && |GetCollectivePeople(db, collectiveAddress).value.people| == |q|
        && forall i :: 0 <= i < |q| ==> Load(db, q[i].target, AsPerson, true) == Ok(GetCollectivePeople(db, collectiveAddress).value.people[i])
  {
    LinksAndLoadTypeMeaning(db, collectiveAddress, Exactly(PersonLinkType), Any, AsPerson, true);
  }

  /** `get_collective`. */
  function GetCollective(db: Db<Entry>, collectiveAddress: Address): (r: Result<CollectivePayload>)
    ensures r.Ok? <==> LatestAt(db, collectiveAddress).Some? && LatestAt(db, collectiveAddress).value.CollectiveEntry?
    ensures r.Ok? ==> r.value.collectiveAddress == collectiveAddress
    ensures r.Ok? ==> LatestAt(db, collectiveAddress) == Some(CollectiveEntry(r.value.collective))
  {
    match Load(db, collectiveAddress, AsCollective, true)
    case Err(e) => Err(e)
    case Ok(c) => Ok(CollectivePayload(collectiveAddress, c))
  }

  // ----- create_collective -----

  /** `commit_collective`, judged by the Create validation with the committing
      agent as the only source and the admin read from the store. */
  method CommitCollective(store: Store<Entry>, collective: Collective, agent: Address)
    returns (r: Result<Address>)
    requires store.Valid()
    modifies store
    ensures store.Valid()
    ensures r.Ok? ==> && r.value == store.hash(CollectiveEntry(collective))
                      && store.State() == Apply(old(store.State()), PutEntry(store.hash, CollectiveEntry(collective), agent))
                      && CollectiveAdmissible(Create(collective), {agent}, old(store.State()))
    ensures r.Err? ==> store.State() == old(store.State()) && CommitTag <= r.msg
    ensures !CollectiveAdmissible(Create(collective), {agent}, old(store.State()))
            ==> r == Err(CommitTag + ValidateCollective(Create(collective), {agent}, old(store.State())).msg)
  {
    var verdict := ValidateCollective(Create(collective), {agent}, store.State());
    if verdict.Err? {
      return TagError(verdict.msg, CommitTag);
    }
    var committed := store.Commit(CollectiveEntry(collective), agent);
    r := T(CommitTag, committed);
  }

  /** The person created when no admin is given: the calling agent's own,
      with an empty name and status Active. */
  function DefaultAdmin(agent: Address): (p: Person)
    ensures p == Person(agent, "", Active)
  {
    PlovePerson.PersonOf(PlovePerson.DefaultPersonParams(agent))
  }

  /** The admin's address: the given one, or the created default admin's. */
  function ResolvedAdmin(hash: Entry -> Address, params: CreateCollectiveParams, agent: Address): Address
  {
    match params.adminAddress
    case Some(a) => a
    case None => hash(PersonEntry(DefaultAdmin(agent)))
  }

  /** The collective `create_collective` commits: always with an admin. */
  function Created(hash: Entry -> Address, params: CreateCollectiveParams, agent: Address): (c: Collective)
    ensures c.name == params.name && c.adminAddress == Some(ResolvedAdmin(hash, params, agent))
  {
    Collective(params.name, Some(ResolvedAdmin(hash, params, agent)))
  }

  /** The writes that resolve the admin: none for a given admin, the default
      admin's person entry otherwise. */
  function AdminPlan(hash: Entry -> Address, params: CreateCollectiveParams, agent: Address): seq<Write<Entry>>
  {
    if params.adminAddress.Some? then [] else PlovePerson.PersonPlan(hash, DefaultAdmin(agent), agent)
  }

  /** The writes after the admin is known: the collective, its CreateCollective
      journal entry, its primary ledger, its SetCollectiveName journal entry,
      and the admin's Creator link with the AddCollectivePerson entry. */
  function CollectivePlan(hash: Entry -> Address, c: Collective, admin: Address, agent: Address): seq<Write<Entry>>
  {
    var a := hash(CollectiveEntry(c));
    [PutEntry(hash, CollectiveEntry(c), agent)]
    + ActionPlan(hash, a, CreatedAction(c), agent)
    + PloveLedger.LedgerPlan(hash, c, a, agent)
    + ActionPlan(hash, a, RenamedAction(c.name), agent)
    + AddPersonPlan(hash, a, admin, agent)
  }

  /** Everything a successful `create_collective` writes, in order. */
  function CreatePlan(hash: Entry -> Address, params: CreateCollectiveParams, agent: Address): seq<Write<Entry>>
  {
    AdminPlan(hash, params, agent)
    + CollectivePlan(hash, Created(hash, params, agent), ResolvedAdmin(hash, params, agent), agent)
  }

  /** The first follow-up writes: the CreateCollective journal entry, then the
      primary ledger. */
  function FoundingPlan(hash: Entry -> Address, c: Collective, a: Address, agent: Address): seq<Write<Entry>>
  {
    ActionPlan(hash, a, CreatedAction(c), agent) + PloveLedger.LedgerPlan(hash, c, a, agent)
  }

  /** The last follow-up writes: the SetCollectiveName journal entry, then the
      admin with its AddCollectivePerson journal entry. */
  function NamingPlan(hash: Entry -> Address, c: Collective, a: Address, admin: Address, agent: Address): seq<Write<Entry>>
  {
    ActionPlan(hash, a, RenamedAction(c.name), agent) + AddPersonPlan(hash, a, admin, agent)
  }

  /** The writes `create_collective` makes after committing the collective at `a`. */
  function FollowUpPlan(hash: Entry -> Address, c: Collective, a: Address, admin: Address, agent: Address): seq<Write<Entry>>
  {
    FoundingPlan(hash, c, a, agent) + NamingPlan(hash, c, a, admin, agent)
  }

  /** Journal CreateCollective, then create the ledger; a failure carries the
      "create_collective: " breadcrumb. */
  method CreateFounding(store: Store<Entry>, collective: Collective, a: Address, agent: Address)
    returns (r: Result<()>, ghost written: seq<Write<Entry>>)
    requires store.Valid()
    modifies store
    ensures store.Valid()
    ensures written <= FoundingPlan(store.hash, collective, a, agent)
    ensures store.State() == ApplyAll(old(store.State()), written)
    ensures r.Ok? <==> written == FoundingPlan(store.hash, collective, a, agent)
    ensures r.Err? ==> CreateTag <= r.msg
  {
    ghost var db0 := store.State();
    ghost var p1 := ActionPlan(store.hash, a, CreatedAction(collective), agent);
    ghost var p2 := PloveLedger.LedgerPlan(store.hash, collective, a, agent);
    ghost var plan := FoundingPlan(store.hash, collective, a, agent);
    assert plan == [] + (p1 + p2);
    written := [];
    var journalled, w := CreateCollectiveAction(store, a, ActionOp.CreateCollective, CollectiveData(collective), "create_collective", SystemAutomatic, agent);
    Advance(db0, plan, written, w, p1, p2);
    written := written + w;
    if journalled.Err? {
      return T(CreateTag, Err(journalled.msg)), written;
    }
    assert plan == written + (p2 + []);
    var ledger;
    ledger, w := PloveLedger.CreateCollectiveLedger(store, collective, a, agent);
    Advance(db0, plan, written, w, p2, []);
    written := written + w;
    if ledger.Err? {
      return T(CreateTag, Err(ledger.msg)), written;
    }
    r := Ok(());
  }

  /** Journal SetCollectiveName, then add the admin as Creator; a failure
      carries the "create_collective: " breadcrumb. */
  method CreateNaming(store: Store<Entry>, collective: Collective, a: Address, admin: Address, agent: Address)
    returns (r: Result<()>, ghost written: seq<Write<Entry>>)
    requires store.Valid()
    modifies store
    ensures store.Valid()
    ensures written <= NamingPlan(store.hash, collective, a, admin, agent)
    ensures store.State() == ApplyAll(old(store.State()), written)
    ensures r.Ok? <==> written == NamingPlan(store.hash, collective, a, admin, agent)
    ensures r.Err? ==> CreateTag <= r.msg
  {
    ghost var db0 := store.State();
    ghost var p3 := ActionPlan(store.hash, a, RenamedAction(collective.name), agent);
    ghost var p4 := AddPersonPlan(store.hash, a, admin, agent);
    ghost var plan := NamingPlan(store.hash, collective, a, admin, agent);
    assert plan == [] + (p3 + p4);
    written := [];
    var journalled, w := CreateCollectiveAction(store, a, ActionOp.SetCollectiveName, NameData(collective.name), "set_collective_name", SystemAutomatic, agent);
    Advance(db0, plan, written, w, p3, p4);
    written := written + w;
    if journalled.Err? {
      return T(CreateTag, Err(journalled.msg)), written;
    }
    assert plan == written + (p4 + []);
    var added;
    added, w := AddCollectivePerson(store, a, admin, agent);
    Advance(db0, plan, written, w, p4, []);
    written := written + w;
    if added.Err? {
      return T(CreateTag, Err(added.msg)), written;
    }
    r := Ok(());
  }

  /** The steps of `create_collective` after the collective is committed at
      `a`: journal CreateCollective, create the ledger, journal
      SetCollectiveName, add the admin as Creator. Every failure is returned
      with the "create_collective: " breadcrumb. */
  method CreateFollowUps(store: Store<Entry>, collective: Collective, a: Address, admin: Address, agent: Address)
    returns (r: Result<()>, ghost written: seq<Write<Entry>>)
    requires store.Valid()
    modifies store
    ensures store.Valid()
    ensures written <= FollowUpPlan(store.hash, collective, a, admin, agent)
    ensures store.State() == ApplyAll(old(store.State()), written)
    ensures r.Ok? <==> written == FollowUpPlan(store.hash, collective, a, admin, agent)
    ensures r.Err? ==> CreateTag <= r.msg
  {
    ghost var db0 := store.State();
    ghost var pa := FoundingPlan(store.hash, collective, a, agent);
    ghost var pb := NamingPlan(store.hash, collective, a, admin, agent);
    ghost var plan := FollowUpPlan(store.hash, collective, a, admin, agent);
    assert plan == [] + (pa + pb);
    var founded, w := CreateFounding(store, collective, a, agent);
    Advance(db0, plan, [], w, pa, pb);
    written := w;
    if founded.Err? {
      return founded, written;
    }
    assert plan == written + (pb + []);
    var named;
    named, w := CreateNaming(store, collective, a, admin, agent);
    Advance(db0, plan, written, w, pb, []);
    written := written + w;
    r := named;
  }

  /** The steps of `create_collective` once the admin is known: commit the
      collective, then the follow-up steps. Every failure is returned with
      the "create_collective: " breadcrumb. */
  method CreateResolved(store: Store<Entry>, collective: Collective, admin: Address, agent: Address)
    returns (r: Result<CollectivePayload>, ghost written: seq<Write<Entry>>)
    requires store.Valid()
    modifies store
    ensures store.Valid()
    ensures written <= CollectivePlan(store.hash, collective, admin, agent)
    ensures store.State() == ApplyAll(old(store.State()), written)
    ensures r.Ok? <==> written == CollectivePlan(store.hash, collective, admin, agent)
    ensures r.Ok? ==> r.value == CollectivePayload(store.hash(CollectiveEntry(collective)), collective)
    ensures r.Err? ==> CreateTag <= r.msg
    ensures !CollectiveAdmissible(Create(collective), {agent}, old(store.State()))
            ==> written == [] && r == Err(CreateTag + (CommitTag + ValidateCollective(Create(collective), {agent}, old(store.State())).msg))
  {
    ghost var h := store.hash;
    ghost var db0 := store.State();
    ghost var a := h(CollectiveEntry(collective));
    ghost var p0 := [PutEntry(h, CollectiveEntry(collective), agent)];
    ghost var pf := FollowUpPlan(h, collective, a, admin, agent);
    assert CollectivePlan(h, collective, admin, agent) == p0 + (pf + []);
    written := [];

    var committed := CommitCollective(store, collective, agent);
    var tagged := T(CreateTag, committed);
    if tagged.Err? {
      return Err(tagged.msg), written;
    }
    written := p0;
    var collectiveAddress := tagged.value;

    var followed, w := CreateFollowUps(store, collective, collectiveAddress, admin, agent);
    Advance(db0, CollectivePlan(h, collective, admin, agent), written, w, pf, []);
    written := written + w;
    if followed.Err? {
      return Err(followed.msg), written;
    }
    r := Ok(CollectivePayload(collectiveAddress, collective));
  }

  /** `create_collective`. The admin is resolved first: a given admin must
      load as a person, otherwise the calling agent's default person is
      created. The collective then always names its admin, and is refused
      unless that admin's agent is the caller. A failure leaves the earlier
      writes in place and carries the "create_collective: " breadcrumb. */
  method CreateCollective(store: Store<Entry>, params: CreateCollectiveParams, agent: Address)
    returns (r: Result<CollectivePayload>, ghost written: seq<Write<Entry>>)
    requires store.Valid()
    modifies store
    ensures store.Valid()
    ensures written <= CreatePlan(store.hash, params, agent)
    ensures store.State() == ApplyAll(old(store.State()), written)
    ensures r.Ok? <==> written == CreatePlan(store.hash, params, agent)
    ensures r.Ok? ==> r.value == CollectivePayload(store.hash(CollectiveEntry(Created(store.hash, params, agent))), Created(store.hash, params, agent))
    ensures r.Err? ==> CreateTag <= r.msg
    ensures params.adminAddress.Some? && Load(old(store.State()), params.adminAddress.value, AsPerson, true).Err?
            ==> written == [] && r == Err(GetAsTypeTag + Load(old(store.State()), params.adminAddress.value, AsPerson, true).msg)
    ensures params.adminAddress.Some? && Load(old(store.State()), params.adminAddress.value, AsPerson, true).Ok?
            && Load(old(store.State()), params.adminAddress.value, AsPerson, true).value.agentAddress != agent
            ==> written == [] && r == Err(CreateTag + (CommitTag + NotSameAgent))
  {
    ghost var h := store.hash;
    ghost var db0 := store.State();
    ghost var pa := AdminPlan(h, params, agent);
    ghost var pc := CollectivePlan(h, Created(h, params, agent), ResolvedAdmin(h, params, agent), agent);
    written := [];

    var adminAddress;
    match params.adminAddress {
      case Some(given) =>
        var loaded := T(GetAsTypeTag, Load(store.State(), given, AsPerson, true));
        if loaded.Err? {
          return Err(loaded.msg), written;
        }
        adminAddress := given;
      case None =>
        var created;
        created, written := PlovePerson.CreatePerson(store,
          PlovePerson.PersonParams(
            "",
            match params.adminAddress { case Some(given) => given case None => PlovePerson.DefaultPersonParams(agent).agentAddress },
            PlovePerson.DefaultPersonParams(agent).status),
          agent);
        var tagged := T(CreatePersonTag, created);
        if tagged.Err? {
          return Err(tagged.msg), written;
        }
        adminAddress := tagged.value.personAddress;
    }
    assert written == pa && adminAddress == ResolvedAdmin(h, params, agent);

    var collective := Collective(params.name, Some(adminAddress));
    ghost var w;
    r, w := CreateResolved(store, collective, adminAddress, agent);
    Step(db0, written, w, pc, []);
    assert pa + pc + [] == CreatePlan(h, params, agent);
    written := written + w;
  }

  /** The links `create_collective` appends, in order: CreateCollective
      journal link, ledger link, SetCollectiveName journal link, Creator link,
      AddCollectivePerson journal link. */
  function CreateLinks(hash: Entry -> Address, c: Collective, admin: Address): seq<Link>
  {
    var a := hash(CollectiveEntry(c));
    [Link(a, hash(ActionEntry(CreatedAction(c))), ActionLinkType, "create_collective"),
     Link(a, hash(LedgerEntry(PrimaryLedger(c.name))), PloveLedger.LedgerLinkType, PloveLedger.PrimaryTag),
     Link(a, hash(ActionEntry(RenamedAction(c.name))), ActionLinkType, "set_collective_name"),
     Link(a, admin, PersonLinkType, CreatorTag),
     Link(a, hash(ActionEntry(PersonAddedAction(admin))), ActionLinkType, "add_collective_person")]
  }

  lemma AddPersonPlanShape(hash: Entry -> Address, collectiveAddress: Address, person: Address, agent: Address)
    ensures var p := AddPersonPlan(hash, collectiveAddress, person, agent);
            && Addressed(hash, p) && NoSupersede(p) && |p| == 3
            && p[1] == PutEntry(hash, ActionEntry(PersonAddedAction(person)), agent)
            && AppendedLinks(p) == [Link(collectiveAddress, person, PersonLinkType, CreatorTag),
                                    Link(collectiveAddress, hash(ActionEntry(PersonAddedAction(person))), ActionLinkType, "add_collective_person")]
  {
    var pa := [Append(Link(collectiveAddress, person, PersonLinkType, CreatorTag))];
    var pb := ActionPlan(hash, collectiveAddress, PersonAddedAction(person), agent);
    assert AppendedLinks(pa) == [pa[0].link] by { assert pa[1..] == []; }
    ActionPlanShape(hash, collectiveAddress, PersonAddedAction(person), agent);
    AppendedLinksConcat(pa, pb);
    AddressedConcat(hash, pa, pb);
  }

  /** Every write of a creation is addressed and none supersedes. */
  lemma CollectivePlanClean(hash: Entry -> Address, c: Collective, admin: Address, agent: Address)
    ensures Addressed(hash, CollectivePlan(hash, c, admin, agent)) && NoSupersede(CollectivePlan(hash, c, admin, agent))
  {
    var a := hash(CollectiveEntry(c));
    var p0 := [PutEntry(hash, CollectiveEntry(c), agent)];
    var p1 := ActionPlan(hash, a, CreatedAction(c), agent);
    var p2 := PloveLedger.LedgerPlan(hash, c, a, agent);
    var p3 := ActionPlan(hash, a, RenamedAction(c.name), agent);
    var p4 := AddPersonPlan(hash, a, admin, agent);
    ActionPlanShape(hash, a, CreatedAction(c), agent);
    PloveLedger.LedgerPlanShape(hash, c, a, agent);
    ActionPlanShape(hash, a, RenamedAction(c.name), agent);
    AddPersonPlanShape(hash, a, admin, agent);
    AddressedConcat(hash, p0, p1);
    AddressedConcat(hash, p0 + p1, p2);
    AddressedConcat(hash, p0 + p1 + p2, p3);
    AddressedConcat(hash, p0 + p1 + p2 + p3, p4);
    NoSupersedeConcat(p0, p1);
    NoSupersedeConcat(p0 + p1, p2);
    NoSupersedeConcat(p0 + p1 + p2, p3);
    NoSupersedeConcat(p0 + p1 + p2 + p3, p4);
  }

  /** The links a creation appends are those of `CreateLinks`. */
  lemma CollectivePlanLinks(hash: Entry -> Address, c: Collective, admin: Address, agent: Address)
    ensures AppendedLinks(CollectivePlan(hash, c, admin, agent)) == CreateLinks(hash, c, admin)
  {
    var a := hash(CollectiveEntry(c));
    var p0 := [PutEntry(hash, CollectiveEntry(c), agent)];
    var p1 := ActionPlan(hash, a, CreatedAction(c), agent);
    var p2 := PloveLedger.LedgerPlan(hash, c, a, agent);
    var p3 := ActionPlan(hash, a, RenamedAction(c.name), agent);
    var p4 := AddPersonPlan(hash, a, admin, agent);
    assert AppendedLinks(p0) == [] by { assert p0[1..] == []; }
    ActionPlanShape(hash, a, CreatedAction(c), agent);
    PloveLedger.LedgerPlanShape(hash, c, a, agent);
    ActionPlanShape(hash, a, RenamedAction(c.name), agent);
    AddPersonPlanShape(hash, a, admin, agent);
    AppendedLinksConcat(p0, p1);
    AppendedLinksConcat(p0 + p1, p2);
    AppendedLinksConcat(p0 + p1 + p2, p3);
    AppendedLinksConcat(p0 + p1 + p2 + p3, p4);
  }

  lemma CollectivePlanShape(hash: Entry -> Address, c: Collective, admin: Address, agent: Address)
    ensures var plan := CollectivePlan(hash, c, admin, agent);
            && Addressed(hash, plan) && NoSupersede(plan) && |plan| == 10
            && plan[0] == PutEntry(hash, CollectiveEntry(c), agent)
            && plan[1] == PutEntry(hash, ActionEntry(CreatedAction(c)), agent)
            && plan[5] == PutEntry(hash, ActionEntry(RenamedAction(c.name)), agent)
            && plan[8] == PutEntry(hash, ActionEntry(PersonAddedAction(admin)), agent)
            && AppendedLinks(plan) == CreateLinks(hash, c, admin)
  {
    var a := hash(CollectiveEntry(c));
    AddPersonPlanShape(hash, a, admin, agent);
    CollectivePlanClean(hash, c, admin, agent);
    CollectivePlanLinks(hash, c, admin, agent);
  }

  /** The whole plan: at most one person entry for the admin, then the ten
      writes of the collective. */
  lemma CreatePlanShape(hash: Entry -> Address, params: CreateCollectiveParams, agent: Address)
    ensures var plan := CreatePlan(hash, params, agent);
            var k := |AdminPlan(hash, params, agent)|;
            var c := Created(hash, params, agent);
            var admin := ResolvedAdmin(hash, params, agent);
            && Addressed(hash, plan) && NoSupersede(plan)
            && k == (if params.adminAddress.Some? then 0 else 1) && |plan| == k + 10
            && (k == 1 ==> plan[0] == PutEntry(hash, PersonEntry(DefaultAdmin(agent)), agent))
            && plan[k] == PutEntry(hash, CollectiveEntry(c), agent)
            && plan[k + 1] == PutEntry(hash, ActionEntry(CreatedAction(c)), agent)
            && plan[k + 5] == PutEntry(hash, ActionEntry(RenamedAction(c.name)), agent)
            && plan[k + 8] == PutEntry(hash, ActionEntry(PersonAddedAction(admin)), agent)
            && AppendedLinks(plan) == CreateLinks(hash, c, admin)
  {
    CollectivePlanShape(hash, Created(hash, params, agent), ResolvedAdmin(hash, params, agent), agent);
    CreatePlanClean(hash, params, agent);
    CreatePlanLinks(hash, params, agent);
  }

  /** The whole plan appends the links of `CreateLinks`, the admin person
      linking nothing. */
  lemma CreatePlanLinks(hash: Entry -> Address, params: CreateCollectiveParams, agent: Address)
    ensures AppendedLinks(CreatePlan(hash, params, agent))
         == CreateLinks(hash, Created(hash, params, agent), ResolvedAdmin(hash, params, agent))
  {
    var pa := AdminPlan(hash, params, agent);
    var pc := CollectivePlan(hash, Created(hash, params, agent), ResolvedAdmin(hash, params, agent), agent);
    CollectivePlanLinks(hash, Created(hash, params, agent), ResolvedAdmin(hash, params, agent), agent);
    assert AppendedLinks(pa) == [] by {
      if pa != [] { assert pa[1..] == []; }
    }
    AppendedLinksConcat(pa, pc);
  }

  /** Which of those links each read selects. */
  lemma CreateLinksSelected(hash: Entry -> Address, c: Collective, admin: Address)
    ensures var ls := CreateLinks(hash, c, admin);
            var a := hash(CollectiveEntry(c));
            && Query(ls, a, Exactly(ActionLinkType), Any) == [ls[0], ls[2], ls[4]]
            && Query(ls, a, Exactly(PersonLinkType), Any) == [ls[3]]
  {
    var ls := CreateLinks(hash, c, admin);
    var a := hash(CollectiveEntry(c));
    assert ActionLinkType != PloveLedger.LedgerLinkType by { assert ActionLinkType[12] != PloveLedger.LedgerLinkType[12]; }
    assert ActionLinkType != PersonLinkType by { assert ActionLinkType[12] != PersonLinkType[12]; }
    assert PersonLinkType != PloveLedger.LedgerLinkType by { assert PersonLinkType[12] != PloveLedger.LedgerLinkType[12]; }
    Query5(ls[0], ls[1], ls[2], ls[3], ls[4], a, Exactly(ActionLinkType), Any);
    Query5(ls[0], ls[1], ls[2], ls[3], ls[4], a, Exactly(PersonLinkType), Any);
  }

  /** Every write of the whole plan is addressed and none supersedes. */
  lemma CreatePlanClean(hash: Entry -> Address, params: CreateCollectiveParams, agent: Address)
    ensures Addressed(hash, CreatePlan(hash, params, agent)) && NoSupersede(CreatePlan(hash, params, agent))
  {
    var pa := AdminPlan(hash, params, agent);
    var pc := CollectivePlan(hash, Created(hash, params, agent), ResolvedAdmin(hash, params, agent), agent);
    CollectivePlanClean(hash, Created(hash, params, agent), ResolvedAdmin(hash, params, agent), agent);
    AddressedConcat(hash, pa, pc);
    NoSupersedeConcat(pa, pc);
  }

  /** The actions a creation journals load, after it, in journal order. */
  lemma CreateJournalLoads(hash: Entry -> Address, db: Db<Entry>, params: CreateCollectiveParams, agent: Address)
    requires Injective(hash) && Wellformed(hash, db)
    ensures var c := Created(hash, params, agent);
            var a := hash(CollectiveEntry(c));
            var plan := CreatePlan(hash, params, agent);
            LoadAll(ApplyAll(db, plan), Targets(Query(AppendedLinks(plan), a, Exactly(ActionLinkType), Any)), AsAction, true)
              == Ok([CreatedAction(c), RenamedAction(params.name), PersonAddedAction(ResolvedAdmin(hash, params, agent))])
  {
    var c := Created(hash, params, agent);
    var admin := ResolvedAdmin(hash, params, agent);
    var plan := CreatePlan(hash, params, agent);
    var k := |AdminPlan(hash, params, agent)|;
    var ls := CreateLinks(hash, c, admin);
    CreatePlanShape(hash, params, agent);
    CreateLinksSelected(hash, c, admin);
    LoadsWrittenAction(hash, db, plan, k + 1);
    LoadsWrittenAction(hash, db, plan, k + 5);
    LoadsWrittenAction(hash, db, plan, k + 8);
    LoadAllOfLoads(ApplyAll(db, plan), Targets([ls[0], ls[2], ls[4]]),
                   [CreatedAction(c), RenamedAction(params.name), PersonAddedAction(admin)], AsAction, true);
  }

  /** A collective created in a well-formed store journals, after whatever it
      already journalled, its CreateCollective, SetCollectiveName and
      AddCollectivePerson actions, in that order. */
  lemma CreateCollectiveJournal(hash: Entry -> Address, db: Db<Entry>, params: CreateCollectiveParams, agent: Address)
    requires Injective(hash) && Wellformed(hash, db)
    requires Journal(db, hash(CollectiveEntry(Created(hash, params, agent)))).Ok?
    ensures var c := Created(hash, params, agent);
            var a := hash(CollectiveEntry(c));
            Journal(ApplyAll(db, CreatePlan(hash, params, agent)), a)
              == Ok(Journal(db, a).value
                    + [CreatedAction(c), RenamedAction(params.name), PersonAddedAction(ResolvedAdmin(hash, params, agent))])
  {
    var a := hash(CollectiveEntry(Created(hash, params, agent)));
    CreatePlanClean(hash, params, agent);
    CreateJournalLoads(hash, db, params, agent);
    LoadTargetsAfter(hash, db, CreatePlan(hash, params, agent), a, Exactly(ActionLinkType), Any, AsAction, true);
  }

  /** The person `create_collective` makes the admin: the one loaded from the
      given address, or the caller's default person. */
  function ResolvedPerson(db: Db<Entry>, params: CreateCollectiveParams, agent: Address): Result<Person>
  {
    match params.adminAddress
    case Some(a) => Load(db, a, AsPerson, true)
    case None => Ok(DefaultAdmin(agent))
  }

  /** After a creation the admin loads as the resolved person. */
  lemma CreateAdminLoads(hash: Entry -> Address, db: Db<Entry>, params: CreateCollectiveParams, agent: Address)
    requires Injective(hash) && Wellformed(hash, db)
    requires ResolvedPerson(db, params, agent).Ok?
    ensures Load(ApplyAll(db, CreatePlan(hash, params, agent)), ResolvedAdmin(hash, params, agent), AsPerson, true)
         == ResolvedPerson(db, params, agent)
  {
    var plan := CreatePlan(hash, params, agent);
    CreatePlanShape(hash, params, agent);
    if params.adminAddress.Some? {
      ReadsStable(hash, db, plan, ResolvedAdmin(hash, params, agent), true);
    } else {
      WrittenReadable(hash, db, plan, 0);
      UpdatesAfter(db, plan);
      NotSuperseded(hash, db, IsCollective, PersonEntry(DefaultAdmin(agent)));
    }
  }

  /** After a successful `create_collective` the admin is the last person
      listed for the collective. */
  lemma CreateCollectivePeople(hash: Entry -> Address, db: Db<Entry>, params: CreateCollectiveParams, agent: Address)
    requires Injective(hash) && Wellformed(hash, db)
    requires ResolvedPerson(db, params, agent).Ok?
    requires GetCollectivePeople(db, hash(CollectiveEntry(Created(hash, params, agent)))).Ok?
    ensures var a := hash(CollectiveEntry(Created(hash, params, agent)));
            GetCollectivePeople(ApplyAll(db, CreatePlan(hash, params, agent)), a)
              == Ok(PeoplePayload(a, GetCollectivePeople(db, a).value.people + [ResolvedPerson(db, params, agent).value]))
  {
    var c := Created(hash, params, agent);
    var admin := ResolvedAdmin(hash, params, agent);
    var a := hash(CollectiveEntry(c));
    var plan := CreatePlan(hash, params, agent);
    var ls := CreateLinks(hash, c, admin);
    CreatePlanClean(hash, params, agent);
    CreatePlanLinks(hash, params, agent);
    CreateLinksSelected(hash, c, admin);
    CreateAdminLoads(hash, db, params, agent);
    LinksAndLoadTypeAfter(hash, db, plan, a, Exactly(PersonLinkType), Any, AsPerson, true, [ResolvedPerson(db, params, agent).value]);
  }

  /** After a successful `create_collective` the collective reads back, with
      its admin set, unless that very collective had been renamed before (the
      lookup follows the old update). */
  lemma CreateCollectiveStored(hash: Entry -> Address, db: Db<Entry>, params: CreateCollectiveParams, agent: Address)
    requires Injective(hash) && ContentAddressed(hash, db)
    requires hash(CollectiveEntry(Created(hash, params, agent))) !in db.updates
    ensures var c := Created(hash, params, agent);
            && GetCollective(ApplyAll(db, CreatePlan(hash, params, agent)), hash(CollectiveEntry(c))) == Ok(CollectivePayload(hash(CollectiveEntry(c)), c))
            && c.adminAddress.Some?
  {
    var plan := CreatePlan(hash, params, agent);
    CreatePlanShape(hash, params, agent);
    WrittenReadable(hash, db, plan, |AdminPlan(hash, params, agent)|);
    UpdatesAfter(db, plan);
  }

  /** Without a given admin, validation cannot refuse the collective: the
      default admin just created is the caller's own person. */
  lemma DefaultAdminAdmitted(hash: Entry -> Address, db: Db<Entry>, params: CreateCollectiveParams, agent: Address)
    requires Injective(hash) && Wellformed(hash, db) && params.adminAddress.None?
    ensures PlovePerson.PersonAdmissible(Create(DefaultAdmin(agent)), {agent})
    ensures CollectiveAdmissible(Create(Created(hash, params, agent)), {agent}, ApplyAll(db, AdminPlan(hash, params, agent)))
  {
    var pa := AdminPlan(hash, params, agent);
    assert Addressed(hash, pa) && NoSupersede(pa) by { assert pa[1..] == []; }
    WrittenReadable(hash, db, pa, 0);
    UpdatesAfter(db, pa);
    NotSuperseded(hash, db, IsCollective, PersonEntry(DefaultAdmin(agent)));
  }

  // ----- set_collective_name -----

  /** `update_collective`, judged by the Modify validation of the version it
      replaces. */
  method UpdateCollective(store: Store<Entry>, collectiveAddress: Address, collective: Collective, saved: Collective, agent: Address)
    returns (r: Result<Address>)
    requires store.Valid()
    modifies store
    ensures store.Valid()
    ensures r.Ok? ==> && r.value == store.hash(CollectiveEntry(collective))
                      && store.State() == Apply(old(store.State()), SupersedeEntry(store.hash, collectiveAddress, CollectiveEntry(collective), agent))
                      && CollectiveAdmissible(Modify(collective, saved), {agent}, old(store.State()))
    ensures r.Err? ==> store.State() == old(store.State())
    ensures !CollectiveAdmissible(Modify(collective, saved), {agent}, old(store.State()))
            ==> r == Err(ValidateCollective(Modify(collective, saved), {agent}, old(store.State())).msg)
  {
    var verdict := ValidateCollective(Modify(collective, saved), {agent}, store.State());
    if verdict.Err? {
      return Err(verdict.msg);
    }
    r := store.Update(collectiveAddress, CollectiveEntry(collective), agent);
  }

  /** The writes of `set_collective_name` once the collective has loaded: the
      renamed version as an update of the given address, then its journal entry. */
  function RenamePlan(hash: Entry -> Address, collectiveAddress: Address, renamed: Collective, agent: Address): seq<Write<Entry>>
  {
    [SupersedeEntry(hash, collectiveAddress, CollectiveEntry(renamed), agent)]
    + ActionPlan(hash, collectiveAddress, RenamedAction(renamed.name), agent)
  }

  /** `set_collective_name`: only the name changes, the admin is kept, and the
      payload carries the address the caller gave. Only the agent of the
      collective's admin may rename it. */
  method SetCollectiveName(store: Store<Entry>, collectiveAddress: Address, name: string, agent: Address)
    returns (r: Result<CollectivePayload>, ghost written: seq<Write<Entry>>)
    requires store.Valid()
    modifies store
    ensures store.Valid()
    ensures store.State() == ApplyAll(old(store.State()), written)
    ensures var saved := Load(old(store.State()), collectiveAddress, AsCollective, true);
            saved.Err? ==> r == Err(saved.msg) && written == []
    ensures var saved := Load(old(store.State()), collectiveAddress, AsCollective, true);
            saved.Ok? ==>
              && written <= RenamePlan(store.hash, collectiveAddress, saved.value.(name := name), agent)
              && (r.Ok? <==> written == RenamePlan(store.hash, collectiveAddress, saved.value.(name := name), agent))
              && (r.Ok? ==> r.value == CollectivePayload(collectiveAddress, saved.value.(name := name)))
    ensures var saved := Load(old(store.State()), collectiveAddress, AsCollective, true);
            r.Ok? ==> saved.Ok? && SignedByAdmin(old(store.State()), saved.value.adminAddress, {agent})
    ensures var saved := Load(old(store.State()), collectiveAddress, AsCollective, true);
            saved.Ok? && !SignedByAdmin(old(store.State()), saved.value.adminAddress, {agent}) ==>
              written == [] && r == Err(ValidateCollective(Modify(saved.value.(name := name), saved.value), {agent}, old(store.State())).msg)
  {
    ghost var db0 := store.State();
    written := [];
    var saved := Load(store.State(), collectiveAddress, AsCollective, true);
    if saved.Err? {
      return Err(saved.msg), written;
    }
    var collective := saved.value.(name := name);
    ghost var p0 := [SupersedeEntry(store.hash, collectiveAddress, CollectiveEntry(collective), agent)];
    ghost var p1 := ActionPlan(store.hash, collectiveAddress, RenamedAction(collective.name), agent);
    var updated := UpdateCollective(store, collectiveAddress, collective, saved.value, agent);
    if updated.Err? {
      return Err(updated.msg), written;
    }
    written := p0;
    var journalled, w := CreateCollectiveAction(store, collectiveAddress, ActionOp.SetCollectiveName, NameData(collective.name), "set_collective_name", SystemAutomatic, agent);
    Step(db0, written, w, p1, []);
    assert p0 + p1 + [] == p0 + p1;
    written := written + w;
    if journalled.Err? {
      return Err(journalled.msg), written;
    }
    r := Ok(CollectivePayload(collectiveAddress, collective));
  }

  /** After a rename, reading the collective at the address it was created at
      gives the renamed collective. */
  lemma RenameVisible(hash: Entry -> Address, db: Db<Entry>, collectiveAddress: Address, renamed: Collective, agent: Address)
    requires Injective(hash) && ContentAddressed(hash, db)
    ensures GetCollective(ApplyAll(db, RenamePlan(hash, collectiveAddress, renamed, agent)), collectiveAddress)
         == Ok(CollectivePayload(collectiveAddress, renamed))
  {
    var p := RenamePlan(hash, collectiveAddress, renamed, agent);
    var rest := ActionPlan(hash, collectiveAddress, RenamedAction(renamed.name), agent);
    assert Addressed(hash, p) by {
      ActionPlanShape(hash, collectiveAddress, RenamedAction(renamed.name), agent);
      AddressedConcat(hash, [p[0]], rest);
      assert p == [p[0]] + rest;
    }
    WrittenReadable(hash, db, p, 0);
    var db1 := Apply(db, p[0]);
    assert p[1..] == rest;
    ActionPlanShape(hash, collectiveAddress, RenamedAction(renamed.name), agent);
    UpdatesAfter(db1, rest);
    assert ApplyAll(db, p) == ApplyAll(db1, rest);
  }

  /** A rename journals itself: the collective's journal gains the
      SetCollectiveName action and is otherwise unchanged. */
  lemma RenameJournal(hash: Entry -> Address, db: Db<Entry>, collectiveAddress: Address, renamed: Collective, agent: Address)
    requires Injective(hash) && Wellformed(hash, db)
    requires GetCollective(db, collectiveAddress).Ok? && Journal(db, collectiveAddress).Ok?
    ensures Journal(ApplyAll(db, RenamePlan(hash, collectiveAddress, renamed, agent)), collectiveAddress)
         == Ok(Journal(db, collectiveAddress).value + [RenamedAction(renamed.name)])
  {
    var p := RenamePlan(hash, collectiveAddress, renamed, agent);
    var rest := ActionPlan(hash, collectiveAddress, RenamedAction(renamed.name), agent);
    var db1 := Apply(db, p[0]);
    assert p[1..] == rest;
    assert ApplyAll(db, p) == ApplyAll(db1, rest);
    assert collectiveAddress in db.entries && IsCollective(db.entries[collectiveAddress].entry) by {
      if collectiveAddress !in db.updates {
        assert EntryAt(db, collectiveAddress).Some?;
      }
    }
    SupersedeStable(hash, db, collectiveAddress, CollectiveEntry(renamed), agent, IsCollective);
    // no action read changes, so the journal is the same after the update
    var q := Query(db.links, collectiveAddress, Exactly(ActionLinkType), Any);
    assert db1.links == db.links;
    var ts := Targets(q);
    assert LoadAll(db, ts, AsAction, true).Ok?;
    LoadAllMeaning(db, ts, AsAction, true);
    forall i | 0 <= i < |ts|
      ensures Read(db1, ts[i], true) == Read(db, ts[i], true)
    {
      assert Readable(db, ts[i], AsAction, true);
      assert !IsCollective(LatestAt(db, ts[i]).value);
    }
    LoadAllSameReads(db, db1, Targets(q), AsAction, true);
    assert Journal(db1, collectiveAddress) == Journal(db, collectiveAddress);
    ActionPlanListed(hash, db1, collectiveAddress, RenamedAction(renamed.name), agent);
  }
}
