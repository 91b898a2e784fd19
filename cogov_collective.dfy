/** cogov collectives (zomes/cogov/code/src/collective.rs): creating one with
    its journal, ledger and creator, renaming it, the generic action journal
    entry point, and the creator and people listings. Entries are never
    rejected by validation in this generation. */
module CogovCollective {
  import opened Results
  import opened Substrate
  import opened Ledgers
  import opened CogovTypes
  import opened CogovAction
  import CogovLedger

  const PersonLinkType := "collective_person"
  /** `CollectivePersonTag::Creator.to_string()`. */
  const CreatorTag := "Creator"
  /** What `Vec::remove(0)` panics with on an empty vector. */
  const RemoveOutOfBounds := "removal index (is 0) should be < len (is 0)"

  datatype CollectivePayload = CollectivePayload(collectiveAddress: Address, collective: Collective)
  datatype CreatorPayload = CreatorPayload(collectiveAddress: Address, creator: Person)
  datatype PeoplePayload = PeoplePayload(collectiveAddress: Address, people: seq<Person>)

  // ----- the journal -----

  /** The action `create_create_collective_action` journals. */
  function CreatedAction(c: Collective): Action
  {
    Action(ActionOp.CreateCollective, Executed, CollectiveData(c), "create_collective", SystemAutomatic)
  }

  /** The action `create_set_collective_name_action` journals. */
  function RenamedAction(name: string): Action
  {
    Action(ActionOp.SetCollectiveName, Executed, NameData(name), "set_collective_name", SystemAutomatic)
  }

  /** The action `create_add_collective_person_action` journals. */
  function PersonAddedAction(person: Address): Action
  {
    Action(ActionOp.AddCollectivePerson, Executed, PersonAddressData(person), "add_collective_person", SystemAutomatic)
  }

  /** The writes of `create_collective_action`: the action, then the link from
      the collective whose tag is the action's own tag. */
  function ActionPlan(hash: Entry -> Address, collectiveAddress: Address, action: Action, agent: Address): seq<Write<Entry>>
  {
    [PutEntry(hash, ActionEntry(action), agent),
     Append(Link(collectiveAddress, hash(ActionEntry(action)), ActionLinkType, action.tag))]
  }

  /** `create_collective_action`: the journalled action is always Executed and
      keeps the given op, data, tag and intent. */
  method CreateCollectiveAction(store: Store<Entry>, collectiveAddress: Address, op: ActionOp, data: ActionData, tag: string, intent: ActionIntent, agent: Address)
    returns (r: Result<ActionCommit>, ghost written: seq<Write<Entry>>)
    requires store.Valid()
    modifies store
    ensures store.Valid()
    ensures written <= ActionPlan(store.hash, collectiveAddress, Action(op, Executed, data, tag, intent), agent)
    ensures store.State() == ApplyAll(old(store.State()), written)
    ensures r.Ok? <==> written == ActionPlan(store.hash, collectiveAddress, Action(op, Executed, data, tag, intent), agent)
    ensures r.Ok? ==> var a := Action(op, Executed, data, tag, intent);
                      r.value == ActionCommit(store.hash(ActionEntry(a)), ActionEntry(a), a)
  {
    var action := Action(op, Executed, data, tag, intent);
    ghost var plan := ActionPlan(store.hash, collectiveAddress, action, agent);
    written := [];
    var committed := store.Commit(ActionEntry(action), agent);
    if committed.Err? {
      return Err(committed.msg), written;
    }
    written := [plan[0]];
    var linked := store.CreateLink(Link(collectiveAddress, committed.value, ActionLinkType, tag));
    if linked.Err? {
      return Err(linked.msg), written;
    }
    ApplyAllSnoc(old(store.State()), written, plan[1]);
    written := written + [plan[1]];
    r := Ok(ActionCommit(committed.value, ActionEntry(action), action));
  }

  lemma ActionPlanShape(hash: Entry -> Address, collectiveAddress: Address, action: Action, agent: Address)
    ensures Addressed(hash, ActionPlan(hash, collectiveAddress, action, agent))
    ensures NoSupersede(ActionPlan(hash, collectiveAddress, action, agent))
    ensures AppendedLinks(ActionPlan(hash, collectiveAddress, action, agent))
         == [Link(collectiveAddress, hash(ActionEntry(action)), ActionLinkType, action.tag)]
  {
    var p := ActionPlan(hash, collectiveAddress, action, agent);
    assert p[1..][1..] == [];
    assert AppendedLinks(p[1..][1..]) == [];
    assert AppendedLinks(p[1..]) == [p[1].link];
    assert AppendedLinks(p) == [] + AppendedLinks(p[1..]);
  }

  /** Journalling an action appends it to the collective's action listing. */
  lemma ActionPlanListed(hash: Entry -> Address, db: Db<Entry>, collectiveAddress: Address, action: Action, agent: Address)
    requires Injective(hash) && Wellformed(hash, db)
    requires GetActions(db, collectiveAddress).Ok?
    ensures Wellformed(hash, ApplyAll(db, ActionPlan(hash, collectiveAddress, action, agent)))
    ensures GetActions(ApplyAll(db, ActionPlan(hash, collectiveAddress, action, agent)), collectiveAddress)
         == Ok(ActionsPayload(collectiveAddress, GetActions(db, collectiveAddress).value.actions + [action]))
  {
    var p := ActionPlan(hash, collectiveAddress, action, agent);
    var l := Link(collectiveAddress, hash(ActionEntry(action)), ActionLinkType, action.tag);
    ActionPlanShape(hash, collectiveAddress, action, agent);
    SupersedesOnlyAfter(hash, db, p, IsCollective);
    QuerySingle(l, collectiveAddress, Exactly(ActionLinkType), Any);
    LoadsWrittenAction(hash, db, p, 0);
    LinksAndLoadTypeAfter(hash, db, p, collectiveAddress, Exactly(ActionLinkType), Any, AsAction, true, [action]);
  }

  /** Writes that append no `collective_action` link leave the listing as it was. */
  lemma ListingUnchanged(hash: Entry -> Address, db: Db<Entry>, ws: seq<Write<Entry>>, collectiveAddress: Address)
    requires Injective(hash) && Wellformed(hash, db) && Addressed(hash, ws) && NoSupersede(ws)
    requires GetActions(db, collectiveAddress).Ok?
    requires Query(AppendedLinks(ws), collectiveAddress, Exactly(ActionLinkType), Any) == []
    ensures Wellformed(hash, ApplyAll(db, ws))
    ensures GetActions(ApplyAll(db, ws), collectiveAddress) == GetActions(db, collectiveAddress)
  {
    SupersedesOnlyAfter(hash, db, ws, IsCollective);
    LinksAndLoadTypeAfter(hash, db, ws, collectiveAddress, Exactly(ActionLinkType), Any, AsAction, true, []);
    assert GetActions(db, collectiveAddress).value.actions + [] == GetActions(db, collectiveAddress).value.actions;
  }

  // ----- people -----

  /** The writes of `add_collective_person`: the `Creator` link, then the
      AddCollectivePerson journal entry. */
  function PersonPlan(hash: Entry -> Address, collectiveAddress: Address, person: Address, agent: Address): seq<Write<Entry>>
  {
    [Append(Link(collectiveAddress, person, PersonLinkType, CreatorTag))]
    + ActionPlan(hash, collectiveAddress, PersonAddedAction(person), agent)
  }

  /** `add_collective_person`: link first, journal second. */
  method AddCollectivePerson(store: Store<Entry>, collectiveAddress: Address, person: Address, agent: Address)
    returns (r: Result<()>, ghost written: seq<Write<Entry>>)
    requires store.Valid()
    modifies store
    ensures store.Valid()
    ensures written <= PersonPlan(store.hash, collectiveAddress, person, agent)
    ensures store.State() == ApplyAll(old(store.State()), written)
    ensures r.Ok? <==> written == PersonPlan(store.hash, collectiveAddress, person, agent)
  {
    ghost var db0 := store.State();
    ghost var p0 := [Append(Link(collectiveAddress, person, PersonLinkType, CreatorTag))];
    ghost var p1 := ActionPlan(store.hash, collectiveAddress, PersonAddedAction(person), agent);
    written := [];
    var linked := store.CreateLink(Link(collectiveAddress, person, PersonLinkType, CreatorTag));
    if linked.Err? {
      return Err(linked.msg), written;
    }
    written := p0;
    var journalled, w := CreateCollectiveAction(store, collectiveAddress, ActionOp.AddCollectivePerson, PersonAddressData(person), "add_collective_person", SystemAutomatic, agent);
    Step(db0, written, w, p1, []);
    assert p0 + p1 + [] == p0 + p1;
    written := written + w;
    if journalled.Err? {
      return Err(journalled.msg), written;
    }
    r := Ok(());
  }

  // ----- create_collective -----

  /** Everything `create_collective` writes, in order: the collective, its
      CreateCollective journal entry, its primary ledger, its SetCollectiveName
      journal entry, and its creator with the AddCollectivePerson entry. */
  function CreatePlan(hash: Entry -> Address, params: CollectiveParams, agent: Address): seq<Write<Entry>>
  {
    var c := ToCollective(params);
    var a := hash(CollectiveEntry(c));
    [PutEntry(hash, CollectiveEntry(c), agent)]
    + ActionPlan(hash, a, CreatedAction(c), agent)
    + CogovLedger.LedgerPlan(hash, c, a, agent)
    + ActionPlan(hash, a, RenamedAction(c.name), agent)
    + PersonPlan(hash, a, params.personAddress, agent)
  }

  /** `create_collective`: each step runs only if the previous one succeeded,
      and a failure leaves the earlier writes in place. */
  method CreateCollective(store: Store<Entry>, params: CollectiveParams, agent: Address)
    returns (r: Result<CollectivePayload>, ghost written: seq<Write<Entry>>)
    requires store.Valid()
    modifies store
    ensures store.Valid()
    ensures written <= CreatePlan(store.hash, params, agent)
    ensures store.State() == ApplyAll(old(store.State()), written)
    ensures r.Ok? <==> written == CreatePlan(store.hash, params, agent)
    ensures r.Ok? ==> r.value == CollectivePayload(store.hash(CollectiveEntry(ToCollective(params))), ToCollective(params))
  {
    ghost var h := store.hash;
    ghost var db0 := store.State();
    var person := params.personAddress;
    var c := ToCollective(params);
    ghost var a := h(CollectiveEntry(c));
    ghost var p0 := [PutEntry(h, CollectiveEntry(c), agent)];
    ghost var p1 := ActionPlan(h, a, CreatedAction(c), agent);
    ghost var p2 := CogovLedger.LedgerPlan(h, c, a, agent);
    ghost var p3 := ActionPlan(h, a, RenamedAction(c.name), agent);
    ghost var p4 := PersonPlan(h, a, person, agent);
    ghost var plan := CreatePlan(h, params, agent);
    assert plan == p0 + p1 + p2 + p3 + p4;

    written := [];
    var committed := store.Commit(CollectiveEntry(c), agent);
    if committed.Err? {
      return Err(committed.msg), written;
    }
    written := p0;
    var collectiveAddress := committed.value;

    var journalled, w := CreateCollectiveAction(store, collectiveAddress, ActionOp.CreateCollective, CollectiveData(c), "create_collective", SystemAutomatic, agent);
    Step(db0, written, w, p1, p2 + p3 + p4);
    assert plan == written + p1 + (p2 + p3 + p4);
    written := written + w;
    if journalled.Err? {
      return Err(journalled.msg), written;
    }

    var ledger;
    ledger, w := CogovLedger.CreateCollectiveLedger(store, c, collectiveAddress, agent);
    Step(db0, written, w, p2, p3 + p4);
    assert plan == written + p2 + (p3 + p4);
    written := written + w;
    if ledger.Err? {
      return Err(ledger.msg), written;
    }

    journalled, w := CreateCollectiveAction(store, collectiveAddress, ActionOp.SetCollectiveName, NameData(c.name), "set_collective_name", SystemAutomatic, agent);
    Step(db0, written, w, p3, p4);
    assert plan == written + p3 + p4;
    written := written + w;
    if journalled.Err? {
      return Err(journalled.msg), written;
    }

    var added;
    added, w := AddCollectivePerson(store, collectiveAddress, person, agent);
    Step(db0, written, w, p4, []);
    assert plan == written + p4 + [];
    written := written + w;
    if added.Err? {
      return Err(added.msg), written;
    }
    r := Ok(CollectivePayload(collectiveAddress, c));
  }

  /** The links `create_collective` appends, in order: CreateCollective
      journal link, ledger link, SetCollectiveName journal link, creator link,
      AddCollectivePerson journal link. */
  function CreateLinks(hash: Entry -> Address, params: CollectiveParams): seq<Link>
  {
    var c := ToCollective(params);
    var a := hash(CollectiveEntry(c));
    [Link(a, hash(ActionEntry(CreatedAction(c))), ActionLinkType, "create_collective"),
     Link(a, hash(LedgerEntry(PrimaryLedger(c.name))), CogovLedger.LedgerLinkType, CogovLedger.PrimaryTag),
     Link(a, hash(ActionEntry(RenamedAction(c.name))), ActionLinkType, "set_collective_name"),
     Link(a, params.personAddress, PersonLinkType, CreatorTag),
     Link(a, hash(ActionEntry(PersonAddedAction(params.personAddress))), ActionLinkType, "add_collective_person")]
  }

  lemma PersonPlanShape(hash: Entry -> Address, collectiveAddress: Address, person: Address, agent: Address)
    ensures var p := PersonPlan(hash, collectiveAddress, person, agent);
            && Addressed(hash, p) && NoSupersede(p) && |p| == 3
            && p[1] == PutEntry(hash, ActionEntry(PersonAddedAction(person)), agent)
            && AppendedLinks(p) == [Link(collectiveAddress, person, PersonLinkType, CreatorTag),
                                    Link(collectiveAddress, hash(ActionEntry(PersonAddedAction(person))), ActionLinkType, PersonAddedAction(person).tag)]
  {
    var pa := [Append(Link(collectiveAddress, person, PersonLinkType, CreatorTag))];
    var pb := ActionPlan(hash, collectiveAddress, PersonAddedAction(person), agent);
    assert AppendedLinks(pa) == [pa[0].link] by { assert pa[1..] == []; }
    ActionPlanShape(hash, collectiveAddress, PersonAddedAction(person), agent);
    AppendedLinksConcat(pa, pb);
    AddressedConcat(hash, pa, pb);
    NoSupersedeConcat(pa, pb);
  }

  /** Every write of a creation is addressed and none supersedes. */
  lemma CreatePlanClean(hash: Entry -> Address, params: CollectiveParams, agent: Address)
    ensures Addressed(hash, CreatePlan(hash, params, agent)) && NoSupersede(CreatePlan(hash, params, agent))
  {
    var c := ToCollective(params);
    var a := hash(CollectiveEntry(c));
    var p0 := [PutEntry(hash, CollectiveEntry(c), agent)];
    var p1 := ActionPlan(hash, a, CreatedAction(c), agent);
    var p2 := CogovLedger.LedgerPlan(hash, c, a, agent);
    var p3 := ActionPlan(hash, a, RenamedAction(c.name), agent);
    var p4 := PersonPlan(hash, a, params.personAddress, agent);
    ActionPlanShape(hash, a, CreatedAction(c), agent);
    CogovLedger.LedgerPlanShape(hash, c, a, agent);
    ActionPlanShape(hash, a, RenamedAction(c.name), agent);
    PersonPlanShape(hash, a, params.personAddress, agent);
    AddressedConcat(hash, p0, p1);
    AddressedConcat(hash, p0 + p1, p2);
    AddressedConcat(hash, p0 + p1 + p2, p3);
    AddressedConcat(hash, p0 + p1 + p2 + p3, p4);
    NoSupersedeConcat(p0, p1);
    NoSupersedeConcat(p0 + p1, p2);
    NoSupersedeConcat(p0 + p1 + p2, p3);
    NoSupersedeConcat(p0 + p1 + p2 + p3, p4);
  }

  /** The links a creation appends are those of `CreateLinks`. */
  lemma CreatePlanLinks(hash: Entry -> Address, params: CollectiveParams, agent: Address)
    ensures AppendedLinks(CreatePlan(hash, params, agent)) == CreateLinks(hash, params)
  {
    var c := ToCollective(params);
    var a := hash(CollectiveEntry(c));
    var p0 := [PutEntry(hash, CollectiveEntry(c), agent)];
    var p1 := ActionPlan(hash, a, CreatedAction(c), agent);
    var p2 := CogovLedger.LedgerPlan(hash, c, a, agent);
    var p3 := ActionPlan(hash, a, RenamedAction(c.name), agent);
    var p4 := PersonPlan(hash, a, params.personAddress, agent);
    assert AppendedLinks(p0) == [] by { assert p0[1..] == []; }
    ActionPlanShape(hash, a, CreatedAction(c), agent);
    CogovLedger.LedgerPlanShape(hash, c, a, agent);
    ActionPlanShape(hash, a, RenamedAction(c.name), agent);
    PersonPlanShape(hash, a, params.personAddress, agent);
    AppendedLinksConcat(p0, p1);
    AppendedLinksConcat(p0 + p1, p2);
    AppendedLinksConcat(p0 + p1 + p2, p3);
    AppendedLinksConcat(p0 + p1 + p2 + p3, p4);
  }

  lemma CreatePlanShape(hash: Entry -> Address, params: CollectiveParams, agent: Address)
    ensures var plan := CreatePlan(hash, params, agent);
            && Addressed(hash, plan) && NoSupersede(plan) && |plan| == 10
            && plan[1] == PutEntry(hash, ActionEntry(CreatedAction(ToCollective(params))), agent)
            && plan[5] == PutEntry(hash, ActionEntry(RenamedAction(params.name)), agent)
            && plan[8] == PutEntry(hash, ActionEntry(PersonAddedAction(params.personAddress)), agent)
            && AppendedLinks(plan) == CreateLinks(hash, params)
  {
    PersonPlanShape(hash, hash(CollectiveEntry(ToCollective(params))), params.personAddress, agent);
    CreatePlanClean(hash, params, agent);
    CreatePlanLinks(hash, params, agent);
  }

  /** Which of those links each read selects. */
  lemma CreateLinksSelected(hash: Entry -> Address, params: CollectiveParams)
    ensures var ls := CreateLinks(hash, params);
            var a := hash(CollectiveEntry(ToCollective(params)));
            && Query(ls, a, Exactly(ActionLinkType), Any) == [ls[0], ls[2], ls[4]]
            && Query(ls, a, Exactly(PersonLinkType), Exactly(CreatorTag)) == [ls[3]]
            && Query(ls, a, Exactly(PersonLinkType), Any) == [ls[3]]
  {
    var ls := CreateLinks(hash, params);
    var a := hash(CollectiveEntry(ToCollective(params)));
    assert ActionLinkType != CogovLedger.LedgerLinkType by { assert ActionLinkType[11] != CogovLedger.LedgerLinkType[11]; }
    assert ActionLinkType != PersonLinkType by { assert ActionLinkType[11] != PersonLinkType[11]; }
    assert PersonLinkType != CogovLedger.LedgerLinkType by { assert PersonLinkType[11] != CogovLedger.LedgerLinkType[11]; }
    Query5(ls[0], ls[1], ls[2], ls[3], ls[4], a, Exactly(ActionLinkType), Any);
    Query5(ls[0], ls[1], ls[2], ls[3], ls[4], a, Exactly(PersonLinkType), Exactly(CreatorTag));
    Query5(ls[0], ls[1], ls[2], ls[3], ls[4], a, Exactly(PersonLinkType), Any);
  }

  /** A collective created in a well-formed store lists, after whatever it
      already listed, its CreateCollective, SetCollectiveName and
      AddCollectivePerson actions, in that order. */
  lemma CreateCollectiveJournal(hash: Entry -> Address, db: Db<Entry>, params: CollectiveParams, agent: Address)
    requires Injective(hash) && Wellformed(hash, db)
    requires GetActions(db, hash(CollectiveEntry(ToCollective(params)))).Ok?
    ensures var a := hash(CollectiveEntry(ToCollective(params)));
            GetActions(ApplyAll(db, CreatePlan(hash, params, agent)), a)
              == Ok(ActionsPayload(a, GetActions(db, a).value.actions
                      + [CreatedAction(ToCollective(params)), RenamedAction(params.name), PersonAddedAction(params.personAddress)]))
  {
    var c := ToCollective(params);
    var a := hash(CollectiveEntry(c));
    var plan := CreatePlan(hash, params, agent);
    var ls := CreateLinks(hash, params);
    var db' := ApplyAll(db, plan);
    CreatePlanShape(hash, params, agent);
    CreateLinksSelected(hash, params);
    var acts := [CreatedAction(c), RenamedAction(params.name), PersonAddedAction(params.personAddress)];
    var targets := Targets([ls[0], ls[2], ls[4]]);
    LoadsWrittenAction(hash, db, plan, 1);
    LoadsWrittenAction(hash, db, plan, 5);
    LoadsWrittenAction(hash, db, plan, 8);
    LinksAndLoadTypeAfter(hash, db, plan, a, Exactly(ActionLinkType), Any, AsAction, true, acts);
  }

  /** After a successful `create_collective` whose collective had no creator
      yet, the given person is its creator. */
  lemma CreateCollectiveCreator(hash: Entry -> Address, db: Db<Entry>, params: CollectiveParams, agent: Address, person: Person)
    requires Injective(hash) && ContentAddressed(hash, db)
    requires Query(db.links, hash(CollectiveEntry(ToCollective(params))), Exactly(PersonLinkType), Exactly(CreatorTag)) == []
    requires EntryAt(db, params.personAddress) == Some(PersonEntry(person)) && params.personAddress !in db.updates
    ensures var a := hash(CollectiveEntry(ToCollective(params)));
            GetCollectiveCreator(ApplyAll(db, CreatePlan(hash, params, agent)), a) == Ok(CreatorPayload(a, person))
  {
    var c := ToCollective(params);
    var a := hash(CollectiveEntry(c));
    var plan := CreatePlan(hash, params, agent);
    var ls := CreateLinks(hash, params);
    var db' := ApplyAll(db, plan);
    CreatePlanClean(hash, params, agent);
    CreatePlanLinks(hash, params, agent);
    CreateLinksSelected(hash, params);
    LinksAfter(db, plan);
    QueryConcat(db.links, ls, a, Exactly(PersonLinkType), Exactly(CreatorTag));
    assert Query(db'.links, a, Exactly(PersonLinkType), Exactly(CreatorTag)) == [ls[3]];
    ReadsStable(hash, db, plan, params.personAddress, true);
    LinksAndLoadTypeOfLoads(db', a, Exactly(PersonLinkType), Exactly(CreatorTag), AsPerson, true, [person]);
  }

  /** ... and the last person listed. */
  lemma CreateCollectivePeople(hash: Entry -> Address, db: Db<Entry>, params: CollectiveParams, agent: Address, person: Person)
    requires Injective(hash) && ContentAddressed(hash, db)
    requires GetCollectivePeople(db, hash(CollectiveEntry(ToCollective(params)))).Ok?
    requires EntryAt(db, params.personAddress) == Some(PersonEntry(person)) && params.personAddress !in db.updates
    ensures var a := hash(CollectiveEntry(ToCollective(params)));
            GetCollectivePeople(ApplyAll(db, CreatePlan(hash, params, agent)), a)
              == Ok(PeoplePayload(a, GetCollectivePeople(db, a).value.people + [person]))
  {
    var c := ToCollective(params);
    var a := hash(CollectiveEntry(c));
    var plan := CreatePlan(hash, params, agent);
    var ls := CreateLinks(hash, params);
    var db' := ApplyAll(db, plan);
    CreatePlanClean(hash, params, agent);
    CreatePlanLinks(hash, params, agent);
    CreateLinksSelected(hash, params);
    ReadsStable(hash, db, plan, params.personAddress, true);
    LinksAndLoadTypeAfter(hash, db, plan, a, Exactly(PersonLinkType), Any, AsPerson, true, [person]);
  }

  // ----- reads -----

  /** `get_collective`. */
  function GetCollective(db: Db<Entry>, collectiveAddress: Address): (r: Result<CollectivePayload>)
    ensures r.Ok? <==> LatestAt(db, collectiveAddress).Some? && LatestAt(db, collectiveAddress).value.CollectiveEntry?
    ensures r.Ok? ==> r.value.collectiveAddress == collectiveAddress
    ensures r.Ok? ==> LatestAt(db, collectiveAddress) == Some(CollectiveEntry(r.value.collective))
  {
    match Load(db, collectiveAddress, AsCollective, true)
    case Err(e) => Err(e)
    case Ok(c) => Ok(CollectivePayload(collectiveAddress, c))
  }

  /** After a successful `create_collective` the collective reads back at its
      hash, unless that very collective had been renamed before (the lookup
      follows the old update). */
  lemma CreateCollectiveStored(hash: Entry -> Address, db: Db<Entry>, params: CollectiveParams, agent: Address)
    requires Injective(hash) && ContentAddressed(hash, db)
    requires hash(CollectiveEntry(ToCollective(params))) !in db.updates
    ensures var a := hash(CollectiveEntry(ToCollective(params)));
            GetCollective(ApplyAll(db, CreatePlan(hash, params, agent)), a) == Ok(CollectivePayload(a, ToCollective(params)))
  {
    var plan := CreatePlan(hash, params, agent);
    CreatePlanClean(hash, params, agent);
    assert plan[0] == PutEntry(hash, CollectiveEntry(ToCollective(params)), agent);
    WrittenReadable(hash, db, plan, 0);
    UpdatesAfter(db, plan);
  }

  /** `get_collective_creator`: the first person among the targets of the
      `Creator` links. With none `remove(0)` panics, which the model returns as
      an error. */
  function GetCollectiveCreator(db: Db<Entry>, collectiveAddress: Address): (r: Result<CreatorPayload>)
    ensures r.Ok? ==> r.value.collectiveAddress == collectiveAddress
  {
    match LinksAndLoadType(db, collectiveAddress, Exactly(PersonLinkType), Exactly(CreatorTag), AsPerson, true)
    case Err(e) => Err(e)
    case Ok(creators) =>
      if |creators| == 0 then Err(RemoveOutOfBounds)
      else Ok(CreatorPayload(collectiveAddress, creators[0]))
  }

  /** The call succeeds exactly when every `Creator` link's target exists and
      one of them is a person; the creator is then the person at the first such
      target. With no `Creator` link at all it panics in `remove(0)`. */
  lemma CreatorIsFirstLink(db: Db<Entry>, collectiveAddress: Address)
    ensures var q := Query(db.links, collectiveAddress, Exactly(PersonLinkType), Exactly(CreatorTag));
            q == [] ==> GetCollectiveCreator(db, collectiveAddress) == Err(RemoveOutOfBounds)
    ensures var q := Query(db.links, collectiveAddress, Exactly(PersonLinkType), Exactly(CreatorTag));
            GetCollectiveCreator(db, collectiveAddress).Ok? <==>
              (forall a :: a in Targets(q) ==> LatestAt(db, a).Some?) && exists i :: 0 <= i < |q| && Readable(db, q[i].target, AsPerson, true)
    ensures var q := Query(db.links, collectiveAddress, Exactly(PersonLinkType), Exactly(CreatorTag));
            GetCollectiveCreator(db, collectiveAddress).Ok? ==>
              exists k :: 0 <= k < |q| && Load(db, q[k].target, AsPerson, true) == Ok(GetCollectiveCreator(db, collectiveAddress).value.creator)
                          && forall j :: 0 <= j < k ==> !Readable(db, q[j].target, AsPerson, true)
  {
    var q := Query(db.links, collectiveAddress, Exactly(PersonLinkType), Exactly(CreatorTag));
    LinksAndLoadTypeMeaning(db, collectiveAddress, Exactly(PersonLinkType), Exactly(CreatorTag), AsPerson, true);
    var r := LinksAndLoadType(db, collectiveAddress, Exactly(PersonLinkType), Exactly(CreatorTag), AsPerson, true);
    if r.Ok? {
      LinksAndLoadTypeNone(db, collectiveAddress, Exactly(PersonLinkType), Exactly(CreatorTag), AsPerson, true, q);
    }
    if r.Ok? && r.value != [] {
      LinksAndLoadTypeFirst(db, collectiveAddress, Exactly(PersonLinkType), Exactly(CreatorTag), AsPerson, true, q);
      var k :| 0 <= k < |q| && Load(db, q[k].target, AsPerson, true) == Ok(r.value[0])
               && forall j :: 0 <= j < k ==> !Readable(db, q[j].target, AsPerson, true);
      assert Readable(db, q[k].target, AsPerson, true);
    }
  }

  /** `get_collective_people`: the targets of the `collective_person` links,
      whatever the tag, that load as people. */
  function GetCollectivePeople(db: Db<Entry>, collectiveAddress: Address): (r: Result<PeoplePayload>)
    ensures r.Ok? ==> r.value.collectiveAddress == collectiveAddress
    ensures r.Ok? ==> |r.value.people| <= |Query(db.links, collectiveAddress, Exactly(PersonLinkType), Any)|
  {
    match LinksAndLoadType(db, collectiveAddress, Exactly(PersonLinkType), Any, AsPerson, true)
    case Err(e) => Err(e)
    case Ok(people) => Ok(PeoplePayload(collectiveAddress, people))
  }

  /** The people listing fails, with the `unwrap` panic, exactly when some
      linked target is missing. Otherwise each person listed is what a linked
      target loads as, and when every target is a person they are listed in
      link order, one per link. */
  lemma PeopleInLinkOrder(db: Db<Entry>, collectiveAddress: Address)
    ensures GetCollectivePeople(db, collectiveAddress).Ok? <==>
              forall a :: a in Targets(Query(db.links, collectiveAddress, Exactly(PersonLinkType), Any)) ==> LatestAt(db, a).Some?
    ensures GetCollectivePeople(db, collectiveAddress).Err? ==> GetCollectivePeople(db, collectiveAddress).msg == UnwrapNone
    ensures var q := Query(db.links, collectiveAddress, Exactly(PersonLinkType), Any);
      GetCollectivePeople(db, collectiveAddress).Ok? ==>
        forall x :: x in GetCollectivePeople(db, collectiveAddress).value.people ==>
          exists i :: 0 <= i < |q| && Load(db, q[i].target, AsPerson, true) == Ok(x)
    ensures var q := Query(db.links, collectiveAddress, Exactly(PersonLinkType), Any);
      (forall i :: 0 <= i < |q| ==> Load(db, q[i].target, AsPerson, true).Ok?) ==>
        && GetCollectivePeople(db, collectiveAddress).Ok? && |GetCollectivePeople(db, collectiveAddress).value.people| == |q|
        && forall i :: 0 <= i < |q| ==> Load(db, q[i].target, AsPerson, true) == Ok(GetCollectivePeople(db, collectiveAddress).value.people[i])
  {
    LinksAndLoadTypeMeaning(db, collectiveAddress, Exactly(PersonLinkType), Any, AsPerson, true);
  }

  /** Every creator is also listed among the people: the `Creator` links are a
      subset of the `collective_person` links. */
  lemma CreatorLinksArePeopleLinks(db: Db<Entry>, collectiveAddress: Address)
    ensures forall l :: l in Query(db.links, collectiveAddress, Exactly(PersonLinkType), Exactly(CreatorTag)) ==>
                        l in Query(db.links, collectiveAddress, Exactly(PersonLinkType), Any)
  {
    QueryMembers(db.links, collectiveAddress, Exactly(PersonLinkType), Exactly(CreatorTag));
    QueryMembers(db.links, collectiveAddress, Exactly(PersonLinkType), Any);
  }

  // ----- set_collective_name -----

  /** The writes of `set_collective_name` once the collective has loaded: the
      renamed version as an update of the given address, then its journal entry. */
  function RenamePlan(hash: Entry -> Address, collectiveAddress: Address, renamed: Collective, agent: Address): seq<Write<Entry>>
  {
    [SupersedeEntry(hash, collectiveAddress, CollectiveEntry(renamed), agent)]
    + ActionPlan(hash, collectiveAddress, RenamedAction(renamed.name), agent)
  }

  /** `set_collective_name`: only the name changes, and the payload carries the
      address the caller gave. A collective that does not load is reported
      with nothing written. */
  method SetCollectiveName(store: Store<Entry>, collectiveAddress: Address, name: string, agent: Address)
    returns (r: Result<CollectivePayload>, ghost written: seq<Write<Entry>>)
    requires store.Valid()
    modifies store
    ensures store.Valid()
    ensures store.State() == ApplyAll(old(store.State()), written)
    ensures var saved := Load(old(store.State()), collectiveAddress, AsCollective, true);
            saved.Err? ==> r == Err(saved.msg) && written == []
    ensures var saved := Load(old(store.State()), collectiveAddress, AsCollective, true);
            saved.Ok? ==>
              && written <= RenamePlan(store.hash, collectiveAddress, saved.value.(name := name), agent)
              && (r.Ok? <==> written == RenamePlan(store.hash, collectiveAddress, saved.value.(name := name), agent))
              && (r.Ok? ==> r.value == CollectivePayload(collectiveAddress, saved.value.(name := name)))
  {
    ghost var db0 := store.State();
    written := [];
    var saved := Load(store.State(), collectiveAddress, AsCollective, true);
    if saved.Err? {
      return Err(saved.msg), written;
    }
    var collective := saved.value.(name := name);
    ghost var p0 := [SupersedeEntry(store.hash, collectiveAddress, CollectiveEntry(collective), agent)];
    ghost var p1 := ActionPlan(store.hash, collectiveAddress, RenamedAction(collective.name), agent);
    var updated := store.Update(collectiveAddress, CollectiveEntry(collective), agent);
    if updated.Err? {
      return Err(updated.msg), written;
    }
    written := p0;
    var journalled, w := CreateCollectiveAction(store, collectiveAddress, ActionOp.SetCollectiveName, NameData(collective.name), "set_collective_name", SystemAutomatic, agent);
    Step(db0, written, w, p1, []);
    assert p0 + p1 + [] == p0 + p1;
    written := written + w;
    if journalled.Err? {
      return Err(journalled.msg), written;
    }
    r := Ok(CollectivePayload(collectiveAddress, collective));
  }

  /** After a rename, reading the collective at the address it was created at
      gives the renamed collective. */
  lemma RenameVisible(hash: Entry -> Address, db: Db<Entry>, collectiveAddress: Address, renamed: Collective, agent: Address)
    requires Injective(hash) && ContentAddressed(hash, db)
    ensures GetCollective(ApplyAll(db, RenamePlan(hash, collectiveAddress, renamed, agent)), collectiveAddress)
         == Ok(CollectivePayload(collectiveAddress, renamed))
  {
    var p := RenamePlan(hash, collectiveAddress, renamed, agent);
    var rest := ActionPlan(hash, collectiveAddress, RenamedAction(renamed.name), agent);
    assert Addressed(hash, p) by {
      ActionPlanShape(hash, collectiveAddress, RenamedAction(renamed.name), agent);
      AddressedConcat(hash, [p[0]], rest);
      assert p == [p[0]] + rest;
    }
    WrittenReadable(hash, db, p, 0);
    var db1 := Apply(db, p[0]);
    assert p[1..] == rest;
    ActionPlanShape(hash, collectiveAddress, RenamedAction(renamed.name), agent);
    UpdatesAfter(db1, rest);
    assert ApplyAll(db, p) == ApplyAll(db1, rest);
  }

  /** A rename journals itself: in a well-formed store where the collective
      loads, its action listing gains the SetCollectiveName action. */
  lemma RenameJournal(hash: Entry -> Address, db: Db<Entry>, collectiveAddress: Address, renamed: Collective, agent: Address)
    requires Injective(hash) && Wellformed(hash, db)
    requires GetCollective(db, collectiveAddress).Ok? && GetActions(db, collectiveAddress).Ok?
    ensures GetActions(ApplyAll(db, RenamePlan(hash, collectiveAddress, renamed, agent)), collectiveAddress)
         == Ok(ActionsPayload(collectiveAddress, GetActions(db, collectiveAddress).value.actions + [RenamedAction(renamed.name)]))
  {
    var p := RenamePlan(hash, collectiveAddress, renamed, agent);
    var rest := ActionPlan(hash, collectiveAddress, RenamedAction(renamed.name), agent);
    var db1 := Apply(db, p[0]);
    assert p[1..] == rest;
    assert ApplyAll(db, p) == ApplyAll(db1, rest);
    assert collectiveAddress in db.entries && IsCollective(db.entries[collectiveAddress].entry) by {
      if collectiveAddress !in db.updates {
        assert EntryAt(db, collectiveAddress).Some?;
      }
    }
    SupersedeStable(hash, db, collectiveAddress, CollectiveEntry(renamed), agent, IsCollective);
    // every action read is unchanged and every collective read stays a
    // collective, so the listing is the same after the update
    var q := Query(db.links, collectiveAddress, Exactly(ActionLinkType), Any);
    assert db1.links == db.links;
    LinksAndLoadTypeMeaning(db, collectiveAddress, Exactly(ActionLinkType), Any, AsAction, true);
    forall a | a in Targets(q)
      ensures Read(db1, a, true).Some? && AsAction(Read(db1, a, true).value) == AsAction(Read(db, a, true).value)
    {
      SupersedeLatest(hash, db, collectiveAddress, CollectiveEntry(renamed), agent, IsCollective, a);
    }
    LinksAndLoadTypeSameReads(db, db1, collectiveAddress, Exactly(ActionLinkType), Any, AsAction, true);
    assert GetActions(db1, collectiveAddress) == GetActions(db, collectiveAddress);
    ActionPlanListed(hash, db1, collectiveAddress, RenamedAction(renamed.name), agent);
  }
}
