/** The cogov action journal (zomes/cogov/code/src/action.rs): committing root
    and child actions under a collective, and listing a collective's actions. */
module CogovAction {
  import opened Results
  import opened Substrate
  import opened CogovTypes

  /** Link type of every collective → action link. */
  const ActionLinkType := "collective_action"
  const RootTag := "root_action"
  /** Tag of a child's collective link, and type and tag of its parent link. */
  const ChildTag := "child_action"

  /** The writes of a root commit: the action entry, then its collective link. */
  function RootPlan(hash: Entry -> Address, collective: Address, action: Action, agent: Address): seq<Write<Entry>>
  {
    [PutEntry(hash, ActionEntry(action), agent),
     Append(Link(collective, hash(ActionEntry(action)), ActionLinkType, RootTag))]
  }

  /** The writes of a child commit: the action entry, its collective link, then
      the link from the parent action. */
  function ChildPlan(hash: Entry -> Address, collective: Address, parent: Address, action: Action, agent: Address): seq<Write<Entry>>
  {
    [PutEntry(hash, ActionEntry(action), agent),
     Append(Link(collective, hash(ActionEntry(action)), ActionLinkType, ChildTag)),
     Append(Link(parent, hash(ActionEntry(action)), ChildTag, ChildTag))]
  }

  /** `RootAction::commit_action`. */
  method RootCommit(store: Store<Entry>, collective: Address, action: Action, agent: Address)
    returns (r: Result<ActionCommit>, ghost written: seq<Write<Entry>>)
    requires store.Valid()
    modifies store
    ensures store.Valid()
    ensures written <= RootPlan(store.hash, collective, action, agent)
    ensures store.State() == ApplyAll(old(store.State()), written)
    ensures r.Ok? <==> written == RootPlan(store.hash, collective, action, agent)
    ensures r.Ok? ==> r.value == ActionCommit(store.hash(ActionEntry(action)), ActionEntry(action), action)
  {
    ghost var plan := RootPlan(store.hash, collective, action, agent);
    written := [];
    var committed := store.Commit(ActionEntry(action), agent);
    if committed.Err? {
      return Err(committed.msg), written;
    }
    written := [plan[0]];
    var linked := store.CreateLink(Link(collective, committed.value, ActionLinkType, RootTag));
    if linked.Err? {
      return Err(linked.msg), written;
    }
    ApplyAllSnoc(old(store.State()), written, plan[1]);
    written := written + [plan[1]];
    r := Ok(ActionCommit(committed.value, ActionEntry(action), action));
  }

  /** `ChildAction::commit_action`. */
  method ChildCommit(store: Store<Entry>, collective: Address, parent: Address, action: Action, agent: Address)
    returns (r: Result<ActionCommit>, ghost written: seq<Write<Entry>>)
    requires store.Valid()
    modifies store
    ensures store.Valid()
    ensures written <= ChildPlan(store.hash, collective, parent, action, agent)
    ensures store.State() == ApplyAll(old(store.State()), written)
    ensures r.Ok? <==> written == ChildPlan(store.hash, collective, parent, action, agent)
    ensures r.Ok? ==> r.value == ActionCommit(store.hash(ActionEntry(action)), ActionEntry(action), action)
  {
    ghost var plan := ChildPlan(store.hash, collective, parent, action, agent);
    written := [];
    var committed := store.Commit(ActionEntry(action), agent);
    if committed.Err? {
      return Err(committed.msg), written;
    }
    written := [plan[0]];
    var linked := store.CreateLink(Link(collective, committed.value, ActionLinkType, ChildTag));
    if linked.Err? {
      return Err(linked.msg), written;
    }
    ApplyAllSnoc(old(store.State()), written, plan[1]);
    written := written + [plan[1]];
    linked := store.CreateLink(Link(parent, committed.value, ChildTag, ChildTag));
    if linked.Err? {
      return Err(linked.msg), written;
    }
    ApplyAllSnoc(old(store.State()), written, plan[2]);
    written := written + [plan[2]];
    assert written == plan;
    r := Ok(ActionCommit(committed.value, ActionEntry(action), action));
  }

  datatype ActionsPayload = ActionsPayload(collectiveAddress: Address, actions: seq<Action>)

  /** `get_actions`: the targets of the collective's `collective_action`
      links, whatever their tag, that load as actions. */
  function GetActions(db: Db<Entry>, collective: Address): (r: Result<ActionsPayload>)
    ensures r.Ok? ==> r.value.collectiveAddress == collective
    ensures r.Ok? ==> |r.value.actions| <= |Query(db.links, collective, Exactly(ActionLinkType), Any)|
  {
    match LinksAndLoadType(db, collective, Exactly(ActionLinkType), Any, AsAction, true)
    case Err(e) => Err(e)
    case Ok(actions) => Ok(ActionsPayload(collective, actions))
  }

  /** The listing fails, with the `unwrap` panic, exactly when some linked
      target is missing. Otherwise it lists only what linked targets load as,
      skipping the targets that are not actions, and when every target is an
      action it lists them in link order, one per link. */
  lemma GetActionsInLinkOrder(db: Db<Entry>, collective: Address)
    ensures GetActions(db, collective).Ok? <==>
              forall a :: a in Targets(Query(db.links, collective, Exactly(ActionLinkType), Any)) ==> LatestAt(db, a).Some?
    ensures GetActions(db, collective).Err? ==> GetActions(db, collective).msg == UnwrapNone
    ensures var q := Query(db.links, collective, Exactly(ActionLinkType), Any);
      GetActions(db, collective).Ok? ==>
        forall x :: x in GetActions(db, collective).value.actions ==>
          exists i :: 0 <= i < |q| && Load(db, q[i].target, AsAction, true) == Ok(x)
    ensures var q := Query(db.links, collective, Exactly(ActionLinkType), Any);
      (forall i :: 0 <= i < |q| ==> Load(db, q[i].target, AsAction, true).Ok?) ==>
        && GetActions(db, collective).Ok? && |GetActions(db, collective).value.actions| == |q|
        && forall i :: 0 <= i < |q| ==> Load(db, q[i].target, AsAction, true) == Ok(GetActions(db, collective).value.actions[i])
  {
    LinksAndLoadTypeMeaning(db, collective, Exactly(ActionLinkType), Any, AsAction, true);
  }

  /** An action entry written by `ws` loads as that action afterwards. */
  lemma LoadsWrittenAction(hash: Entry -> Address, db: Db<Entry>, ws: seq<Write<Entry>>, i: nat)
    requires Injective(hash) && Wellformed(hash, db) && Addressed(hash, ws) && NoSupersede(ws)
    requires i < |ws| && !ws[i].Append? && ws[i].record.entry.ActionEntry?
    ensures Load(ApplyAll(db, ws), ws[i].at, AsAction, true) == Ok(ws[i].record.entry.action)
  {
    WrittenReadable(hash, db, ws, i);
    UpdatesAfter(db, ws);
    NotSuperseded(hash, db, IsCollective, ws[i].record.entry);
  }

  lemma RootPlanShape(hash: Entry -> Address, collective: Address, action: Action, agent: Address)
    ensures Addressed(hash, RootPlan(hash, collective, action, agent))
    ensures NoSupersede(RootPlan(hash, collective, action, agent))
    ensures AppendedLinks(RootPlan(hash, collective, action, agent))
         == [Link(collective, hash(ActionEntry(action)), ActionLinkType, RootTag)]
  {
    var p := RootPlan(hash, collective, action, agent);
    assert p[1..][1..] == [];
    assert AppendedLinks(p[1..][1..]) == [];
    assert AppendedLinks(p[1..]) == [p[1].link];
    assert AppendedLinks(p) == [] + AppendedLinks(p[1..]);
  }

  lemma ChildPlanShape(hash: Entry -> Address, collective: Address, parent: Address, action: Action, agent: Address)
    ensures Addressed(hash, ChildPlan(hash, collective, parent, action, agent))
    ensures NoSupersede(ChildPlan(hash, collective, parent, action, agent))
    ensures AppendedLinks(ChildPlan(hash, collective, parent, action, agent))
         == [Link(collective, hash(ActionEntry(action)), ActionLinkType, ChildTag),
             Link(parent, hash(ActionEntry(action)), ChildTag, ChildTag)]
  {
    var p := ChildPlan(hash, collective, parent, action, agent);
    assert p[1..][1..][1..] == [];
    assert AppendedLinks(p[1..][1..][1..]) == [];
    assert AppendedLinks(p[1..][1..]) == [p[2].link];
    assert AppendedLinks(p[1..]) == [p[1].link] + [p[2].link];
    assert AppendedLinks(p) == [] + AppendedLinks(p[1..]);
  }

  /** A successful root commit appends the action to its collective's listing. */
  lemma RootCommitListed(hash: Entry -> Address, db: Db<Entry>, collective: Address, action: Action, agent: Address)
    requires Injective(hash) && Wellformed(hash, db)
    requires GetActions(db, collective).Ok?
    ensures GetActions(ApplyAll(db, RootPlan(hash, collective, action, agent)), collective)
         == Ok(ActionsPayload(collective, GetActions(db, collective).value.actions + [action]))
  {
    var p := RootPlan(hash, collective, action, agent);
    var l := Link(collective, hash(ActionEntry(action)), ActionLinkType, RootTag);
    RootPlanShape(hash, collective, action, agent);
    QuerySingle(l, collective, Exactly(ActionLinkType), Any);
    LoadsWrittenAction(hash, db, p, 0);
    LinksAndLoadTypeAfter(hash, db, p, collective, Exactly(ActionLinkType), Any, AsAction, true, [action]);
  }

  /** A successful child commit appends the action to its collective's listing
      too: the parent link has another type and is not listed. */
  lemma ChildCommitListed(hash: Entry -> Address, db: Db<Entry>, collective: Address, parent: Address, action: Action, agent: Address)
    requires Injective(hash) && Wellformed(hash, db)
    requires GetActions(db, collective).Ok?
    ensures GetActions(ApplyAll(db, ChildPlan(hash, collective, parent, action, agent)), collective)
         == Ok(ActionsPayload(collective, GetActions(db, collective).value.actions + [action]))
  {
    var p := ChildPlan(hash, collective, parent, action, agent);
    var a := hash(ActionEntry(action));
    var l1 := Link(collective, a, ActionLinkType, ChildTag);
    var l2 := Link(parent, a, ChildTag, ChildTag);
    ChildPlanShape(hash, collective, parent, action, agent);
    QueryConcat([l1], [l2], collective, Exactly(ActionLinkType), Any);
    QuerySingle(l1, collective, Exactly(ActionLinkType), Any);
    QuerySingle(l2, collective, Exactly(ActionLinkType), Any);
    assert [l1] + [l2] == [l1, l2];
    LoadsWrittenAction(hash, db, p, 0);
    LinksAndLoadTypeAfter(hash, db, p, collective, Exactly(ActionLinkType), Any, AsAction, true, [action]);
  }

  /** The parents of `child`: sources of the `child_action` links into it. */
  function Parents(links: seq<Link>, child: Address): (r: seq<Address>)
    ensures |r| <= |links|
    ensures forall p :: p in r <==> exists t :: Link(p, child, ChildTag, t) in links
  {
    if links == [] then []
    else (if links[0].linkType == ChildTag && links[0].target == child then [links[0].source] else [])
         + Parents(links[1..], child)
  }

  lemma {:induction false} ParentsConcat(a: seq<Link>, b: seq<Link>, child: Address)
    ensures Parents(a + b, child) == Parents(a, child) + Parents(b, child)
  {
    if a == [] {
      assert a + b == b;
    } else {
      assert (a + b)[0] == a[0];
      assert (a + b)[1..] == a[1..] + b;
      ParentsConcat(a[1..], b, child);
    }
  }

  /** Every action has at most one parent edge. */
  ghost predicate SingleParent(links: seq<Link>)
  {
    forall child :: |Parents(links, child)| <= 1
  }

  /** A child commit of an action that had no parent gives it exactly one
      parent, the given one, and keeps every action single-parented. */
  lemma ChildCommitSingleParent(hash: Entry -> Address, db: Db<Entry>, collective: Address, parent: Address, action: Action, agent: Address)
    requires SingleParent(db.links)
    requires Parents(db.links, hash(ActionEntry(action))) == []
    ensures Parents(ApplyAll(db, ChildPlan(hash, collective, parent, action, agent)).links, hash(ActionEntry(action))) == [parent]
    ensures SingleParent(ApplyAll(db, ChildPlan(hash, collective, parent, action, agent)).links)
  {
    var p := ChildPlan(hash, collective, parent, action, agent);
    var a := hash(ActionEntry(action));
    var l1 := Link(collective, a, ActionLinkType, ChildTag);
    var l2 := Link(parent, a, ChildTag, ChildTag);
    ChildPlanShape(hash, collective, parent, action, agent);
    LinksAfter(db, p);
    var links' := ApplyAll(db, p).links;
    assert links' == db.links + [l1, l2];
    forall child
      ensures Parents(links', child) == Parents(db.links, child) + (if child == a then [parent] else [])
    {
      ParentsConcat(db.links, [l1, l2], child);
      assert [l1, l2][1..][1..] == [];
    }
  }

  /** A root commit adds no parent edge. */
  lemma RootCommitNoParent(hash: Entry -> Address, db: Db<Entry>, collective: Address, action: Action, agent: Address, child: Address)
    ensures Parents(ApplyAll(db, RootPlan(hash, collective, action, agent)).links, child) == Parents(db.links, child)
  {
    var p := RootPlan(hash, collective, action, agent);
    RootPlanShape(hash, collective, action, agent);
    LinksAfter(db, p);
    var l := Link(collective, hash(ActionEntry(action)), ActionLinkType, RootTag);
    ParentsConcat(db.links, [l], child);
    assert [l][1..] == [];
  }
}
