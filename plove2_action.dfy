/** Actions of the protocol_love zome (zomes/protocol_love/src/action.rs): a
    root action is linked from its collective, a child action also from its
    parent action, and `get_actions` lists a collective's actions newest
    first. Action entries have no validation callback. */
module Plove2Action {
  import opened Results
  import opened Substrate
  import opened Plove2Types

  /** `collective_action_tag`. */
  const CollectiveActionTag := "collective_action"
  const ChildActionTag := "parent_action_child_action"

  /** `ActionsPayload`. */
  datatype ActionsPayload = ActionsPayload(collectiveHash: Address, actions: seq<Action>)

  /** `s` back to front. */
  function Reverse<T>(s: seq<T>): (r: seq<T>)
    ensures |r| == |s|
    ensures forall i :: 0 <= i < |s| ==> r[i] == s[|s| - 1 - i]
  {
    seq(|s|, i requires 0 <= i < |s| => s[|s| - 1 - i])
  }

  lemma ReverseSnoc<T>(s: seq<T>, x: T)
    ensures Reverse(s + [x]) == [x] + Reverse(s)
  {
  }

  /** Reading addresses that all load, back to front, gives the values back to front. */
  lemma LoadAllReverseOk<E, T>(db: Db<E>, addrs: seq<Address>, cast: E -> Option<T>, latest: bool)
    requires LoadAll(db, addrs, cast, latest).Ok?
    ensures LoadAll(db, Reverse(addrs), cast, latest) == Ok(Reverse(LoadAll(db, addrs, cast, latest).value))
  {
    var rev := Reverse(addrs);
    var n := |addrs|;
    var vals := LoadAll(db, addrs, cast, latest).value;
    LoadAllMeaning(db, addrs, cast, latest);
    forall i | 0 <= i < n
      ensures Load(db, rev[i], cast, latest) == Ok(Reverse(vals)[i])
    {
      assert rev[i] == addrs[n - 1 - i] && Reverse(vals)[i] == vals[n - 1 - i];
    }
    LoadAllOfLoads(db, rev, Reverse(vals), cast, latest);
  }

  /** If the addresses load back to front, they load in order. */
  lemma LoadAllReverseReadable<E, T>(db: Db<E>, addrs: seq<Address>, cast: E -> Option<T>, latest: bool)
    requires LoadAll(db, Reverse(addrs), cast, latest).Ok?
    ensures LoadAll(db, addrs, cast, latest).Ok?
  {
    var rev := Reverse(addrs);
    var n := |addrs|;
    LoadAllMeaning(db, addrs, cast, latest);
    LoadAllMeaning(db, rev, cast, latest);
    forall i | 0 <= i < n ensures Readable(db, addrs[i], cast, latest) {
      assert addrs[i] == rev[n - 1 - i];
    }
  }

  /** Reading addresses back to front gives the values back to front, and
      succeeds exactly when reading them in order does. */
  lemma LoadAllReverse<E, T>(db: Db<E>, addrs: seq<Address>, cast: E -> Option<T>, latest: bool)
    ensures LoadAll(db, Reverse(addrs), cast, latest).Ok? <==> LoadAll(db, addrs, cast, latest).Ok?
    ensures LoadAll(db, addrs, cast, latest).Ok? ==>
              LoadAll(db, Reverse(addrs), cast, latest) == Ok(Reverse(LoadAll(db, addrs, cast, latest).value))
  {
    if LoadAll(db, addrs, cast, latest).Ok? {
      LoadAllReverseOk(db, addrs, cast, latest);
    } else if LoadAll(db, Reverse(addrs), cast, latest).Ok? {
      LoadAllReverseReadable(db, addrs, cast, latest);
    }
  }

  /** The writes of a root commit: the action, then the link from the collective. */
  function RootPlan(hash: Entry -> Address, collectiveHash: Address, action: Action, agent: Address): seq<Write<Entry>>
  {
    [PutEntry(hash, ActionEntry(action), agent),
     Append(Link(collectiveHash, hash(ActionEntry(action)), "", CollectiveActionTag))]
  }

  /** The writes of a child commit: a root commit, then the link from the parent. */
  function ChildPlan(hash: Entry -> Address, collectiveHash: Address, parent: Address, action: Action, agent: Address): seq<Write<Entry>>
  {
    RootPlan(hash, collectiveHash, action, agent)
    + [Append(Link(parent, hash(ActionEntry(action)), "", ChildActionTag))]
  }

  /** `RootAction::commit_action`: the hash, entry and action unchanged; a
      failed commit adds no link. */
  method RootCommit(store: Store<Entry>, collectiveHash: Address, action: Action, agent: Address)
    returns (r: Result<ActionCommit>, ghost written: seq<Write<Entry>>)
    requires store.Valid()
    modifies store
    ensures store.Valid()
    ensures written <= RootPlan(store.hash, collectiveHash, action, agent)
    ensures store.State() == ApplyAll(old(store.State()), written)
    ensures r.Ok? <==> written == RootPlan(store.hash, collectiveHash, action, agent)
    ensures r.Ok? ==> r.value == ActionCommit(store.hash(ActionEntry(action)), ActionEntry(action), action)
  {
    ghost var plan := RootPlan(store.hash, collectiveHash, action, agent);
    written := [];
    var committed := store.Commit(ActionEntry(action), agent);
    if committed.Err? {
      return Err(committed.msg), written;
    }
    written := [plan[0]];
    var linked := store.CreateLink(Link(collectiveHash, committed.value, "", CollectiveActionTag));
    if linked.Err? {
      return Err(linked.msg), written;
    }
    ApplyAllSnoc(old(store.State()), written, plan[1]);
    written := plan;
    r := Ok(ActionCommit(committed.value, ActionEntry(action), action));
  }

  /** `ChildAction::commit_action`. */
  method ChildCommit(store: Store<Entry>, collectiveHash: Address, parent: Address, action: Action, agent: Address)
    returns (r: Result<ActionCommit>, ghost written: seq<Write<Entry>>)
    requires store.Valid()
    modifies store
    ensures store.Valid()
    ensures written <= ChildPlan(store.hash, collectiveHash, parent, action, agent)
    ensures store.State() == ApplyAll(old(store.State()), written)
    ensures r.Ok? <==> written == ChildPlan(store.hash, collectiveHash, parent, action, agent)
    ensures r.Ok? ==> r.value == ActionCommit(store.hash(ActionEntry(action)), ActionEntry(action), action)
  {
    ghost var db0 := store.State();
    ghost var p0 := RootPlan(store.hash, collectiveHash, action, agent);
    ghost var p1 := [Append(Link(parent, store.hash(ActionEntry(action)), "", ChildActionTag))];
    var root;
    root, written := RootCommit(store, collectiveHash, action, agent);
    if root.Err? {
      assert written != p0;
      assert written <= p0 + p1;
      return root, written;
    }
    var linked := store.CreateLink(Link(parent, root.value.actionHash, "", ChildActionTag));
    if linked.Err? {
      return Err(linked.msg), written;
    }
    ApplyAllSnoc(db0, written, p1[0]);
    written := written + p1;
    r := root;
  }

  lemma ChildPlanShape(hash: Entry -> Address, collectiveHash: Address, parent: Address, action: Action, agent: Address)
    ensures var p := ChildPlan(hash, collectiveHash, parent, action, agent);
            var a := hash(ActionEntry(action));
            && Addressed(hash, p) && NoSupersede(p)
            && Addressed(hash, RootPlan(hash, collectiveHash, action, agent)) && NoSupersede(RootPlan(hash, collectiveHash, action, agent))
            && AppendedLinks(RootPlan(hash, collectiveHash, action, agent)) == [Link(collectiveHash, a, "", CollectiveActionTag)]
            && AppendedLinks(p) == [Link(collectiveHash, a, "", CollectiveActionTag), Link(parent, a, "", ChildActionTag)]
  {
    var p := ChildPlan(hash, collectiveHash, parent, action, agent);
    var r := RootPlan(hash, collectiveHash, action, agent);
    assert r[1..][1..] == [];
    assert AppendedLinks(r[1..][1..]) == [];
    assert AppendedLinks(r[1..]) == [r[1].link];
    assert p[1..][1..][1..] == [];
    assert AppendedLinks(p[1..][1..][1..]) == [];
    assert AppendedLinks(p[1..][1..]) == [p[2].link];
    assert AppendedLinks(p[1..]) == [p[1].link, p[2].link];
  }

  // ----- get_actions -----

  /** The actions linked from the collective with `collective_action`, in link
      order, each read through its latest version. */
  function LinkedActions(db: Db<Entry>, collectiveHash: Address): (r: Result<seq<Action>>)
    ensures r.Ok? ==> |r.value| == |Query(db.links, collectiveHash, Any, Exactly(CollectiveActionTag))|
  {
    LoadTargets(db, collectiveHash, Any, Exactly(CollectiveActionTag), AsAction, true)
  }

  /** `get_actions`: one action per `collective_action` link, the most
      recently linked first, with the queried hash echoed. */
  function GetActions(db: Db<Entry>, collectiveHash: Address): (r: Result<ActionsPayload>)
    ensures r.Ok? ==> r.value.collectiveHash == collectiveHash
    ensures r.Ok? ==> |r.value.actions| == |Query(db.links, collectiveHash, Any, Exactly(CollectiveActionTag))|
  {
    match LoadAll(db, Reverse(Targets(Query(db.links, collectiveHash, Any, Exactly(CollectiveActionTag)))), AsAction, true)
    case Err(e) => Err(e)
    case Ok(actions) => Ok(ActionsPayload(collectiveHash, actions))
  }

  /** `get_actions` is the reverse of link order. */
  lemma GetActionsReversed(db: Db<Entry>, collectiveHash: Address)
    ensures GetActions(db, collectiveHash).Ok? <==> LinkedActions(db, collectiveHash).Ok?
    ensures LinkedActions(db, collectiveHash).Ok? ==>
              GetActions(db, collectiveHash) == Ok(ActionsPayload(collectiveHash, Reverse(LinkedActions(db, collectiveHash).value)))
  {
    LoadAllReverse(db, Targets(Query(db.links, collectiveHash, Any, Exactly(CollectiveActionTag))), AsAction, true);
  }

  /** A written action entry loads as that action afterwards. */
  lemma LoadsWrittenAction(hash: Entry -> Address, db: Db<Entry>, ws: seq<Write<Entry>>, i: nat)
    requires Injective(hash) && Wellformed(hash, db) && Addressed(hash, ws) && NoSupersede(ws)
    requires i < |ws| && !ws[i].Append? && ws[i].record.entry.ActionEntry?
    ensures Load(ApplyAll(db, ws), ws[i].at, AsAction, true) == Ok(ws[i].record.entry.action)
  {
    WrittenReadable(hash, db, ws, i);
    UpdatesAfter(db, ws);
    NotSuperseded(hash, db, IsCollective, ws[i].record.entry);
  }

  /** The writes of a commit with an optional parent. */
  function CommitPlan(hash: Entry -> Address, collectiveHash: Address, parent: Option<Address>, action: Action, agent: Address): seq<Write<Entry>>
  {
    if parent.Some? then ChildPlan(hash, collectiveHash, parent.value, action, agent) else RootPlan(hash, collectiveHash, action, agent)
  }

  /** A commit stores the action first and adds exactly one
      `collective_action` link from the collective, to that action. */
  lemma CommitPlanQuery(hash: Entry -> Address, collectiveHash: Address, parent: Option<Address>, action: Action, agent: Address)
    ensures var p := CommitPlan(hash, collectiveHash, parent, action, agent);
            && Addressed(hash, p) && NoSupersede(p)
            && |p| > 0 && !p[0].Append? && p[0].record.entry == ActionEntry(action) && p[0].at == hash(ActionEntry(action))
            && Query(AppendedLinks(p), collectiveHash, Any, Exactly(CollectiveActionTag))
               == [Link(collectiveHash, hash(ActionEntry(action)), "", CollectiveActionTag)]
  {
    var a := hash(ActionEntry(action));
    var l := Link(collectiveHash, a, "", CollectiveActionTag);
    ChildPlanShape(hash, collectiveHash, if parent.Some? then parent.value else 0, action, agent);
    if parent.Some? {
      var l2 := Link(parent.value, a, "", ChildActionTag);
      assert ChildActionTag != CollectiveActionTag by { assert ChildActionTag[0] != CollectiveActionTag[0]; }
      QueryCons(l, [l2], collectiveHash, Any, Exactly(CollectiveActionTag));
      QuerySingle(l2, collectiveHash, Any, Exactly(CollectiveActionTag));
      assert [l] + [l2] == [l, l2];
    } else {
      QuerySingle(l, collectiveHash, Any, Exactly(CollectiveActionTag));
    }
  }

  /** Writes that store `action` first and link only it from the collective
      put it in front of what `get_actions` listed before. */
  lemma ListedFirst(hash: Entry -> Address, db: Db<Entry>, collectiveHash: Address, p: seq<Write<Entry>>, action: Action)
    requires Injective(hash) && Wellformed(hash, db) && Addressed(hash, p) && NoSupersede(p)
    requires GetActions(db, collectiveHash).Ok?
    requires |p| > 0 && !p[0].Append? && p[0].record.entry == ActionEntry(action) && p[0].at == hash(ActionEntry(action))
    requires Query(AppendedLinks(p), collectiveHash, Any, Exactly(CollectiveActionTag))
             == [Link(collectiveHash, hash(ActionEntry(action)), "", CollectiveActionTag)]
    ensures Wellformed(hash, ApplyAll(db, p))
    ensures GetActions(ApplyAll(db, p), collectiveHash)
            == Ok(ActionsPayload(collectiveHash, [action] + GetActions(db, collectiveHash).value.actions))
  {
    var a := hash(ActionEntry(action));
    SupersedesOnlyAfter(hash, db, p, IsCollective);
    LoadsWrittenAction(hash, db, p, 0);
    var db' := ApplyAll(db, p);
    assert LoadAll(db', [a], AsAction, true) == Ok([action]) by {
      assert [a][1..] == [];
      assert [action] + [] == [action];
    }
    GetActionsReversed(db, collectiveHash);
    GetActionsReversed(db', collectiveHash);
    LoadTargetsAfter(hash, db, p, collectiveHash, Any, Exactly(CollectiveActionTag), AsAction, true);
    ReverseSnoc(LinkedActions(db, collectiveHash).value, action);
  }

  /** A committed action is listed first by `get_actions`, before everything
      listed already: the test's creation order is not what the zome returns. */
  lemma CommitListedFirst(hash: Entry -> Address, db: Db<Entry>, collectiveHash: Address, parent: Option<Address>, action: Action, agent: Address)
    requires Injective(hash) && Wellformed(hash, db)
    requires GetActions(db, collectiveHash).Ok?
    ensures var p := CommitPlan(hash, collectiveHash, parent, action, agent);
            && Wellformed(hash, ApplyAll(db, p))
            && GetActions(ApplyAll(db, p), collectiveHash)
                 == Ok(ActionsPayload(collectiveHash, [action] + GetActions(db, collectiveHash).value.actions))
  {
    CommitPlanQuery(hash, collectiveHash, parent, action, agent);
    ListedFirst(hash, db, collectiveHash, CommitPlan(hash, collectiveHash, parent, action, agent), action);
  }

  // ----- the action tree -----

  /** The parents of `child`: sources of the `parent_action_child_action` links into it. */
  function Parents(links: seq<Link>, child: Address): (r: seq<Address>)
    ensures |r| <= |links|
  {
    if links == [] then []
    else (if links[0].tag == ChildActionTag && links[0].target == child then [links[0].source] else [])
         + Parents(links[1..], child)
  }

  lemma {:induction false} ParentsConcat(a: seq<Link>, b: seq<Link>, child: Address)
    ensures Parents(a + b, child) == Parents(a, child) + Parents(b, child)
  {
    if a == [] {
      assert a + b == b;
    } else {
      assert (a + b)[0] == a[0];
      assert (a + b)[1..] == a[1..] + b;
      ParentsConcat(a[1..], b, child);
    }
  }

  /** Every action has at most one parent edge. */
  ghost predicate SingleParent(links: seq<Link>)
  {
    forall child :: |Parents(links, child)| <= 1
  }

  /** A child commit of an action that had no parent gives it exactly one
      parent, the given one, keeps every action single-parented, and links
      the action from its collective. */
  lemma ChildCommitSingleParent(hash: Entry -> Address, db: Db<Entry>, collectiveHash: Address, parent: Address, action: Action, agent: Address)
    requires SingleParent(db.links)
    requires Parents(db.links, hash(ActionEntry(action))) == []
    ensures var links' := ApplyAll(db, ChildPlan(hash, collectiveHash, parent, action, agent)).links;
            && Parents(links', hash(ActionEntry(action))) == [parent]
            && SingleParent(links')
            && Link(collectiveHash, hash(ActionEntry(action)), "", CollectiveActionTag) in links'
  {
    var p := ChildPlan(hash, collectiveHash, parent, action, agent);
    var a := hash(ActionEntry(action));
    var l1 := Link(collectiveHash, a, "", CollectiveActionTag);
    var l2 := Link(parent, a, "", ChildActionTag);
    ChildPlanShape(hash, collectiveHash, parent, action, agent);
    LinksAfter(db, p);
    var links' := ApplyAll(db, p).links;
    assert links' == db.links + [l1, l2];
    assert l1 in links' by { assert links'[|db.links|] == l1; }
    assert CollectiveActionTag != ChildActionTag by { assert CollectiveActionTag[0] != ChildActionTag[0]; }
    forall child
      ensures Parents(links', child) == Parents(db.links, child) + (if child == a then [parent] else [])
    {
      ParentsConcat(db.links, [l1, l2], child);
      assert [l1, l2][1..][1..] == [];
    }
  }

  /** A root commit adds no parent edge, and links the action from its collective. */
  lemma RootCommitNoParent(hash: Entry -> Address, db: Db<Entry>, collectiveHash: Address, action: Action, agent: Address, child: Address)
    ensures var links' := ApplyAll(db, RootPlan(hash, collectiveHash, action, agent)).links;
            && Parents(links', child) == Parents(db.links, child)
            && Link(collectiveHash, hash(ActionEntry(action)), "", CollectiveActionTag) in links'
  {
    var p := RootPlan(hash, collectiveHash, action, agent);
    ChildPlanShape(hash, collectiveHash, 0, action, agent);
    LinksAfter(db, p);
    var l := Link(collectiveHash, hash(ActionEntry(action)), "", CollectiveActionTag);
    assert ApplyAll(db, p).links == db.links + [l];
    assert ApplyAll(db, p).links[|db.links|] == l;
    assert CollectiveActionTag != ChildActionTag by { assert CollectiveActionTag[0] != ChildActionTag[0]; }
    ParentsConcat(db.links, [l], child);
    assert [l][1..] == [];
  }
}
