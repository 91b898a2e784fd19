/** A cogov collective's primary ledger (zomes/cogov/code/src/ledger.rs): the
    ledger is committed, then linked from the collective. */
module CogovLedger {
  import opened Results
  import opened Substrate
  import opened Ledgers
  import opened CogovTypes

  const LedgerLinkType := "collective_ledger"
  const PrimaryTag := "ledger_primary"

  /** The write of `commit_ledger`. */
  function CommitLedgerPlan(hash: Entry -> Address, ledger: Ledger, agent: Address): seq<Write<Entry>>
  {
    [PutEntry(hash, LedgerEntry(ledger), agent)]
  }

  /** The writes of `create_collective_ledger`: the primary ledger, then the
      link to it from the collective. */
  function LedgerPlan(hash: Entry -> Address, collective: Collective, collectiveAddress: Address, agent: Address): seq<Write<Entry>>
  {
    CommitLedgerPlan(hash, PrimaryLedger(collective.name), agent)
    + [Append(Link(collectiveAddress, hash(LedgerEntry(PrimaryLedger(collective.name))), LedgerLinkType, PrimaryTag))]
  }

  /** `commit_ledger`. */
  method CommitLedger(store: Store<Entry>, ledger: Ledger, agent: Address)
    returns (r: Result<Address>, ghost written: seq<Write<Entry>>)
    requires store.Valid()
    modifies store
    ensures store.Valid()
    ensures written <= CommitLedgerPlan(store.hash, ledger, agent)
    ensures store.State() == ApplyAll(old(store.State()), written)
    ensures r.Ok? <==> written == CommitLedgerPlan(store.hash, ledger, agent)
    ensures r.Ok? ==> r.value == store.hash(LedgerEntry(ledger))
  {
    r := store.Commit(LedgerEntry(ledger), agent);
    written := if r.Ok? then CommitLedgerPlan(store.hash, ledger, agent) else [];
  }

  /** `create_collective_ledger`. A commit failure is returned as it is and no
      link is made. */
  method CreateCollectiveLedger(store: Store<Entry>, collective: Collective, collectiveAddress: Address, agent: Address)
    returns (r: Result<Address>, ghost written: seq<Write<Entry>>)
    requires store.Valid()
    modifies store
    ensures store.Valid()
    ensures written <= LedgerPlan(store.hash, collective, collectiveAddress, agent)
    ensures store.State() == ApplyAll(old(store.State()), written)
    ensures r.Ok? <==> written == LedgerPlan(store.hash, collective, collectiveAddress, agent)
    ensures r.Ok? ==> r.value == store.hash(LedgerEntry(PrimaryLedger(collective.name)))
  {
    ghost var plan := LedgerPlan(store.hash, collective, collectiveAddress, agent);
    var ledger := PrimaryLedger(collective.name);
    var committed;
    committed, written := CommitLedger(store, ledger, agent);
    if committed.Err? {
      return Err(committed.msg), written;
    }
    var linked := store.CreateLink(Link(collectiveAddress, committed.value, LedgerLinkType, PrimaryTag));
    if linked.Err? {
      return Err(linked.msg), written;
    }
    ApplyAllSnoc(old(store.State()), written, plan[1]);
    written := written + [plan[1]];
    r := Ok(committed.value);
  }

  lemma LedgerPlanShape(hash: Entry -> Address, collective: Collective, collectiveAddress: Address, agent: Address)
    ensures Addressed(hash, LedgerPlan(hash, collective, collectiveAddress, agent))
    ensures NoSupersede(LedgerPlan(hash, collective, collectiveAddress, agent))
    ensures AppendedLinks(LedgerPlan(hash, collective, collectiveAddress, agent))
         == [Link(collectiveAddress, hash(LedgerEntry(PrimaryLedger(collective.name))), LedgerLinkType, PrimaryTag)]
  {
    var p := LedgerPlan(hash, collective, collectiveAddress, agent);
    assert p[1..][1..] == [];
    assert AppendedLinks(p[1..][1..]) == [];
    assert AppendedLinks(p[1..]) == [p[1].link];
    assert AppendedLinks(p) == [] + AppendedLinks(p[1..]);
  }

  /** After a successful `create_collective_ledger` the collective's
      `ledger_primary` links end with the new ledger, which is stored at that
      address under the collective's name. */
  lemma LedgerReachable(hash: Entry -> Address, db: Db<Entry>, collective: Collective, collectiveAddress: Address, agent: Address)
    requires Injective(hash) && ContentAddressed(hash, db)
    ensures var db' := ApplyAll(db, LedgerPlan(hash, collective, collectiveAddress, agent));
            var primary := Query(db'.links, collectiveAddress, Exactly(LedgerLinkType), Exactly(PrimaryTag));
            && primary == Query(db.links, collectiveAddress, Exactly(LedgerLinkType), Exactly(PrimaryTag))
                          + [Link(collectiveAddress, hash(LedgerEntry(PrimaryLedger(collective.name))), LedgerLinkType, PrimaryTag)]
            && EntryAt(db', primary[|primary| - 1].target) == Some(LedgerEntry(PrimaryLedger(collective.name)))
  {
    var p := LedgerPlan(hash, collective, collectiveAddress, agent);
    var l := Link(collectiveAddress, hash(LedgerEntry(PrimaryLedger(collective.name))), LedgerLinkType, PrimaryTag);
    LedgerPlanShape(hash, collective, collectiveAddress, agent);
    LinksAfter(db, p);
    QueryConcat(db.links, [l], collectiveAddress, Exactly(LedgerLinkType), Exactly(PrimaryTag));
    QuerySingle(l, collectiveAddress, Exactly(LedgerLinkType), Exactly(PrimaryTag));
    WrittenReadable(hash, db, p, 0);
  }
}
