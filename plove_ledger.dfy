/** A protocol-love collective's primary ledger
    (zomes/protocol-love/code/src/ledger.rs): the ledger is committed, then
    linked from the collective, each failure carrying its breadcrumb. Ledger
    entries are accepted by validation whatever they hold. */
module PloveLedger {
  import opened Results
  import opened Substrate
  import opened Ledgers
  import opened PloveUtils
  import opened PloveTypes

  const LedgerLinkType := "collective->ledger"
  const PrimaryTag := "ledger_primary"
  const LedgerTag := "create_collective_ledger: "
  const CommitTag := "commit_ledger: "
  const LinkTag := "create_collective_ledger: collective->ledger: "

  /** The writes of `create_collective_ledger`: the primary ledger, then the
      link to it from the collective. */
  function LedgerPlan(hash: Entry -> Address, collective: Collective, collectiveAddress: Address, agent: Address): seq<Write<Entry>>
  {
    [PutEntry(hash, LedgerEntry(PrimaryLedger(collective.name)), agent),
     Append(Link(collectiveAddress, hash(LedgerEntry(PrimaryLedger(collective.name))), LedgerLinkType, PrimaryTag))]
  }

  /** `commit_ledger`: a failure is prefixed "commit_ledger: ". */
  method CommitLedger(store: Store<Entry>, ledger: Ledger, agent: Address)
    returns (r: Result<Address>)
    requires store.Valid()
    modifies store
    ensures store.Valid()
    ensures r.Ok? ==> r.value == store.hash(LedgerEntry(ledger))
                      && store.State() == Apply(old(store.State()), PutEntry(store.hash, LedgerEntry(ledger), agent))
    ensures r.Err? ==> store.State() == old(store.State()) && CommitTag <= r.msg
  {
    var committed := store.Commit(LedgerEntry(ledger), agent);
    r := T(CommitTag, committed);
  }

  /** `create_collective_ledger`. A failed commit writes nothing and reports
      "create_collective_ledger: commit_ledger: ..."; a failed link leaves the
      ledger in place and reports "create_collective_ledger: collective->ledger: ...". */
  method CreateCollectiveLedger(store: Store<Entry>, collective: Collective, collectiveAddress: Address, agent: Address)
    returns (r: Result<Address>, ghost written: seq<Write<Entry>>)
    requires store.Valid()
    modifies store
    ensures store.Valid()
    ensures written <= LedgerPlan(store.hash, collective, collectiveAddress, agent)
    ensures store.State() == ApplyAll(old(store.State()), written)
    ensures r.Ok? <==> written == LedgerPlan(store.hash, collective, collectiveAddress, agent)
    ensures r.Ok? ==> r.value == store.hash(LedgerEntry(PrimaryLedger(collective.name)))
    ensures r.Err? && written == [] ==> LedgerTag <= r.msg && CommitTag <= r.msg[|LedgerTag|..]
    ensures r.Err? && written != [] ==> LinkTag <= r.msg
  {
    ghost var plan := LedgerPlan(store.hash, collective, collectiveAddress, agent);
    written := [];
    var ledger := PrimaryLedger(collective.name);
    var committed := CommitLedger(store, ledger, agent);
    var tagged := T(LedgerTag, committed);
    if tagged.Err? {
      return Err(tagged.msg), written;
    }
    written := [plan[0]];
    var linked := store.CreateLink(Link(collectiveAddress, tagged.value, LedgerLinkType, PrimaryTag));
    var linkTagged := T(LinkTag, linked);
    if linkTagged.Err? {
      return Err(linkTagged.msg), written;
    }
    ApplyAllSnoc(old(store.State()), written, plan[1]);
    written := written + [plan[1]];
    r := Ok(tagged.value);
  }

  lemma LedgerPlanShape(hash: Entry -> Address, collective: Collective, collectiveAddress: Address, agent: Address)
    ensures Addressed(hash, LedgerPlan(hash, collective, collectiveAddress, agent))
    ensures NoSupersede(LedgerPlan(hash, collective, collectiveAddress, agent))
    ensures AppendedLinks(LedgerPlan(hash, collective, collectiveAddress, agent))
         == [Link(collectiveAddress, hash(LedgerEntry(PrimaryLedger(collective.name))), LedgerLinkType, PrimaryTag)]
  {
    var p := LedgerPlan(hash, collective, collectiveAddress, agent);
    assert p[1..][1..] == [];
    assert AppendedLinks(p[1..][1..]) == [];
    assert AppendedLinks(p[1..]) == [p[1].link];
    assert AppendedLinks(p) == [] + AppendedLinks(p[1..]);
  }

  /** After a successful `create_collective_ledger` the collective's
      `ledger_primary` links end with the new ledger, stored under the name
      "Primary Ledger for <collective name>". */
  lemma LedgerReachable(hash: Entry -> Address, db: Db<Entry>, collective: Collective, collectiveAddress: Address, agent: Address)
    requires Injective(hash) && ContentAddressed(hash, db)
    ensures var db' := ApplyAll(db, LedgerPlan(hash, collective, collectiveAddress, agent));
            var primary := Query(db'.links, collectiveAddress, Exactly(LedgerLinkType), Exactly(PrimaryTag));
            && primary == Query(db.links, collectiveAddress, Exactly(LedgerLinkType), Exactly(PrimaryTag))
                          + [Link(collectiveAddress, hash(LedgerEntry(PrimaryLedger(collective.name))), LedgerLinkType, PrimaryTag)]
            && EntryAt(db', primary[|primary| - 1].target) == Some(LedgerEntry(PrimaryLedger(collective.name)))
  {
    var p := LedgerPlan(hash, collective, collectiveAddress, agent);
    var l := Link(collectiveAddress, hash(LedgerEntry(PrimaryLedger(collective.name))), LedgerLinkType, PrimaryTag);
    LedgerPlanShape(hash, collective, collectiveAddress, agent);
    LinksAfter(db, p);
    QueryConcat(db.links, [l], collectiveAddress, Exactly(LedgerLinkType), Exactly(PrimaryTag));
    QuerySingle(l, collectiveAddress, Exactly(LedgerLinkType), Exactly(PrimaryTag));
    WrittenReadable(hash, db, p, 0);
  }
}
