/** A protocol_love collective's primary ledger
    (zomes/protocol_love/src/ledger.rs). The file still speaks the classic hdk
    (`commit_entry`, a typed `link_entries`) and its strings are those of the
    classic zome's ledger, so the link keeps its type "collective->ledger".
    Ledger entries are accepted by validation whatever they hold. */
module Plove2Ledger {
  import opened Results
  import opened Substrate
  import opened Ledgers
  import opened Plove2Utils
  import opened Plove2Types
  import PloveLedger

  /** The writes of `create_collective_ledger`: the primary ledger, then the
      link to it from the collective. */
  function LedgerPlan(hash: Entry -> Address, collective: Collective, collectiveHash: Address, agent: Address): seq<Write<Entry>>
  {
    [PutEntry(hash, LedgerEntry(PrimaryLedger(collective.name)), agent),
     Append(Link(collectiveHash, hash(LedgerEntry(PrimaryLedger(collective.name))), PloveLedger.LedgerLinkType, PloveLedger.PrimaryTag))]
  }

  /** `commit_ledger`: a failure is prefixed "commit_ledger: ". */
  method CommitLedger(store: Store<Entry>, ledger: Ledger, agent: Address)
    returns (r: Result<Address>)
    requires store.Valid()
    modifies store
    ensures store.Valid()
    ensures r.Ok? ==> r.value == store.hash(LedgerEntry(ledger))
                      && store.State() == Apply(old(store.State()), PutEntry(store.hash, LedgerEntry(ledger), agent))
    ensures r.Err? ==> store.State() == old(store.State()) && PloveLedger.CommitTag <= r.msg
  {
    var committed := store.Commit(LedgerEntry(ledger), agent);
    r := T(committed, PloveLedger.CommitTag);
  }

  /** `create_collective_ledger`. A failed commit writes nothing and reports
      "create_collective_ledger: commit_ledger: ..."; a failed link leaves the
      ledger in place and reports "create_collective_ledger: collective->ledger: ...". */
  method CreateCollectiveLedger(store: Store<Entry>, collective: Collective, collectiveHash: Address, agent: Address)
    returns (r: Result<Address>, ghost written: seq<Write<Entry>>)
    requires store.Valid()
    modifies store
    ensures store.Valid()
    ensures written <= LedgerPlan(store.hash, collective, collectiveHash, agent)
    ensures store.State() == ApplyAll(old(store.State()), written)
    ensures r.Ok? <==> written == LedgerPlan(store.hash, collective, collectiveHash, agent)
    ensures r.Ok? ==> r.value == store.hash(LedgerEntry(PrimaryLedger(collective.name)))
    ensures r.Err? && written == [] ==> PloveLedger.LedgerTag <= r.msg && PloveLedger.CommitTag <= r.msg[|PloveLedger.LedgerTag|..]
    ensures r.Err? && written != [] ==> PloveLedger.LinkTag <= r.msg
  {
    ghost var plan := LedgerPlan(store.hash, collective, collectiveHash, agent);
    written := [];
    var committed := CommitLedger(store, PrimaryLedger(collective.name), agent);
    var tagged := T(committed, PloveLedger.LedgerTag);
    if tagged.Err? {
      return Err(tagged.msg), written;
    }
    written := [plan[0]];
    var linked := store.CreateLink(Link(collectiveHash, tagged.value, PloveLedger.LedgerLinkType, PloveLedger.PrimaryTag));
    var linkTagged := T(linked, PloveLedger.LinkTag);
    if linkTagged.Err? {
      return Err(linkTagged.msg), written;
    }
    ApplyAllSnoc(old(store.State()), written, plan[1]);
    written := plan;
    r := Ok(tagged.value);
  }

  lemma LedgerPlanShape(hash: Entry -> Address, collective: Collective, collectiveHash: Address, agent: Address)
    ensures Addressed(hash, LedgerPlan(hash, collective, collectiveHash, agent))
    ensures NoSupersede(LedgerPlan(hash, collective, collectiveHash, agent))
    ensures AppendedLinks(LedgerPlan(hash, collective, collectiveHash, agent))
         == [Link(collectiveHash, hash(LedgerEntry(PrimaryLedger(collective.name))), PloveLedger.LedgerLinkType, PloveLedger.PrimaryTag)]
  {
    var p := LedgerPlan(hash, collective, collectiveHash, agent);
    assert p[1..][1..] == [];
    assert AppendedLinks(p[1..][1..]) == [];
    assert AppendedLinks(p[1..]) == [p[1].link];
  }

  /** After `create_collective_ledger` the collective's last `ledger_primary`
      link leads to the ledger named "Primary Ledger for <collective name>". */
  lemma LedgerReachable(hash: Entry -> Address, db: Db<Entry>, collective: Collective, collectiveHash: Address, agent: Address)
    requires Injective(hash) && ContentAddressed(hash, db)
    ensures var db' := ApplyAll(db, LedgerPlan(hash, collective, collectiveHash, agent));
            var primary := Query(db'.links, collectiveHash, Exactly(PloveLedger.LedgerLinkType), Exactly(PloveLedger.PrimaryTag));
            && |primary| == |Query(db.links, collectiveHash, Exactly(PloveLedger.LedgerLinkType), Exactly(PloveLedger.PrimaryTag))| + 1
            && EntryAt(db', primary[|primary| - 1].target) == Some(LedgerEntry(PrimaryLedger(collective.name)))
  {
    var p := LedgerPlan(hash, collective, collectiveHash, agent);
    var l := Link(collectiveHash, hash(LedgerEntry(PrimaryLedger(collective.name))), PloveLedger.LedgerLinkType, PloveLedger.PrimaryTag);
    LedgerPlanShape(hash, collective, collectiveHash, agent);
    LinksAfter(db, p);
    QueryConcat(db.links, [l], collectiveHash, Exactly(PloveLedger.LedgerLinkType), Exactly(PloveLedger.PrimaryTag));
    QuerySingle(l, collectiveHash, Exactly(PloveLedger.LedgerLinkType), Exactly(PloveLedger.PrimaryTag));
    WrittenReadable(hash, db, p, 0);
  }
}
