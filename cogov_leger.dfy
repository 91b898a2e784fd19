/** The link-less ledger variant (zomes/cogov/code/src/leger.rs): the primary
    ledger is committed and nothing links it to its collective. */
module CogovLeger {
  import opened Results
  import opened Substrate
  import opened Ledgers
  import opened CogovTypes
  import CogovLedger

  /** The only write: the primary ledger. The collective's address plays no part. */
  function LegerPlan(hash: Entry -> Address, collective: Collective, agent: Address): seq<Write<Entry>>
  {
    CogovLedger.CommitLedgerPlan(hash, PrimaryLedger(collective.name), agent)
  }

  /** `create_collective_ledger` of leger.rs: it returns exactly what
      `commit_ledger` returns and leaves the links as they are. */
  method CreateCollectiveLedger(store: Store<Entry>, collective: Collective, collectiveAddress: Address, agent: Address)
    returns (r: Result<Address>, ghost written: seq<Write<Entry>>)
    requires store.Valid()
    modifies store
    ensures store.Valid()
    ensures written <= LegerPlan(store.hash, collective, agent)
    ensures store.State() == ApplyAll(old(store.State()), written)
    ensures store.links == old(store.links)
    ensures r.Ok? <==> written == LegerPlan(store.hash, collective, agent)
    ensures r.Ok? ==> r.value == store.hash(LedgerEntry(PrimaryLedger(collective.name)))
  {
    r, written := CogovLedger.CommitLedger(store, PrimaryLedger(collective.name), agent);
  }

  /** The variant's only effect is the ledger entry: the collective can never
      reach its ledger through a link. */
  lemma LegerAddsNoLink(hash: Entry -> Address, db: Db<Entry>, collective: Collective, agent: Address)
    ensures ApplyAll(db, LegerPlan(hash, collective, agent)).links == db.links
    ensures ApplyAll(db, LegerPlan(hash, collective, agent)).entries
         == db.entries[hash(LedgerEntry(PrimaryLedger(collective.name))) := Record(LedgerEntry(PrimaryLedger(collective.name)), agent)]
  {
    var p := LegerPlan(hash, collective, agent);
    assert ApplyAll(db, p) == ApplyAll(Apply(db, p[0]), []);
  }
}
