/** The ledger entity, which every generation of the zome defines the same way:
    a named ledger, default "unnamed ledger", and a collective's primary ledger
    named after the collective. */
module Ledgers {

  datatype Ledger = Ledger(name: string)

  const PrimaryPrefix := "Primary Ledger for "

  /** `Ledger::default`. */
  function DefaultLedger(): (l: Ledger)
    ensures l.name == "unnamed ledger"
  {
    Ledger("unnamed ledger")
  }

  /** The primary ledger of a collective called `collectiveName`: the default
      ledger with its name replaced by "Primary Ledger for <collectiveName>". */
  function PrimaryLedger(collectiveName: string): (l: Ledger)
    ensures PrimaryPrefix <= l.name
    ensures l.name[|PrimaryPrefix|..] == collectiveName
  {
    DefaultLedger().(name := PrimaryPrefix + collectiveName)
  }

  /** The collective's name can be read back from its ledger's name, so
      collectives with different names get different primary ledgers. */
  lemma PrimaryLedgerInjective(a: string, b: string)
    requires PrimaryLedger(a) == PrimaryLedger(b)
    ensures a == b
  {
    assert a == PrimaryLedger(a).name[|PrimaryPrefix|..];
  }
}
