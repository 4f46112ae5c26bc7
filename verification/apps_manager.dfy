/** The registry of workload kinds (pkg/apps/manager.go). */
module Managers {
  import opened AppsTypes

  /** Every manager is filed under its own kind. */
  ghost predicate KeyedByKind<Item, W>(reg: map<string, ResourceManager<Item, W>>)
  {
    forall k :: k in reg ==> reg[k].kind == k
  }

  /** Files `r` under its kind, replacing any manager registered for it. */
  function RegisterResource<Item, W>(reg: map<string, ResourceManager<Item, W>>,
                                     r: ResourceManager<Item, W>): (reg': map<string, ResourceManager<Item, W>>)
    ensures r.kind in reg' && reg'[r.kind] == r
    ensures reg'.Keys == reg.Keys + {r.kind}
    ensures forall k :: k in reg && k != r.kind ==> reg'[k] == reg[k]
    ensures |reg'| == if r.kind in reg then |reg| else |reg| + 1
    ensures KeyedByKind(reg) ==> KeyedByKind(reg')
  {
    reg[r.kind := r]
  }

  /** Registering two managers of the same kind keeps only the second. */
  lemma LastRegistrationWins<Item, W>(reg: map<string, ResourceManager<Item, W>>,
                                      r1: ResourceManager<Item, W>, r2: ResourceManager<Item, W>)
    requires r1.kind == r2.kind
    ensures RegisterResource(RegisterResource(reg, r1), r2) == RegisterResource(reg, r2)
  {
    assert reg[r1.kind := r1][r2.kind := r2] == reg[r2.kind := r2];
  }
}
