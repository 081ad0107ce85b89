/**
 * The process-wide state of store/index.ts, held in one explicit session
 * object: the client, the three live accounts and the ledger mirror, whose
 * entries copy the live balances by fixed position (0 the CDT, 1 the savings
 * account, 2 the checking account) only when the registry is synced.
 */
module Store {
  import opened Base
  import ClientModel
  import SavingModel
  import CheckingModel
  import CdtModel
  import AccountModel

  class Session {
    const client: ClientModel.Client
    const saving: SavingModel.SavingAccount
    const checking: CheckingModel.CheckingAccount
    const cdt: CdtModel.Cdt
    const registry: array<AccountModel.Account>

    /** The ledger has three distinct entries. */
    ghost predicate Valid()
      reads registry
    {
      && registry.Length == 3
      && registry[0] != registry[1]
      && registry[0] != registry[2]
      && registry[1] != registry[2]
    }

    /** Every ledger entry holds the current balance of the instance at its position. */
    predicate Mirrored()
      requires Valid()
      reads registry, registry[0], registry[1], registry[2], cdt, saving, checking
    {
      && registry[0].balance == Finite(cdt.Balance)
      && registry[1].balance == Finite(saving.Balance)
      && registry[2].balance == Finite(checking.Balance())
    }

    /** The initial singletons and their ledger, all owned by the one client. */
    constructor()
      ensures Valid() && Mirrored()
      ensures fresh(client) && fresh(saving) && fresh(checking) && fresh(cdt)
      ensures fresh(registry) && fresh(registry[0]) && fresh(registry[1]) && fresh(registry[2])
      ensures client.name == "John Doe" && client.IdClient == "CLIENT123" && client.Accounts.None?
      ensures saving.Id == "SAVING789" && saving.Balance == 2000000.0 && saving.Rate == 0.006
      ensures checking.Id == "CHECKING321" && checking.Balance() == 1500000.0
      ensures cdt.Id == "CDT001" && cdt.Time == 12 && cdt.Balance == 1000000.0 && cdt.Rate == 0.05 && cdt.Active
      ensures forall i :: 0 <= i < registry.Length ==> registry[i].clientId == client.IdClient
      ensures registry[0].accountId == cdt.Id && registry[1].accountId == saving.Id && registry[2].accountId == checking.Id
    {
      var c := new ClientModel.Client("John Doe", "CLIENT123", None);
      var s := new SavingModel.SavingAccount("SAVING789", Some(2000000.0), Some(0.006));
      var k := new CheckingModel.CheckingAccount("CHECKING321", 1500000.0);
      var d := new CdtModel.Cdt("CDT001", 12, 1000000.0, 0.05);
      var e0 := new AccountModel.Account(c.IdClient, d.Id, Some(Finite(d.Balance)));
      var e1 := new AccountModel.Account(c.IdClient, s.Id, Some(Finite(s.Balance)));
      var e2 := new AccountModel.Account(c.IdClient, k.Id, Some(Finite(k.Balance())));
      client, saving, checking, cdt := c, s, k, d;
      registry := new AccountModel.Account[3] [e0, e1, e2];
    }

    /**
     * `syncAccountsRegistry`: copies each live balance into its ledger entry.
     * Only the three balances change, and a second call changes nothing.
     */
    method SyncAccountsRegistry()
      requires Valid()
      modifies registry[0], registry[1], registry[2]
      ensures Valid() && Mirrored()
      ensures old(Mirrored()) ==> unchanged(registry[0], registry[1], registry[2])
    {
      registry[0].balance := Finite(cdt.Balance);
      registry[1].balance := Finite(saving.Balance);
      registry[2].balance := Finite(checking.Balance());
    }
  }
}
