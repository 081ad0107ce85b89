/**
 * The bank client of models/Client.ts: a name, an id and a list of ledger
 * accounts that may be missing and only ever grows at the end.
 */
module ClientModel {
  import opened Base
  import AccountModel

  class Client {
    var name: string
    var IdClient: string
    /** `None` stands for an `Accounts` list that is still undefined. */
    var Accounts: Option<seq<AccountModel.Account>>

    constructor(name: string, idClient: string, accounts: Option<seq<AccountModel.Account>>)
      ensures this.name == name && IdClient == idClient && Accounts == accounts
    {
      this.name := name;
      IdClient := idClient;
      Accounts := accounts;
    }

    /**
     * Appends `account`, first creating the empty list when there is none.
     * Earlier entries keep their order and identity; nothing is removed.
     */
    method CreateAccount(account: AccountModel.Account)
      modifies this`Accounts
      ensures Accounts.Some?
      ensures |Accounts.value| == |old(Accounts).GetOr([])| + 1
      ensures Accounts.value[|Accounts.value| - 1] == account
      ensures Accounts.value[..|Accounts.value| - 1] == old(Accounts).GetOr([])
    {
      if Accounts.None? {
        Accounts := Some([]);
      }
      Accounts := Some(Accounts.value + [account]);
    }
  }
}
