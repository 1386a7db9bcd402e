/** People, accounts and links (internal/core/model.go, internal/core/provider.go). */
module Model {
  import opened Quotas
  import opened Text

  datatype User = User(id: int, sourceUUID: string, uid: string, email: string, active: bool, groups: seq<string>)

  /** One account as its service reports it. */
  datatype Account = Account(
    externalID: string,
    subject: string,
    username: string,
    email: string,
    enabled: bool,
    deleted: bool,
    quota: Quota,
    used: Quota,
    neverUsed: bool)
  {
    predicate Writable() {
      enabled && !deleted
    }

    /** What the store accepts for a row. */
    predicate Storable() {
      externalID != "" && quota.Valid() && used.ValidAsUsage()
    }
  }

  /** A stored account: the last report, who owns it, and whether that report can be trusted. */
  datatype Row = Row(account: Account, owner: Option<int>, observedAt: int, observeOK: bool)

  /** The primary key of a stored account. */
  datatype Key = Key(providerID: int, externalID: string)

  datatype Origin = Matched | Manual

  datatype Link = Link(userID: int, providerID: int, externalID: string, origin: Origin) {
    function Account(): Key {
      Key(providerID, externalID)
    }
  }

  /** Names are compared in this form, so that case and outer spaces do not count. */
  function Normalized(name: string): string {
    Lower(Trim(name))
  }

  /** People by id; of two with one id the later one counts. */
  function IndexUsers(users: seq<User>): map<int, User> {
    if users == [] then map[]
    else IndexUsers(users[..|users| - 1])[users[|users| - 1].id := users[|users| - 1]]
  }

  method IndexPeople(users: seq<User>) returns (people: map<int, User>)
    ensures people == IndexUsers(users)
  {
    people := map[];
    for i := 0 to |users|
      invariant people == IndexUsers(users[..i])
    {
      assert users[..i + 1][..i] == users[..i];
      people := people[users[i].id := users[i]];
    }
    assert users[..|users|] == users;
  }

  /** Accounts by external id. */
  function IndexAccounts(accounts: seq<Account>): map<string, Account> {
    if accounts == [] then map[]
    else IndexAccounts(accounts[..|accounts| - 1])[accounts[|accounts| - 1].externalID := accounts[|accounts| - 1]]
  }
}
