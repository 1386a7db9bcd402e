/** Links, stored accounts and policy joined into a plan (internal/reconcile/plan.go). */
module Planning {
  import opened Quotas
  import opened Model
  import opened Adapters
  import opened Resolving
  import opened Sorting
  import opened Plans
  import opened Applying

  /** What a plan is computed from besides the stored accounts; admits is the plan filter, applied to a
      user id and a provider name. */
  datatype World = World(
    users: seq<User>,
    links: seq<Link>,
    instances: seq<Instance>,
    policy: Policy,
    userPolicies: map<int, UserPolicy>,
    admits: (string, string) -> bool)

  function PolicyOf(w: World, userID: int): UserPolicy {
    if userID in w.userPolicies then w.userPolicies[userID] else UserPolicy(map[], None)
  }

  /** The pair a link stands for, or nothing: links of providers that are not configured, of people who
      are gone or orphaned, filtered out, or to accounts that are not stored are passed over. */
  function PairOf(w: World, accounts: map<Key, Row>, link: Link): (pair: seq<PlanAccount>)
    ensures |pair| <= 1
    ensures pair != [] ==> Key(pair[0].providerID, pair[0].externalID) == link.Account()
  {
    var byProvider, usersByID := IndexInstances(w.instances), IndexUsers(w.users);
    if link.providerID !in byProvider || link.userID !in usersByID then []
    else
      var instance, user := byProvider[link.providerID], usersByID[link.userID];
      if !user.active || !w.admits(user.uid, instance.name) || link.Account() !in accounts then []
      else
        var row := accounts[link.Account()];
        var r := Resolved(user, link.providerID, w.policy, PolicyOf(w, user.id));
        var desired := if r.present then NormalizeQuota(instance.adapter, r.ceiling) else Unknown;
        [PlanAccount(user.id, user.uid, link.providerID, instance.name, link.externalID, desired, r.present,
                     row.account.quota, row.account.used, row.account.neverUsed, row.observeOK)]
  }

  function Pairs(w: World, accounts: map<Key, Row>, links: seq<Link>): seq<PlanAccount> {
    if links == [] then []
    else Pairs(w, accounts, links[..|links| - 1]) + PairOf(w, accounts, links[|links| - 1])
  }

  function DifferenceFor(w: World, accounts: map<Key, Row>, link: Link): seq<Change> {
    var pair := PairOf(w, accounts, link);
    if pair == [] then [] else DifferenceOf(pair[0])
  }

  /** Every difference between what is stored and what is desired, link by link. */
  function Wanted(w: World, accounts: map<Key, Row>, links: seq<Link>): seq<Change> {
    if links == [] then []
    else Wanted(w, accounts, links[..|links| - 1]) + DifferenceFor(w, accounts, links[|links| - 1])
  }

  lemma OnePairMore(pairs: seq<PlanAccount>, pair: seq<PlanAccount>)
    requires |pair| <= 1
    ensures Differences(pairs + pair) == Differences(pairs) + if pair == [] then [] else DifferenceOf(pair[0])
  {
    if pair == [] {
      assert pairs + pair == pairs;
    } else {
      assert (pairs + pair)[..|pairs|] == pairs;
    }
  }

  lemma {:induction false} WantedIsDifferences(w: World, accounts: map<Key, Row>, links: seq<Link>)
    ensures Differences(Pairs(w, accounts, links)) == Wanted(w, accounts, links)
  {
    if links != [] {
      var front, last := links[..|links| - 1], links[|links| - 1];
      WantedIsDifferences(w, accounts, front);
      OnePairMore(Pairs(w, accounts, front), PairOf(w, accounts, last));
    }
  }

  /** The loop body of Engine.Plan: the pair of one link, or nothing. */
  method PairUp(w: World, accounts: map<Key, Row>, link: Link, byProvider: map<int, Instance>, usersByID: map<int, User>)
    returns (pair: seq<PlanAccount>)
    requires byProvider == IndexInstances(w.instances) && usersByID == IndexUsers(w.users)
    ensures pair == PairOf(w, accounts, link)
  {
    if link.providerID !in byProvider || link.userID !in usersByID {
      return [];
    }
    var instance, user := byProvider[link.providerID], usersByID[link.userID];
    if !user.active || !w.admits(user.uid, instance.name) || link.Account() !in accounts {
      return [];
    }
    var row := accounts[link.Account()];
    var r := Resolve(user, link.providerID, w.policy, PolicyOf(w, user.id));
    var desired := Unknown;
    if r.present {
      desired := NormalizeQuota(instance.adapter, r.ceiling);
    }
    pair := [PlanAccount(user.id, user.uid, link.providerID, instance.name, link.externalID, desired, r.present,
                         row.account.quota, row.account.used, row.account.neverUsed, row.observeOK)];
  }

  /** Engine.Plan. */
  method MakePlan(w: World, accounts: map<Key, Row>) returns (plan: Plan, considered: nat)
    ensures multiset(plan.changes) == multiset(Wanted(w, accounts, w.links))
    ensures Sorted(ByUser, plan.changes)
    ensures considered == |Pairs(w, accounts, w.links)|
    ensures plan.unallocated == CountUnallocated(Pairs(w, accounts, w.links))
  {
    var usersByID := IndexPeople(w.users);
    var byProvider := IndexByID(w.instances);
    var planAccounts := [];
    for i := 0 to |w.links|
      invariant planAccounts == Pairs(w, accounts, w.links[..i])
    {
      assert w.links[..i + 1][..i] == w.links[..i];
      var pair := PairUp(w, accounts, w.links[i], byProvider, usersByID);
      planAccounts := planAccounts + pair;
    }
    assert w.links[..|w.links|] == w.links;
    WantedIsDifferences(w, accounts, w.links);
    plan := BuildPlan(planAccounts);
    considered := |planAccounts|;
  }
}
