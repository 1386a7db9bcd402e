/** The stored state the reconcile loop updates (internal/store/accounts.go, internal/store/audit.go). */
module Storage {
  import opened Quotas
  import opened Model
  import opened Plans
  import opened Notices
  import Linking

  datatype AuditResult = Applied | Failed | Refused | Skipped

  datatype AuditEntry = AuditEntry(change: Change, result: AuditResult)

  /** No person has two links on one provider, and no account has two people. */
  predicate UniqueLinks(links: seq<Link>) {
    && (forall i, j | 0 <= i < j < |links| :: links[i].Account() != links[j].Account())
    && (forall i, j | 0 <= i < j < |links| ::
          links[i].userID != links[j].userID || links[i].providerID != links[j].providerID)
  }

  /** Accounts after one of them was read again: its owner stays, and a report the store does not
      accept, or one about an unknown row, changes nothing. */
  function Refreshed(accounts: map<Key, Row>, providerID: int, account: Account, at: int): map<Key, Row> {
    var key := Key(providerID, account.externalID);
    if account.Storable() && key in accounts
    then accounts[key := Row(account, accounts[key].owner, at, true)]
    else accounts
  }

  function Unobserved(accounts: map<Key, Row>, key: Key): map<Key, Row> {
    if key in accounts then accounts[key := accounts[key].(observeOK := false)] else accounts
  }

  class Store {
    var accounts: map<Key, Row>
    var links: seq<Link>
    var issues: map<int, seq<Linking.Issue>>
    var audit: seq<AuditEntry>
    var notified: Table

    constructor ()
      ensures accounts == map[] && links == [] && issues == map[] && audit == [] && notified == map[]
    {
      accounts, links, issues, audit, notified := map[], [], map[], [], map[];
    }

    /** The issues of one provider, all at once. */
    method ReplaceLinkIssues(providerID: int, found: seq<Linking.Issue>)
      modifies `issues
      ensures issues == old(issues)[providerID := found]
    {
      issues := issues[providerID := found];
    }

    method UpdateObservedAccount(providerID: int, account: Account, at: int)
      modifies `accounts
      ensures accounts == Refreshed(old(accounts), providerID, account, at)
    {
      if !account.Storable() {
        return;
      }
      var key := Key(providerID, account.externalID);
      if key in accounts {
        accounts := accounts[key := Row(account, accounts[key].owner, at, true)];
      }
    }

    method MarkAccountUnobserved(key: Key)
      modifies `accounts
      ensures accounts == Unobserved(old(accounts), key)
    {
      if key in accounts {
        accounts := accounts[key := accounts[key].(observeOK := false)];
      }
    }

    method SetAccountOwner(key: Key, owner: Option<int>)
      modifies `accounts
      ensures accounts == if key in old(accounts) then old(accounts)[key := old(accounts)[key].(owner := owner)] else old(accounts)
    {
      if key in accounts {
        accounts := accounts[key := accounts[key].(owner := owner)];
      }
    }

    method RecordChange(change: Change, result: AuditResult)
      modifies `audit
      ensures audit == old(audit) + [AuditEntry(change, result)]
    {
      audit := audit + [AuditEntry(change, result)];
    }

    /** Stamps the row of a key with the present instant, and calls the key new when both stamps coincide. */
    method SeenGuardedChange(key: string) returns (first: bool, ghost lookup: Lookup)
      modifies `notified
      ensures lookup.key == key && notified == Sighted(old(notified), key, lookup.at)
      ensures first == IsFirst(notified, key)
    {
      var now: int := *;
      lookup := Lookup(key, now);
      if key in notified {
        notified := notified[key := notified[key].(lastSeen := now)];
      } else {
        notified := notified[key := Sighting(now, now)];
      }
      first := notified[key].firstSeen == notified[key].lastSeen;
    }

    method ForgetGuardedChanges(keep: seq<string>)
      modifies `notified
      ensures notified == Kept(old(notified), keep)
    {
      notified := if |keep| == 0 then map[] else map key | key in notified && key in keep :: notified[key];
    }

    /** Moves a person's link on a provider, or adds one; refused, with nothing changed, exactly when
        somebody else holds the account. */
    method UpsertLink(link: Link) returns (ok: bool)
      requires UniqueLinks(links)
      modifies `links
      ensures ok <==> forall l | l in old(links) && l.Account() == link.Account() :: l.userID == link.userID
      ensures !ok ==> links == old(links)
      ensures ok ==> forall l: Link ::
                l in links <==> l == link || (l in old(links) && (l.userID != link.userID || l.providerID != link.providerID))
      ensures UniqueLinks(links)
    {
      var at := |links|;
      ok := true;
      for i := 0 to |links|
        invariant ok <==> forall j | 0 <= j < i && links[j].Account() == link.Account() :: links[j].userID == link.userID
        invariant 0 <= at <= |links|
        invariant at < |links| ==> at < i && links[at].userID == link.userID && links[at].providerID == link.providerID
        invariant at == |links| ==>
                    forall j | 0 <= j < i :: links[j].userID != link.userID || links[j].providerID != link.providerID
      {
        if links[i].Account() == link.Account() && links[i].userID != link.userID {
          ok := false;
        }
        if links[i].userID == link.userID && links[i].providerID == link.providerID {
          at := i;
        }
      }
      if !ok {
        return;
      }
      ghost var before := links;
      links := if at < |links| then links[at := link] else links + [link];
      forall l: Link
        ensures l in links <==> l == link || (l in before && (l.userID != link.userID || l.providerID != link.providerID))
      {
        if l in before && (l.userID != link.userID || l.providerID != link.providerID) {
          var i :| 0 <= i < |before| && before[i] == l;
          assert links[i] == l;
        }
        assert links[at] == link;
      }
    }
  }
}
