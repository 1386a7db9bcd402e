/** What a linking pass does to one provider, as functions that no iteration order can enter
    (internal/reconcile/link.go). */
module Linking {
  import opened Quotas
  import opened Model

  datatype MatchKey = NoKey | BySubject | ByEmail | ByUsername

  datatype IssueKind = Unlinked | Ambiguous | Dangling | Stale | Unmanaged

  datatype Issue = Issue(kind: IssueKind, user: Option<int>, externalID: string)

  /** One observed provider: its accounts in stored order, and the links it had before the pass. */
  datatype Site = Site(providerID: int, key: MatchKey, accounts: seq<Account>, links: map<int, Link>)

  /** One provider during the pass: every link by person, the people whose link is excluded, and the
      issues found. */
  datatype View = View(linked: map<int, Link>, dangling: set<int>, issues: set<Issue>)

  function UserMatch(u: User, key: MatchKey): string {
    match key
    case ByEmail => Normalized(u.email)
    case ByUsername => Normalized(u.uid)
    case _ => ""
  }

  function AccountMatch(a: Account, key: MatchKey): string {
    match key
    case ByEmail => Normalized(a.email)
    case ByUsername => Normalized(a.username)
    case BySubject => a.subject
    case NoKey => ""
  }

  // ----- owners

  predicate LiveIn(linked: map<int, Link>, dangling: set<int>, u: int) {
    u in linked && u !in dangling
  }

  /** owner is exactly the inverse of the live links. */
  ghost predicate IsInverse(owner: map<string, int>, linked: map<int, Link>, dangling: set<int>) {
    && (forall u | LiveIn(linked, dangling, u) :: linked[u].externalID in owner && owner[linked[u].externalID] == u)
    && (forall e | e in owner :: LiveIn(linked, dangling, owner[e]) && linked[owner[e]].externalID == e)
  }

  /** The accounts somebody owns. */
  function Owned(v: View): set<string> {
    set u | u in v.linked && u !in v.dangling :: v.linked[u].externalID
  }

  // ----- revalidation

  /** Links that count in this pass: an active person, an observed writable account, and, unless the
      link was made by hand or the person has nothing to match on, equal match values. */
  predicate Holds(site: Site, users: seq<User>, u: int)
    requires u in site.links
  {
    var link, people, byID := site.links[u], IndexUsers(users), IndexAccounts(site.accounts);
    && u in people
    && link.externalID in byID && byID[link.externalID].Writable()
    && (link.origin.Matched? ==>
          var want := UserMatch(people[u], site.key);
          want == "" || want == AccountMatch(byID[link.externalID], site.key))
  }

  /** What revalidation reports about a link that does not hold, unless its person is gone. */
  function LinkIssue(site: Site, users: seq<User>, u: int): Option<Issue>
    requires u in site.links
  {
    var link, byID := site.links[u], IndexAccounts(site.accounts);
    if Holds(site, users, u) || u !in IndexUsers(users) then None
    else if link.externalID !in byID || !byID[link.externalID].Writable() then Some(Issue(Dangling, Some(u), link.externalID))
    else Some(Issue(Stale, Some(u), link.externalID))
  }

  function Revalidated(site: Site, users: seq<User>): View {
    View(site.links,
         set u | u in site.links && !Holds(site, users, u),
         set u | u in site.links && LinkIssue(site, users, u).Some? :: LinkIssue(site, users, u).value)
  }

  // ----- direct matches

  /** The people without a link here whose match value is this. */
  function Claimants(users: seq<User>, linked: map<int, Link>, key: MatchKey, value: string): seq<User> {
    if users == [] then []
    else
      var u := users[|users| - 1];
      Claimants(users[..|users| - 1], linked, key, value) +
      if u.id !in linked && UserMatch(u, key) == value then [u] else []
  }

  predicate Free(a: Account, owned: set<string>) {
    a.Writable() && a.externalID !in owned
  }

  /** The writable accounts nobody owns whose match value is this. */
  function Holders(accounts: seq<Account>, owned: set<string>, key: MatchKey, value: string): seq<Account> {
    if accounts == [] then []
    else
      var a := accounts[|accounts| - 1];
      Holders(accounts[..|accounts| - 1], owned, key, value) +
      if Free(a, owned) && AccountMatch(a, key) == value then [a] else []
  }

  /** The one account of somebody who alone claims a value that one free account alone holds. */
  function DirectAccount(site: Site, users: seq<User>, v: View, u: User): Option<string> {
    var value := UserMatch(u, site.key);
    var people, accounts := Claimants(users, v.linked, site.key, value), Holders(site.accounts, Owned(v), site.key, value);
    if u.id in v.linked || value == "" || |people| != 1 || |accounts| != 1 then None
    else Some(accounts[0].externalID)
  }

  /** Nobody to pick, or too many: reported when somebody holds the value, but not one to one. */
  function DirectIssue(site: Site, users: seq<User>, v: View, u: User): Option<Issue> {
    var value := UserMatch(u, site.key);
    var people, accounts := Claimants(users, v.linked, site.key, value), Holders(site.accounts, Owned(v), site.key, value);
    if u.id in v.linked || value == "" || |accounts| == 0 || (|people| == 1 && |accounts| == 1) then None
    else Some(Issue(Ambiguous, Some(u.id), ""))
  }

  predicate DistinctUsers(users: seq<User>) {
    forall i, j | 0 <= i < j < |users| :: users[i].id != users[j].id
  }

  function NewLink(site: Site, u: int, e: string): Link {
    Link(u, site.providerID, e, Matched)
  }

  function DirectLinks(site: Site, users: seq<User>, v: View): map<int, Link> {
    var people := IndexUsers(users);
    map u | u in people && DirectAccount(site, users, v, people[u]).Some? ::
      NewLink(site, u, DirectAccount(site, users, v, people[u]).value)
  }

  function Direct(site: Site, users: seq<User>, v: View): View {
    View(v.linked + DirectLinks(site, users, v),
         v.dangling,
         v.issues + set u | u in users && DirectIssue(site, users, v, u).Some? :: DirectIssue(site, users, v, u).value)
  }

  // ----- the subject join

  datatype Claim = Claim(subject: string, user: int)

  function SubjectOf(site: Site, e: string): string {
    var byID := IndexAccounts(site.accounts);
    if e in byID then byID[e].subject else ""
  }

  /** What the live links of one provider say about who a subject is. */
  function Claims(site: Site, v: View): set<Claim> {
    set u | u in v.linked && u !in v.dangling && SubjectOf(site, v.linked[u].externalID) != "" ::
      Claim(SubjectOf(site, v.linked[u].externalID), u)
  }

  predicate Undisputed(claims: set<Claim>, c: Claim) {
    forall d | d in claims && d.subject == c.subject :: d.user == c.user
  }

  /** The subjects about which all claims agree. */
  function Subjects(claims: set<Claim>): map<string, int> {
    map c | c in claims && Undisputed(claims, c) :: c.subject := c.user
  }

  /** An account the join looks at: writable, free, and with a subject that is known to be somebody's. */
  predicate Joinable(a: Account, v: View, subjects: map<string, int>) {
    Free(a, Owned(v)) && a.subject != "" && a.subject in subjects
  }

  /** A joinable account goes to the person its subject names, if that person has no link here. */
  function JoinStep(site: Site, a: Account, v: View, subjects: map<string, int>): View {
    if !Joinable(a, v, subjects) then v
    else if subjects[a.subject] in v.linked then
      v.(issues := v.issues + {Issue(Ambiguous, Some(subjects[a.subject]), a.externalID)})
    else
      v.(linked := v.linked[subjects[a.subject] := NewLink(site, subjects[a.subject], a.externalID)])
  }

  /** Account after account. */
  function Joined(site: Site, accounts: seq<Account>, v: View, subjects: map<string, int>): View {
    if accounts == [] then v
    else JoinStep(site, accounts[|accounts| - 1], Joined(site, accounts[..|accounts| - 1], v, subjects), subjects)
  }

  // ----- what is left

  predicate HasAmbiguity(issues: set<Issue>, u: int) {
    exists i :: i in issues && i.kind.Ambiguous? && i.user == Some(u)
  }

  predicate LeftOut(v: View, u: User) {
    u.id !in v.linked && u.id !in v.dangling && !HasAmbiguity(v.issues, u.id)
  }

  function Collected(site: Site, users: seq<User>, v: View): View {
    v.(issues := v.issues
                 + (set u | u in users && LeftOut(v, u) :: Issue(Unlinked, Some(u.id), ""))
                 + (set a | a in site.accounts && Free(a, Owned(v)) :: Issue(Unmanaged, None, a.externalID)))
  }

  // ----- a whole pass

  function AfterDirect(site: Site, users: seq<User>): View
  {
    Direct(site, users, Revalidated(site, users))
  }

  /** Everything the direct matches of all providers say about subjects. */
  function AllClaims(sites: seq<Site>, users: seq<User>): set<Claim>
  {
    set site, c | site in sites && c in Claims(site, AfterDirect(site, users)) :: c
  }

  function AfterJoin(site: Site, sites: seq<Site>, users: seq<User>): View
  {
    Joined(site, site.accounts, AfterDirect(site, users), Subjects(AllClaims(sites, users)))
  }

  function AfterPass(site: Site, sites: seq<Site>, users: seq<User>): View
  {
    Collected(site, users, AfterJoin(site, sites, users))
  }
}
