/**
 * The user-management list: search over name and e-mail, role and status
 * facets, and the four summary cards computed over the whole list.
 */
module UserManagement {
  import opened TextUtil
  import opened FilterEngine

  datatype UserStatus = Active | Inactive | Suspended
  {
    function Name(): string
    {
      match this
      case Active => "active"
      case Inactive => "inactive"
      case Suspended => "suspended"
    }
  }

  datatype RiskScore = Low | Medium | High
  {
    function Name(): string
    {
      match this
      case Low => "low"
      case Medium => "medium"
      case High => "high"
    }
  }

  datatype User = User(
    id: string,
    name: string,
    email: string,
    role: string,
    status: UserStatus,
    lastLogin: string,
    transactionsCount: int,
    riskScore: RiskScore)

  /** Search box, role select and status select. */
  datatype UserFilter = UserFilter(searchTerm: string, filterRole: string, filterStatus: string)

  const NoFilter := UserFilter("", "all", "all")

  function SearchedFields(u: User): seq<string>
  {
    [u.name, u.email]
  }

  /**
   * The predicate passed to `users.filter`. The initial controls pass every
   * user; a role or status choice other than "all" passes only users with
   * exactly that role or status name.
   */
  predicate Matches(f: UserFilter, u: User)
    ensures f == NoFilter ==> Matches(f, u)
    ensures Matches(f, u) && f.filterRole != "all" ==> u.role == f.filterRole
    ensures Matches(f, u) && f.filterStatus != "all" ==> u.status.Name() == f.filterStatus
  {
    EmptySearchHits(SearchedFields(u));
    && SearchHit(f.searchTerm, SearchedFields(u))
    && FacetPasses(f.filterRole, u.role)
    && FacetPasses(f.filterStatus, u.status.Name())
  }

  /** The visible users: every one matches the filter, and none is added. */
  function FilteredUsers(users: seq<User>, f: UserFilter): (r: seq<User>)
    ensures |r| <= |users|
    ensures forall i :: 0 <= i < |r| ==> Matches(f, r[i])
  {
    KeepIsSubsequence(users, u => Matches(f, u));
    Keep(users, u => Matches(f, u))
  }

  /**
   * The visible users are exactly those matching search, role and status, in
   * list order, each as many times as the list holds it.
   */
  lemma FilteredUsersContract(users: seq<User>, f: UserFilter)
    ensures forall u :: u in FilteredUsers(users, f) <==> u in users && Matches(f, u)
    ensures IsSubsequence(FilteredUsers(users, f), users)
    ensures forall u :: multiset(FilteredUsers(users, f))[u] == if Matches(f, u) then multiset(users)[u] else 0
    ensures |FilteredUsers(users, f)| + |Keep(users, u => !Matches(f, u))| == |users|
  {
    KeepMultiplicity(users, u => Matches(f, u));
    KeepComplement(users, u => Matches(f, u), u => !Matches(f, u));
    forall u ensures u in FilteredUsers(users, f) <==> u in users && Matches(f, u) {
      KeepMembership(users, u => Matches(f, u), u);
    }
    KeepIsSubsequence(users, u => Matches(f, u));
  }

  /** The search clause in terms of the two searched fields. */
  lemma SearchClause(f: UserFilter, u: User)
    ensures SearchHit(f.searchTerm, SearchedFields(u)) <==>
      Contains(Lower(u.name), Lower(f.searchTerm)) || Contains(Lower(u.email), Lower(f.searchTerm))
  {
    var fs := SearchedFields(u);
    if Contains(Lower(u.name), Lower(f.searchTerm)) {
      assert Contains(Lower(fs[0]), Lower(f.searchTerm));
    }
    if Contains(Lower(u.email), Lower(f.searchTerm)) {
      assert Contains(Lower(fs[1]), Lower(f.searchTerm));
    }
  }

  /** A role or status selection other than "all" shows only users with exactly that value. */
  lemma FacetsAreExact(users: seq<User>, f: UserFilter)
    ensures forall u :: u in FilteredUsers(users, f) && f.filterRole != "all" ==> u.role == f.filterRole
    ensures forall u :: u in FilteredUsers(users, f) && f.filterStatus != "all" ==> u.status.Name() == f.filterStatus
  {
    FilteredUsersContract(users, f);
  }

  lemma NoFilterShowsAll(users: seq<User>)
    ensures FilteredUsers(users, NoFilter) == users
  {
    forall i | 0 <= i < |users| ensures Matches(NoFilter, users[i]) {
      EmptySearchHits(SearchedFields(users[i]));
    }
    KeepAll(users, u => Matches(NoFilter, u));
  }

  lemma FilterIdempotent(users: seq<User>, f: UserFilter)
    ensures FilteredUsers(FilteredUsers(users, f), f) == FilteredUsers(users, f)
  {
    KeepIdempotent(users, u => Matches(f, u));
  }

  // Summary cards over the unfiltered list.

  /** The active card: zero iff no user is active, the total iff every user is. */
  function ActiveCount(users: seq<User>): (n: nat)
    ensures n <= |users|
    ensures n == 0 <==> forall i :: 0 <= i < |users| ==> users[i].status != Active
    ensures n == |users| <==> forall i :: 0 <= i < |users| ==> users[i].status == Active
  {
    KeepEmptyIff(users, (u: User) => u.status == Active);
    KeepShrinks(users, (u: User) => u.status == Active);
    |Keep(users, (u: User) => u.status == Active)|
  }

  /** The suspended card: zero iff no user is suspended, the total iff every user is. */
  function SuspendedCount(users: seq<User>): (n: nat)
    ensures n <= |users|
    ensures n == 0 <==> forall i :: 0 <= i < |users| ==> users[i].status != Suspended
    ensures n == |users| <==> forall i :: 0 <= i < |users| ==> users[i].status == Suspended
  {
    KeepEmptyIff(users, (u: User) => u.status == Suspended);
    KeepShrinks(users, (u: User) => u.status == Suspended);
    |Keep(users, (u: User) => u.status == Suspended)|
  }

  /** The high-risk card: zero iff no user is high-risk, the total iff every user is. */
  function HighRiskCount(users: seq<User>): (n: nat)
    ensures n <= |users|
    ensures n == 0 <==> forall i :: 0 <= i < |users| ==> users[i].riskScore != High
    ensures n == |users| <==> forall i :: 0 <= i < |users| ==> users[i].riskScore == High
  {
    KeepEmptyIff(users, (u: User) => u.riskScore == High);
    KeepShrinks(users, (u: User) => u.riskScore == High);
    |Keep(users, (u: User) => u.riskScore == High)|
  }

  /** No user is both active and suspended, so the two cards together never exceed the total. */
  lemma {:induction false} ActiveAndSuspendedWithinTotal(users: seq<User>)
    ensures ActiveCount(users) + SuspendedCount(users) <= |users|
    ensures HighRiskCount(users) <= |users|
  {
    if users != [] {
      ActiveAndSuspendedWithinTotal(users[1..]);
    }
  }
}
