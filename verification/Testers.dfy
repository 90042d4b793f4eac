/**
 Seeding tester accounts against the user tables. Each database transaction is
 one atomic step; the sequence number stands for generated identifiers.
 */
module Testers {
  import opened Counting
  import opened Options
  import opened Text

  type UserId = nat

  datatype User = User(handle: string, email: string, passwordHash: string, isActive: bool)

  datatype Grant = Grant(user: UserId, role: string)

  /** The user, role and user-role tables. */
  datatype Db = Db(users: map<UserId, User>, grants: set<Grant>, roleNames: set<string>, nextId: UserId)

  datatype UserError =
    | NegativeCount
    | DomainRequired
    | HashRequired
    | HandleTaken
    | EmailTaken
    | InvalidHandle
    | InvalidEmail

  const ROLE_USER := "user"
  const ROLE_ADMIN := "admin"
  const ROLE_TESTER := "tester"

  // ----- tables -----

  /** Keys are below the sequence, grants refer to rows, names are unique. */
  ghost predicate Consistent(db: Db) {
    && (forall id :: id in db.users ==> id < db.nextId)
    && (forall g :: g in db.grants ==> g.user in db.users && g.role in db.roleNames)
    && (forall a, b :: a in db.users && b in db.users && a != b ==>
          db.users[a].handle != db.users[b].handle && db.users[a].email != db.users[b].email)
  }

  function Handles(db: Db): (hs: set<string>) {
    set id | id in db.users :: db.users[id].handle
  }

  function Emails(db: Db): (es: set<string>) {
    set id | id in db.users :: db.users[id].email
  }

  function Holders(db: Db, role: string): (gs: set<Grant>) {
    set g | g in db.grants && g.role == role
  }

  /** SELECT COUNT(*) over the grants of a role. */
  function CountByRole(db: Db, role: string): (n: nat) {
    |Holders(db, role)|
  }

  predicate HandleChar(c: char) {
    'a' <= c <= 'z' || '0' <= c <= '9' || c == '_'
  }

  predicate HandleOk(h: string) {
    3 <= |h| <= 32 && forall i :: 0 <= i < |h| ==> HandleChar(h[i])
  }

  predicate EmailOk(e: string) {
    3 <= |e| <= 320 && ToLower(e) == e
  }

  /** The constraint an insert violates: checks come before unique indexes. */
  function InsertError(db: Db, handle: string, email: string): (e: Option<UserError>) {
    if !EmailOk(email) then Some(InvalidEmail)
    else if !HandleOk(handle) then Some(InvalidHandle)
    else if handle in Handles(db) then Some(HandleTaken)
    else if email in Emails(db) then Some(EmailTaken)
    else None
  }

  // ----- roles -----

  predicate Named(roles: seq<string>, role: string) {
    exists i :: 0 <= i < |roles| && ToLower(TrimSpace(roles[i])) == role
  }

  /** The known roles among those named, user always, in fixed order. */
  function RolesFor(roles: seq<string>): (r: seq<string>) {
    [ROLE_USER]
    + (if Named(roles, ROLE_ADMIN) then [ROLE_ADMIN] else [])
    + (if Named(roles, ROLE_TESTER) then [ROLE_TESTER] else [])
  }

  method NormalizeRoles(roles: seq<string>) returns (normalized: seq<string>)
    ensures normalized == RolesFor(roles)
  {
    hide ToLower, TrimSpace;
    var seen := {ROLE_USER};
    var i := 0;
    while i < |roles|
      invariant 0 <= i <= |roles|
      invariant ROLE_USER in seen
      invariant ROLE_ADMIN in seen <==> Named(roles[..i], ROLE_ADMIN)
      invariant ROLE_TESTER in seen <==> Named(roles[..i], ROLE_TESTER)
    {
      var role := ToLower(TrimSpace(roles[i]));
      NamedGrows(roles, i, ROLE_ADMIN);
      NamedGrows(roles, i, ROLE_TESTER);
      if role == ROLE_USER || role == ROLE_ADMIN || role == ROLE_TESTER {
        seen := seen + {role};
      }
      i := i + 1;
    }
    assert roles[..i] == roles;
    normalized := [];
    if ROLE_USER in seen {
      normalized := normalized + [ROLE_USER];
    }
    if ROLE_ADMIN in seen {
      normalized := normalized + [ROLE_ADMIN];
    }
    if ROLE_TESTER in seen {
      normalized := normalized + [ROLE_TESTER];
    }
  }

  lemma NamedGrows(roles: seq<string>, i: nat, role: string)
    requires i < |roles|
    ensures Named(roles[..i + 1], role) <==> Named(roles[..i], role) || ToLower(TrimSpace(roles[i])) == role
  {
    hide ToLower, TrimSpace;
    if Named(roles[..i], role) {
      var k :| 0 <= k < i && ToLower(TrimSpace(roles[..i][k])) == role;
      assert ToLower(TrimSpace(roles[..i + 1][k])) == role;
    }
    if Named(roles[..i + 1], role) {
      var k :| 0 <= k <= i && ToLower(TrimSpace(roles[..i + 1][k])) == role;
      assert k == i || ToLower(TrimSpace(roles[..i][k])) == role;
    }
    assert roles[..i + 1][i] == roles[i];
  }

  /** Clear a user's grants and give the normalised roles that exist. */
  function SetRolesOn(db: Db, id: UserId, roles: seq<string>): (r: Db) {
    db.(grants := (set g | g in db.grants && g.user != id)
                  + (set role | role in RolesFor(roles) && role in db.roleNames :: Grant(id, role)))
  }

  /** Some entry means the role. */
  lemma NamedIff(roles: seq<string>, role: string)
    requires role in {ROLE_USER, ROLE_ADMIN, ROLE_TESTER}
    ensures Named(roles, role)
       <==> exists i, a, name, b :: 0 <= i < |roles| && roles[i] == a + name + b && Blank(a) && Blank(b)
                                    && ToLower(name) == role
  {
    forall i | 0 <= i < |roles| { MeantIff(roles[i], role); }
  }

  /** Afterwards the user's roles are the existing ones among user and those
      named, whatever they were before; nothing else changes. */
  lemma SetRolesExactly(db: Db, id: UserId, roles: seq<string>)
    ensures var r := SetRolesOn(db, id, roles);
            && r.users == db.users && r.roleNames == db.roleNames && r.nextId == db.nextId
            && (forall g: Grant :: g.user != id ==> (g in r.grants <==> g in db.grants))
            && (forall role :: Grant(id, role) in r.grants <==>
                  role in db.roleNames
                  && (role == ROLE_USER || (role in {ROLE_ADMIN, ROLE_TESTER} && Named(roles, role))))
  {
    hide Named;
    forall role ensures role in RolesFor(roles) <==>
              role == ROLE_USER || (role in {ROLE_ADMIN, ROLE_TESTER} && Named(roles, role)) {
    }
  }

  // ----- one tester -----

  function TesterHandle(k: nat): (h: string) {
    "tester_" + Itoa(k)
  }

  function TesterEmail(k: nat, domain: string): (e: string) {
    "tester_" + Itoa(k) + "@" + domain
  }

  const TESTER_ROLES: seq<string> := [ROLE_USER, ROLE_TESTER]

  /** The transaction that inserts a user and grants its roles, or nothing. */
  function CreateTesterOn(db: Db, handle: string, email: string, hash: string): (r: (Db, Option<UserError>)) {
    var err := InsertError(db, handle, email);
    if err.Some? then (db, err)
    else
      var id := db.nextId;
      var inserted := db.(users := db.users[id := User(handle, email, hash, true)], nextId := id + 1);
      (SetRolesOn(inserted, id, TESTER_ROLES), None)
  }

  lemma Middle(a: string, b: string, c: string)
    ensures (a + b + c)[|a|..|a + b + c| - |c|] == b
  {
  }

  lemma TesterHandlesDiffer(a: nat, b: nat)
    requires a != b
    ensures TesterHandle(a) != TesterHandle(b)
  {
    if TesterHandle(a) == TesterHandle(b) {
      Middle("tester_", Itoa(a), "");
      Middle("tester_", Itoa(b), "");
      assert TesterHandle(a) == "tester_" + Itoa(a) + "" && TesterHandle(b) == "tester_" + Itoa(b) + "";
      ItoaInjective(a, b);
      assert false;
    }
  }

  // ----- clashes: the termination measure -----

  ghost function HandlesFrom(db: Db, next: nat): (hs: set<string>) {
    set h | h in Handles(db) && exists k: nat :: k >= next && h == TesterHandle(k)
  }

  ghost function EmailsFrom(db: Db, next: nat, domain: string): (es: set<string>) {
    set e | e in Emails(db) && exists k: nat :: k >= next && e == TesterEmail(k, domain)
  }

  /** The existing names that can still get in the way. */
  ghost function Clashes(db: Db, next: nat, domain: string): (n: nat) {
    |HandlesFrom(db, next)| + |EmailsFrom(db, next, domain)|
  }

  lemma EmailShape(k: nat, domain: string)
    ensures TesterEmail(k, domain) == "tester_" + Itoa(k) + ("@" + domain)
  {
  }

  lemma TesterEmailsDiffer(a: nat, b: nat, domain: string)
    requires a != b
    ensures TesterEmail(a, domain) != TesterEmail(b, domain)
  {
    if TesterEmail(a, domain) == TesterEmail(b, domain) {
      Middle("tester_", Itoa(a), "@" + domain);
      Middle("tester_", Itoa(b), "@" + domain);
      EmailShape(a, domain);
      EmailShape(b, domain);
      ItoaInjective(a, b);
      assert false;
    }
  }

  /** A refused name is behind us for good: one clash fewer lies ahead. */
  lemma ClashConsumed(db: Db, next: nat, domain: string)
    requires TesterHandle(next) in Handles(db) || TesterEmail(next, domain) in Emails(db)
    ensures Clashes(db, next + 1, domain) < Clashes(db, next, domain)
  {
    hide TesterHandle, TesterEmail, Handles, Emails;
    var h, h1 := HandlesFrom(db, next), HandlesFrom(db, next + 1);
    var e, e1 := EmailsFrom(db, next, domain), EmailsFrom(db, next + 1, domain);
    forall k: nat | k >= next + 1
      ensures TesterHandle(k) != TesterHandle(next) && TesterEmail(k, domain) != TesterEmail(next, domain)
    {
      TesterHandlesDiffer(k, next);
      TesterEmailsDiffer(k, next, domain);
    }
    assert h1 <= h - {TesterHandle(next)};
    assert e1 <= e - {TesterEmail(next, domain)};
    SubsetCount(h1, h - {TesterHandle(next)});
    SubsetCount(e1, e - {TesterEmail(next, domain)});
  }

  lemma TakenMeansClash(db: Db, next: nat, domain: string, hash: string)
    requires var e := CreateTesterOn(db, TesterHandle(next), TesterEmail(next, domain), hash).1;
             e == Some(HandleTaken) || e == Some(EmailTaken)
    ensures TesterHandle(next) in Handles(db) || TesterEmail(next, domain) in Emails(db)
  {
    hide TesterHandle, TesterEmail, Handles, Emails, EmailOk, HandleOk;
  }

  // ----- seeding -----

  datatype Seeded = Seeded(db: Db, created: nat, error: Option<UserError>)

  /** Try tester_next, tester_next+1, ... until `need` are created. It ends:
      each round creates one or leaves a clash behind. */
  ghost function SeedLoopOn(db: Db, need: nat, created: nat, next: nat, domain: string, hash: string): (r: Seeded)
    requires created <= need
    decreases need - created, Clashes(db, next, domain)
  {
    hide TesterHandle, TesterEmail, CreateTesterOn, Clashes;
    if created == need then Seeded(db, created, None)
    else
      var (db1, err) := CreateTesterOn(db, TesterHandle(next), TesterEmail(next, domain), hash);
      if err.None? then SeedLoopOn(db1, need, created + 1, next + 1, domain, hash)
      else if err == Some(HandleTaken) || err == Some(EmailTaken) then
        TakenMeansClash(db, next, domain, hash);
        ClashConsumed(db, next, domain);
        SeedLoopOn(db, need, created, next + 1, domain, hash)
      else Seeded(db, created, err)
  }

  ghost function SeedOn(db: Db, target: int, domain: string, hash: string): (r: Seeded) {
    if target < 0 then Seeded(db, 0, Some(NegativeCount))
    else if TrimSpace(domain) == "" then Seeded(db, 0, Some(DomainRequired))
    else if TrimSpace(hash) == "" then Seeded(db, 0, Some(HashRequired))
    else
      var current := CountByRole(db, ROLE_TESTER);
      if target <= current then Seeded(db, 0, None)
      else SeedLoopOn(db, target - current, 0, current + 1, domain, hash)
  }

  // ----- the program -----

  class UserStore {
    var users: map<UserId, User>
    var grants: set<Grant>
    var nextId: UserId
    const roleNames: set<string>

    constructor (roleNames: set<string>)
      ensures View() == Db(map[], {}, roleNames, 0)
    {
      users, grants, nextId := map[], {}, 0;
      this.roleNames := roleNames;
    }

    function View(): (db: Db)
      reads this
    {
      Db(users, grants, roleNames, nextId)
    }

    method SetRoles(id: UserId, roles: seq<string>)
      modifies this
      ensures View() == SetRolesOn(old(View()), id, roles)
    {
      hide RolesFor;
      grants := set g | g in grants && g.user != id;
      ghost var cleared := grants;
      var normalized := NormalizeRoles(roles);
      var i := 0;
      while i < |normalized|
        invariant 0 <= i <= |normalized|
        invariant users == old(users) && nextId == old(nextId)
        invariant grants == cleared + (set role | role in normalized[..i] && role in roleNames :: Grant(id, role))
      {
        ghost var before := set role | role in normalized[..i] && role in roleNames :: Grant(id, role);
        ghost var after := set role | role in normalized[..i + 1] && role in roleNames :: Grant(id, role);
        assert normalized[..i + 1] == normalized[..i] + [normalized[i]];
        if normalized[i] in roleNames {
          grants := grants + {Grant(id, normalized[i])};
          assert after == before + {Grant(id, normalized[i])};
        } else {
          assert after == before;
        }
        i := i + 1;
      }
      assert normalized[..i] == normalized;
    }

    method CreateTesterRow(handle: string, email: string, sentinelHash: string) returns (err: Option<UserError>)
      modifies this
      ensures (View(), err) == CreateTesterOn(old(View()), handle, email, sentinelHash)
    {
      hide SetRolesOn;
      err := InsertError(View(), handle, email);
      if err.Some? {
        return;
      }
      var id := nextId;
      users := users[id := User(handle, email, sentinelHash, true)];
      nextId := id + 1;
      SetRoles(id, [ROLE_USER, ROLE_TESTER]);
    }

    method SeedTesters(target: int, emailDomain: string, sentinelHash: string)
      returns (created: nat, err: Option<UserError>)
      modifies this
      ensures Seeded(View(), created, err) == SeedOn(old(View()), target, emailDomain, sentinelHash)
    {
      hide CreateTesterOn, TesterHandle, TesterEmail, Clashes, CountByRole;
      if target < 0 {
        return 0, Some(NegativeCount);
      }
      if TrimSpace(emailDomain) == "" {
        return 0, Some(DomainRequired);
      }
      if TrimSpace(sentinelHash) == "" {
        return 0, Some(HashRequired);
      }
      var current := CountByRole(View(), ROLE_TESTER);
      if target <= current {
        return 0, None;
      }
      var need := target - current;
      var next := current + 1;
      created := 0;
      ghost var result := SeedLoopOn(View(), need, 0, next, emailDomain, sentinelHash);
      while created < need
        invariant created <= need
        invariant SeedLoopOn(View(), need, created, next, emailDomain, sentinelHash) == result
        decreases need - created, Clashes(View(), next, emailDomain)
      {
        ghost var before := View();
        FailedInsertChangesNothing(before, TesterHandle(next), TesterEmail(next, emailDomain), sentinelHash);
        var failed := CreateTesterRow(TesterHandle(next), TesterEmail(next, emailDomain), sentinelHash);
        if failed.None? {
          created := created + 1;
          next := next + 1;
          continue;
        }
        assert View() == before;
        if failed == Some(HandleTaken) || failed == Some(EmailTaken) {
          TakenMeansClash(before, next, emailDomain, sentinelHash);
          ClashConsumed(before, next, emailDomain);
          next := next + 1;
          continue;
        }
        return created, failed;
      }
      err := None;
    }
  }

  lemma FailedInsertChangesNothing(db: Db, handle: string, email: string, hash: string)
    ensures CreateTesterOn(db, handle, email, hash).1.Some? ==> CreateTesterOn(db, handle, email, hash).0 == db
  {
  }

  // ----- what seeding leaves behind -----

  /** `b` is `a` plus some testers: nothing else moved. */
  ghost predicate OnlyTestersAdded(a: Db, b: Db, domain: string, hash: string, fromK: nat) {
    && a.roleNames == b.roleNames && a.nextId <= b.nextId
    && (forall id :: id in a.users ==> id in b.users && b.users[id] == a.users[id])
    && (forall id :: id in b.users && id !in a.users ==>
          && a.nextId <= id < b.nextId
          && exists k: nat :: k >= fromK && b.users[id] == User(TesterHandle(k), TesterEmail(k, domain), hash, true))
    && (forall g :: g in a.grants ==> g in b.grants)
    && (forall g :: g in b.grants && g !in a.grants ==>
          g.user in b.users && g.user !in a.users && g.role in {ROLE_USER, ROLE_TESTER})
    && (forall id, role :: id in b.users && id !in a.users && role in {ROLE_USER, ROLE_TESTER} && role in a.roleNames ==>
          Grant(id, role) in b.grants)
  }

  lemma TesterRolesAre()
    ensures RolesFor(TESTER_ROLES) == [ROLE_USER, ROLE_TESTER]
  {
    assert TrimSpace("user") == "user" && ToLower("user") == "user";
    assert TrimSpace("tester") == "tester" && ToLower("tester") == "tester";
    assert ToLower(TrimSpace(TESTER_ROLES[0])) == ROLE_USER;
    assert ToLower(TrimSpace(TESTER_ROLES[1])) == ROLE_TESTER;
    assert Named(TESTER_ROLES, ROLE_TESTER);
    assert !Named(TESTER_ROLES, ROLE_ADMIN);
  }

  /** What one successful insert adds. */
  lemma TesterAdded(db: Db, k: nat, domain: string, hash: string)
    requires Consistent(db)
    ensures var (db1, err) := CreateTesterOn(db, TesterHandle(k), TesterEmail(k, domain), hash);
            err.None? ==>
              && Consistent(db1) && OnlyTestersAdded(db, db1, domain, hash, k)
              && |db1.users| == |db.users| + 1
              && CountByRole(db1, ROLE_TESTER)
                 == CountByRole(db, ROLE_TESTER) + if ROLE_TESTER in db.roleNames then 1 else 0
  {
    hide TesterHandle, TesterEmail, InsertError, Consistent, OnlyTestersAdded, Appended, CountByRole;
    var (db1, err) := CreateTesterOn(db, TesterHandle(k), TesterEmail(k, domain), hash);
    if err.None? {
      var u := User(TesterHandle(k), TesterEmail(k, domain), hash, true);
      CreateAppends(db, TesterHandle(k), TesterEmail(k, domain), hash);
      AppendedConsistent(db, db1, u);
      AppendedIsTester(db, db1, k, domain, hash);
      AppendedCount(db, db1, u);
    }
  }

  /** `b` is `a` with one more user and its two roles, where they exist. */
  ghost predicate Appended(a: Db, b: Db, u: User) {
    && b.users == a.users[a.nextId := u] && b.nextId == a.nextId + 1 && b.roleNames == a.roleNames
    && u.handle !in Handles(a) && u.email !in Emails(a)
    && forall g :: g in b.grants <==>
         g in a.grants || (g.user == a.nextId && g.role in {ROLE_USER, ROLE_TESTER} && g.role in a.roleNames)
  }

  lemma CreateAppends(db: Db, handle: string, email: string, hash: string)
    requires Consistent(db)
    ensures var (db1, err) := CreateTesterOn(db, handle, email, hash);
            err.None? ==> Appended(db, db1, User(handle, email, hash, true))
  {
    hide EmailOk, HandleOk, RolesFor, Handles, Emails;
    var (db1, err) := CreateTesterOn(db, handle, email, hash);
    if err.None? {
      GrantsAfter(db, db.nextId, db1);
    }
  }

  lemma AppendedConsistent(a: Db, b: Db, u: User)
    requires Consistent(a) && Appended(a, b, u)
    ensures Consistent(b)
  {
    NewUserKeepsNamesUnique(a, u.handle, u.email, u.passwordHash, u.isActive);
  }

  lemma AppendedIsTester(a: Db, b: Db, k: nat, domain: string, hash: string)
    requires Consistent(a) && Appended(a, b, User(TesterHandle(k), TesterEmail(k, domain), hash, true))
    ensures OnlyTestersAdded(a, b, domain, hash, k)
  {
    hide TesterHandle, TesterEmail, Handles, Emails;
  }

  lemma AppendedCount(a: Db, b: Db, u: User)
    requires Consistent(a) && Appended(a, b, u)
    ensures |b.users| == |a.users| + 1
    ensures CountByRole(b, ROLE_TESTER) == CountByRole(a, ROLE_TESTER) + if ROLE_TESTER in a.roleNames then 1 else 0
  {
    hide Handles, Emails;
    assert b.users.Keys == a.users.Keys + {a.nextId};
    var extra: set<Grant> := if ROLE_TESTER in a.roleNames then {Grant(a.nextId, ROLE_TESTER)} else {};
    assert Holders(b, ROLE_TESTER) == Holders(a, ROLE_TESTER) + extra;
  }

  /** A user without grants gets exactly the existing ones of its two roles. */
  lemma GrantsAfter(db: Db, id: UserId, db1: Db)
    requires Consistent(db) && id == db.nextId
    requires db1.grants == SetRolesOn(db, id, TESTER_ROLES).grants
    ensures forall g :: g in db1.grants <==>
              g in db.grants || (g.user == id && g.role in {ROLE_USER, ROLE_TESTER} && g.role in db.roleNames)
  {
    hide RolesFor;
    TesterRolesAre();
    forall g ensures g in db1.grants <==>
              g in db.grants || (g.user == id && g.role in {ROLE_USER, ROLE_TESTER} && g.role in db.roleNames) {
      assert g == Grant(g.user, g.role);
    }
  }

  lemma NewUserKeepsNamesUnique(db: Db, handle: string, email: string, hash: string, active: bool)
    requires Consistent(db) && handle !in Handles(db) && email !in Emails(db)
    ensures var users := db.users[db.nextId := User(handle, email, hash, active)];
            forall a, b :: a in users && b in users && a != b ==>
              users[a].handle != users[b].handle && users[a].email != users[b].email
  {
  }

  lemma AddedReflexive(db: Db, domain: string, hash: string, k: nat)
    ensures OnlyTestersAdded(db, db, domain, hash, k)
  {
  }

  lemma AddedTransitive(a: Db, b: Db, c: Db, domain: string, hash: string, i: nat, j: nat)
    requires Consistent(a) && Consistent(b) && i <= j
    requires OnlyTestersAdded(a, b, domain, hash, i) && OnlyTestersAdded(b, c, domain, hash, j)
    ensures OnlyTestersAdded(a, c, domain, hash, i)
  {
    hide TesterHandle, TesterEmail;
    forall id | id in c.users && id !in a.users
      ensures a.nextId <= id < c.nextId
      ensures exists k: nat :: k >= i && c.users[id] == User(TesterHandle(k), TesterEmail(k, domain), hash, true)
    {
      if id in b.users {
        var k: nat :| k >= i && b.users[id] == User(TesterHandle(k), TesterEmail(k, domain), hash, true);
      }
    }
  }

  lemma AddedLater(a: Db, b: Db, domain: string, hash: string, i: nat, j: nat)
    requires i <= j && OnlyTestersAdded(a, b, domain, hash, j)
    ensures OnlyTestersAdded(a, b, domain, hash, i)
  {
    hide TesterHandle, TesterEmail;
  }

  lemma {:induction false} SeedLoopIsSound(db: Db, need: nat, created: nat, next: nat, domain: string, hash: string)
    requires Consistent(db) && created <= need
    ensures var r := SeedLoopOn(db, need, created, next, domain, hash);
            && Consistent(r.db) && OnlyTestersAdded(db, r.db, domain, hash, next)
            && created <= r.created <= need
            && |r.db.users| == |db.users| + (r.created - created)
            && CountByRole(r.db, ROLE_TESTER)
               == CountByRole(db, ROLE_TESTER) + (if ROLE_TESTER in db.roleNames then r.created - created else 0)
            && (r.error.None? <==> r.created == need)
            && (r.error.Some? ==> r.error == Some(InvalidEmail) || r.error == Some(InvalidHandle))
    decreases need - created, Clashes(db, next, domain)
  {
    hide TesterHandle, TesterEmail, CreateTesterOn, Clashes, Consistent, CountByRole, OnlyTestersAdded;
    var r := SeedLoopOn(db, need, created, next, domain, hash);
    AddedReflexive(db, domain, hash, next);
    if created < need {
      var (db1, err) := CreateTesterOn(db, TesterHandle(next), TesterEmail(next, domain), hash);
      InsertErrors(db, TesterHandle(next), TesterEmail(next, domain), hash);
      if err.None? {
        TesterAdded(db, next, domain, hash);
        SeedLoopIsSound(db1, need, created + 1, next + 1, domain, hash);
        AddedTransitive(db, db1, r.db, domain, hash, next, next + 1);
        SameRoleNames(db, db1, domain, hash, next);
      } else if err == Some(HandleTaken) || err == Some(EmailTaken) {
        TakenMeansClash(db, next, domain, hash);
        ClashConsumed(db, next, domain);
        SeedLoopIsSound(db, need, created, next + 1, domain, hash);
        AddedLater(db, r.db, domain, hash, next, next + 1);
      }
    }
  }

  lemma SameRoleNames(a: Db, b: Db, domain: string, hash: string, k: nat)
    requires OnlyTestersAdded(a, b, domain, hash, k)
    ensures a.roleNames == b.roleNames
  {
  }

  lemma InsertErrors(db: Db, handle: string, email: string, hash: string)
    ensures CreateTesterOn(db, handle, email, hash).1
            in {None, Some(HandleTaken), Some(EmailTaken), Some(InvalidEmail), Some(InvalidHandle)}
  {
  }

  predicate GoodArguments(target: int, domain: string, hash: string) {
    target >= 0 && TrimSpace(domain) != "" && TrimSpace(hash) != ""
  }

  /** Whatever the tables held, seeding only adds testers; it creates exactly
      the shortfall or stops at an invalid name. */
  lemma SeedIsSound(db: Db, target: int, domain: string, hash: string)
    requires Consistent(db) && GoodArguments(target, domain, hash)
    ensures var r := SeedOn(db, target, domain, hash);
            var current := CountByRole(db, ROLE_TESTER);
            && Consistent(r.db) && OnlyTestersAdded(db, r.db, domain, hash, current + 1)
            && (r.error.None? <==> r.created == if target > current then target - current else 0)
            && (r.error.Some? ==> r.error == Some(InvalidEmail) || r.error == Some(InvalidHandle))
            && |r.db.users| == |db.users| + r.created
  {
    hide SeedLoopOn, OnlyTestersAdded, Consistent, CountByRole, TrimSpace;
    var current := CountByRole(db, ROLE_TESTER);
    AddedReflexive(db, domain, hash, current + 1);
    if target > current {
      SeedLoopIsSound(db, target - current, 0, current + 1, domain, hash);
    }
  }

  // ----- when seeding succeeds -----

  predicate NamesFit(k: nat, domain: string) {
    EmailOk(TesterEmail(k, domain)) && HandleOk(TesterHandle(k))
  }

  lemma NamesFitIff(k: nat, domain: string)
    ensures NamesFit(k, domain)
       <==> ToLower(domain) == domain && |Itoa(k)| <= 25 && |Itoa(k)| + 8 + |domain| <= 320
  {
    ItoaDigits(k);
    var h, e := TesterHandle(k), TesterEmail(k, domain);
    assert e == h + "@" + domain;
    assert forall i :: 0 <= i < |h| ==> HandleChar(h[i]) && LowerChar(h[i]) == h[i];
    assert ToLower(e) == h + "@" + ToLower(domain);
    assert e[|h| + 1..] == domain && ToLower(e)[|h| + 1..] == ToLower(domain);
  }

  lemma EarlierNamesFit(a: nat, b: nat, domain: string)
    requires a <= b && NamesFit(b, domain)
    ensures NamesFit(a, domain)
  {
    hide NamesFit;
    NamesFitIff(a, domain);
    NamesFitIff(b, domain);
    ItoaLonger(a, b);
  }

  predicate Taken(db: Db, k: nat, domain: string) {
    TesterHandle(k) in Handles(db) || TesterEmail(k, domain) in Emails(db)
  }

  /** The number of the last tester tried: the need-th one from `next` on whose
      names are free. */
  ghost function LastTried(db: Db, need: nat, next: nat, domain: string): (k: nat)
    requires need >= 1
    decreases need, Clashes(db, next, domain)
  {
    hide TesterHandle, TesterEmail, Clashes;
    if Taken(db, next, domain) then
      ClashConsumed(db, next, domain);
      LastTried(db, need, next + 1, domain)
    else if need == 1 then next
    else LastTried(db, need - 1, next + 1, domain)
  }

  /** Only the names already in the table push it on. */
  lemma {:induction false} LastTriedBounds(db: Db, need: nat, next: nat, domain: string)
    requires need >= 1
    ensures next + need - 1 <= LastTried(db, need, next, domain) < next + need + Clashes(db, next, domain)
    decreases need, Clashes(db, next, domain)
  {
    hide TesterHandle, TesterEmail, Clashes;
    if Taken(db, next, domain) {
      ClashConsumed(db, next, domain);
      LastTriedBounds(db, need, next + 1, domain);
    } else if need > 1 {
      ClashesShrink(db, next, domain);
      LastTriedBounds(db, need - 1, next + 1, domain);
    }
  }

  lemma ClashesShrink(db: Db, next: nat, domain: string)
    ensures Clashes(db, next + 1, domain) <= Clashes(db, next, domain)
  {
    hide TesterHandle, TesterEmail, Handles, Emails;
    SubsetCount(HandlesFrom(db, next + 1), HandlesFrom(db, next));
    SubsetCount(EmailsFrom(db, next + 1, domain), EmailsFrom(db, next, domain));
  }

  lemma HandlesAtMost(db: Db)
    ensures |Handles(db)| <= |db.users|
  {
    var handle := (id: UserId) => if id in db.users then db.users[id].handle else "";
    forall h | h in Handles(db) ensures exists id :: id in db.users.Keys && handle(id) == h {
      var id :| id in db.users && db.users[id].handle == h;
      assert handle(id) == h;
    }
    ImageCount<UserId, string>(db.users.Keys, Handles(db), handle);
  }

  lemma EmailsAtMost(db: Db)
    ensures |Emails(db)| <= |db.users|
  {
    var email := (id: UserId) => if id in db.users then db.users[id].email else "";
    forall e | e in Emails(db) ensures exists id :: id in db.users.Keys && email(id) == e {
      var id :| id in db.users && db.users[id].email == e;
      assert email(id) == e;
    }
    ImageCount<UserId, string>(db.users.Keys, Emails(db), email);
  }

  lemma ClashesAtMost(db: Db, next: nat, domain: string)
    ensures Clashes(db, next, domain) <= 2 * |db.users|
  {
    hide TesterHandle, TesterEmail;
    HandlesAtMost(db);
    EmailsAtMost(db);
    SubsetCount(HandlesFrom(db, next), Handles(db));
    SubsetCount(EmailsFrom(db, next, domain), Emails(db));
  }

  /** Later names are as free after an insert as they were before it. */
  lemma InsertTakesOne(db: Db, next: nat, domain: string, hash: string, k: nat)
    requires Consistent(db) && k != next
    ensures var (db1, err) := CreateTesterOn(db, TesterHandle(next), TesterEmail(next, domain), hash);
            err.None? ==> (Taken(db1, k, domain) <==> Taken(db, k, domain))
  {
    hide TesterHandle, TesterEmail, SetRolesOn, Handles, Emails, EmailOk, HandleOk;
    var (db1, err) := CreateTesterOn(db, TesterHandle(next), TesterEmail(next, domain), hash);
    if err.None? {
      TesterHandlesDiffer(k, next);
      TesterEmailsDiffer(k, next, domain);
      NamesAfter(db, TesterHandle(next), TesterEmail(next, domain), hash);
    }
  }

  lemma NamesAfter(db: Db, handle: string, email: string, hash: string)
    requires Consistent(db)
    ensures var (db1, err) := CreateTesterOn(db, handle, email, hash);
            err.None? ==> Handles(db1) == Handles(db) + {handle} && Emails(db1) == Emails(db) + {email}
  {
    hide InsertError;
    var (db1, err) := CreateTesterOn(db, handle, email, hash);
    if err.None? {
      assert db1.users == db.users[db.nextId := User(handle, email, hash, true)];
      assert forall id :: id in db.users ==> id in db1.users && db1.users[id] == db.users[id];
      assert db.nextId in db1.users;
    }
  }

  lemma {:induction false} LastTriedSame(a: Db, b: Db, need: nat, next: nat, domain: string)
    requires need >= 1 && forall k: nat :: k >= next ==> (Taken(a, k, domain) <==> Taken(b, k, domain))
    ensures LastTried(a, need, next, domain) == LastTried(b, need, next, domain)
    decreases need, Clashes(a, next, domain)
  {
    hide Taken, Clashes;
    if Taken(a, next, domain) {
      TakenClash(a, next, domain);
      LastTriedSame(a, b, need, next + 1, domain);
    } else if need > 1 {
      LastTriedSame(a, b, need - 1, next + 1, domain);
    }
  }

  lemma TakenClash(db: Db, next: nat, domain: string)
    requires Taken(db, next, domain)
    ensures Clashes(db, next + 1, domain) < Clashes(db, next, domain)
  {
    hide Clashes, TesterHandle, TesterEmail;
    ClashConsumed(db, next, domain);
  }

  /** What an insert reports. */
  lemma InsertReports(db: Db, k: nat, domain: string, hash: string)
    ensures var err := CreateTesterOn(db, TesterHandle(k), TesterEmail(k, domain), hash).1;
            && (err.None? <==> NamesFit(k, domain) && !Taken(db, k, domain))
            && (err == Some(HandleTaken) || err == Some(EmailTaken) <==> NamesFit(k, domain) && Taken(db, k, domain))
  {
    hide TesterHandle, TesterEmail, Handles, Emails, EmailOk, HandleOk, SetRolesOn;
  }

  lemma {:induction false} SeedLoopSucceedsIff(db: Db, need: nat, created: nat, next: nat, domain: string, hash: string)
    requires Consistent(db) && created < need
    ensures SeedLoopOn(db, need, created, next, domain, hash).error.None?
       <==> NamesFit(LastTried(db, need - created, next, domain), domain)
    decreases need - created, Clashes(db, next, domain)
  {
    hide TesterHandle, TesterEmail, CreateTesterOn, Clashes, Consistent, NamesFit, Taken, OnlyTestersAdded, CountByRole;
    var (db1, err) := CreateTesterOn(db, TesterHandle(next), TesterEmail(next, domain), hash);
    var last := LastTried(db, need - created, next, domain);
    InsertReports(db, next, domain, hash);
    LastTriedBounds(db, need - created, next, domain);
    if NamesFit(last, domain) {
      EarlierNamesFit(next, last, domain);
    }
    if err.None? {
      TesterAdded(db, next, domain, hash);
      if created + 1 < need {
        forall k: nat | k >= next + 1 ensures Taken(db1, k, domain) <==> Taken(db, k, domain) {
          InsertTakesOne(db, next, domain, hash, k);
        }
        LastTriedSame(db1, db, need - created - 1, next + 1, domain);
        SeedLoopSucceedsIff(db1, need, created + 1, next + 1, domain, hash);
      }
    } else if NamesFit(next, domain) {
      TakenClash(db, next, domain);
      SeedLoopSucceedsIff(db, need, created, next + 1, domain, hash);
    }
  }

  /** The numbers a successful loop uses up: the free ones, from the first tried
      to the last. */
  ghost predicate Uses(db: Db, need: nat, next: nat, domain: string, k: nat)
    requires need >= 1
  {
    next <= k <= LastTried(db, need, next, domain) && !Taken(db, k, domain)
  }

  lemma UsesPast(db: Db, need: nat, next: nat, domain: string, k: nat)
    requires need >= 1 && Taken(db, next, domain)
    ensures Uses(db, need, next, domain, k) <==> Uses(db, need, next + 1, domain, k)
  {
    hide Taken, Clashes;
    TakenClash(db, next, domain);
  }

  lemma UsesNext(db: Db, db1: Db, need: nat, next: nat, domain: string, k: nat)
    requires need >= 1 && !Taken(db, next, domain)
    requires forall m: nat :: m >= next + 1 ==> (Taken(db1, m, domain) <==> Taken(db, m, domain))
    ensures Uses(db, need, next, domain, k) <==> k == next || (need > 1 && Uses(db1, need - 1, next + 1, domain, k))
  {
    hide Taken, Clashes;
    LastTriedBounds(db, need, next, domain);
    if need > 1 {
      LastTriedSame(db1, db, need - 1, next + 1, domain);
    }
  }

  /** On success a tester exists for a number exactly when its handle was there
      before or the number is a free one up to the last tried. */
  lemma {:induction false} SeedLoopUses(db: Db, need: nat, created: nat, next: nat, domain: string, hash: string, k: nat)
    requires Consistent(db) && created < need
    ensures var r := SeedLoopOn(db, need, created, next, domain, hash);
            r.error.None? ==>
              (TesterHandle(k) in Handles(r.db) <==>
               TesterHandle(k) in Handles(db) || Uses(db, need - created, next, domain, k))
    decreases need - created, Clashes(db, next, domain)
  {
    hide TesterHandle, TesterEmail, CreateTesterOn, Clashes, Consistent, NamesFit, Handles, Emails, CountByRole;
    hide OnlyTestersAdded, Uses, Taken;
    var (db1, err) := CreateTesterOn(db, TesterHandle(next), TesterEmail(next, domain), hash);
    InsertReports(db, next, domain, hash);
    if err.None? {
      TesterAdded(db, next, domain, hash);
      NamesAfter(db, TesterHandle(next), TesterEmail(next, domain), hash);
      if k != next {
        TesterHandlesDiffer(k, next);
      }
      forall m: nat | m >= next + 1 ensures Taken(db1, m, domain) <==> Taken(db, m, domain) {
        InsertTakesOne(db, next, domain, hash, m);
      }
      UsesNext(db, db1, need - created, next, domain, k);
      if created + 1 < need {
        SeedLoopUses(db1, need, created + 1, next + 1, domain, hash, k);
      }
    } else if NamesFit(next, domain) {
      TakenClash(db, next, domain);
      UsesPast(db, need - created, next, domain, k);
      SeedLoopUses(db, need, created, next + 1, domain, hash, k);
    }
  }

  /** So a successful call that had somebody to create takes the first free
      numbers after the current count. */
  lemma SeedTakesFirstFree(db: Db, target: int, domain: string, hash: string, k: nat)
    requires Consistent(db) && GoodArguments(target, domain, hash) && target > CountByRole(db, ROLE_TESTER)
    ensures var current := CountByRole(db, ROLE_TESTER);
            var r := SeedOn(db, target, domain, hash);
            r.error.None? ==>
              (TesterHandle(k) in Handles(r.db) <==>
               TesterHandle(k) in Handles(db) || Uses(db, target - current, current + 1, domain, k))
  {
    hide SeedLoopOn, Consistent, CountByRole, TrimSpace, TesterHandle, Handles, Uses;
    var current := CountByRole(db, ROLE_TESTER);
    SeedLoopUses(db, target - current, 0, current + 1, domain, hash, k);
  }

  /** The shortfall is zero, or the last tester that will be tried has a name
      the tables accept. */
  ghost predicate HasRoom(db: Db, target: int, domain: string) {
    var current := CountByRole(db, ROLE_TESTER);
    target <= current || NamesFit(LastTried(db, target - current, current + 1, domain), domain)
  }

  /** Seeding succeeds exactly when its arguments are good and it has room. */
  lemma SeedSucceedsIff(db: Db, target: int, domain: string, hash: string)
    requires Consistent(db)
    ensures SeedOn(db, target, domain, hash).error.None?
       <==> GoodArguments(target, domain, hash) && HasRoom(db, target, domain)
  {
    hide SeedLoopOn, LastTried, NamesFit, Consistent, CountByRole, TrimSpace;
    var current := CountByRole(db, ROLE_TESTER);
    if target > current {
      SeedLoopSucceedsIff(db, target - current, 0, current + 1, domain, hash);
    }
  }

  /** Room enough: a lower-case domain, and numerals that stay short even if
      every user's handle and email are in the way. */
  lemma ShortNumeralsFit(db: Db, target: nat, domain: string)
    requires ToLower(domain) == domain
    requires var digits := |Itoa(target + 2 * |db.users|)|;
             digits <= 25 && digits + 8 + |domain| <= 320
    ensures HasRoom(db, target, domain)
  {
    hide LastTried, NamesFit, CountByRole, ToLower;
    var current := CountByRole(db, ROLE_TESTER);
    if target > current {
      LastTriedBounds(db, target - current, current + 1, domain);
      ClashesAtMost(db, current + 1, domain);
      NamesFitIff(target + 2 * |db.users|, domain);
      EarlierNamesFit(LastTried(db, target - current, current + 1, domain), target + 2 * |db.users|, domain);
    }
  }

  const COMMAND_DOMAIN := "drynn.test"
  const COMMAND_HASH := "!tester_account_password_not_set!"

  /** The seed-testers command succeeds on every table, up to 25 digits. */
  lemma CommandSucceeds(db: Db, target: nat)
    requires Consistent(db) && |Itoa(target + 2 * |db.users|)| <= 25
    ensures SeedOn(db, target, COMMAND_DOMAIN, COMMAND_HASH).error.None?
  {
    hide SeedOn, HasRoom, Consistent;
    NotBlank(COMMAND_DOMAIN);
    NotBlank(COMMAND_HASH);
    ShortNumeralsFit(db, target, COMMAND_DOMAIN);
    SeedSucceedsIff(db, target, COMMAND_DOMAIN, COMMAND_HASH);
  }

  /** Afterwards max(target, current) users hold the tester role, exactly when
      none was missing or the role exists and there was room. */
  lemma SeedReachesTargetIff(db: Db, target: int, domain: string, hash: string)
    requires Consistent(db) && GoodArguments(target, domain, hash)
    ensures var current := CountByRole(db, ROLE_TESTER);
            CountByRole(SeedOn(db, target, domain, hash).db, ROLE_TESTER)
              == (if target > current then target else current)
            <==> target <= current || (ROLE_TESTER in db.roleNames && HasRoom(db, target, domain))
  {
    hide SeedLoopOn, OnlyTestersAdded, Consistent, CountByRole, TrimSpace, HasRoom;
    var current := CountByRole(db, ROLE_TESTER);
    SeedSucceedsIff(db, target, domain, hash);
    if target > current {
      SeedLoopIsSound(db, target - current, 0, current + 1, domain, hash);
    }
  }

  /** A repeated call creates nobody and succeeds, exactly when the first one
      reached its target. */
  lemma RepeatCreatesNoneIff(db: Db, target: int, domain: string, hash: string)
    requires Consistent(db) && GoodArguments(target, domain, hash)
    ensures var first := SeedOn(db, target, domain, hash);
            SeedOn(first.db, target, domain, hash) == Seeded(first.db, 0, None)
            <==> target <= CountByRole(db, ROLE_TESTER)
                 || (ROLE_TESTER in db.roleNames && HasRoom(db, target, domain))
  {
    hide SeedLoopOn, OnlyTestersAdded, Consistent, CountByRole, TrimSpace, HasRoom;
    var current := CountByRole(db, ROLE_TESTER);
    var first := SeedOn(db, target, domain, hash);
    SeedReachesTargetIff(db, target, domain, hash);
    SeedIsSound(db, target, domain, hash);
    if target > current {
      SeedLoopIsSound(db, target - current, 0, current + 1, domain, hash);
      var again := CountByRole(first.db, ROLE_TESTER);
      if target > again {
        SeedLoopIsSound(first.db, target - again, 0, again + 1, domain, hash);
      }
    }
  }

  /** Without the tester role, seeding reports success and every tester it made,
      and nobody holds the role. */
  lemma SeedWithoutRole(db: Db, target: nat, domain: string, hash: string)
    requires Consistent(db) && GoodArguments(target, domain, hash) && ROLE_TESTER !in db.roleNames
    requires HasRoom(db, target, domain)
    ensures var r := SeedOn(db, target, domain, hash);
            r.error.None? && r.created == target && CountByRole(r.db, ROLE_TESTER) == 0
  {
    hide SeedOn, OnlyTestersAdded, Consistent, CountByRole, TrimSpace, HasRoom;
    NoRoleNoHolders(db);
    SeedSucceedsIff(db, target, domain, hash);
    SeedIsSound(db, target, domain, hash);
    var r := SeedOn(db, target, domain, hash);
    SameRoleNames(db, r.db, domain, hash, 1);
    NoRoleNoHolders(r.db);
  }

  /** There are such tables: those of the schema before the role was added. */
  lemma SeedWithoutRoleHappens()
    ensures exists db ::
              var r := SeedOn(db, 1, COMMAND_DOMAIN, COMMAND_HASH);
              Consistent(db) && r.error.None? && r.created == 1 && CountByRole(r.db, ROLE_TESTER) == 0
  {
    hide SeedOn, HasRoom, CountByRole;
    var db := Db(map[], {}, {ROLE_USER, ROLE_ADMIN}, 0);
    assert Consistent(db);
    NotBlank(COMMAND_DOMAIN);
    NotBlank(COMMAND_HASH);
    ShortNumeralsFit(db, 1, COMMAND_DOMAIN);
    SeedWithoutRole(db, 1, COMMAND_DOMAIN, COMMAND_HASH);
  }

  /** A domain that is not lower case fails at the first tester and leaves the
      tables alone. */
  lemma MixedCaseDomainFails(db: Db, target: int, domain: string, hash: string)
    requires GoodArguments(target, domain, hash) && ToLower(domain) != domain
    requires target > CountByRole(db, ROLE_TESTER)
    ensures SeedOn(db, target, domain, hash) == Seeded(db, 0, Some(InvalidEmail))
  {
    hide CountByRole, TrimSpace;
    var next := CountByRole(db, ROLE_TESTER) + 1;
    var e := TesterEmail(next, domain);
    var i :| 0 <= i < |domain| && ToLower(domain)[i] != domain[i];
    var at := |e| - |domain| + i;
    assert e[at] == domain[i] && ToLower(e)[at] != e[at];
  }

  lemma NoRoleNoHolders(db: Db)
    requires Consistent(db) && ROLE_TESTER !in db.roleNames
    ensures CountByRole(db, ROLE_TESTER) == 0
  {
    assert Holders(db, ROLE_TESTER) == {};
  }
}
