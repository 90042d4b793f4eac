/**
 Signing keys: one row per key, each database transaction one atomic step.
 Times are whole ticks; identifiers and secrets come from outside.
 */
module SigningKeys {
  import opened Options
  import opened Text

  datatype TokenType = Access | Refresh

  datatype KeyState = Active | Retired | Revoked

  datatype Row = Row(tokenType: TokenType, secret: seq<int>, state: KeyState, verifyUntil: Option<int>)

  type KeyId = nat

  type Table = map<KeyId, Row>

  datatype KeyError =
    | InvalidTokenType
    | NoActiveSigningKey
    | SigningKeyNotFound
    | SigningKeyUnavailable
    | CannotDeleteActiveKey
    | NegativeVerificationGrace
    | DuplicateId

  function NormalizeTokenType(s: string): (r: Option<TokenType>) {
    var t := ToLower(TrimSpace(s));
    if t == "access" then Some(Access) else if t == "refresh" then Some(Refresh) else None
  }

  /** A token type is meant by its name with space round it, in any case. */
  lemma NormalizeIff(s: string, tt: TokenType)
    ensures NormalizeTokenType(s) == Some(tt)
       <==> exists a, name, b :: s == a + name + b && Blank(a) && Blank(b) && ToLower(name) == Name(tt)
  {
    MeantIff(s, Name(tt));
  }

  predicate IsActive(row: Row, tt: TokenType) {
    row.tokenType == tt && row.state == Active
  }

  /** The unique index on active rows. */
  ghost predicate OneActive(t: Table) {
    forall a, b :: a in t && b in t && IsActive(t[a], t[b].tokenType) && t[b].state == Active ==> a == b
  }

  predicate HasActive(t: Table, tt: TokenType) {
    exists id :: id in t && IsActive(t[id], tt)
  }

  // ----- the steps as functions of the table -----

  function RetireRow(row: Row, until: int): (r: Row) {
    row.(state := Retired, verifyUntil := Some(until))
  }

  /** The active row of a type, retired until a time. */
  function RetireActive(t: Table, tt: TokenType, until: int): (r: Table) {
    map id | id in t :: if IsActive(t[id], tt) then RetireRow(t[id], until) else t[id]
  }

  /** A new active key; the old one keeps verifying for the grace period. */
  function CreateOn(t: Table, tokenType: string, grace: int, now: int, id: KeyId, secret: seq<int>)
    : (r: (Table, Option<KeyError>))
  {
    var tt := NormalizeTokenType(tokenType);
    if tt.None? then (t, Some(InvalidTokenType))
    else if grace < 0 then (t, Some(NegativeVerificationGrace))
    else if id in t then (t, Some(DuplicateId))
    else (RetireActive(t, tt.value, now + grace)[id := Row(tt.value, secret, Active, None)], None)
  }

  function ExpireOn(t: Table, id: KeyId, verifyFor: int, now: int): (r: (Table, Option<KeyError>)) {
    if verifyFor < 0 then (t, Some(NegativeVerificationGrace))
    else if id !in t then (t, Some(SigningKeyNotFound))
    else (t[id := RetireRow(t[id], now + verifyFor)], None)
  }

  function DeleteOn(t: Table, id: KeyId): (r: (Table, Option<KeyError>)) {
    if id !in t then (t, Some(SigningKeyNotFound))
    else if t[id].state == Active then (t, Some(CannotDeleteActiveKey))
    else (t - {id}, None)
  }

  /** Whether a key verifies a token of a type at a time. */
  function VerifyOn(t: Table, id: KeyId, tokenType: string, now: int): (e: Option<KeyError>) {
    var tt := NormalizeTokenType(tokenType);
    if tt.None? then Some(InvalidTokenType)
    else if id !in t then Some(SigningKeyNotFound)
    else if t[id].tokenType != tt.value then Some(SigningKeyUnavailable)
    else if t[id].state == Active then None
    else if t[id].state == Retired && t[id].verifyUntil.Some? && now < t[id].verifyUntil.value then None
    else Some(SigningKeyUnavailable)
  }

  // ----- the program -----

  class KeyStore {
    var rows: Table

    constructor ()
      ensures rows == map[]
    {
      rows := map[];
    }

    method ActiveSigningKey(tokenType: string) returns (key: Option<KeyId>, err: Option<KeyError>)
      ensures NormalizeTokenType(tokenType).None? ==> key.None? && err == Some(InvalidTokenType)
      ensures NormalizeTokenType(tokenType).Some? ==>
                var tt := NormalizeTokenType(tokenType).value;
                && (key.Some? <==> HasActive(rows, tt))
                && (key.Some? ==> err.None? && key.value in rows && IsActive(rows[key.value], tt))
                && (key.None? ==> err == Some(NoActiveSigningKey))
    {
      var tt := NormalizeTokenType(tokenType);
      if tt.None? {
        return None, Some(InvalidTokenType);
      }
      if exists id :: id in rows && IsActive(rows[id], tt.value) {
        var id :| id in rows && IsActive(rows[id], tt.value);
        return Some(id), None;
      }
      return None, Some(NoActiveSigningKey);
    }

    method VerificationKey(id: KeyId, tokenType: string, now: int) returns (key: Option<Row>, err: Option<KeyError>)
      ensures err == VerifyOn(rows, id, tokenType, now)
      ensures err.None? ==> id in rows && key == Some(rows[id])
    {
      var tt := NormalizeTokenType(tokenType);
      if tt.None? {
        return None, Some(InvalidTokenType);
      }
      if id !in rows {
        return None, Some(SigningKeyNotFound);
      }
      var row := rows[id];
      if row.tokenType != tt.value {
        return None, Some(SigningKeyUnavailable);
      }
      match row.state {
        case Active => return Some(row), None;
        case Retired =>
          if row.verifyUntil.Some? && now < row.verifyUntil.value {
            return Some(row), None;
          }
        case Revoked =>
      }
      return None, Some(SigningKeyUnavailable);
    }

    /** Retires the active key of the type, if any, and inserts the new one. */
    method CreateSigningKey(tokenType: string, verifyOldFor: int, now: int, id: KeyId, secret: seq<int>)
      returns (retired: Option<KeyId>, err: Option<KeyError>)
      requires OneActive(rows)
      modifies this
      ensures (rows, err) == CreateOn(old(rows), tokenType, verifyOldFor, now, id, secret)
      ensures err.None? && retired.Some? ==>
                && retired.value in old(rows) && IsActive(old(rows)[retired.value], rows[id].tokenType)
                && rows[retired.value] == RetireRow(old(rows)[retired.value], now + verifyOldFor)
    {
      retired := None;
      var tt := NormalizeTokenType(tokenType);
      if tt.None? {
        return None, Some(InvalidTokenType);
      }
      if verifyOldFor < 0 {
        return None, Some(NegativeVerificationGrace);
      }
      if id in rows {
        return None, Some(DuplicateId);
      }
      ghost var target := RetireActive(rows, tt.value, now + verifyOldFor);
      if exists a :: a in rows && IsActive(rows[a], tt.value) {
        var a :| a in rows && IsActive(rows[a], tt.value);
        rows := rows[a := RetireRow(rows[a], now + verifyOldFor)];
        retired := Some(a);
      }
      assert rows == target;
      rows := rows[id := Row(tt.value, secret, Active, None)];
      err := None;
    }

    method ExpireSigningKey(id: KeyId, verifyFor: int, now: int) returns (err: Option<KeyError>)
      modifies this
      ensures (rows, err) == ExpireOn(old(rows), id, verifyFor, now)
    {
      if verifyFor < 0 {
        return Some(NegativeVerificationGrace);
      }
      if id !in rows {
        return Some(SigningKeyNotFound);
      }
      rows := rows[id := RetireRow(rows[id], now + verifyFor)];
      err := None;
    }

    method DeleteSigningKey(id: KeyId) returns (err: Option<KeyError>)
      modifies this
      ensures (rows, err) == DeleteOn(old(rows), id)
    {
      if id !in rows {
        return Some(SigningKeyNotFound);
      }
      if rows[id].state == Active {
        return Some(CannotDeleteActiveKey);
      }
      rows := rows - {id};
      err := None;
    }

    /** What other processes commit meanwhile. */
    method Others(ops: seq<Op>)
      requires OneActive(rows)
      modifies this
      ensures OneActive(rows) && rows == ApplyAll(old(rows), ops)
    {
      hide CreateOn, ExpireOn, DeleteOn, OneActive;
      var i := 0;
      while i < |ops|
        invariant 0 <= i <= |ops| && OneActive(rows)
        invariant ApplyAll(rows, ops[i..]) == ApplyAll(old(rows), ops)
      {
        ApplyKeepsOne(rows, ops[i]);
        assert ops[i..][1..] == ops[i + 1..];
        match ops[i] {
          case Create(tokenType, grace, at, id, secret) =>
            var retired, failed := CreateSigningKey(tokenType, grace, at, id, secret);
          case Expire(id, verifyFor, at) =>
            var failed := ExpireSigningKey(id, verifyFor, at);
          case Delete(id, at) =>
            var failed := DeleteSigningKey(id);
        }
        i := i + 1;
      }
    }

    /** Each of its transactions comes after a gap in which others commit. */
    method EnsureReady(gaps: seq<Gap>) returns (err: Option<KeyError>, ghost used: nat)
      requires |gaps| == 4 && OneActive(rows)
      modifies this
      ensures used <= 4 && OneActive(rows)
      ensures Among(old(rows), Look(Access), gaps[..used]) == (rows, if err.None? then Ready else Failed(err.value))
    {
      hide NormalizeTokenType, CreateOn, OneActive, HasActive, ApplyAll;
      KnownTypes();
      var types := ["access", "refresh"];
      var i: nat, k: nat := 0, 0;
      while i < 2
        invariant 0 <= i <= 2 && k <= 2 * i && OneActive(rows)
        invariant Among(old(rows), Look(Access), gaps[..k])
               == (rows, if i == 0 then Look(Access) else if i == 1 then Look(Refresh) else Ready)
      {
        ghost var tt := if i == 0 then Access else Refresh;
        AmongTurn(old(rows), gaps, k);
        Others(gaps[k].before);
        var key, missing := ActiveSigningKey(types[i]);
        k := k + 1;
        if missing.Some? {
          if missing != Some(NoActiveSigningKey) {
            return missing, k;
          }
          AmongTurn(old(rows), gaps, k);
          Others(gaps[k].before);
          CreateKeepsOne(rows, types[i], 0, gaps[k].at, gaps[k].id, gaps[k].secret);
          var retired, failed := CreateSigningKey(types[i], 0, gaps[k].at, gaps[k].id, gaps[k].secret);
          k := k + 1;
          if failed.Some? {
            return failed, k;
          }
        }
        i := i + 1;
      }
      err, used := None, k;
    }
  }

  lemma KnownTypes()
    ensures NormalizeTokenType("access") == Some(Access)
    ensures NormalizeTokenType("refresh") == Some(Refresh)
    ensures forall tt :: NormalizeTokenType(Name(tt)) == Some(tt)
  {
  }

  // ----- runs -----

  /** Transactions that change the table. */
  datatype Op =
    | Create(tokenType: string, grace: int, at: int, id: KeyId, secret: seq<int>)
    | Expire(id: KeyId, verifyFor: int, at: int)
    | Delete(id: KeyId, at: int)

  function Apply(t: Table, op: Op): (r: Table) {
    match op
    case Create(tokenType, grace, at, id, secret) => CreateOn(t, tokenType, grace, at, id, secret).0
    case Expire(id, verifyFor, at) => ExpireOn(t, id, verifyFor, at).0
    case Delete(id, at) => DeleteOn(t, id).0
  }

  function ApplyAll(t: Table, ops: seq<Op>): (r: Table)
    decreases |ops|
  {
    if ops == [] then t else ApplyAll(Apply(t, ops[0]), ops[1..])
  }

  /** Where a process stands in EnsureReady: it looks for an active key of a
      type and, in a later transaction, seeds the type if it saw none. */
  datatype Phase = Look(tt: TokenType) | Seed(tt: TokenType) | Ready | Failed(error: KeyError)

  function Name(tt: TokenType): (s: string) {
    match tt
    case Access => "access"
    case Refresh => "refresh"
  }

  function Next(tt: TokenType): (ph: Phase) {
    match tt
    case Access => Look(Refresh)
    case Refresh => Ready
  }

  /** The next transaction of a process in EnsureReady. */
  function Advance(t: Table, ph: Phase, at: int, id: KeyId, secret: seq<int>): (r: (Table, Phase)) {
    match ph
    case Look(tt) => (t, if HasActive(t, tt) then Next(tt) else Seed(tt))
    case Seed(tt) =>
      var (t1, err) := CreateOn(t, Name(tt), 0, at, id, secret);
      (t1, if err.None? then Next(tt) else Failed(err.value))
    case Ready => (t, ph)
    case Failed(_) => (t, ph)
  }

  /** What others commit before a transaction, and the clock, identifier and
      secret it gets. */
  datatype Gap = Gap(before: seq<Op>, at: int, id: KeyId, secret: seq<int>)

  /** One process in EnsureReady among others. */
  function Among(t: Table, ph: Phase, gaps: seq<Gap>): (r: (Table, Phase)) {
    if gaps == [] then (t, ph)
    else
      var n := |gaps| - 1;
      var (t1, ph1) := Among(t, ph, gaps[..n]);
      Advance(ApplyAll(t1, gaps[n].before), ph1, gaps[n].at, gaps[n].id, gaps[n].secret)
  }

  lemma AmongTurn(t: Table, gaps: seq<Gap>, k: nat)
    requires k < |gaps|
    ensures var (t1, ph1) := Among(t, Look(Access), gaps[..k]);
            Among(t, Look(Access), gaps[..k + 1])
            == Advance(ApplyAll(t1, gaps[k].before), ph1, gaps[k].at, gaps[k].id, gaps[k].secret)
  {
    hide Advance, ApplyAll;
    assert gaps[..k + 1][..k] == gaps[..k];
  }

  type Pid = nat

  /** The table and where every process stands; a process starts by looking
      for an access key. */
  datatype Sys = Sys(table: Table, phases: map<Pid, Phase>) {
    function PhaseOf(p: Pid): (ph: Phase) {
      if p in phases then phases[p] else Look(Access)
    }
  }

  /** Some process commits a transaction: one of its own, or its next one in
      EnsureReady. */
  datatype Step = Commit(op: Op) | Turn(pid: Pid, at: int, id: KeyId, secret: seq<int>)

  function Take(s: Sys, step: Step): (r: Sys) {
    match step
    case Commit(op) => Sys(Apply(s.table, op), s.phases)
    case Turn(p, at, id, secret) =>
      var (t1, ph1) := Advance(s.table, s.PhaseOf(p), at, id, secret);
      Sys(t1, s.phases[p := ph1])
  }

  function Run(s: Sys, steps: seq<Step>): (r: Sys)
    decreases |steps|
  {
    if steps == [] then s else Run(Take(s, steps[0]), steps[1..])
  }

  /** What a step does to the table. */
  function Effect(s: Sys, step: Step): (op: Option<Op>) {
    match step
    case Commit(op) => Some(op)
    case Turn(p, at, id, secret) =>
      match s.PhaseOf(p)
      case Seed(tt) => Some(Create(Name(tt), 0, at, id, secret))
      case _ => None
  }

  lemma TakeEffect(s: Sys, step: Step)
    ensures Take(s, step).table == if Effect(s, step).None? then s.table else Apply(s.table, Effect(s, step).value)
  {
    hide CreateOn, ExpireOn, DeleteOn, HasActive;
  }

  function Commits(ops: seq<Op>): (steps: seq<Step>) {
    if ops == [] then [] else [Commit(ops[0])] + Commits(ops[1..])
  }

  /** The steps of a run in which process p takes its turns. */
  function Schedule(p: Pid, gaps: seq<Gap>): (steps: seq<Step>) {
    if gaps == [] then []
    else
      var n := |gaps| - 1;
      Schedule(p, gaps[..n]) + Commits(gaps[n].before) + [Turn(p, gaps[n].at, gaps[n].id, gaps[n].secret)]
  }

  lemma {:induction false} RunConcat(s: Sys, a: seq<Step>, b: seq<Step>)
    ensures Run(s, a + b) == Run(Run(s, a), b)
    decreases |a|
  {
    hide Take;
    if a == [] {
      assert a + b == b;
    } else {
      assert (a + b)[1..] == a[1..] + b;
      RunConcat(Take(s, a[0]), a[1..], b);
    }
  }

  lemma {:induction false} CommitsRun(s: Sys, ops: seq<Op>)
    ensures Run(s, Commits(ops)) == Sys(ApplyAll(s.table, ops), s.phases)
    decreases |ops|
  {
    hide Apply;
    if ops != [] {
      var steps := Commits(ops);
      assert steps[0] == Commit(ops[0]) && steps[1..] == Commits(ops[1..]);
      CommitsRun(Take(s, steps[0]), ops[1..]);
    }
  }

  /** EnsureReady among others is a run in which its process takes its turns. */
  lemma {:induction false} AmongIsRun(s: Sys, p: Pid, gaps: seq<Gap>)
    ensures var (t1, ph1) := Among(s.table, s.PhaseOf(p), gaps);
            var s1 := Run(s, Schedule(p, gaps));
            s1.table == t1 && s1.PhaseOf(p) == ph1
            && forall q :: q != p ==> s1.PhaseOf(q) == s.PhaseOf(q)
  {
    hide Advance, ApplyAll;
    if gaps != [] {
      var n := |gaps| - 1;
      AmongIsRun(s, p, gaps[..n]);
      var s1 := Run(s, Schedule(p, gaps[..n]));
      var turn := [Turn(p, gaps[n].at, gaps[n].id, gaps[n].secret)];
      RunConcat(s, Schedule(p, gaps[..n]) + Commits(gaps[n].before), turn);
      RunConcat(s, Schedule(p, gaps[..n]), Commits(gaps[n].before));
      CommitsRun(s1, gaps[n].before);
      assert turn[1..] == [];
    }
  }

  lemma CreateKeepsOne(t: Table, tokenType: string, grace: int, now: int, id: KeyId, secret: seq<int>)
    requires OneActive(t)
    ensures OneActive(CreateOn(t, tokenType, grace, now, id, secret).0)
  {
    hide NormalizeTokenType;
  }

  lemma ApplyKeepsOne(t: Table, op: Op)
    requires OneActive(t)
    ensures OneActive(Apply(t, op))
  {
    hide NormalizeTokenType, CreateOn;
    match op {
      case Create(tokenType, grace, at, id, secret) => CreateKeepsOne(t, tokenType, grace, at, id, secret);
      case Expire(id, verifyFor, at) =>
      case Delete(id, at) =>
    }
  }

  // ----- what a transaction writes -----

  /** A successful create stores the given secret under the new identifier,
      retires the active key of its type for the grace period, secret and all,
      and touches no other row; otherwise nothing changes. */
  lemma CreateChanges(t: Table, tokenType: string, grace: int, now: int, id: KeyId, secret: seq<int>)
    ensures var (t1, err) := CreateOn(t, tokenType, grace, now, id, secret);
            var tt := NormalizeTokenType(tokenType);
            && (err.None? <==> tt.Some? && grace >= 0 && id !in t)
            && (err.Some? ==> t1 == t)
            && (err.None? ==>
                  && t1.Keys == t.Keys + {id}
                  && t1[id].tokenType == tt.value && t1[id].secret == secret && t1[id].state == Active
                  && forall k :: k in t ==>
                       && t1[k].tokenType == t[k].tokenType && t1[k].secret == t[k].secret
                       && if t[k].tokenType == tt.value && t[k].state == Active
                          then t1[k].state == Retired && t1[k].verifyUntil == Some(now + grace)
                          else t1[k] == t[k])
  {
    hide NormalizeTokenType;
  }

  /** Expiring retires one row for the grace period, secret and all. */
  lemma ExpireChanges(t: Table, id: KeyId, verifyFor: int, now: int)
    ensures var (t1, err) := ExpireOn(t, id, verifyFor, now);
            && (err.None? <==> verifyFor >= 0 && id in t)
            && (err.Some? ==> t1 == t)
            && (err.None? ==>
                  && t1.Keys == t.Keys && (forall k :: k in t && k != id ==> t1[k] == t[k])
                  && t1[id].tokenType == t[id].tokenType && t1[id].secret == t[id].secret
                  && t1[id].state == Retired && t1[id].verifyUntil == Some(now + verifyFor))
  {
  }

  /** Deleting takes away one row that is not active. */
  lemma DeleteChanges(t: Table, id: KeyId)
    ensures var (t1, err) := DeleteOn(t, id);
            && (err.None? <==> id in t && t[id].state != Active)
            && (err.Some? ==> t1 == t)
            && (err.None? ==> t1.Keys == t.Keys - {id} && forall k :: k in t1 ==> t1[k] == t[k])
  {
  }

  lemma ApplyKeepsSecret(t: Table, op: Op, k: KeyId)
    requires k in t && k in Apply(t, op)
    ensures Apply(t, op)[k].secret == t[k].secret && Apply(t, op)[k].tokenType == t[k].tokenType
  {
    hide NormalizeTokenType;
  }

  /** Whatever any processes do, a key that is still there signs and verifies
      with the secret and for the type it was created with. */
  lemma {:induction false} SecretsNeverChange(s: Sys, steps: seq<Step>, k: KeyId)
    requires k in s.table && forall i :: 0 <= i < |steps| ==> !Creates(steps[i], k)
    ensures var t1 := Run(s, steps).table;
            k in t1 ==> t1[k].secret == s.table[k].secret && t1[k].tokenType == s.table[k].tokenType
    decreases |steps|
  {
    hide Apply, Take;
    if steps != [] {
      TakeEffect(s, steps[0]);
      var e := Effect(s, steps[0]);
      assert !Creates(steps[0], k);
      var s1 := Take(s, steps[0]);
      if k in s1.table {
        if e.Some? {
          ApplyKeepsSecret(s.table, e.value, k);
        }
        SecretsNeverChange(s1, steps[1..], k);
      } else {
        DeletedStaysAway(s1, steps[1..], k);
      }
    }
  }

  lemma {:induction false} DeletedStaysAway(s: Sys, steps: seq<Step>, k: KeyId)
    requires k !in s.table && forall i :: 0 <= i < |steps| ==> !Creates(steps[i], k)
    ensures k !in Run(s, steps).table
    decreases |steps|
  {
    hide Apply, Take;
    if steps != [] {
      TakeEffect(s, steps[0]);
      var e := Effect(s, steps[0]);
      if e.Some? {
        assert e.value.Create? ==> e.value.id != k by { assert !Creates(steps[0], k); }
        NotAdded(s.table, e.value, k);
      }
      DeletedStaysAway(Take(s, steps[0]), steps[1..], k);
    }
  }

  lemma NotAdded(t: Table, op: Op, k: KeyId)
    requires k !in t && (op.Create? ==> op.id != k)
    ensures k !in Apply(t, op)
  {
    hide NormalizeTokenType;
  }

  /** In every run there is at most one active key per token type. */
  lemma {:induction false} RunsKeepOneActive(s: Sys, steps: seq<Step>)
    requires OneActive(s.table)
    ensures OneActive(Run(s, steps).table)
    decreases |steps|
  {
    hide OneActive, Apply, Take;
    if steps != [] {
      TakeEffect(s, steps[0]);
      var e := Effect(s, steps[0]);
      if e.Some? {
        ApplyKeepsOne(s.table, e.value);
      }
      RunsKeepOneActive(Take(s, steps[0]), steps[1..]);
    }
  }

  ghost predicate Creates(step: Step, id: KeyId) {
    match step
    case Commit(op) => op.Create? && op.id == id
    case Turn(_, _, newId, _) => newId == id
  }

  /** A retired key never becomes active again; identifiers of new keys are
      random and do not repeat. */
  lemma {:induction false} RetiredStaysRetired(s: Sys, steps: seq<Step>, id: KeyId)
    requires id in s.table ==> s.table[id].state != Active
    requires forall i :: 0 <= i < |steps| ==> !Creates(steps[i], id)
    ensures var t1 := Run(s, steps).table; id in t1 ==> t1[id].state != Active
    decreases |steps|
  {
    hide Apply, Take;
    if steps != [] {
      TakeEffect(s, steps[0]);
      var e := Effect(s, steps[0]);
      if e.Some? {
        assert e.value.Create? ==> e.value.id != id by { assert !Creates(steps[0], id); }
        RetiredStep(s.table, e.value, id);
      }
      RetiredStaysRetired(Take(s, steps[0]), steps[1..], id);
    }
  }

  lemma RetiredStep(t: Table, op: Op, id: KeyId)
    requires id in t ==> t[id].state != Active
    requires op.Create? ==> op.id != id
    ensures var t1 := Apply(t, op); id in t1 ==> t1[id].state != Active
  {
    hide NormalizeTokenType;
  }

  // ----- live tokens -----

  /** A token signed with key k and good until `expiry` can still be verified
      at every time before it. */
  ghost predicate Holds(t: Table, k: KeyId, tt: TokenType, expiry: int) {
    && k in t && t[k].tokenType == tt
    && (t[k].state == Active
        || (t[k].state == Retired && t[k].verifyUntil.Some? && t[k].verifyUntil.value >= expiry))
  }

  /** Holds means what it says, both ways. */
  lemma HoldsIffVerifies(t: Table, k: KeyId, tokenType: string, tt: TokenType, from: int, expiry: int)
    requires NormalizeTokenType(tokenType) == Some(tt) && from < expiry
    ensures Holds(t, k, tt, expiry) <==> forall now :: from <= now < expiry ==> VerifyOn(t, k, tokenType, now).None?
  {
    hide NormalizeTokenType;
    if forall now :: from <= now < expiry ==> VerifyOn(t, k, tokenType, now).None? {
      assert VerifyOn(t, k, tokenType, expiry - 1).None?;
    }
  }

  /** One rotation keeps a live token exactly when its grace covers what is
      left of the token's life. */
  lemma RotationKeepsTokenIff(t: Table, k: KeyId, tokenType: string, tt: TokenType, grace: int, now: int,
                              id: KeyId, secret: seq<int>, expiry: int)
    requires NormalizeTokenType(tokenType) == Some(tt) && k in t && IsActive(t[k], tt)
    requires grace >= 0 && id !in t && now < expiry
    ensures var t1 := CreateOn(t, tokenType, grace, now, id, secret).0;
            (forall at :: now <= at < expiry ==> VerifyOn(t1, k, tokenType, at).None?) <==> now + grace >= expiry
  {
    hide NormalizeTokenType;
    HoldsIffVerifies(CreateOn(t, tokenType, grace, now, id, secret).0, k, tokenType, tt, now, expiry);
  }

  /** A transaction keeps a live token: it does not retire, expire or delete
      its key before the expiry. */
  ghost predicate Keeps(t: Table, op: Op, k: KeyId, tt: TokenType, expiry: int)
    requires k in t
  {
    match op
    case Create(tokenType, grace, at, id, secret) =>
      NormalizeTokenType(tokenType) == Some(tt) && IsActive(t[k], tt) && grace >= 0 && id !in t ==> at + grace >= expiry
    case Expire(id, verifyFor, at) => id == k && verifyFor >= 0 ==> at + verifyFor >= expiry
    case Delete(id, at) => id == k ==> t[k].state == Active
  }

  lemma ApplyHoldsIff(t: Table, op: Op, k: KeyId, tt: TokenType, expiry: int)
    requires Holds(t, k, tt, expiry)
    ensures Holds(Apply(t, op), k, tt, expiry) <==> Keeps(t, op, k, tt, expiry)
  {
    hide NormalizeTokenType;
  }

  /** The token holds now and after every step. */
  ghost predicate AlwaysHolds(s: Sys, steps: seq<Step>, k: KeyId, tt: TokenType, expiry: int)
    decreases |steps|
  {
    && Holds(s.table, k, tt, expiry)
    && (steps != [] ==> AlwaysHolds(Take(s, steps[0]), steps[1..], k, tt, expiry))
  }

  /** Every step keeps the token where it is taken. */
  ghost predicate AllKeep(s: Sys, steps: seq<Step>, k: KeyId, tt: TokenType, expiry: int)
    decreases |steps|
  {
    steps != [] ==>
      && k in s.table
      && (Effect(s, steps[0]).Some? ==> Keeps(s.table, Effect(s, steps[0]).value, k, tt, expiry))
      && AllKeep(Take(s, steps[0]), steps[1..], k, tt, expiry)
  }

  /** A token holds all along a run exactly when every step keeps it. */
  lemma {:induction false} RunHoldsIff(s: Sys, steps: seq<Step>, k: KeyId, tt: TokenType, expiry: int)
    requires Holds(s.table, k, tt, expiry)
    ensures AlwaysHolds(s, steps, k, tt, expiry) <==> AllKeep(s, steps, k, tt, expiry)
    decreases |steps|
  {
    hide Keeps, Apply, Take, Effect;
    if steps != [] {
      TakeEffect(s, steps[0]);
      var e := Effect(s, steps[0]);
      if e.Some? {
        ApplyHoldsIff(s.table, e.value, k, tt, expiry);
      }
      if Holds(Take(s, steps[0]).table, k, tt, expiry) {
        RunHoldsIff(Take(s, steps[0]), steps[1..], k, tt, expiry);
      }
    }
  }

  // ----- the seed that follows an empty look -----

  /** A live token of every type tt survives. */
  ghost predicate Spares(t: Table, t1: Table, tt: TokenType, at: int) {
    forall k, expiry :: expiry > at && Holds(t, k, tt, expiry) ==> Holds(t1, k, tt, expiry)
  }

  /** The late create with no grace spares every live token of its type exactly
      when the type still has no active key. */
  lemma LateCreateSafeIff(t: Table, tt: TokenType, at: int, id: KeyId, secret: seq<int>)
    requires id !in t
    ensures Spares(t, CreateOn(t, Name(tt), 0, at, id, secret).0, tt, at) <==> !HasActive(t, tt)
  {
    hide NormalizeTokenType;
    KnownTypes();
    var t1 := CreateOn(t, Name(tt), 0, at, id, secret).0;
    if HasActive(t, tt) {
      var k :| k in t && IsActive(t[k], tt);
      assert Holds(t, k, tt, at + 1) && !Holds(t1, k, tt, at + 1);
    }
  }

  /** Process p looks in vain; whatever any other process does before p takes
      its next turn, that turn spares every live token exactly when the type
      still has no active key, and it never stops p. */
  lemma LateSeedSafeIff(s: Sys, p: Pid, tt: TokenType, look: Step, between: seq<Step>, seed: Step)
    requires s.PhaseOf(p) == Look(tt) && !HasActive(s.table, tt)
    requires look.Turn? && seed.Turn? && look.pid == seed.pid == p
    requires forall i :: 0 <= i < |between| ==> between[i].Turn? ==> between[i].pid != p
    requires seed.id !in Run(Take(s, look), between).table
    ensures var s1 := Run(Take(s, look), between);
            var s2 := Run(s, [look] + between + [seed]);
            && (Spares(s1.table, s2.table, tt, seed.at) <==> !HasActive(s1.table, tt))
            && s2.PhaseOf(p) == Next(tt)
  {
    hide NormalizeTokenType, HasActive, Spares, Take, Run;
    KnownTypes();
    assert Take(s, look).PhaseOf(p) == Seed(tt) by { LookFindsNone(s, look, tt); }
    var s0 := Take(s, look);
    var s1 := Run(s0, between);
    OthersLeavePhase(s0, between, p);
    RunThree(s, look, between, seed);
    SeedTurn(s1, seed, tt);
    LateCreateSafeIff(s1.table, tt, seed.at, seed.id, seed.secret);
  }

  lemma LookFindsNone(s: Sys, look: Step, tt: TokenType)
    requires look.Turn? && s.PhaseOf(look.pid) == Look(tt) && !HasActive(s.table, tt)
    ensures Take(s, look) == Sys(s.table, s.phases[look.pid := Seed(tt)])
  {
    hide HasActive;
  }

  lemma SeedTurn(s: Sys, seed: Step, tt: TokenType)
    requires seed.Turn? && s.PhaseOf(seed.pid) == Seed(tt) && seed.id !in s.table
    ensures Take(s, seed)
         == Sys(CreateOn(s.table, Name(tt), 0, seed.at, seed.id, seed.secret).0, s.phases[seed.pid := Next(tt)])
  {
    hide NormalizeTokenType, HasActive;
    KnownTypes();
  }

  lemma RunThree(s: Sys, first: Step, between: seq<Step>, last: Step)
    ensures Run(s, [first] + between + [last]) == Take(Run(Take(s, first), between), last)
  {
    hide Take;
    RunConcat(s, [first] + between, [last]);
    assert ([first] + between)[1..] == between;
    var s1 := Run(s, [first] + between);
    assert [last][1..] == [];
    assert Run(Take(s1, last), []) == Take(s1, last);
  }

  lemma {:induction false} OthersLeavePhase(s: Sys, steps: seq<Step>, p: Pid)
    requires forall i :: 0 <= i < |steps| ==> steps[i].Turn? ==> steps[i].pid != p
    ensures Run(s, steps).PhaseOf(p) == s.PhaseOf(p)
    decreases |steps|
  {
    hide Apply, Advance;
    if steps != [] {
      OthersLeavePhase(Take(s, steps[0]), steps[1..], p);
    }
  }

  /** And the race is open from every table without an active key: two
      processes look, the first seeds, signs, and the second's seed strands what
      it signed, whatever the times. */
  lemma SplitEnsureReadyStrands(s: Sys, p: Pid, q: Pid, tt: TokenType, at: int, late: int,
                                id1: KeyId, id2: KeyId, secret: seq<int>, now: int)
    requires p != q && s.PhaseOf(p) == s.PhaseOf(q) == Look(tt) && !HasActive(s.table, tt)
    requires id1 !in s.table && id2 !in s.table && id1 != id2 && late <= now
    ensures var s1 := Run(s, [Turn(p, at, id1, secret), Turn(q, at, id2, secret), Turn(p, at, id1, secret)]);
            var s2 := Take(s1, Turn(q, late, id2, secret));
            && id1 in s1.table && IsActive(s1.table[id1], tt)
            && VerifyOn(s2.table, id1, Name(tt), now) == Some(SigningKeyUnavailable)
  {
    hide NormalizeTokenType, HasActive, Take, Run;
    KnownTypes();
    var look, other, first, last := Turn(p, at, id1, secret), Turn(q, at, id2, secret), Turn(p, at, id1, secret),
      Turn(q, late, id2, secret);
    LookFindsNone(s, look, tt);
    var s0 := Take(s, look);
    LookFindsNone(s0, other, tt);
    var s00 := Take(s0, other);
    SeedTurn(s00, first, tt);
    var s1 := Take(s00, first);
    assert Run(s, [look, other, first]) == s1 by {
      RunThree(s, look, [other], first);
      assert [look] + [other] + [first] == [look, other, first];
      RunOne(s0, other);
    }
    SeedTurn(s1, last, tt);
  }

  lemma RunOne(s: Sys, step: Step)
    ensures Run(s, [step]) == Take(s, step)
  {
    hide Take;
    assert [step][1..] == [];
    assert Run(Take(s, step), []) == Take(s, step);
  }

  // ----- rotation -----

  /** Some process has looked for a key of the type in vain and not seeded yet. */
  ghost predicate Pending(s: Sys, tt: TokenType) {
    exists p :: p in s.phases && s.phases[p] == Seed(tt)
  }

  /** Steps that respect a live token: rotations of its type reach past its
      expiry, its key is neither expired nor deleted by hand. Nothing is asked
      of processes in EnsureReady. */
  ghost predicate Respects(step: Step, k: KeyId, tt: TokenType, expiry: int) {
    match step
    case Commit(Create(tokenType, grace, at, _, _)) =>
      NormalizeTokenType(tokenType) == Some(tt) ==> grace < 0 || at + grace >= expiry
    case Commit(Expire(id, _, _)) => id != k
    case Commit(Delete(id, _)) => id != k
    case Turn(_, _, _, _) => true
  }

  /** The token holds, and no seed is pending while its key is the active one. */
  ghost predicate Safe(s: Sys, k: KeyId, tt: TokenType, expiry: int) {
    Holds(s.table, k, tt, expiry) && (IsActive(s.table[k], tt) ==> !Pending(s, tt))
  }

  lemma TakeStaysSafe(s: Sys, step: Step, k: KeyId, tt: TokenType, expiry: int)
    requires Safe(s, k, tt, expiry) && Respects(step, k, tt, expiry)
    ensures Safe(Take(s, step), k, tt, expiry) && Take(s, step).table[k].secret == s.table[k].secret
  {
    hide NormalizeTokenType, Apply, Advance;
    TakeEffect(s, step);
    TakePhases(s, step, tt);
    var e := Effect(s, step);
    if e.Some? {
      KnownTypes();
      ApplyHoldsIff(s.table, e.value, k, tt, expiry);
      ApplyKeepsSecret(s.table, e.value, k);
      if !IsActive(s.table[k], tt) {
        KeptInactive(s.table, e.value, k, tt);
      }
    }
  }

  lemma KeptInactive(t: Table, op: Op, k: KeyId, tt: TokenType)
    requires k in t && !IsActive(t[k], tt)
    ensures k in Apply(t, op) ==> !IsActive(Apply(t, op)[k], tt)
  {
    hide NormalizeTokenType;
  }

  /** A seed becomes pending only when a look finds no active key. */
  lemma TakePhases(s: Sys, step: Step, tt: TokenType)
    ensures Pending(Take(s, step), tt) ==> Pending(s, tt) || (!HasActive(s.table, tt) && Effect(s, step).None?)
  {
    hide Apply, CreateOn, HasActive;
    var s1 := Take(s, step);
    if Pending(s1, tt) {
      var p :| p in s1.phases && s1.phases[p] == Seed(tt);
      if step.Commit? || p != step.pid {
        assert p in s.phases && s.phases[p] == Seed(tt);
      }
    }
  }

  lemma {:induction false} RunStaysSafe(s: Sys, steps: seq<Step>, k: KeyId, tt: TokenType, expiry: int)
    requires Safe(s, k, tt, expiry) && forall i :: 0 <= i < |steps| ==> Respects(steps[i], k, tt, expiry)
    ensures Safe(Run(s, steps), k, tt, expiry) && Run(s, steps).table[k].secret == s.table[k].secret
    decreases |steps|
  {
    hide Respects, Take, Pending;
    if steps != [] {
      TakeStaysSafe(s, steps[0], k, tt, expiry);
      RunStaysSafe(Take(s, steps[0]), steps[1..], k, tt, expiry);
    }
  }

  /** A token signed with this key and secret verifies. */
  ghost predicate Accepts(t: Table, k: KeyId, tokenType: string, secret: seq<int>, now: int) {
    VerifyOn(t, k, tokenType, now).None? && t[k].secret == secret
  }

  /** Rotation never strands a live token: sign with the active key while no
      seed of its type is pending, then run any steps of any processes whose
      rotations give at least the token's lifetime of grace, without expiring
      or deleting that key; it verifies until it expires. */
  lemma RotationNeverStrands(s: Sys, steps: seq<Step>, k: KeyId, tokenType: string, tt: TokenType,
                             signedAt: int, ttl: nat, now: int)
    requires NormalizeTokenType(tokenType) == Some(tt) && k in s.table && IsActive(s.table[k], tt)
    requires !Pending(s, tt)
    requires forall i :: 0 <= i < |steps| && steps[i].Commit? ==>
               var op := steps[i].op;
               && (op.Create? && NormalizeTokenType(op.tokenType) == Some(tt) ==> op.at >= signedAt && op.grace >= ttl)
               && (op.Expire? || op.Delete? ==> op.id != k)
    requires now < signedAt + ttl
    ensures Accepts(Run(s, steps).table, k, tokenType, s.table[k].secret, now)
  {
    hide NormalizeTokenType, Run, Pending;
    var expiry := signedAt + ttl;
    RunStaysSafe(s, steps, k, tt, expiry);
    HoldsIffVerifies(Run(s, steps).table, k, tokenType, tt, now, expiry);
  }

  ghost predicate RunsVerify(s: Sys, k: KeyId, tokenType: string, tt: TokenType, signedAt: int, expiry: int)
    requires k in s.table
  {
    forall steps :: (forall i :: 0 <= i < |steps| ==> Respects(steps[i], k, tt, expiry)) ==>
      forall now :: signedAt <= now < expiry ==> Accepts(Run(s, steps).table, k, tokenType, s.table[k].secret, now)
  }

  /** A token signed with the active key survives every run that respects it,
      exactly when no seed of its type was pending at the signing. */
  lemma RotationSafeIff(s: Sys, k: KeyId, tokenType: string, tt: TokenType, signedAt: int, expiry: int)
    requires NormalizeTokenType(tokenType) == Some(tt) && k in s.table && IsActive(s.table[k], tt)
    requires signedAt < expiry
    ensures RunsVerify(s, k, tokenType, tt, signedAt, expiry) <==> !Pending(s, tt)
  {
    hide NormalizeTokenType, Run, Take, Respects;
    if !Pending(s, tt) {
      forall steps | forall i :: 0 <= i < |steps| ==> Respects(steps[i], k, tt, expiry)
        ensures forall now :: signedAt <= now < expiry ==>
                  Accepts(Run(s, steps).table, k, tokenType, s.table[k].secret, now)
      {
        RunStaysSafe(s, steps, k, tt, expiry);
        HoldsIffVerifies(Run(s, steps).table, k, tokenType, tt, signedAt, expiry);
      }
    } else {
      var p :| p in s.phases && s.phases[p] == Seed(tt);
      var id := FreshId(s.table);
      var seed := Turn(p, signedAt, id, []);
      PendingStrands(s, seed, k, tokenType, tt);
      RunOne(s, seed);
      assert forall i :: 0 <= i < |[seed]| ==> Respects([seed][i], k, tt, expiry) by {
        RespectsTurn(seed, k, tt, expiry);
      }
      assert !Accepts(Run(s, [seed]).table, k, tokenType, s.table[k].secret, signedAt);
    }
  }

  lemma RespectsTurn(step: Step, k: KeyId, tt: TokenType, expiry: int)
    requires step.Turn?
    ensures Respects(step, k, tt, expiry)
  {
  }

  lemma PendingStrands(s: Sys, seed: Step, k: KeyId, tokenType: string, tt: TokenType)
    requires NormalizeTokenType(tokenType) == Some(tt) && k in s.table && IsActive(s.table[k], tt)
    requires seed.Turn? && s.PhaseOf(seed.pid) == Seed(tt) && seed.id !in s.table
    ensures VerifyOn(Take(s, seed).table, k, tokenType, seed.at).Some?
  {
    hide NormalizeTokenType, Take;
    KnownTypes();
    SeedTurn(s, seed, tt);
  }

  /** Identifiers never run out. */
  lemma {:induction false} FreshId(t: Table) returns (id: KeyId)
    ensures forall a :: a in t ==> a < id
    decreases |t|
  {
    if t == map[] {
      id := 0;
    } else {
      var a :| a in t;
      var rest := t - {a};
      assert |rest.Keys| < |t.Keys| by { assert rest.Keys == t.Keys - {a}; }
      var b := FreshId(rest);
      id := if a < b then b else a + 1;
      forall c | c in t ensures c < id {
        assert c == a || c in rest;
      }
    }
  }

  // ----- availability -----

  lemma ApplyStaysReady(t: Table, op: Op, tt: TokenType)
    requires HasActive(t, tt) && !op.Expire?
    ensures HasActive(Apply(t, op), tt)
  {
    hide NormalizeTokenType;
    var a :| a in t && IsActive(t[a], tt);
    var t1 := Apply(t, op);
    match op {
      case Create(tokenType, grace, at, id, secret) =>
        assert a in t1 && (IsActive(t1[a], tt) || (id in t1 && IsActive(t1[id], tt)));
      case Delete(id, at) =>
        assert a in t1;
    }
  }

  predicate Expiry(step: Step) {
    step.Commit? && step.op.Expire?
  }

  /** A type with an active key keeps one through every run without an explicit
      expiry. */
  lemma {:induction false} RunsStayReady(s: Sys, steps: seq<Step>, tt: TokenType)
    requires HasActive(s.table, tt) && forall i :: 0 <= i < |steps| ==> !Expiry(steps[i])
    ensures HasActive(Run(s, steps).table, tt)
    decreases |steps|
  {
    hide HasActive, Apply, Take;
    if steps != [] {
      TakeEffect(s, steps[0]);
      var e := Effect(s, steps[0]);
      assert !Expiry(steps[0]);
      if e.Some? {
        ApplyStaysReady(s.table, e.value, tt);
      }
      RunsStayReady(Take(s, steps[0]), steps[1..], tt);
    }
  }

  /** The types a process has behind it. */
  predicate Passed(ph: Phase, tt: TokenType) {
    ph.Ready? || ((ph.Look? || ph.Seed?) && ph.tt == Refresh && tt == Access)
  }

  /** Every type a process has behind it has an active key. */
  ghost predicate ReadyInv(s: Sys) {
    forall p, tt :: p in s.phases && Passed(s.phases[p], tt) ==> HasActive(s.table, tt)
  }

  lemma TakeStaysReady(s: Sys, step: Step)
    requires ReadyInv(s) && !Expiry(step)
    ensures ReadyInv(Take(s, step))
  {
    hide HasActive, Apply, CreateOn;
    TakeEffect(s, step);
    var s1 := Take(s, step);
    var e := Effect(s, step);
    forall p, tt | p in s1.phases && Passed(s1.phases[p], tt) ensures HasActive(s1.table, tt) {
      if HasActive(s.table, tt) {
        if e.Some? {
          ApplyStaysReady(s.table, e.value, tt);
        }
      } else {
        assert step.Turn? && p == step.pid && s.PhaseOf(p) == Seed(tt);
        Seeded(s.table, tt, step.at, step.id, step.secret);
      }
    }
  }

  lemma Seeded(t: Table, tt: TokenType, at: int, id: KeyId, secret: seq<int>)
    ensures var (t1, err) := CreateOn(t, Name(tt), 0, at, id, secret);
            err.None? ==> HasActive(t1, tt)
  {
    hide NormalizeTokenType;
    KnownTypes();
    var (t1, err) := CreateOn(t, Name(tt), 0, at, id, secret);
    if err.None? {
      assert id in t1 && IsActive(t1[id], tt);
    }
  }

  /** In every run without an explicit expiry, both types have an active key as
      soon as some process has EnsureReady behind it, and from then on. */
  lemma {:induction false} EnsureReadyMakesReady(s: Sys, steps: seq<Step>, p: Pid)
    requires ReadyInv(s) && forall i :: 0 <= i < |steps| ==> !Expiry(steps[i])
    ensures ReadyInv(Run(s, steps))
    ensures Run(s, steps).PhaseOf(p).Ready? ==> forall tt :: HasActive(Run(s, steps).table, tt)
    decreases |steps|
  {
    hide HasActive, Take;
    if steps != [] {
      assert !Expiry(steps[0]);
      TakeStaysReady(s, steps[0]);
      EnsureReadyMakesReady(Take(s, steps[0]), steps[1..], p);
    }
  }
}
