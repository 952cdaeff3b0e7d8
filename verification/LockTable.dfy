/** The lock table of src/flow_healer/store.py and the dispatcher calls on it
    (src/flow_healer/healer_dispatcher.py): no two issues ever hold conflicting locks. */
module LockTable {
  import opened Wrappers
  import opened Text
  import opened LockScopes
  import opened LockKeys

  datatype Row = Row(granularity: string, issue: string, owner: string, expires: int)

  type Table = map<string, Row>

  /** `lock_granularity` */
  function Granularity(lockKey: string): string
  {
    if StartsWith(lockKey, "path:") then "path"
    else if StartsWith(lockKey, "dir:") then "dir"
    else if StartsWith(lockKey, "module:") then "module"
    else "repo"
  }

  /** The rows that `DELETE ... WHERE lease_expires_at <= CURRENT_TIMESTAMP` leaves. */
  function Live(t: Table, now: int): Table
  {
    map k | k in t && t[k].expires > now :: t[k]
  }

  function Expiry(now: int, leaseSeconds: int): int { now + if leaseSeconds > 1 then leaseSeconds else 1 }

  /** Locks of different issues never conflict. */
  ghost predicate Exclusive(t: Table)
  {
    forall a, b | a in t && b in t && t[a].issue != t[b].issue :: !Conflict(a, b)
  }

  /** Some lock of another issue stands in the way of `lockKey`. */
  ghost predicate Blocked(t: Table, issue: string, lockKey: string)
  {
    exists k :: k in t && t[k].issue != issue && Conflict(k, lockKey)
  }

  ghost predicate Holds(t: Table, issue: string, lockKey: string)
  {
    lockKey in t && t[lockKey].issue == issue
  }

  lemma {:induction false} LiveExclusive(t: Table, now: int)
    requires Exclusive(t)
    ensures Exclusive(Live(t, now))
  {
    hide Conflict;
  }

  lemma {:induction false} GrantExclusive(t: Table, lockKey: string, row: Row)
    requires Exclusive(t) && !Blocked(t, row.issue, lockKey)
    ensures Exclusive(t[lockKey := row])
  {
    var u := t[lockKey := row];
    forall a, b | a in u && b in u && u[a].issue != u[b].issue ensures !Conflict(a, b) {
      ConflictSymmetric(a, b);
      hide Conflict;
      assert a == lockKey ==> b in t && t[b] == u[b];
      assert b == lockKey ==> a in t && t[a] == u[a];
    }
  }

  datatype Outcome = Acquired(keys: seq<string>) | Refused(lockKey: string) | IntegrityError

  class LockStore {
    var rows: Table

    constructor ()
      ensures rows == map[]
    {
      rows := map[];
    }

    /** `cleanup_expired_healer_locks` */
    method CleanupExpired(now: int)
      requires Exclusive(rows)
      modifies this
      ensures forall k :: k in rows <==> k in old(rows) && old(rows)[k].expires > now
      ensures forall k | k in rows :: rows[k] == old(rows)[k]
      ensures rows == Live(old(rows), now) && Exclusive(rows)
    {
      LiveExclusive(rows, now);
      rows := Live(rows, now);
    }

    /** The scan shared by both acquire calls: rows in key order, and for each row of another issue the
        wanted keys in their own order. */
    method FirstConflict(issue: string, wanted: seq<string>) returns (r: Option<string>)
      ensures r.Some? ==> r.value in wanted && Blocked(rows, issue, r.value)
      ensures r.None? ==> forall k | k in wanted :: !Blocked(rows, issue, k)
    {
      hide Conflict;
      var order := Sorted(rows.Keys);
      SortedMembers(rows.Keys);
      var i := 0;
      while i < |order|
        invariant 0 <= i <= |order|
        invariant forall e, k | e in order[..i] && rows[e].issue != issue && k in wanted :: !Conflict(e, k)
      {
        var existing := order[i];
        assert existing in rows.Keys;
        assert order[..i + 1] == order[..i] + [existing];
        i := i + 1;
        if rows[existing].issue == issue {
          continue;
        }
        var j := 0;
        while j < |wanted|
          invariant 0 <= j <= |wanted|
          invariant forall k | k in wanted[..j] :: !Conflict(existing, k)
        {
          if Conflict(existing, wanted[j]) {
            return Some(wanted[j]);
          }
          j := j + 1;
        }
        assert wanted[..j] == wanted;
      }
      assert order[..i] == order;
      r := None;
    }

    /** `acquire_healer_lock` */
    method Acquire(lockKey: string, granularity: string, issue: string, owner: string, leaseSeconds: int, now: int)
      returns (r: Outcome)
      requires Exclusive(rows)
      modifies this
      ensures Exclusive(rows)
      ensures r.Refused? <==> Blocked(Live(old(rows), now), issue, lockKey)
      ensures r.IntegrityError? ==> lockKey in rows && rows[lockKey].issue != issue
      ensures rows == if r.Acquired?
                      then Live(old(rows), now)[lockKey := Row(granularity, issue, owner, Expiry(now, leaseSeconds))]
                      else Live(old(rows), now)
    {
      hide Conflict;
      CleanupExpired(now);
      var blocker := FirstConflict(issue, [lockKey]);
      if blocker.Some? {
        return Refused(lockKey);
      }
      assert lockKey in [lockKey];
      if lockKey in rows && rows[lockKey].issue != issue {
        return IntegrityError;
      }
      var row := Row(granularity, issue, owner, Expiry(now, leaseSeconds));
      GrantExclusive(rows, lockKey, row);
      rows := rows[lockKey := row];
      r := Acquired([lockKey]);
    }

    /** `acquire_healer_locks_batch`: all the wanted keys or, when another issue is in the way, none of them.
        A key list that repeats a key, or names an unparsable key that another issue holds, makes the insert
        fail half-way; the rows inserted until then stay in the open transaction. */
    method AcquireBatch(lockKeys: seq<string>, issue: string, owner: string, leaseSeconds: int, now: int)
      returns (r: Outcome)
      requires Exclusive(rows)
      modifies this
      ensures Exclusive(rows)
      ensures r.Refused? <==> exists k :: k in Wanted(lockKeys) && Blocked(Live(old(rows), now), issue, k)
      ensures r.Refused? ==> rows == Live(old(rows), now)
                             && r.lockKey in Wanted(lockKeys) && Blocked(rows, issue, r.lockKey)
      ensures Wanted(lockKeys) == [] ==> r == Acquired([]) && rows == old(rows)
      ensures r.Acquired? && Wanted(lockKeys) != [] ==>
                && r.keys == Wanted(lockKeys)
                && rows.Keys == Live(old(rows), now).Keys + (set k | k in Wanted(lockKeys))
                && (forall k | k in Wanted(lockKeys) :: Holds(rows, issue, k) && rows[k].owner == owner
                                                        && rows[k].expires == Expiry(now, leaseSeconds))
      ensures forall k | k in Live(old(rows), now) && k !in Wanted(lockKeys) :: k in rows && rows[k] == old(rows)[k]
    {
      hide Conflict;
      var wanted := Wanted(lockKeys);
      if wanted == [] {
        return Acquired([]);
      }
      CleanupExpired(now);
      var blocker := FirstConflict(issue, wanted);
      if blocker.Some? {
        return Refused(blocker.value);
      }
      var expires := Expiry(now, leaseSeconds);
      var inserts := NotHeld(rows, issue, wanted);
      NotHeldMembers(rows, issue, wanted);
      RenewExclusive(rows, issue, wanted, owner, expires);
      ghost var live := rows;
      rows := Renewed(rows, issue, wanted, owner, expires);
      var ok := InsertAll(inserts, issue, owner, expires);
      r := if ok then Acquired(wanted) else IntegrityError;
    }

    /** The inserts of the batch, stopped by the first key that is already in the table */
    method InsertAll(inserts: seq<string>, issue: string, owner: string, expires: int) returns (ok: bool)
      requires Exclusive(rows)
      requires forall k | k in inserts :: !Blocked(rows, issue, k)
      modifies this
      ensures Exclusive(rows)
      ensures ok ==> rows.Keys == old(rows).Keys + (set k | k in inserts)
      ensures ok ==> forall k | k in inserts :: rows[k] == Row(Granularity(k), issue, owner, expires)
      ensures forall k | k in old(rows) :: k in rows && rows[k] == old(rows)[k]
    {
      hide Conflict, Granularity;
      ghost var before := rows;
      var i := 0;
      while i < |inserts|
        invariant 0 <= i <= |inserts|
        invariant Exclusive(rows)
        invariant forall k | k in rows && k !in before :: rows[k].issue == issue
        invariant rows.Keys == before.Keys + (set k | k in inserts[..i])
        invariant forall k | k in inserts[..i] :: rows[k] == Row(Granularity(k), issue, owner, expires)
        invariant forall k | k in before :: k in rows && rows[k] == before[k]
      {
        var k := inserts[i];
        if k in rows {
          return false;
        }
        var row := Row(Granularity(k), issue, owner, expires);
        assert !Blocked(before, issue, inserts[i]);
        forall e | e in rows && rows[e].issue != issue ensures !Conflict(e, k) {
          assert e in before && before[e].issue != issue;
        }
        assert !Blocked(rows, issue, k);
        GrantExclusive(rows, k, row);
        rows := rows[k := row];
        assert inserts[..i + 1] == inserts[..i] + [k];
        i := i + 1;
      }
      assert inserts[..i] == inserts;
      ok := true;
    }
  }

  /** The blank-free key list at the head of `acquire_healer_locks_batch` */
  function Wanted(lockKeys: seq<string>): seq<string>
  {
    if lockKeys == [] then []
    else (if Trim(lockKeys[0]) == "" then [] else [Trim(lockKeys[0])]) + Wanted(lockKeys[1..])
  }

  /** The wanted keys that have to be inserted */
  function NotHeld(t: Table, issue: string, wanted: seq<string>): seq<string>
  {
    if wanted == [] then []
    else (if wanted[0] in t && t[wanted[0]].issue == issue then [] else [wanted[0]]) + NotHeld(t, issue, wanted[1..])
  }

  lemma {:induction false} NotHeldMembers(t: Table, issue: string, wanted: seq<string>)
    ensures forall k :: k in NotHeld(t, issue, wanted) <==> k in wanted && !Holds(t, issue, k)
  {
    if wanted != [] { NotHeldMembers(t, issue, wanted[1..]); }
  }

  /** The table after the update that renews the wanted keys the issue already holds */
  function Renewed(t: Table, issue: string, wanted: seq<string>, owner: string, expires: int): Table
  {
    map k | k in t :: if k in wanted && t[k].issue == issue then t[k].(owner := owner, expires := expires) else t[k]
  }

  lemma {:induction false} RenewExclusive(t: Table, issue: string, wanted: seq<string>, owner: string, expires: int)
    requires Exclusive(t)
    ensures Exclusive(Renewed(t, issue, wanted, owner, expires))
    ensures forall k | k in wanted :: Blocked(Renewed(t, issue, wanted, owner, expires), issue, k) <==> Blocked(t, issue, k)
  {
    hide Conflict;
    var u := Renewed(t, issue, wanted, owner, expires);
    assert u.Keys == t.Keys && forall k | k in t :: u[k].issue == t[k].issue;
  }

  // ---------- releasing ----------

  /** `release_healer_locks`: the named locks of an issue or, without names, all of them */
  function Released(t: Table, issue: string, lockKeys: seq<string>): Table
  {
    map k | k in t && !(t[k].issue == issue && (lockKeys == [] || k in lockKeys)) :: t[k]
  }

  lemma {:induction false} ReleaseExclusive(t: Table, issue: string, lockKeys: seq<string>)
    requires Exclusive(t)
    ensures Exclusive(Released(t, issue, lockKeys))
    ensures lockKeys == [] ==> forall k :: !Holds(Released(t, issue, lockKeys), issue, k)
  {
    hide Conflict;
  }

  // ---------- the dispatcher ----------

  /** `HealerDispatcher.acquire_prediction_locks` */
  method AcquirePredictionLocks(store: LockStore, issue: string, owner: string, lockKeys: seq<string>,
                                leaseSeconds: int, now: int) returns (r: Outcome)
    requires Exclusive(store.rows)
    modifies store
    ensures Exclusive(store.rows)
    ensures r.Acquired? ==>
              forall k | k in Canonicalize(lockKeys) :: Holds(store.rows, issue, k) && store.rows[k].expires > now
    ensures forall k | k in Live(old(store.rows), now) && k !in Canonicalize(lockKeys) ::
              k in store.rows && store.rows[k] == old(store.rows)[k]
    ensures r.Acquired? && Canonicalize(lockKeys) != [] ==>
              store.rows.Keys == Live(old(store.rows), now).Keys + (set k | k in Canonicalize(lockKeys))
    ensures Canonicalize(lockKeys) == [] ==> store.rows == old(store.rows)
  {
    hide Conflict;
    var keys := Canonicalize(lockKeys);
    CanonicalWanted(lockKeys);
    r := store.AcquireBatch(keys, issue, owner, leaseSeconds, now);
  }

  lemma {:induction false} WantedFixed(keys: seq<string>)
    requires forall k | k in keys :: Trim(k) == k && k != ""
    ensures Wanted(keys) == keys
  {
    if keys != [] {
      assert keys[0] in keys;
      WantedFixed(keys[1..]);
    }
  }

  lemma {:induction false} CanonicalSetMembers(keys: seq<string>)
    ensures forall k | k in CanonicalSet(keys) :: Trim(k) == k && Lower(k) == k && k != ""
    ensures forall k | k in keys && Trim(k) != "" :: Lower(Trim(k)) in CanonicalSet(keys)
  {
    hide Trim, Lower;
    if keys != [] {
      CanonicalSetMembers(keys[1..]);
      CanonicalFixed(keys[0]);
      LowerTwice(Trim(keys[0]));
    }
  }

  lemma {:induction false} CanonicalAgain(keys: seq<string>)
    requires forall k | k in keys :: Trim(k) == k && Lower(k) == k && k != ""
    ensures forall k :: k in CanonicalSet(keys) <==> k in keys
  {
    hide Trim, Lower;
    if keys != [] {
      assert keys[0] in keys;
      assert forall k | k in keys[1..] :: k in keys;
      CanonicalAgain(keys[1..]);
    }
  }

  lemma {:induction false} CanonicalWanted(keys: seq<string>)
    ensures Wanted(Canonicalize(keys)) == Canonicalize(keys)
  {
    CanonicalSetMembers(keys);
    SortedMembers(CanonicalSet(keys));
    WantedFixed(Canonicalize(keys));
  }

  /** The keys that an upgrade asks for are canonical already, and are those the issue does not hold. */
  lemma {:induction false} ToAddMembers(t: Table, issue: string, lockKeys: seq<string>)
    ensures var toAdd := NotHeld(t, issue, Canonicalize(lockKeys));
            && (forall k :: k in toAdd <==> k in Canonicalize(lockKeys) && !Holds(t, issue, k))
            && (forall k :: k in Canonicalize(toAdd) <==> k in toAdd)
  {
    hide Trim, Lower;
    var keys := Canonicalize(lockKeys);
    var toAdd := NotHeld(t, issue, keys);
    NotHeldMembers(t, issue, keys);
    CanonicalSetMembers(lockKeys);
    SortedMembers(CanonicalSet(lockKeys));
    CanonicalAgain(toAdd);
    SortedMembers(CanonicalSet(toAdd));
  }

  /** `HealerDispatcher.upgrade_locks`. It asks only for the keys that `list_healer_locks` does not show for
      the issue. That listing still shows expired rows, which the batch then deletes: the upgrade reports
      success and yet holds all its keys only if none of them had expired. */
  method UpgradeLocks(store: LockStore, issue: string, owner: string, lockKeys: seq<string>,
                      leaseSeconds: int, now: int) returns (r: Outcome)
    requires Exclusive(store.rows)
    modifies store
    ensures Exclusive(store.rows)
    ensures r.Acquired? ==>
              ((forall k | k in Canonicalize(lockKeys) :: Holds(Live(store.rows, now), issue, k)) <==>
               (forall k | k in Canonicalize(lockKeys) && Holds(old(store.rows), issue, k) ::
                  old(store.rows)[k].expires > now))
  {
    hide Conflict, Canonicalize, NotHeld;
    var toAdd := NotHeld(store.rows, issue, Canonicalize(lockKeys));
    ToAddMembers(store.rows, issue, lockKeys);
    ghost var before := store.rows;
    if toAdd == [] {
      return Acquired([]);
    }
    r := AcquirePredictionLocks(store, issue, owner, toAdd, leaseSeconds, now);
  }

  // ---------- what the table guarantees ----------

  lemma {:induction false} CanonicalConflict(left: seq<string>, right: seq<string>)
    requires SomeConflict(left, right)
    ensures SomeConflict(Canonicalize(left), Canonicalize(right))
  {
    hide Trim, Lower, ScopesConflict;
    var l, r :| l in left && r in right && Conflict(l, r);
    ParseIs(l);
    ParseIs(r);
    ParseCanonical(l);
    ParseCanonical(r);
    CanonicalSetMembers(left);
    CanonicalSetMembers(right);
    SortedMembers(CanonicalSet(left));
    SortedMembers(CanonicalSet(right));
    assert Conflict(Lower(Trim(l)), Lower(Trim(r)));
  }

  /** Two issues that hold the diff locks of what they changed never changed the same file, whatever the
      thresholds: the reason locks exist, for every file the overlap theorem covers. */
  lemma {:induction false} NoSharedFile(t: Table, a: string, b: string, left: seq<string>, tl: int, right: seq<string>, tr: int, p: string)
    requires Exclusive(t) && a != b
    requires forall k | k in Canonicalize(DiffKeys(left, tl)) :: Holds(t, a, k)
    requires forall k | k in Canonicalize(DiffKeys(right, tr)) :: Holds(t, b, k)
    requires AlwaysConflicts(p)
    ensures !Shares(left, p) || !Shares(right, p)
  {
    hide Conflict, Canonicalize, DiffKeys;
    if Shares(left, p) && Shares(right, p) {
      CanonicalConflict(DiffKeys(left, tl), DiffKeys(right, tr));
    }
  }

  // ---------- single rows ----------

  /** A granted or renewed lease runs for the seconds asked for, but for one at least. */
  lemma {:induction false} LeaseRuns(now: int, leaseSeconds: int)
    ensures leaseSeconds >= 1 ==> Expiry(now, leaseSeconds) == now + leaseSeconds
    ensures leaseSeconds < 1 ==> Expiry(now, leaseSeconds) == now + 1
  {
  }

  /** A row is live until its expiry, and no longer. */
  lemma {:induction false} LiveIs(t: Table, now: int, k: string)
    ensures k in Live(t, now) <==> k in t && now < t[k].expires
    ensures k in Live(t, now) ==> Live(t, now)[k] == t[k]
  {
  }

  /** The granularity of a key is its kind; anything unknown counts as the repository. */
  lemma {:induction false} GranularityIs(t: string)
    ensures Granularity("path:" + t) == "path" && Granularity("dir:" + t) == "dir" && Granularity("module:" + t) == "module"
    ensures Granularity("repo:" + t) == "repo"
  {
    assert ("dir:" + t)[0] == 'd' && ("module:" + t)[0] == 'm' && ("repo:" + t)[0] == 'r';
  }

  /** The keys that a batch wants are the given ones, stripped, that are not blank. */
  lemma {:induction false} WantedIs(lockKeys: seq<string>)
    ensures forall k :: k in Wanted(lockKeys) <==> k != "" && exists i :: 0 <= i < |lockKeys| && Trim(lockKeys[i]) == k
  {
    hide Trim;
    if lockKeys != [] {
      WantedIs(lockKeys[1..]);
      forall k ensures k in Wanted(lockKeys) <==> k != "" && exists i :: 0 <= i < |lockKeys| && Trim(lockKeys[i]) == k {
        if k in Wanted(lockKeys[1..]) {
          var i :| 0 <= i < |lockKeys| - 1 && Trim(lockKeys[1..][i]) == k;
          assert Trim(lockKeys[i + 1]) == k;
        }
        if i :| 0 <= i < |lockKeys| && Trim(lockKeys[i]) == k {
          if i > 0 { assert lockKeys[1..][i - 1] == lockKeys[i]; }
        }
      }
    }
  }

  /** A release takes exactly the issue's rows of the named keys or, without names, all its rows; it leaves every row of
      another issue. */
  lemma {:induction false} ReleasedIs(t: Table, issue: string, lockKeys: seq<string>, k: string)
    requires k in t
    ensures k in Released(t, issue, lockKeys) <==> t[k].issue != issue || (lockKeys != [] && k !in lockKeys)
    ensures k in Released(t, issue, lockKeys) ==> Released(t, issue, lockKeys)[k] == t[k]
  {
  }

  /** A key is blocked for an issue exactly when some row of another issue and the key cover a common path: an issue never
      blocks itself. */
  lemma {:induction false} BlockedIff(t: Table, issue: string, lockKey: string)
    ensures Blocked(t, issue, lockKey) <==>
            exists k, p :: k in t && t[k].issue != issue && KeyCovers(k, p) && KeyCovers(lockKey, p)
  {
    hide Conflict, KeyCovers;
    forall k | k in t ensures Conflict(k, lockKey) <==> exists p :: KeyCovers(k, p) && KeyCovers(lockKey, p) {
      ConflictIffCommonPath(k, lockKey);
    }
  }

  /** In an exclusive table no path is covered by rows of two issues, and nothing else is asked of it. */
  lemma {:induction false} ExclusiveIff(t: Table)
    ensures Exclusive(t) <==>
            forall a, b, p | a in t && b in t && KeyCovers(a, p) && KeyCovers(b, p) :: t[a].issue == t[b].issue
  {
    hide Conflict, KeyCovers;
    forall a, b | a in t && b in t ensures Conflict(a, b) <==> exists p :: KeyCovers(a, p) && KeyCovers(b, p) {
      ConflictIffCommonPath(a, b);
    }
  }
}
