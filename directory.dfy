/** The in-memory user directory (`AppState.users`): a list searched by netid,
    where a sign-up removes every entry with its netid and appends the new user. */
module Directory {
  import opened Models

  /** No two entries share a netid. */
  ghost predicate UniqueNetids(users: seq<TrioUser>) {
    forall i, j :: 0 <= i < j < |users| ==> users[i].netid != users[j].netid
  }

  /** The index of the first entry with the given netid, if any. */
  function FirstIndex(users: seq<TrioUser>, netid: string): (r: Option<nat>)
    ensures r.Some? ==> r.value < |users| && users[r.value].netid == netid
    ensures r.Some? ==> forall j :: 0 <= j < r.value ==> users[j].netid != netid
    ensures r.None? <==> forall j :: 0 <= j < |users| ==> users[j].netid != netid
  {
    if users == [] then None
    else if users[0].netid == netid then Some(0)
    else match FirstIndex(users[1..], netid)
      case None => None
      case Some(k) => Some(k + 1)
  }

  /** Whether some entry has the given netid. */
  function Contains(users: seq<TrioUser>, netid: string): (r: bool)
    ensures r <==> exists i :: 0 <= i < |users| && users[i].netid == netid
  {
    FirstIndex(users, netid).Some?
  }

  /** The directory without the entries carrying `netid`: every other entry is
      kept exactly as often as it occurred. */
  function RemoveNetid(users: seq<TrioUser>, netid: string): (r: seq<TrioUser>)
    ensures |r| <= |users|
    ensures forall i :: 0 <= i < |r| ==> r[i].netid != netid
    ensures forall x: TrioUser :: multiset(r)[x] == if x.netid == netid then 0 else multiset(users)[x]
  {
    if users == [] then []
    else
      assert users == [users[0]] + users[1..];
      if users[0].netid == netid then RemoveNetid(users[1..], netid)
      else [users[0]] + RemoveNetid(users[1..], netid)
  }

  /** Removal keeps the order of what remains: it distributes over concatenation. */
  lemma {:induction false} RemoveNetidConcat(a: seq<TrioUser>, b: seq<TrioUser>, netid: string)
    ensures RemoveNetid(a + b, netid) == RemoveNetid(a, netid) + RemoveNetid(b, netid)
  {
    if a == [] {
      assert a + b == b;
    } else {
      assert (a + b)[1..] == a[1..] + b;
      RemoveNetidConcat(a[1..], b, netid);
    }
  }

  /** `x` occurs in `users` somewhere before an occurrence of `y`. */
  ghost predicate Precedes(users: seq<TrioUser>, x: TrioUser, y: TrioUser) {
    exists i, j :: 0 <= i < j < |users| && users[i] == x && users[j] == y
  }

  /** An entry without the netid survives removal, at some index `k`. */
  lemma RemoveNetidKeepsEntry(users: seq<TrioUser>, netid: string, x: TrioUser) returns (k: nat)
    requires x in users && x.netid != netid
    ensures k < |RemoveNetid(users, netid)| && RemoveNetid(users, netid)[k] == x
  {
    var r := RemoveNetid(users, netid);
    assert multiset(r)[x] == multiset(users)[x];
    assert x in r;
    k :| 0 <= k < |r| && r[k] == x;
  }

  /** An element of a front part precedes every element of a back part. */
  lemma PrecedesConcat(front: seq<TrioUser>, back: seq<TrioUser>, a: nat, b: nat)
    requires a < |front| && b < |back|
    ensures Precedes(front + back, front[a], back[b])
  {
    assert (front + back)[a] == front[a] && (front + back)[|front| + b] == back[b];
  }

  /** Two kept entries stay in the same relative order after removal. */
  lemma RemoveNetidKeepsOrder(users: seq<TrioUser>, netid: string, i: nat, j: nat)
    requires i < j < |users|
    requires users[i].netid != netid && users[j].netid != netid
    ensures Precedes(RemoveNetid(users, netid), users[i], users[j])
  {
    var front, back := users[..j], users[j..];
    assert users == front + back;
    assert users[i] == front[i] && users[j] == back[0];
    RemoveNetidConcat(front, back, netid);
    var a := RemoveNetidKeepsEntry(front, netid, users[i]);
    var b := RemoveNetidKeepsEntry(back, netid, users[j]);
    PrecedesConcat(RemoveNetid(front, netid), RemoveNetid(back, netid), a, b);
  }

  /** A directory without the netid is left as it is. */
  lemma {:induction false} RemoveNetidAbsent(users: seq<TrioUser>, netid: string)
    requires forall i :: 0 <= i < |users| ==> users[i].netid != netid
    ensures RemoveNetid(users, netid) == users
  {
    if users != [] {
      RemoveNetidAbsent(users[1..], netid);
    }
  }

  /** Removal keeps the netids unique. */
  lemma {:induction false} RemoveNetidKeepsUnique(users: seq<TrioUser>, netid: string)
    requires UniqueNetids(users)
    ensures UniqueNetids(RemoveNetid(users, netid))
  {
    if users != [] {
      var rest := RemoveNetid(users[1..], netid);
      RemoveNetidKeepsUnique(users[1..], netid);
      if users[0].netid != netid {
        forall j | 0 <= j < |rest| ensures rest[j].netid != users[0].netid {
          assert multiset(rest)[rest[j]] > 0;
          assert rest[j] in users[1..];
        }
      }
    }
  }

  /** `users.removeAll { $0.netid == user.netid }; users.append(user)`:
      afterwards the new user is the one entry with its netid, in last
      position, and every other entry is kept. */
  function Upsert(users: seq<TrioUser>, user: TrioUser): (r: seq<TrioUser>)
    ensures |r| > 0 && r[|r| - 1] == user
    ensures forall i :: 0 <= i < |r| - 1 ==> r[i].netid != user.netid
    ensures forall x: TrioUser :: x.netid != user.netid ==> multiset(r)[x] == multiset(users)[x]
  {
    RemoveNetid(users, user.netid) + [user]
  }

  /** Upserting keeps the netids unique. */
  lemma UpsertKeepsUnique(users: seq<TrioUser>, user: TrioUser)
    requires UniqueNetids(users)
    ensures UniqueNetids(Upsert(users, user))
  {
    RemoveNetidKeepsUnique(users, user.netid);
  }

  /** Entries with other netids keep their relative order across an upsert. */
  lemma UpsertKeepsOrder(users: seq<TrioUser>, user: TrioUser, i: nat, j: nat)
    requires i < j < |users|
    requires users[i].netid != user.netid && users[j].netid != user.netid
    ensures Precedes(Upsert(users, user), users[i], users[j])
  {
    var removed := RemoveNetid(users, user.netid);
    RemoveNetidKeepsOrder(users, user.netid, i, j);
    var a, b :| 0 <= a < b < |removed| && removed[a] == users[i] && removed[b] == users[j];
    assert (removed + [user])[a] == users[i] && (removed + [user])[b] == users[j];
  }

  /** Re-enrolling a netid replaces, never duplicates: the second write wins and
      the first leaves no trace. */
  lemma UpsertLastWriteWins(users: seq<TrioUser>, first: TrioUser, second: TrioUser)
    requires first.netid == second.netid
    ensures Upsert(Upsert(users, first), second) == Upsert(users, second)
  {
    var netid := second.netid;
    var removed := RemoveNetid(users, netid);
    RemoveNetidConcat(removed, [first], netid);
    RemoveNetidAbsent(removed, netid);
    assert RemoveNetid([first], netid) == [];
  }

  /** Overwriting one entry with a user of the same netid keeps the netids unique. */
  lemma WriteBackKeepsUnique(users: seq<TrioUser>, idx: nat, user: TrioUser)
    requires idx < |users| && user.netid == users[idx].netid
    requires UniqueNetids(users)
    ensures UniqueNetids(users[idx := user])
  {
  }
}
