/**
 * The user records of the store: one entry per user with a numeric `id`
 * and four text fields, the `find` by id that the profile resource uses,
 * and the id rule of `createUser` (the new id is the list length plus one).
 */
module Users {
  import opened Wrappers

  datatype User = User(id: int, name: string, email: string, address: string, phone: string)

  /** The arguments of the create-user tool, already checked to be four strings. */
  datatype UserParams = UserParams(name: string, email: string, address: string, phone: string)

  /** The record `{ id, ...params }`. */
  function WithId(id: int, p: UserParams): User {
    User(id, p.name, p.email, p.address, p.phone)
  }

  /** The id `createUser` gives the next record: one more than the number of records. */
  function NextId(users: seq<User>): nat {
    |users| + 1
  }

  /** The list after `createUser(p)` has pushed its record. */
  function Appended(users: seq<User>, p: UserParams): (r: seq<User>)
    ensures |r| == |users| + 1 && r[..|users|] == users
    ensures r[|users|] == WithId(NextId(users), p)
  {
    users + [WithId(NextId(users), p)]
  }

  /** The position of the first record whose id is `id`, if any. */
  function FirstIndexOf(users: seq<User>, id: int): (r: Option<nat>)
    ensures r.Some? ==> r.value < |users| && users[r.value].id == id
    ensures r.Some? ==> forall j :: 0 <= j < r.value ==> users[j].id != id
    ensures r.None? ==> forall j :: 0 <= j < |users| ==> users[j].id != id
  {
    if users == [] then None
    else if users[0].id == id then Some(0)
    else match FirstIndexOf(users[1..], id)
      case None => None
      case Some(i) => Some(i + 1)
  }

  /**
   * `users.find(u => u.id === key)`: the first record with that id. A key
   * of NaN (`None`) equals no id, so nothing is found.
   */
  function Find(users: seq<User>, key: Option<int>): (r: Option<User>)
    ensures r.Some? <==> key.Some? && exists i :: 0 <= i < |users| && users[i].id == key.value
    ensures forall i :: 0 <= i < |users| && key == Some(users[i].id) && FirstWithId(users, i) ==> r == Some(users[i])
  {
    match key
    case None => None
    case Some(k) =>
      match FirstIndexOf(users, k)
      case None => None
      case Some(i) => Some(users[i])
  }

  /** No record before position `i` has the id of the record at `i`. */
  predicate FirstWithId(users: seq<User>, i: nat)
    requires i < |users|
  {
    forall j :: 0 <= j < i ==> users[j].id != users[i].id
  }

  /** The ids are 1, 2, ..., N in list order: what the id rule builds from an empty list. */
  predicate SequentialIds(users: seq<User>) {
    forall i :: 0 <= i < |users| ==> users[i].id == i + 1
  }

  /** The record appended last, field by field: the next id and exactly the four given strings. */
  lemma AppendedShape(users: seq<User>, p: UserParams)
    ensures var u := Appended(users, p)[|users|];
      u.id == |users| + 1 && u.name == p.name && u.email == p.email
      && u.address == p.address && u.phone == p.phone
  {
  }

  /** The id rule keeps ids 1..N sequential: after one creation they are 1..N+1. */
  lemma SequentialIdsPreserved(users: seq<User>, p: UserParams)
    requires SequentialIds(users)
    ensures SequentialIds(Appended(users, p))
  {
  }

  /** Sequential ids are pairwise distinct. */
  lemma SequentialIdsUnique(users: seq<User>)
    requires SequentialIds(users)
    ensures forall i, j :: 0 <= i < |users| && 0 <= j < |users| && users[i].id == users[j].id ==> i == j
  {
  }

  /** With sequential ids, `find` by `k` yields the k-th record exactly when 1 <= k <= N. */
  lemma FindSequential(users: seq<User>, k: int)
    requires SequentialIds(users)
    ensures Find(users, Some(k)) == if 1 <= k <= |users| then Some(users[k - 1]) else None
  {
  }

  /**
   * The record `createUser` pushes is found by its id exactly when no
   * older record already carries that id; otherwise `find` returns the
   * older one.
   */
  lemma FindAppended(users: seq<User>, p: UserParams)
    ensures (forall i :: 0 <= i < |users| ==> users[i].id != NextId(users)) ==>
              Find(Appended(users, p), Some(NextId(users))) == Some(WithId(NextId(users), p))
    ensures forall i :: 0 <= i < |users| && users[i].id == NextId(users) && FirstWithId(users, i) ==>
                Find(Appended(users, p), Some(NextId(users))) == Some(users[i])
  {
    var a := Appended(users, p);
    var k := NextId(users);
    assert a[|users|].id == k;
    forall i | 0 <= i < |users| && users[i].id == k && FirstWithId(users, i)
      ensures Find(a, Some(k)) == Some(users[i])
    {
      assert a[i] == users[i];
      assert FirstWithId(a, i);
    }
    if forall i :: 0 <= i < |users| ==> users[i].id != k {
      assert FirstWithId(a, |users|);
    }
  }
}
