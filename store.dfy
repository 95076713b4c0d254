/**
 * The shared user list and `createUser`. Every handler imports the same
 * cached JSON module, so they all read one array object; `createUser`
 * pushes onto that array and only then writes the list back to its file,
 * a write that may fail.
 */
module Store {
  import opened Wrappers
  import opened JsNumbers
  import opened Users
  import opened Handlers

  class UserStore {
    /** The array the cached `users.json` module exports. */
    var users: seq<User>

    constructor (initial: seq<User>)
      ensures users == initial
    {
      users := initial;
    }

    /**
     * `createUser(p)`: the new id is the current length plus one, the
     * record `{ id, ...p }` is pushed, then the file write either succeeds
     * (the promise resolves with the id) or fails (it rejects). The push is
     * not undone when the write fails.
     */
    method CreateUser(p: UserParams, writeSucceeds: bool) returns (outcome: CreateOutcome)
      modifies this
      ensures users == Appended(old(users), p)
      ensures outcome == if writeSucceeds then Created(|old(users)| + 1) else Failed
    {
      var id := |users| + 1;
      users := users + [WithId(id, p)];
      if writeSucceeds {
        outcome := Created(id);
      } else {
        outcome := Failed;
      }
    }

    /** The create-user tool: `createUser` inside a try/catch that turns its outcome into one text entry. */
    method CallCreateUserTool(p: UserParams, writeSucceeds: bool) returns (result: CallToolResult)
      modifies this
      ensures users == Appended(old(users), p)
      ensures result == CreateUserToolResult(if writeSucceeds then Created(|old(users)| + 1) else Failed)
    {
      var outcome := CreateUser(p, writeSucceeds);
      result := CreateUserToolResult(outcome);
    }
  }

  /**
   * Round trip: after a creation that returned `id`, reading the profile
   * `id` yields the new record, provided no older record already had that
   * id (as when the ids are sequential).
   */
  lemma CreateThenReadProfile(uri: string, users: seq<User>, p: UserParams)
    requires forall i :: 0 <= i < |users| ==> users[i].id != NextId(users)
    ensures ReadProfile(uri, NatToString(NextId(users)), Appended(users, p)).contents[0].text
            == UserObject(WithId(NextId(users), p))
  {
    ParseIntOfNatToString(NextId(users), []);
    assert NatToString(NextId(users)) + [] == NatToString(NextId(users));
    FindAppended(users, p);
  }

  /** With sequential ids the round trip always holds. */
  lemma CreateThenReadProfileSequential(uri: string, users: seq<User>, p: UserParams)
    requires SequentialIds(users)
    ensures ReadProfile(uri, NatToString(NextId(users)), Appended(users, p)).contents[0].text
            == UserObject(WithId(NextId(users), p))
  {
    CreateThenReadProfile(uri, users, p);
  }

  /** After a creation, the all-users read lists every old record in place and the new one last. */
  lemma CreateThenReadAll(uri: string, users: seq<User>, p: UserParams)
    ensures var listed := ReadAllUsers(uri, Appended(users, p)).contents[0].text.users;
      |listed| == |users| + 1 && listed[..|users|] == users && listed[|users|] == WithId(NextId(users), p)
  {
  }

  /** Creating into an empty list announces id 1 and stores the record with id 1. */
  method ScenarioCreate(p: UserParams) {
    var store := new UserStore([]);
    var id := NextId(store.users);
    var r := store.CallCreateUserTool(p, true);
    assert id == 1 && store.users == [WithId(id, p)];
    assert r.content == [TextContent(SuccessText(id))];
  }

  /** The success text of the first user. */
  lemma FirstSuccessText()
    ensures SuccessText(1) == "User 1 created successfully"
  {
  }

  /** A failed write answers with the failure text, yet the record stays appended. */
  method ScenarioFailedWrite(first: User, p: UserParams) {
    var store := new UserStore([first]);
    var r := store.CallCreateUserTool(p, false);
    assert r.content == [TextContent(FailureText)];
    assert store.users == [first, WithId(2, p)];
  }

  /** With one user of id `k`, profile `k` is that user and profile `k + 1` is the not-found entry. */
  lemma ProfilesOfSingleUser(uri: string, user: User, k: nat)
    requires user.id == k
    ensures ReadProfile(uri, NatToString(k), [user]).contents[0].text == UserObject(user)
    ensures ReadProfile(uri, NatToString(k + 1), [user]).contents[0].text == NotFoundPayload
  {
    ParseIntOfNatToString(k, []);
    ParseIntOfNatToString(k + 1, []);
    assert NatToString(k) + [] == NatToString(k) && NatToString(k + 1) + [] == NatToString(k + 1);
    assert FirstWithId([user], 0);
    var a := ParseInt(NatToString(k));
    var b := ParseInt(NatToString(k + 1));
    assert a == Some(k) && b == Some(k + 1);
    assert Find([user], a) == Some(user);
    assert Find([user], b) == None;
  }

  /** A leading zero in the id text changes nothing: profile `01` is profile `1`. */
  lemma ProfileWithLeadingZero(uri: string, users: seq<User>, k: nat)
    ensures ReadProfile(uri, "0" + NatToString(k), users) == ReadProfile(uri, NatToString(k), users)
  {
    var ds := NatToString(k);
    DigitsValueLeadingZero(ds, 10);
    ParseIntOfDecimal("0" + ds, []);
    assert "0" + ds + [] == "0" + ds;
    ParseIntOfNatToString(k, []);
    assert ds + [] == ds;
    DigitsValueOfNatToString(k);
    assert ParseInt("0" + ds) == ParseInt(ds);
  }
}
