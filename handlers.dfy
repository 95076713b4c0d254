/**
 * The two user resources and the result mapping of the create-user tool.
 * A resource handler answers with one content entry that echoes the
 * requested URI and is typed `application/json`; its text is the JSON
 * value that `JSON.stringify` serialises, kept abstract as `Json`.
 */
module Handlers {
  import opened Wrappers
  import opened JsNumbers
  import opened Users

  /** The JSON values the handlers serialise: one record, the whole list, or an error object. */
  datatype Json = UserObject(user: User) | UserArray(users: seq<User>) | ErrorObject(error: string)

  /** `{ error: "User not found" }`. */
  const NotFoundPayload: Json := ErrorObject("User not found")

  const JsonMimeType: string := "application/json"

  datatype ResourceContent = ResourceContent(uri: string, text: Json, mimeType: string)

  datatype ReadResourceResult = ReadResourceResult(contents: seq<ResourceContent>)

  /** Exactly one entry, for the requested URI, typed as JSON. */
  predicate SingleJsonEntry(r: ReadResourceResult, uri: string) {
    |r.contents| == 1 && r.contents[0].uri == uri && r.contents[0].mimeType == JsonMimeType
  }

  /** `users://all`: the whole current list in one entry. */
  function ReadAllUsers(uri: string, users: seq<User>): (r: ReadResourceResult)
    ensures SingleJsonEntry(r, uri)
    ensures r.contents[0].text.UserArray? && |r.contents[0].text.users| == |users|
    ensures forall i :: 0 <= i < |users| ==> r.contents[0].text.users[i] == users[i]
  {
    ReadResourceResult([ResourceContent(uri, UserArray(users), JsonMimeType)])
  }

  /**
   * `users://{userId}/profile`: the first record whose id equals
   * `parseInt(userId)`; when there is none, or `userId` is not a number,
   * a normal entry carrying the not-found error object.
   */
  function ReadProfile(uri: string, userId: string, users: seq<User>): (r: ReadResourceResult)
    ensures SingleJsonEntry(r, uri)
    ensures r.contents[0].text == NotFoundPayload
            <==> !exists i :: 0 <= i < |users| && ParseInt(userId) == Some(users[i].id)
    ensures forall i :: 0 <= i < |users| && ParseInt(userId) == Some(users[i].id) && FirstWithId(users, i) ==>
              r.contents[0].text == UserObject(users[i])
  {
    var text := match Find(users, ParseInt(userId))
      case None => NotFoundPayload
      case Some(user) => UserObject(user);
    ReadResourceResult([ResourceContent(uri, text, JsonMimeType)])
  }

  /** Every record a profile read returns is one the all-users read lists. */
  lemma ProfileIsListed(uri: string, userId: string, users: seq<User>)
    ensures ReadProfile(uri, userId, users).contents[0].text.UserObject? ==>
              ReadProfile(uri, userId, users).contents[0].text.user in ReadAllUsers(uri, users).contents[0].text.users
  {
  }

  /** How `createUser`'s promise settles: with the new id, or rejected because the file write failed. */
  datatype CreateOutcome = Created(id: nat) | Failed

  datatype ToolContent = TextContent(text: string)

  datatype CallToolResult = CallToolResult(content: seq<ToolContent>)

  /**
   * `User ${id} created successfully`: the decimal id framed by two fixed
   * pieces of text, so it never reads as the failure text.
   */
  function SuccessText(id: nat): (r: string)
    ensures |r| == 26 + |NatToString(id)|
    ensures r[..5] == "User " && r[|r| - 21..] == " created successfully"
    ensures r[5..|r| - 21] == NatToString(id)
    ensures r != FailureText
  {
    var r := "User " + NatToString(id) + " created successfully";
    assert r[0] == 'U' && FailureText[0] == 'F';
    r
  }

  const FailureText: string := "Failed to create user"

  /** The id a success text announces. */
  function AnnouncedId(text: string): Option<int> {
    if |text| >= 26 && text[..5] == "User " && text[|text| - 21..] == " created successfully"
    then ParseInt(text[5..|text| - 21])
    else None
  }

  /**
   * The create-user tool's try/catch: exactly one text entry, the success
   * text with the id when `createUser` resolved, the failure text when it
   * threw; a failure never escapes as an error.
   */
  function CreateUserToolResult(outcome: CreateOutcome): (r: CallToolResult)
    ensures |r.content| == 1
    ensures r.content[0].text == FailureText <==> outcome.Failed?
    ensures outcome.Created? ==> r.content[0].text == SuccessText(outcome.id)
    ensures outcome.Created? ==> AnnouncedId(r.content[0].text) == Some(outcome.id)
  {
    match outcome
    case Created(id) =>
      SuccessTextAnnouncesId(id);
      CallToolResult([TextContent(SuccessText(id))])
    case Failed => CallToolResult([TextContent(FailureText)])
  }

  /** The success text names its id, and it never reads as the failure text. */
  lemma SuccessTextAnnouncesId(id: nat)
    ensures AnnouncedId(SuccessText(id)) == Some(id)
    ensures SuccessText(id) != FailureText
  {
    var s := SuccessText(id);
    assert s[5..|s| - 21] == NatToString(id) + [];
    ParseIntOfNatToString(id, []);
  }

  /** The tool's text determines the outcome: different outcomes give different texts. */
  lemma ToolResultDeterminesOutcome(a: CreateOutcome, b: CreateOutcome)
    requires CreateUserToolResult(a) == CreateUserToolResult(b)
    ensures a == b
  {
  }
}
