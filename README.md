# User store of the MCP demo server

A model of the state and logic that `src/server.ts` owns behind its
Model Context Protocol handlers: the in-memory list of user records, the
`createUser` function that appends to it, the two resources that read it
(`users://all` and `users://{userId}/profile`) and the `create-user` tool
that reports `createUser`'s outcome as text.

- `Users` (users.dfy): the record `{id, name, email, address, phone}`,
  the `find` by id, the id rule `length + 1`, and the invariant that the
  ids are `1..N` in order.
- `JsNumbers` (js_numbers.dfy): JavaScript's `parseInt(string)` as the
  profile handler uses it (leading white space, sign, `0x` prefix, longest
  digit run, NaN as `None`) and the decimal text of an id inside a
  template literal, with their round trip.
- `Handlers` (handlers.dfy): the two resource handlers as functions of the
  list, and the tool's success/failure mapping. The text of a resource
  entry is the JSON value that `JSON.stringify` serialises (`Json`), not
  its characters.
- `Store` (store.dfy): the shared list as a class. Every handler imports
  the same cached JSON module and so reads one array object; `createUser`
  pushes onto it in place and then writes the file. The outcome of the
  file write is a parameter (`writeSucceeds`). Lemmas connect creation to
  later reads; two client methods replay creation into an empty list and
  a failed write, and a lemma covers profile reads of a present and an
  absent id.

Every handler imports the same cached JSON module, so the file is read
only at the first import; later reads, in every handler, see the
in-memory array that `createUser` grows.

## Model

| member | source | states |
|---|---|---|
| `JsNumbers.TrimStart` | src/server.ts:44 | `parseInt` skips exactly the leading ECMAScript white space: the result is a suffix, everything dropped is white space and the result does not start with white space |
| `JsNumbers.DigitValue` | src/server.ts:44 | a character is a digit of radix 10 or 16 with a value below the radix; in radix 10 exactly `0`..`9` are digits, in radix 16 exactly `0`..`9`, `a`..`f` and `A`..`F` (their values are fixed by `DigitValueTable`) |
| `JsNumbers.DigitValueTable` | src/server.ts:44 | the digit at place `v` of `0123456789abcdef` (or of `0123456789ABCDEF`) has value `v`, for every `v` below the radix |
| `JsNumbers.DigitsValueLeadingZero` | src/server.ts:44 | a leading `0` adds nothing to the value of a digit string |
| `JsNumbers.ParseMagnitudeOfDecimal` | src/server.ts:44 | the digit part of `parseInt` reads any decimal run, leading zeros included, as its `DigitsValue`, whatever non-digit text follows (no `x` right after a lone `0`) |
| `JsNumbers.ParseIntOfDecimal` | src/server.ts:44 | `parseInt` reads any decimal run, leading zeros included, as its value and ignores the non-digit text after it |
| `JsNumbers.ParseIntOfSign` | src/server.ts:44 | after a `+` `parseInt` reads the digit part unchanged, after a `-` it negates it, and NaN stays NaN |
| `JsNumbers.DigitRun` | src/server.ts:44 | `parseInt` reads the longest run of digits: everything in it is a digit and the character after it is not |
| `JsNumbers.NatToString` | src/server.ts:92 | the decimal text of an id is non-empty, all digits, and has no leading zero unless the id is 0 |
| `JsNumbers.DigitsValueOfNatToString` | src/server.ts:92 | the decimal text of `n` denotes `n` |
| `JsNumbers.NatToStringInjective` | src/server.ts:92 | different ids have different decimal texts |
| `JsNumbers.DigitRunOfDigits` | src/server.ts:44 | the digit run of a digit string followed by a non-digit ends exactly at the non-digit |
| `JsNumbers.ParseMagnitudeOfNatToString` | src/server.ts:44 | the unsigned part of `parseInt` reads back `n` from its decimal text followed by any non-digit text (no `x` right after a lone `0`) |
| `JsNumbers.ParseIntOfNatToString` | src/server.ts:44 | round trip: `parseInt` of an id's decimal text, possibly followed by such text, is that id |
| `JsNumbers.ParseIntOfNegative` | src/server.ts:44 | `-` followed by the decimal text of `n` reads as `-n` |
| `JsNumbers.ParseIntSkipsWhiteSpace` | src/server.ts:44 | leading white space does not change the value read |
| `JsNumbers.ParseMagnitude` | src/server.ts:44 | the digit part of `parseInt`: a `0x`/`0X` prefix selects radix 16, the value is that of the longest digit run, NaN when the run is empty (the run's value is `DigitsValue`, most significant digit first); a number comes only from text starting with a decimal digit, and always does unless the text is a `0x` prefix (the value is fixed by `ParseMagnitudeOfDecimal`, `ParseIntOfHex`, `ParseIntOfBareHexPrefix`, `DigitValueTable`) |
| `JsNumbers.ParseSigned` | src/server.ts:44 | `parseInt` after the white space: optional sign, then the digit part; a number only from text starting with a digit or a sign and a digit, a negative one only after `-` (the value is fixed by `ParseIntOfSign` and `ParseIntOfDigitStart`) |
| `JsNumbers.ParseIntOfDigitStart` | src/server.ts:44 | text starting with a digit is neither trimmed nor signed, so `parseInt` reads its digit part |
| `JsNumbers.ParseInt` | src/server.ts:44 | `parseInt(userId)`: trim leading ECMAScript white space, optional sign, `0x` prefix, longest digit run, NaN when empty; a number only when a digit, or a sign and a digit, follows the white space, and a negative one only after `-` (the value is fixed by `ParseIntSkipsWhiteSpace`, `ParseIntOfSign`, `ParseIntOfDecimal`, `ParseIntOfHex`, `ParseIntOfBareHexPrefix`, `ParseIntNaN`; `ParseIntOfNatToString` is the round trip with `${n}`) |
| `JsNumbers.ParseIntOfHex` | src/server.ts:44 | with no radix argument, a `0x`/`0X` prefix makes `parseInt` read the longest run of hexadecimal digits and ignore the text after it |
| `JsNumbers.ParseIntOfBareHexPrefix` | src/server.ts:44 | `0x` with no hexadecimal digit after it is NaN |
| `JsNumbers.ParseIntNaN` | src/server.ts:44 | text whose first character after the leading white space is no sign and no digit is NaN |
| `Users.FirstIndexOf` | src/server.ts:44 | the position found holds the id and no earlier record does; no position means no record has the id |
| `Users.Find` | src/server.ts:44 | `find` yields a record iff the key is a number that some record's id equals, and then the first such record; NaN finds nothing |
| `Users.Appended` | src/server.ts:112-117 | the list after `users.push({id, ...user})`: one longer, every old record unchanged and in place, and last the record `WithId(NextId(users), p)`, where `NextId` is the id rule `length + 1` and `WithId` builds `{id, ...user}` (also `AppendedShape`, `SequentialIdsPreserved`) |
| `Users.AppendedShape` | src/server.ts:114-117 | the same last record spelled field by field: id `length + 1` and exactly the four given strings |
| `Users.SequentialIdsPreserved` | src/server.ts:112-117 | if the ids are `1..N` in order before a creation they are `1..N+1` after it |
| `Users.SequentialIdsUnique` | src/server.ts:112 | sequential ids are pairwise distinct |
| `Users.FindSequential` | src/server.ts:44 | with sequential ids, `find` by `k` gives the k-th record when `1 <= k <= N` and nothing otherwise |
| `Users.FindAppended` | src/server.ts:112-117 | the new record is found by its id when no older record has that id; when one does, `find` returns the older record instead |
| `Handlers.ReadAllUsers` | src/server.ts:16-34 | one entry, with the requested URI and `application/json`, whose payload is the whole current list, element for element |
| `Handlers.ReadProfile` | src/server.ts:36-67 | one entry with the requested URI and `application/json`; its payload is the not-found error object iff no record's id equals `parseInt(userId)` (always when that is NaN), and otherwise the first matching record |
| `Handlers.ProfileIsListed` | src/server.ts:41-44 | every record a profile read returns is in the list the all-users read returns |
| `Handlers.CreateUserToolResult` | src/server.ts:87-99 | exactly one text entry; it is `Failed to create user` iff `createUser` failed, and on success it is exactly `SuccessText(id)`, `User ${id} created successfully`, which announces the returned id |
| `Handlers.SuccessText` | src/server.ts:92 | `User ${id} created successfully`: the decimal text of the id between the fixed prefix `User ` and suffix ` created successfully`, never equal to the failure text (the id reads back by `SuccessTextAnnouncesId`) |
| `Handlers.SuccessTextAnnouncesId` | src/server.ts:92-96 | the success text carries its id readably and never equals the failure text |
| `Handlers.ToolResultDeterminesOutcome` | src/server.ts:88-98 | different outcomes of `createUser` give different tool results |
| `Store.UserStore.constructor` | src/server.ts:108-110 | the store holds the list the JSON module exports |
| `Store.UserStore.CreateUser` | src/server.ts:102-122 | the list becomes `Appended(old list, p)`, the old list plus the record with id `length + 1` (`NextId`) and the given fields, whether or not the write succeeds; the result is that id on a successful write and a failure otherwise |
| `Store.UserStore.CallCreateUserTool` | src/server.ts:87-99 | the append happens as in `createUser` and the answer is the tool's mapping of its outcome, so a failed write still leaves the record appended |
| `Store.CreateThenReadProfile` | src/server.ts:112-117 | round trip: after a creation that returned `id`, the profile `id` reads back the new record, provided no older record had that id |
| `Store.CreateThenReadProfileSequential` | src/server.ts:112-117 | with sequential ids the round trip always holds |
| `Store.CreateThenReadAll` | src/server.ts:25-33 | after a creation the all-users read lists every old record in place and the new one last |
| `Store.ProfilesOfSingleUser` | src/server.ts:44-66 | with one user of id `k`, the profile read of `k` returns that user and the read of `k + 1` returns the not-found error object |
| `Store.ProfileWithLeadingZero` | src/server.ts:44-66 | a profile read of `0` followed by the decimal id answers exactly as the read of the id itself (`users://01/profile` finds user 1) |
| `Store.FirstSuccessText` | src/server.ts:92 | the first user's success text is `User 1 created successfully` |

## Left out

- MCP SDK internals (server construction, registration and dispatch of resources and tools, `ResourceTemplate` URI matching, handshake, transport, `main`): library code not part of this model. The profile handler takes the extracted `userId` and the request URI's `href` as parameters.
- zod validation of the tool arguments (src/server.ts:69-74): the SDK enforces it before the handler runs; `UserParams` holds four strings.
- `fs.writeFile` and the dynamic `import` of `users.json`: the write is only its success or failure (`writeSucceeds`); the file contents are not modelled; a failing first import of the module is not modelled.
- `JSON.stringify` (and its pretty-printing): payloads are JSON values (`Json`), not their text.
- JavaScript numbers are doubles: `parseInt` and ids are modelled as exact integers, so precision loss above 2^53 is not captured; `-0` and `0` are the same integer, as they compare equal under `===`.
- `parseInt` of a `userId` that the SDK hands over as an array of strings (through its `toString`) is not modelled; `userId` is one string.
- Strings are sequences of Unicode scalar values rather than UTF-16 code units; white space follows the ECMAScript list of characters.
- Concurrency: two tool calls interleaving around the `await` of the file write are not modelled; the model runs one handler at a time.
- src/client.ts (interactive menu, console output) and the sampling-based and prompt capabilities are not part of this model.
