# Party service: a verified model

This project models the party endpoints of the Hand service.

- A player creates a party of at most eight members. The party gets a random eight-character invite code, and the player is its owner.
- Other players join with the code and leave again.
- The owner kicks members, hands ownership to another member, regenerates the code or disbands the party.
- Two internal endpoints look up a party by its id or by a player's id.

The model has these parts:

- `models.dfy` holds the two records, the roles and the default size.
- `invite.dfy` builds invite codes as hexadecimal text.
- `tables.dfy` treats the `parties` and `party_members` tables as maps. The parties map is keyed by id. The members map is keyed by account id, which a unique index makes a key. The file also states the invariants of the two tables and proves that every change a handler makes keeps them:
  - a membership row names an existing party;
  - a party's `owner_id` is its only owner-role member;
  - no party has more members than its `max_size`;
  - invite codes are unique.
- `handler.dfy` is a `Handler` class whose two fields are those tables. Each write endpoint is a method. Each method runs the source's checks in the source's order and answers with the first check that fails. It leaves both tables untouched on every error. Its `ensures` give the new tables exactly. The read endpoints are functions of the tables.
- `scenario.dfy` proves the outcome of two request sequences on a fresh handler:
  - create, join, kick;
  - create, join, the owner leaves.

Inputs the source draws from its environment are parameters of the model:

- the calling account;
- the id from `uuid.New()`;
- the four bytes from `crypto/rand`;
- the decoded request body. A body that does not decode is `None`.

Unique-constraint violations are modelled as errors that depend only on the current state:

- A new party whose id or invite code is already in use answers `create_failed`.
- A regenerated code that another party already holds answers `regenerate_failed`.

## Model

| member | source | states |
|---|---|---|
| Models.ParseRole | internal/models/models.go:10-12 | only the strings "owner" and "member" denote a role, and each denotes the role whose name it is |
| Models.RoleNameRoundTrip | internal/models/models.go:10-12 | every role read back from its role string is the same role |
| InviteCodes.Hex | internal/parties/handler.go:28 | hexadecimal encoding gives two lower-case hex digits per byte |
| InviteCodes.UnhexHex | internal/parties/handler.go:28 | decoding the hex text of any byte string gives back those bytes |
| InviteCodes.HexInjective | internal/parties/handler.go:25-29 | different random bytes never give the same code |
| InviteCodes.GenerateInviteCode | internal/parties/handler.go:25-29 | the code has 8 lower-case hex characters and decodes to the four random bytes |
| Tables.FindMembership | internal/parties/handler.go:35-45 | the result is a row of the table; in a keyed table it exists exactly when some row has that account id, and it has that account id |
| Tables.MembersOf | internal/models/models.go:27 | a row is among the party's members exactly when it is in the table and its party_id is the party's id |
| Tables.GetPartyWithMembers | internal/parties/handler.go:47-58 | a party comes back exactly when its id is in the table, together with all of its member rows |
| Tables.PartiesWithCode | internal/parties/handler.go:163-166 | a party id is returned exactly when that party has the given invite code |
| Tables.WithoutParty | internal/parties/handler.go:497-500 | deleting by party id removes exactly that party's rows and keeps every other row unchanged |
| Tables.RowsOfCount | internal/database/database.go:70 | because account_id is unique, a set of accounts has exactly as many rows as accounts |
| Tables.MembersCount | internal/parties/handler.go:176 | the member count the join check compares with max_size equals the party's number of member accounts |
| Tables.ExactlyOneOwner | internal/parties/handler.go:217-220 | in valid tables, exactly one member of a party has role owner, and it is the party's owner_id |
| Tables.OnePartyPerAccount | internal/database/database.go:70 | an account is a member of at most one party |
| Tables.CodeNamesOneParty | internal/models/models.go:22 | with unique invite codes, a code names at most one party, so the join lookup is determined |
| Tables.FetchedViewWellFormed | internal/parties/handler.go:47-58 | every party fetched from valid tables has only its own rows, a single owner that is its owner_id, and no more members than max_size |
| Tables.ValidAfterCreate | internal/parties/handler.go:74-99 | inserting a fresh party with its owner row keeps every invariant, and the new party's only member is the owner |
| Tables.ValidAfterJoin | internal/parties/handler.go:176-190 | inserting a member row into a party below capacity keeps every invariant and adds exactly that account to the party |
| Tables.ValidAfterRemove | internal/parties/handler.go:222-225 | deleting a member-role row keeps every invariant |
| Tables.OthersAreMembers | internal/parties/handler.go:268-275 | every member of the owner's party other than the owner has role member |
| Tables.ValidAfterTransfer | internal/parties/handler.go:333-359 | demoting the owner, promoting another member of its party and moving owner_id keeps every invariant |
| Tables.ValidAfterDisband | internal/parties/handler.go:495-509 | deleting all of a party's rows and then the party keeps every invariant and leaves that party with no members |
| Tables.ValidAfterRecode | internal/parties/handler.go:417-423 | giving a party a code no other party holds keeps every invariant |
| Parties.ServerErrorsAreFailures | internal/parties/handler.go:101-105 | every error answer has a 4xx status, except the database failures: those answer 500, and they are exactly the errors whose code ends in `_failed` |
| Parties.CodeDeterminesStatus | internal/parties/handler.go:252-257 | two error answers with the same `error` code have the same status; only invalid_request is shared, by an unbound body and a self-targeted kick or transfer, and both answer 400 |
| Parties.MessagesDistinct | internal/parties/handler.go:234 | the messages "Left party", "Member kicked" and "Party disbanded" are all different, so each names exactly one outcome |
| Parties.IssuedCodesBind | internal/parties/handler.go:142-151 | every invite code the service generates passes the required-field binding of the join request |
| Parties.Handler.constructor | internal/database/database.go:41-83 | a fresh handler starts with empty, valid tables |
| Parties.Handler.CreateParty | internal/parties/handler.go:62-111 | answers already_in_party for a caller in a party and create_failed on an id or code clash; otherwise it adds the party with max_size 8 and the caller as owner, and returns the party with that single member; the invariants are kept |
| Parties.Handler.GetMyParty | internal/parties/handler.go:113-136 | answers not_in_party exactly when the caller has no membership (on valid tables); otherwise it returns the caller's party, which contains the caller and is well formed |
| Parties.Handler.JoinParty | internal/parties/handler.go:138-202 | answers invalid_request, already_in_party, invalid_code or party_full, in that order; otherwise it adds the caller as a member of the coded party, whose member count grows by one; nothing else changes and the invariants are kept |
| Parties.Handler.AddMember | internal/parties/handler.go:183-201 | the insert of a member row and the re-fetch return the party with the new member, one more than before, well formed |
| Parties.Handler.LeaveParty | internal/parties/handler.go:204-235 | answers not_in_party for a caller in no party; a member's row is deleted; an owner leaving disbands the party; afterwards the caller is in no party |
| Parties.Handler.KickMember | internal/parties/handler.go:237-291 | answers invalid_request, invalid_request (self), not_owner or not_in_party, in that order; otherwise it deletes only the target's row, which had role member |
| Parties.Handler.TransferOwnership | internal/parties/handler.go:293-371 | same checks as kick; otherwise the caller becomes a member, the target becomes owner and the party's owner_id, and the returned party is well formed |
| Parties.Handler.DisbandParty | internal/parties/handler.go:373-395 | answers not_in_party, then not_owner; succeeds exactly for an owner and removes the party and all of its members |
| Parties.Handler.RegenerateInvite | internal/parties/handler.go:397-434 | answers not_in_party, then not_owner, then regenerate_failed if another party holds the new code; otherwise only the owner's party gets the new code, which then names that party alone |
| Parties.Handler.GetPartyByID | internal/parties/handler.go:438-459 | answers invalid_id for an unparsable id and not_found for an unknown one; otherwise it returns the party with all its members, well formed |
| Parties.Handler.GetPlayerParty | internal/parties/handler.go:461-491 | answers invalid_id, then not_in_party for an account in no party; otherwise it returns that account's party with all of its member rows, including the account's own row, and it is well formed |
| Parties.Handler.Disband | internal/parties/handler.go:495-520 | removes the party row and exactly its membership rows, keeps the invariants and answers "Party disbanded" |
| Scenarios.CreateJoinKick | internal/parties/handler.go:62-291 | after A creates a party and B joins with its code, B sees two members; after A kicks B, B is in no party |
| Scenarios.OwnerLeaves | internal/parties/handler.go:204-235 | B joins A's party and it then has two members; when the owner A leaves, the party is gone: B is in no party and the party id is not found |

## Left out

- Timestamps (`created_at`, `updated_at`, `joined_at`) are not modelled. No endpoint decides anything on them.
- Storage failures other than unique-constraint violations are not modelled: `join_failed`, `leave_failed`, `kick_failed`, `transfer_failed`, `disband_failed` and `regenerate_failed` from I/O errors. Each of these leaves the tables unchanged, since the writes run in transactions or are single statements.
- `fetch_failed` is modelled only as the answer for a membership whose party row is missing. Valid tables rule that out.
- Concurrency is not modelled. Each request runs alone, as one atomic step. Three invariants hold only because of that:
  - The capacity invariant. The source's join checks capacity and inserts outside a transaction (internal/parties/handler.go:162-191), so two concurrent joins can overfill a party.
  - The one-owner invariant. A transfer checks ownership before its transaction (internal/parties/handler.go:316-334), so two concurrent transfers by one owner can leave two owner-role rows.
  - The invariant that every row names a party. A join racing a disband (internal/parties/handler.go:162-191 against 495-510) can insert a row for a deleted party, since the schema declares no foreign key.
- Parties.Handler.JoinParty: the re-fetch after the insert ignores its error in the source (internal/parties/handler.go:200). The model always returns the party, because in valid tables the party exists.
- Parties.Handler.TransferOwnership: the re-fetch after the transaction ignores its error in the source (internal/parties/handler.go:369). The model always returns the party, for the same reason.
- Success statuses are not modelled: 201 for a created party (internal/parties/handler.go:110) and 200 for every other success. A successful answer is `Ok` with its body; only error answers carry a status (`ApiError.Status`) and an `error` code (`ApiError.Code`).
- The `message` texts of error answers are not modelled, only their status and `error` code. The `message` field of the three success answers is `Message.Text`.
- The order of the members list is not modelled. The database returns it unordered, and the model uses a set.
- The members list of a successful create is `[owner]` in the source. The model returns the set `{owner}`.
- Role strings other than "owner" and "member" are not modelled. The handlers only ever write those two.
- JSON decoding is not modelled. Only the outcome of binding the required field is. Parsing of path parameters is modelled only by its outcome, `None` for a non-UUID.
- Request authentication and reading `account_id` from the request context are not modelled. The caller's account is a parameter.
- The router, server start-up and the schema DDL itself (beyond the empty tables and the account_id key it produces) are not part of this model. internal/router/router.go, cmd/server/main.go and the DDL of internal/database/database.go are outside it.
