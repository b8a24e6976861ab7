# Access-group batch operations, modelled in Dafny

This project models the batch membership mutations of the access-groups
client (`AccessGroups` in `src/assets/js/access-groups.js`):

- `addCurators` promotes each listed member to curator;
- `removeCurators` demotes each listed curator, all with one shared group
  expiration;
- `sendInvitations` invites each listed member, using the fixed invitation
  expiration 5;
- the local filter of `getUsers`, which drops users whose `first_name` is
  `null`.

The remote access-control service is reached only through the executor
`this.api.execute({ path, endpointArguments, dataArguments })`. Here the
executor is an oracle, `Remote.Service`. It is given every request the service
has already received, oldest first, plus the new request. It either returns a
`Value` (a status code, a user list, or anything else) or raises an error with
a message. Nothing else about the service is assumed. Each operation takes the
oracle (`service`) and what the service had received before the call
(`history`). It yields `issued`, the ordered trace of requests it sent, and its
outcome: 200, a user list, or a raised error with its message.

Modules:

- `Remote` (remote.dfy): requests, bodies, values, outcomes, and the `Service` oracle.
- `Filtering` (filtering.dfy): `Array.prototype.filter`, with order and multiplicity lemmas.
- `BatchLoop` (batch_loop.dfy): the loop shared by the three batch operations. It awaits
  one request per item, in list order. It keeps returned values. The first raised
  error stops it, because the `try` encloses the whole loop. `Issue` is the
  reference definition of that loop. Its lemmas characterise it completely: every
  request returns, or there is a first one that raises.
- `AccessGroups` (access_groups.dfy): the request shapes, the constants, a
  reference run per operation (`AddCuratorsRun`, `RemoveCuratorsRun`,
  `SendInvitationsRun`), the three operations as loop methods proved equal to
  their reference runs, the aggregation of invitation results, `GetUsers`, and
  the lemmas stating what each operation promises.

Returned failures and raised errors: a request of `sendInvitations` that
*returns* a non-200 value is collected, and the loop goes on to the next
member. A request that *raises* ends `sendInvitations` at once, just as it
ends `addCurators` and `removeCurators` (`SendInvitationsComplete` versus
`SendInvitationsHalts`).

## Model

| member | source | states |
|---|---|---|
| `Filtering.Filter` | src/assets/js/access-groups.js:183 | The result has no more elements than the input. Every element it holds is in the input and passes the test. Every input element that passes the test is in it. |
| `Filtering.FilterAppend` | src/assets/js/access-groups.js:331 | Filtering preserves order: filtering `a + b` gives filtered `a` followed by filtered `b`. |
| `Filtering.FilterCount` | src/assets/js/access-groups.js:331 | Filtering keeps every occurrence of a passing element, so duplicates survive. It keeps no occurrence of a failing element. |
| `BatchLoop.IssueShape` | src/assets/js/access-groups.js:114-120 | The loop sends only planned requests, as a prefix of the plan in plan order, with none skipped or repeated. It collects one value per request that returned. It reaches the end of the plan unless an error stopped it. |
| `BatchLoop.IssueComplete` | src/assets/js/access-groups.js:162-182 | When no request raises, every planned request is sent in order. The i-th collected value is what the i-th request returned, after the service had received everything before it. |
| `BatchLoop.IssueHalts` | src/assets/js/access-groups.js:113-125 | When the k-th request is the first to raise, exactly requests 0..k are sent and nothing after k. The loop ends with that error's message, holding the k values returned before it. |
| `BatchLoop.FirstRaise` | src/assets/js/access-groups.js:114-120 | If some request of the loop raises, there is a first one that raises. |
| `BatchLoop.IssueRaisesIff` | src/assets/js/access-groups.js:113-125 | The loop ends without an error if and only if no planned request raises. |
| `AccessGroups.Aggregate` | src/assets/js/access-groups.js:183-187 | Reducing the invitation results gives 200 if and only if every result is exactly 200. Otherwise it gives the single error "Send invitation errors", whichever results failed and however many. |
| `AccessGroups.AddCurators` | src/assets/js/access-groups.js:112-126 | The loop method sends exactly the requests of the reference run and returns or raises exactly its outcome. An empty list sends nothing and returns 200. |
| `AccessGroups.RemoveCurators` | src/assets/js/access-groups.js:128-142 | The loop method sends exactly the requests of the reference run and returns or raises exactly its outcome. An empty list sends nothing and returns 200. |
| `AccessGroups.SendInvitations` | src/assets/js/access-groups.js:159-192 | The loop method collects results and filters out the 200s. It sends exactly the requests of the reference run and returns or raises exactly its outcome. An empty list sends nothing and returns 200. |
| `AccessGroups.KeepNamed` | src/assets/js/access-groups.js:331 | A user is in the result if and only if it is in the directory's list and its first_name is not null. A missing first_name is kept. |
| `AccessGroups.KeepNamedInOrder` | src/assets/js/access-groups.js:331 | The kept users form the order-preserving subsequence of the list. A single user is kept exactly when its first_name is not null. Every copy of a kept user survives. |
| `AccessGroups.GetUsers` | src/assets/js/access-groups.js:323-337 | Exactly one `users/get` request is sent, with `[q, scope]`. A raised error keeps its message. A returned list is reduced to its named users. Any other returned value raises an Error carrying the message of the TypeError that calling `filter` on it throws. The call returns a value if and only if the service returned a list. |
| `AccessGroups.AddCuratorsSucceeds` | src/assets/js/access-groups.js:114-121 | `addCurators` returns if and only if no request raises, and it then returns 200 whatever values came back. In that case it sent one `curators/post` per curator, in list order, duplicates included. Each has path arguments `[groupName]` and body `{uuid}`. |
| `AccessGroups.AddCuratorsPayload` | src/assets/js/access-groups.js:115-119 | On every run, the i-th request sent is the `curators/post` for the i-th curator, with `[groupName]` and body `{uuid: curator.uuid}`. |
| `AccessGroups.AddCuratorsHalts` | src/assets/js/access-groups.js:114-125 | If the k-th request is the first to raise, the requests for curators 0..k are sent and none for a later one. `addCurators` raises with that error's message. |
| `AccessGroups.AddCuratorsTwice` | src/assets/js/access-groups.js:112-121 | Two successful calls with the same list send the plan twice, 2n requests in all, with no caching or de-duplication. |
| `AccessGroups.RemoveCuratorsSucceeds` | src/assets/js/access-groups.js:130-137 | `removeCurators` returns if and only if no request raises, and it then returns 200. In that case it sent one `curators/downgrade` per curator, in list order. Each has `[groupName, curator.uuid]` and body `{groupExpiration: expiration}`. |
| `AccessGroups.RemoveCuratorsPayload` | src/assets/js/access-groups.js:131-135 | On every run, the i-th request sent is `curators/downgrade` with `[groupName, curators[i].uuid]` and the same `{groupExpiration: expiration}` for every curator. |
| `AccessGroups.RemoveCuratorsHalts` | src/assets/js/access-groups.js:130-141 | If the k-th request is the first to raise, nothing is sent for a later curator. `removeCurators` raises with that error's message. |
| `AccessGroups.SendInvitationsPayload` | src/assets/js/access-groups.js:172-179 | On every run, the i-th request sent is `groupInvitations/post` with `[groupName]`. Its body is `{uuid: members[i].uuid, invitationExpiration: 5, groupExpiration: expiration}`, with 5 being the constant of line 9. |
| `AccessGroups.SendInvitationsComplete` | src/assets/js/access-groups.js:161-187 | When no request raises, every member is invited in list order. One result is collected per member, even when some are not 200. The call returns 200 if and only if all of them are 200, and otherwise raises "Send invitation errors". |
| `AccessGroups.SendInvitationsSucceeds` | src/assets/js/access-groups.js:183-191 | `sendInvitations` returns 200 if and only if every invitation request returns exactly 200. Any other outcome is a raised error. |
| `AccessGroups.SendInvitationsHalts` | src/assets/js/access-groups.js:171-191 | A raised error is not collected. If the k-th request is the first to raise, no later member is invited. The call raises with that error's own message, not the aggregate one. |

## Left out

- The single-request operations (`getGroup`, `updateGroupDetails`, `leaveGroup`, `createGroup`, `closeGroup`, `getAllMembers`, `deleteMember`, `renewMember`, `deleteInvitation`, `getUserInvitations`, `acceptInvitation`, `rejectInvitation`, `getAccessGroupMemberInvitations`, the four terms-of-service operations): each forwards one request and rethrows its error's message, with no logic of its own.
- The stubs `updateInviteText` and `resendInvitation` (lines 310-321) return constant strings. The constructor only creates the collaborators.
- `./access-groups-api.js` (the `Api` classes and their transport) is not part of this model. The executor is the `Service` oracle, and a fresh `new Api()` in `getUsers` is the same oracle.
- `console.log` diagnostics and the Promise machinery. Every `await` completes before the next request is built, so a sequential loop has the same order of requests, provided nothing else changes the inputs while a request is pending (next line).
- `AddCurators`, `RemoveCurators`, `SendInvitations`: the `curators` and `members` lists and the member objects in them are assumed to stay unchanged for the whole batch, because the model takes them as an immutable `seq<Member>`. The source walks the caller's live array with `for...of`, re-reading its length and next element after every `await`, and reads each `uuid` only when that item's request is built. Other code that runs during an `await` and pushes to, splices or edits the list or a member object would change which requests are sent and what they carry. The model does not capture that aliasing.
- Thrown values that are not `Error` objects: their `message` may be undefined, so the rethrown error's message would be empty. The model gives every raised error a string message and rethrows it unchanged.
- `GetUsers`: only the TypeError text for a non-null, non-list reply is modelled, and that text ("users.filter is not a function") is how one family of engines (V8, SpiderMonkey) words it; JavaScriptCore words it differently. A `null` or `undefined` reply raises a differently worded TypeError in JavaScript. A `null` element inside the list, whose destructuring would throw, is not modelled: list entries are always user records.
- Batch list entries: the entries of the `curators` and `members` lists are always `Member` records with a string uuid. A `null` or `undefined` entry makes reading `.uuid` throw a TypeError before that item's request is sent, and the batch then stops with that message; this path is not modelled. Neither is an entry without a `uuid`, whose body would be serialised without the field.
- Expiration values are modelled as integers and passed through unchanged. A non-iterable member list, which `for...of` would reject, is not modelled.
