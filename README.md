# Resource validation handler, modelled in Dafny

The repository is a single HTTP-triggered cloud function (`index.js`). Given a
`resourceGroupName` and an optional `vmName`, taken from the query string or
else from the request body, it looks the resource group up, looks the virtual
machine up when a name was given, and scores what it finds into a compliance
total: +10 or -10 for the resource group's existence, -10 for a VM that does
not exist, and for a VM that does, +10 or -10 for its OS type ("Linux" or
"Windows") and +10 or -10 for its size (one of three allowed sizes). It answers
400 when no resource-group name is given, 200 with a JSON report on a
completed validation, and 500 `Error: <message>` on any failure other than a
404.

`validator.dfy` (module `ResourceValidator`) holds the whole model:

- `Param` is the parameter precedence `query.key || (body && body.key)`
  (index.js:8-9).
- The two management-API calls are injected as total functions `rgDir` and
  `vmDir` that return a `Lookup`: `Found(record)`, `NotFound` (an error whose
  `statusCode` is 404) or `Failure(message)` (any other error).
- The nested reads `vm.storageProfile.osDisk.osType` (index.js:53) and
  `vm.hardwareProfile.vmSize` (index.js:54) are `ReadOsType` and
  `ReadVmSize`. A missing intermediate object throws a TypeError, whose text
  is `ReadError`'s, and the handler turns it into a 500.
- The two policy tests are `ValidOsType`, the exact comparison with "Linux"
  or "Windows" (index.js:57), and `ValidVmSize`, membership in the size
  allow-list (index.js:66-67). `ResourceGroupCheck` is the resource-group
  check (index.js:34-41) and `Points` its +10 or -10.
- `Handle` is the handler itself: an imperative method with the local
  accumulator `totalPoints`. It returns the response that the source assigns
  to `context.res`, plus the list of lookups it made.
- `Expected` and `Lookups` are an independent, phase-by-phase reference
  definition of the response and of the calls. `Checks` lists the scored
  checks and `Total` sums them. `Handle` is proved equal to this reference,
  and the lemmas state the handler's behaviour on every path in terms of it.

The resource-group record is a type parameter `G`. It is passed through to
`resourceGroupDetails` unchanged and never inspected.

## Model

| member | source | states |
|---|---|---|
| `ResourceValidator.Param` | index.js:8-9 | a truthy query value wins; otherwise the body's value is used when it is truthy; an empty query string falls back to the body; a falsy result (undefined or "") is absent |
| `ResourceValidator.Handle` | index.js:5-118 | the handler's response and lookups equal the reference definition; the status is 400 exactly when no resource-group name was given, and then the body is the fixed message and no lookup is made |
| `ResourceValidator.TotalBounds` | index.js:26-27 | a run of n checks, each worth exactly +10 or -10, scores a multiple of 10 between -10n and 10n |
| `ResourceValidator.ScoreBounds` | index.js:26-91 | every 200 response has message "Validation results" and a totalPoints that is a multiple of 10 in [-30, 30] |
| `ResourceValidator.StatusSelection` | index.js:11-116 | the status is always 200, 400 or 500; 400 exactly when the resource-group name is missing, with the fixed message; a JSON body exactly on 200; a 500 body is always `Error: <message>` |
| `ResourceValidator.ResourceGroupFailure` | index.js:34-45 | a non-404 failure of the resource-group lookup gives 500 with that error's message, and no VM lookup is made |
| `ResourceValidator.NoVmName` | index.js:34-95 | with no VM name: no VM lookup, vmStatus "Not Checked", no vmDetails, totalPoints exactly +10 (group found, details present, "Validated") or -10 (group 404, no details, "Not Found") |
| `ResourceValidator.VmNotFound` | index.js:49-89 | a VM 404 subtracts exactly 10 and runs no OS or size check; vmStatus is "Not Found" with no vmDetails; the VM lookup is made whether or not the group was found |
| `ResourceValidator.VmFound` | index.js:52-102 | a found VM earns nothing for existing; +10 iff osType is exactly "Linux" or "Windows", else -10; +10 iff vmSize is one of the three allowed sizes, else -10; vmStatus "Validated"; vmDetails is the projection {name, osType, vmSize} |
| `ResourceValidator.VmFailure` | index.js:52-81 | a non-404 VM lookup failure, or a VM record whose OS disk or hardware profile cannot be read, gives 500 with the first error's message |
| `ResourceValidator.ScoreValues` | index.js:26-91 | the total of a 200 response is exactly one of -30, -20, -10, 0, 10, 30: the group check alone, plus a VM 404, or plus the two checks of a found VM; 20 never occurs |
| `ResourceValidator.ScoreExtremes` | index.js:36-78 | both -30 (group 404, OS type "linux" in the wrong case, size not allowed) and 30 (group found, "Linux", "Standard_B2s") are reachable |

## Left out

- The Azure SDK clients, the ambient credential and the hard-coded subscription ID (index.js:1-3, 20-23, 30, 50). They are network I/O; their results are the injected `rgDir` and `vmDir` lookups.
- The `{ expand: 'instanceView' }` option of the VM lookup. It changes what the API returns, not what the handler decides, so `GetVirtualMachine` does not record it.
- `context.log` messages. They are diagnostics and not part of the response.
- async/await and the function host. A request has no internal concurrency, and requests share no state. `Expected` is a function, so identical requests against identical lookups give identical responses; no separate lemma is stated for this.
- General JavaScript truthiness. Parameters are strings or undefined, and non-string body values (numbers, objects) are not modelled. The body is either absent or a map of string fields.
- The contents of the resource-group record. It is an opaque type parameter, passed through.
- Error details beyond the message. An error without a `message` (which would print `Error: undefined`) and a `null`, rather than undefined, intermediate object in a VM record (whose TypeError says "of null") are not distinguished. The TypeError text is the V8 engine's wording.

## Notes

- The handler's comment at index.js:27 lists VM existence among the checks worth ten points. In the code a found VM earns nothing for existing; only a missing VM is scored (-10). The model follows the code.
- The totals a 200 response can carry are exactly {-30, -20, -10, 0, 10, 30} (`ScoreValues`). A total of 20 cannot occur: two checks happen only after a VM 404, which always scores -10. A total of -30 needs the group lookup to return 404 while the VM lookup in that group succeeds; the handler does not rule this out, though the management API would not normally answer that way. `ScoreExtremes` exhibits -30.
- OS-type matching is exact and case-sensitive. "linux" scores -10, as `ScoreExtremes` shows.
