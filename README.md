# proposal-api: the `/api/proposal` route as a verified model

The route collects governance proposals from four platforms (Aave, Compound,
Uniswap, MakerDAO) and returns them in one list of uniform records
`{title, id, platform, state, link, endBlock}`. This project models its logic
once every upstream response has been fetched. It covers:

- **The handler.** The handler does four things:
  - It validates the optional `blockNumber` query parameter.
  - It turns the optional `platforms` parameter, a string or an array, into a set of lowercase keys. An array is lowercased in place.
  - It runs the selected platform adapters in the fixed order aave, compound, uniswap, maker.
  - It concatenates what they return.
- **The four adapters.** Each walks its raw list, builds one record per entry and stops at an early-termination rule:
  - Aave and Uniswap stop at the first `endBlock` below the block number.
  - Compound stops at the first proposal whose latest state has no `end_time`.
  - Maker stops at the first poll that fails its carry-on rule.

Each adapter loop is a Dafny `method` with a `while` loop and `break`, as in the
source. It is proved equal to a declarative function (`Output`) of its input.
The properties the route promises are lemmas about those functions.

The handler works the same way:
- `Handler.Handle` is proved equal to `Handler.Respond`.
- `Respond` returns the response together with the trace of external lookups it performs: the chain height, then one call per adapter.
- The lemmas about the response and that trace are stated over `Respond`.

Files:
- `text.dfy`: ASCII `toLowerCase` and the `parseInt` model.
  - `parseInt` reads an optional sign and a decimal digit prefix.
  - `None` stands for `NaN`.
- `records.dfy`: the uniform record, the adapter outcome, the cutoff walk shared by Aave and Uniswap, and the conformance predicates.
- `aave.dfy`, `uniswap.dfy`, `compound.dfy`, `maker.dfy`: one adapter each.
- `handler.dfy`: the route handler.

Modelling decisions:
- **Faults.** Some payload shapes make an adapter throw a `TypeError`, which the handler's catch-all turns into an empty response (`res.end()`). These cases are modelled as `Outcome.Faulted`, and the handler answers `NoBody`. They are not preconditions. The cases are:
  - an Aave state that names an inherited `Object.prototype` member;
  - a uni.vote list shorter than the kept Uniswap prefix;
  - a Compound proposal with an empty `states` list.
- **`NaN` endBlock.** An `endBlock` that `parseInt` turns into `NaN` is `None`, which is what the JSON response carries as `null`. Since `NaN < blockNumber` is false, such a record never stops a walk.
- **External inputs.** `Upstream` holds the payloads of the upstream services, the chain height from `getBlockNumber`, and the current time in milliseconds for the Maker poll walk.

Where the code's behaviour is easy to misread, the model follows the code:
- **Aave synonym table.** The lookup `{"failed": "defeated"}` is applied to the raw state before lowercasing. So `"failed"` becomes `"defeated"`, but `"Failed"` becomes `"failed"` (`Aave.CapitalisedFailedIsNotRenamed`).
- **Maker poll state.** A poll's state is `"active"` when its end date is already past (`endDate < now`), not when it is still open. With the `break` on a non-active state, the poll walk keeps polls that have ended and started at most 14 days ago. It stops at the first poll that is still open.
- **Compound fields.** The title is `proposal.title`. Compound and Maker records always carry a `null` endBlock. Neither adapter consults the block number.

## Model

| member | source | states |
|---|---|---|
| Text.Lower | pages/api/proposal.js:36 | `toLowerCase` keeps the length, shifts exactly the upper-case ASCII letters and yields a lowercase string |
| Text.LowerAll | pages/api/proposal.js:34-37 | lowercasing every element of a list keeps its length and lowercases each position |
| Text.LowerIdempotent | pages/api/proposal.js:129 | lowercasing twice is lowercasing once |
| Text.LowerFixesLowercase | pages/api/proposal.js:129 | an already lowercase state is left unchanged |
| Text.ParseInt | pages/api/proposal.js:14-15 | `parseInt` is `NaN` exactly when no digit follows the optional sign; an unsigned result is non-negative |
| Text.ParseIntShow | pages/api/proposal.js:14 | the decimal form of any integer, followed by any non-digit text, parses back to that integer |
| Text.ScanShowNat | pages/api/proposal.js:14 | the digits of a natural number scan back to it |
| Text.ScanAppend | pages/api/proposal.js:14 | scanning a digit run and then the rest is scanning the rest from the run's value |
| Text.ShowNatDigits | pages/api/proposal.js:14 | the decimal form of a natural number is a non-empty digit run |
| Records.CutoffFrom | pages/api/proposal.js:111-114 | the walk stops at the first `endBlock` below the cutoff: every earlier one is not below it, and the stopping one is |
| Aave.GetProposals | pages/api/proposal.js:103-135 | the loop returns exactly `Aave.Output`: the normalised cutoff prefix, or the fault at the first bad state inside it |
| Aave.FirstFault | pages/api/proposal.js:120-129 | the first kept record whose state lookup yields no string, and all before it normalise |
| Aave.OutputIsCutoffPrefix | pages/api/proposal.js:108-135 | the output is the longest prefix whose endBlock is not below the block number, each record normalised in input order; a fault lies inside that prefix and its state is an inherited member |
| Aave.NormalizeFields | pages/api/proposal.js:105-132 | title, id and `"Aave"` are copied; `"failed"` becomes `"defeated"`, every other state is lowercased; the link is the governance URL + id + "-" + ipfsHash; the endBlock is `parseInt` of the raw one; inherited-member states fault |
| Aave.CapitalisedFailedIsNotRenamed | pages/api/proposal.js:121-129 | `"Failed"` is not in the synonym table and comes out as `"failed"` |
| Aave.OutputConforms | pages/api/proposal.js:108-135 | every emitted record is an Aave one with a lowercase state and a null endBlock or one at least the block number |
| Uniswap.GetProposals | pages/api/proposal.js:158-194 | the loop returns exactly `Uniswap.Output`: the cutoff prefix paired position by position with the uni.vote list, or the fault where that list runs out |
| Uniswap.OutputPairsPositionally | pages/api/proposal.js:169-193 | the i-th record takes title and link from the i-th uni.vote entry and id, lowercased status and endBlock from the i-th subgraph entry; it faults exactly when the uni.vote list is shorter than the kept prefix |
| Uniswap.OutputConforms | pages/api/proposal.js:169-193 | every emitted record is a Uniswap one with a lowercase state and a null endBlock or one at least the block number |
| Compound.GetProposals | pages/api/proposal.js:219-257 | the loop returns exactly `Compound.Output`, and faults on a proposal without state history |
| Compound.KeptFrom | pages/api/proposal.js:222-236 | the first proposal whose latest state has no end time or that has no states, with every earlier one having both |
| Compound.OutputIsOpenPrefix | pages/api/proposal.js:222-256 | the output is the prefix before the first latest state with a null `end_time`; each record takes that state lowercased, the proposals URL + id as link and a null endBlock; it faults exactly on an empty state history inside the walk |
| Compound.OutputConforms | pages/api/proposal.js:222-256 | every emitted record is a Compound one with a lowercase state and a null endBlock |
| Maker.GetProposals | pages/api/proposal.js:263-361 | the two loops return exactly `Maker.Output`: every executive entry, then the polls before the first that fails the carry-on rule |
| Maker.KeptFrom | pages/api/proposal.js:335-348 | the first poll that fails the carry-on rule, with every earlier one passing it |
| Maker.CarriesOnMeans | pages/api/proposal.js:341-348 | a poll is kept exactly when `endDate < now <= startDate + 14 days`, and is "active" exactly when `endDate < now` |
| Maker.OutputLayout | pages/api/proposal.js:286-359 | executives first (active, id = address, link = proposalLink, null endBlock), then the longest carry-on prefix of the polls (URL link, pollId id, null endBlock), and the first rejected poll is open or too old |
| Maker.OpenFirstPollKeepsNoPolls | pages/api/proposal.js:343-348 | a first poll that has not ended yet stops the poll walk at once |
| Maker.OutputConforms | pages/api/proposal.js:286-359 | every emitted record is a Maker one with a lowercase state and a null endBlock |
| Handler.LowercaseInPlace | pages/api/proposal.js:34-37 | the array's elements are replaced by their lowercased forms |
| Handler.SelectPlatforms | pages/api/proposal.js:26-45 | `checkPlatforms` and `platformsSet` are the normalised filter of the query, and an array filter is lowercased in place |
| Handler.RunPlatform | pages/api/proposal.js:47-53 | each key dispatches to its adapter |
| Handler.RunSelected | pages/api/proposal.js:55-63 | the selection loop returns what `Handler.Gather` specifies: the selected adapters' outputs in key order and the adapters called |
| Handler.GatherStep | pages/api/proposal.js:57-61 | one completing adapter appends its records and its call |
| Handler.Handle | pages/api/proposal.js:7-72 | the handler's response and lookups are `Handler.Respond` of the query; the platforms array is lowercased unless the block number is rejected |
| Handler.RejectedMeansBadRequest | pages/api/proposal.js:13-20 | a `blockNumber` that parses to `NaN` gives status 400 with "Invalid type for block number!" and no lookups; any other query gets 200 |
| Handler.HeightResolvedIffOmitted | pages/api/proposal.js:13-24 | the chain height is fetched exactly when `blockNumber` is absent, first and once; the listing reports the block number used |
| Handler.ExplicitBlockNumberIsUsed | pages/api/proposal.js:13-24 | a decimal `blockNumber` with any non-digit tail is the block number every selected adapter runs with and the response reports, and the height is not fetched |
| Handler.GatherCallsAdapters | pages/api/proposal.js:56-58 | the loop only calls adapters whose keys the filter selects, never the height lookup |
| Handler.GatherConcatenates | pages/api/proposal.js:55-63 | the loop completes exactly when no selected adapter faults, and then lists the selected outputs in key order |
| Handler.GatherOrder | pages/api/proposal.js:50-63 | a listing is Aave's records, then Compound's, Uniswap's and Maker's, each only if selected |
| Handler.ResponseIsGather | pages/api/proposal.js:55-69 | with an acceptable block number the response is the loop's listing under that number, or an empty response on a fault |
| Handler.GatherCallsSelected | pages/api/proposal.js:56-58 | the adapters called are a prefix of the selected keys in order, all of them when none faults |
| Handler.GatherFaultIsLastCall | pages/api/proposal.js:56-69 | a faulted loop stops right after calling the adapter at fault |
| Handler.NoFilterRunsAll | pages/api/proposal.js:50-58 | without a filter and when no adapter faults, all four adapters run, in the order aave, compound, uniswap, maker |
| Handler.EmptyFilterRunsNothing | pages/api/proposal.js:29-65 | with an accepted block number, an empty `platforms` array runs no adapter and yields an empty listing |
| Handler.UnknownNamesIgnored | pages/api/proposal.js:57 | names in the filter that are not platform keys change nothing |
| Handler.FilterFormsAgree | pages/api/proposal.js:33-44 | a string filter and a one-element array whose names agree up to case give the same set and the same response |
| Handler.FilterIgnoresCase | pages/api/proposal.js:34-38 | a key is in the array filter's set exactly when some element lowercases to it |
| Handler.DisplayNameSelects | pages/api/proposal.js:50-57 | each platform's display name lowercases to its key, so as a filter it selects its own adapter and no other |
| Handler.ResultsConform | pages/api/proposal.js:83-362 | each adapter's records carry its own platform name, a lowercase state and an endBlock that is null or at least the block number |
| Handler.GatherConforms | pages/api/proposal.js:55-63 | every record the loop collects passes those checks and comes from a selected platform |
| Handler.ResponseConforms | pages/api/proposal.js:55-65 | every listed record has a lowercase state, a null endBlock or one at least the reported block number, and comes from a selected platform |

## Left out

- Network access. Every `axios` request, the GraphQL query text and `getBlockNumber` (pages/api/proposal.js:75-79) are inputs: `Upstream` carries the payloads and the chain height.
- The chain height is taken as an integer. A `NaN` height from an unexpected blockcypher answer is not modelled.
- HTTP plumbing. `req`/`res`, `res.send`, `res.status(200).json` and `console.log` are left out. The response is `Handler.Response` with `Handler.StatusCode`.
- Exceptions other than the three modelled faults are left out. This includes network failures, non-string states or platform names, and payloads of the wrong shape, all of which the catch-all would also turn into `res.end()`.
- A repeated query key makes `req.query.blockNumber` an array, which `parseInt` reads through its comma-joined string (`["12", "13"]` gives 12). The model takes `blockNumber` as one string.
- `typeof` values other than `'string'` and `'object'` for `platforms` are left out. With them the source keeps an empty set and runs no adapter.
- JavaScript `Date` handling in the Maker poll walk. Dates are integer milliseconds, and `now` is one parameter for the whole walk, while the source creates a new `Date()` for each poll. `setDate(getDate() + 14)` is a fixed 14 × 24 h, which ignores daylight-saving shifts. An invalid date, which compares false, is not modelled.
- `Text.ParseInt` does not model leading whitespace, `0x` prefixes or the precision loss of very long digit strings. The model reads an optional sign and a decimal digit prefix.
- `Text.Lower` lowercases ASCII letters only. The full Unicode case mapping of `toLowerCase` is not modelled.
- The `parseInt(proposal.blockCreated)` values in the Maker adapter (pages/api/proposal.js:294, 350) are never used and are not modelled.
- The limit on the number of arguments that `push(...platformProposals)` can spread is not modelled.
- Concurrency is out of scope: the `await`s run one after another and nothing is shared.
