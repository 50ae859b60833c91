# Spark commission backend: endpoint model

A Dafny model of the core of Spark, a multi-industry (solar, pest, roofing, fiber) sales-commission
platform. It covers the ASP.NET minimal-API handlers that:

- preview and save roofing commissions;
- list, open and cancel sales;
- list, create, update and delete commission rates;
- run the payroll-batch lifecycle;
- list and approve allocations;
- manage announcements and their per-user views;
- manage support tickets and their status history.

It also covers the shared authentication gates and two pieces of the web client: the image-URL and
initials helpers, and the route guard.

The database context is the class `Store.SparkDb`. Its tables are `seq` fields, and a handler
reassigns them when it saves. EF lookups (`FindAsync`, `FirstOrDefaultAsync`) are first-match
searches over a table. A new identity value is one larger than every identity already in use.

The handler's inputs and the outside world are exposed as parameters:

- the clock: `now` and `today`;
- the caller: a `Session` with a user id and an authority level;
- the set of users a caller may see;
- environment values.

Money is `real`. `Math.Round(x, 2)` is modelled as rounding half to even, which is .NET's default.
The four per-industry rate tables share one `CommissionRate` type. The four allocation tables and
the override table share one `Allocation` type, tagged with its `Source` (a participant row of an
industry, or an override level).

Modules:

| module | file | models |
|---|---|---|
| `Common` | common.dfy | errors, `Result`, industries, ASCII case mapping, first-match lookup, identity values |
| `Ordering` | ordering.dfy | `Where`, and `OrderByDescending` as a sorted permutation |
| `Money` | money.dfy | `Math.Round(x, 2)` |
| `Store` | store.dfy | the entities and the `SparkDb` context |
| `EndpointAuth` | auth.dfy | `EndpointAuthHelpers` |
| `RoofingCalculator` | roofing_calculator.dfy | the commission preview |
| `RoofingSave` | roofing_save.dfy | the commission save (upserts of participant and override rows) |
| `RateCatalog` | rates.dfy | `RateEndpoints` |
| `Sales` | sales.dfy | `SalesEndpoints` |
| `Payroll` | payroll.dfy | `PayrollEndpoints` |
| `AllocationApproval` | allocations.dfy | `AllocationEndpoints` |
| `Announcements` | announcements.dfy | `AnnouncementEndpoints` |
| `Tickets` | tickets.dfy | `TicketEndpoints` |
| `WebUtils` | web_utils.dfy | `src/lib/utils.ts` |
| `RouteGuard` | middleware.dfy | `src/middleware.ts` |

## Model

| member | source | states |
|---|---|---|
| Common.ParseIndustry | Backend-Endpoints/RateEndpoints.cs:32-39 | an industry exactly when the lower-cased input is one of the four table names, and then that one |
| Common.ParseIndustryCaseInsensitive | Backend-Endpoints/AllocationEndpoints.cs:74-97 | every spelling of a key that differs only in case parses to the same industry |
| Common.ParseIndustryKey | Backend-Endpoints/PayrollEndpoints.cs:155-177 | each industry's route key parses back to that industry |
| Common.ToUpper | Backend-Endpoints/TicketEndpoints.cs:218 | same length; each ASCII lower-case letter mapped to upper case and nothing else changed |
| Common.ToUpperIdempotent | Backend-Endpoints/TicketEndpoints.cs:218 | upper-casing twice is upper-casing once |
| Common.ToLower | Backend-Endpoints/SalesEndpoints.cs:75 | same length; each ASCII upper-case letter mapped to lower case and nothing else changed |
| Common.ToLowerIdempotent | Backend-Endpoints/RateEndpoints.cs:32 | lower-casing twice is lowering once |
| Common.IndexWhere | Backend-Endpoints/SalesEndpoints.cs:146 | the index found satisfies the predicate and no earlier element does; none is found only when no element satisfies it |
| Common.IndexWhereCongruent | Backend-Endpoints/SalesEndpoints.cs:306 | tables that agree on the predicate row by row give the same first match |
| Common.NextId | Backend-Endpoints/TicketEndpoints.cs:147-148 | a new identity value is positive and exceeds every identity in the table |
| Ordering.SortDesc | Backend-Endpoints/AllocationEndpoints.cs:57 | the output is sorted by descending key and is a permutation of the input (same multiset) |
| Ordering.SortDescMembers | Backend-Endpoints/TicketEndpoints.cs:55 | sorting keeps exactly the elements it was given |
| Ordering.Filter | Backend-Endpoints/AllocationEndpoints.cs:43-48 | `Where`: every element kept passes, every passing element is kept, and no element is kept more often than it occurs |
| Ordering.FilterCount | Backend-Endpoints/AllocationEndpoints.cs:43-48 | `Where` keeps each passing element exactly as often as it occurs, and no failing one |
| Ordering.FilterAppend | Backend-Endpoints/TicketEndpoints.cs:237-244 | filtering a table with one row appended gives the old result, plus that row when it passes |
| Ordering.FilterNone | Backend-Endpoints/TicketEndpoints.cs:151-158 | filtering rows none of which passes gives nothing |
| Money.HalfEven | Backend-Endpoints/RoofingCalculatorEndpoints.cs:294 | the nearest integer, and an exact tie goes to the even neighbour |
| Money.Round2 | Backend-Endpoints/RoofingCalculatorEndpoints.cs:294 | a whole number of cents within half a cent of the input; at a midpoint, the even cent |
| Money.Round2Nearest | Backend-Endpoints/RoofingCalculatorEndpoints.cs:294 | any whole-cents value strictly within half a cent of the input is the rounded result |
| Money.Round2Idempotent | Backend-Endpoints/RoofingCalculatorEndpoints.cs:294 | rounding a rounded amount changes nothing |
| Money.Round2Midpoints | Backend-Endpoints/RoofingCalculatorEndpoints.cs:294 | 0.125 rounds to 0.12, 0.135 to 0.14, and -0.125 to -0.12 (to even, not away from zero) |
| Store.FindSale | Backend-Endpoints/SalesEndpoints.cs:146 | a found index holds that sale id; none found means no row has it |
| Store.FindBatch | Backend-Endpoints/PayrollEndpoints.cs:128 | a found index holds that batch id; none found means no row has it |
| Store.FindAnnouncement | Backend-Endpoints/AnnouncementEndpoints.cs:165 | a found index holds that announcement id; none found means no row has it |
| Store.FindTicket | Backend-Endpoints/TicketEndpoints.cs:79 | a found index holds that ticket id; none found means no row has it |
| Store.FindAllocation | Backend-Endpoints/AllocationEndpoints.cs:77-93 | a found row has the id and belongs to the named industry's table; none means that table has no row with the id |
| Store.FindOverride | Backend-Endpoints/AllocationEndpoints.cs:205 | a found row has the id and belongs to the override table; none means no override row has the id |
| Store.ItemRow | Backend-Endpoints/AllocationEndpoints.cs:120-137 | an item names a row exactly when its industry parses and that industry's table has a row with its id |
| EndpointAuth.GetAuthenticatedUserId | Backend-Endpoints/EndpointAuthHelpers.cs:14-17 | the session's user id claim, if any |
| EndpointAuth.GetAuthorityLevel | Backend-Endpoints/EndpointAuthHelpers.cs:76-79 | the session's authority level, or 1 when it has none |
| EndpointAuth.RequireAuth | Backend-Endpoints/EndpointAuthHelpers.cs:19-32 | passes iff a user id is present; otherwise 401 and user id 0 |
| EndpointAuth.RequireAuthAndOwnership | Backend-Endpoints/EndpointAuthHelpers.cs:34-50 | passes iff signed in and the owner or level 5; 401 without a user, 403 otherwise |
| EndpointAuth.RequireAuthority | Backend-Endpoints/EndpointAuthHelpers.cs:56-71 | passes iff signed in with at least the minimum level; 401 without a user, 403 otherwise |
| EndpointAuth.RequireAuthorityMonotone | Backend-Endpoints/EndpointAuthHelpers.cs:56-71 | passing a higher gate implies passing a lower one, with the same user id |
| EndpointAuth.AuthenticationFirst | Backend-Endpoints/EndpointAuthHelpers.cs:34-71 | a caller without a user id always gets 401, never 403 |
| EndpointAuth.MissingLevelIsLevelOne | Backend-Endpoints/EndpointAuthHelpers.cs:76-79 | a session without a level passes level 1 and fails level 2 |
| RoofingCalculator.CommissionableAmountSpec | Backend-Endpoints/RoofingCalculatorEndpoints.cs:231-245 | MP1 pays on the front-end received amount and MP2 on the back-end amount when present, otherwise on half the contract; any milestone other than 1 behaves as 2 |
| RoofingCalculator.FallbackBasesCoverContract | Backend-Endpoints/RoofingCalculatorEndpoints.cs:231-245 | with nothing received, the two milestone bases are equal and add up to the contract amount |
| RoofingCalculator.Specificity | Backend-Endpoints/RoofingCalculatorEndpoints.cs:270-274 | at most three scoping columns can score |
| RoofingCalculator.BestMatch | Backend-Endpoints/RoofingCalculatorEndpoints.cs:247-276 | the pick is a candidate; no candidate is more specific; no earlier candidate is as specific (the stable sort keeps table order); none exactly when there is no candidate |
| RoofingCalculator.FindBestMatchingRate | Backend-Endpoints/RoofingCalculatorEndpoints.cs:247-276 | a returned rate is a candidate from the table; no rate only when no candidate exists |
| RoofingCalculator.MoreSpecificRateWins | Backend-Endpoints/RoofingCalculatorEndpoints.cs:268-275 | a less specific candidate is never picked over a more specific one, and the pick is at least as specific |
| RoofingCalculator.OverrideLookupTakesFirstUnscoped | Backend-Endpoints/RoofingCalculatorEndpoints.cs:330-337 | an override lookup picks the first candidate in the table, and that rate has no role, installer or state code |
| RoofingCalculator.CalculateAllocationAmount | Backend-Endpoints/RoofingCalculatorEndpoints.cs:278-295 | whole cents, within half a cent of percent-of-base plus the flat amount for the milestone's columns |
| RoofingCalculator.EightPercentOfHalfContract | Backend-Endpoints/RoofingCalculatorEndpoints.cs:231-295 | example: a 10,000 contract with nothing received and an 8% MP1 rate pays 400.00 |
| RoofingCalculator.PercentPlusFlat | Backend-Endpoints/RoofingCalculatorEndpoints.cs:278-295 | example: 10% plus 5.00 flat on a base of 100 pays 15.00 |
| RoofingCalculator.ActiveManager | Backend-Endpoints/RoofingCalculatorEndpoints.cs:313-323 | a manager returned has an active employee record |
| RoofingCalculator.PreviewWalkFacts | Backend-Endpoints/RoofingCalculatorEndpoints.cs:297-366 | from any level, the lines sit at strictly rising levels no higher than 5, no more of them than levels remain, each paying a positive amount to someone other than the sales rep |
| RoofingCalculator.PreviewWalkEnds | Backend-Endpoints/RoofingCalculatorEndpoints.cs:313-323 | where the manager chain ends, the rest of the walk has no lines |
| RoofingCalculator.OverrideStepLine | Backend-Endpoints/RoofingCalculatorEndpoints.cs:329-358 | a level gives at most one line, paid to that manager at that level, and only for a positive amount |
| RoofingCalculator.PreviewWalkStep | Backend-Endpoints/RoofingCalculatorEndpoints.cs:313-363 | below a manager who is not the sales rep, the walk is that level's line, if any, followed by the walk from the next level |
| RoofingCalculator.OverrideLevelLines | Backend-Endpoints/RoofingCalculatorEndpoints.cs:329-358 | one pass of the loop yields exactly that level's line, if any |
| RoofingCalculator.PreviewWalkBounds | Backend-Endpoints/RoofingCalculatorEndpoints.cs:297-366 | the walk from the sales rep has at most five lines, at levels 1 to 5, each positive and paid to someone other than the rep |
| RoofingCalculator.PreviewStopsAtSalesRep | Backend-Endpoints/RoofingCalculatorEndpoints.cs:325-327 | the walk stops where the chain returns to the sales rep, whatever lies above |
| RoofingCalculator.CalculateOverrides | Backend-Endpoints/RoofingCalculatorEndpoints.cs:297-366 | the loop yields exactly the preview walk from the sales rep at level 1 (bounded as `PreviewWalkBounds` states) |
| RoofingCalculator.PreviewLineFacts | Backend-Endpoints/RoofingCalculatorEndpoints.cs:157-210 | the line is the participant's; it has no rate exactly when the lookup finds none, and then pays 0; with a rate, it carries that rate's id and pays its rounded amount on the milestone base |
| RoofingCalculator.PreviewLinesAt | Backend-Endpoints/RoofingCalculatorEndpoints.cs:157-211 | the preview has one line per participant, line k being participant k's |
| RoofingCalculator.SumOverridesPositive | Backend-Endpoints/RoofingCalculatorEndpoints.cs:213 | the override total is non-negative, and positive exactly when there is a line |
| RoofingCalculator.NoRateNoOverrides | Backend-Endpoints/RoofingCalculatorEndpoints.cs:168-198 | when no participant has a rate, the preview has no override lines |
| RoofingCalculator.CalculateParticipant | Backend-Endpoints/RoofingCalculatorEndpoints.cs:157-211 | one loop iteration yields that participant's line and override lines |
| RoofingCalculator.MilestoneLoopStep | Backend-Endpoints/RoofingCalculatorEndpoints.cs:157-213 | proof step of the loop, not source behaviour: one pass of the participant loop extends the lines, the override lines and the running total by that participant's share |
| RoofingCalculator.CalculateMilestone | Backend-Endpoints/RoofingCalculatorEndpoints.cs:147-229 | the lines are the participants' preview lines, one each and in order; the overrides are those of the participants with a rate; the totals are the sums, and the grand total is their sum |
| RoofingCalculator.PreviewCommission | Backend-Endpoints/RoofingCalculatorEndpoints.cs:14-82 | 404 with the sale id for an unknown sale; 400 for a non-roofing project, then for a missing or zero contract amount; MP1 and MP2 present exactly when the milestone asks for them, each equal to that milestone's calculation: one line per participant, the override lines of their manager chains, and totals that sum them |
| RoofingSave.FindKey | Backend-Endpoints/RoofingCalculatorEndpoints.cs:420-426 | the row found has the key and no earlier row does; none only when no row has it |
| RoofingSave.FindKeyIs | Backend-Endpoints/RoofingCalculatorEndpoints.cs:420-426 | the lookup is determined by where the key first occurs |
| RoofingSave.FindKeySameKeys | Backend-Endpoints/RoofingCalculatorEndpoints.cs:420-426 | tables with the same keys row by row answer every lookup alike |
| RoofingSave.FindKeyAppend | Backend-Endpoints/RoofingCalculatorEndpoints.cs:428-445 | an appended row is found only when no earlier row has its key |
| RoofingSave.NextRowId | Backend-Endpoints/RoofingCalculatorEndpoints.cs:428-445 | a new row's identity exceeds every identity of its own table |
| RoofingSave.NewRow | Backend-Endpoints/RoofingCalculatorEndpoints.cs:430-441 | a new row has the write's key and amount and is unapproved, unpaid and in no batch |
| RoofingSave.UpsertAgainstFacts | Backend-Endpoints/RoofingCalculatorEndpoints.cs:420-452 | the key is looked up in the rows already committed: a hit re-amounts that row and stamps it, a miss appends one new row with a fresh id; keys and every other row are kept |
| RoofingSave.UpsertFacts | Backend-Endpoints/RoofingCalculatorEndpoints.cs:420-452 | corrected upsert: afterwards the key is found holding the new amount, stamped now; a present key is updated in place; otherwise exactly one row is appended; nothing else changes, and one row per key is kept |
| RoofingSave.ApplyWritesKeys | Backend-Endpoints/RoofingCalculatorEndpoints.cs:368-469 | the table after a save's writes is never shorter, and every old row keeps its key |
| RoofingSave.ApplyWritesUnique | Backend-Endpoints/RoofingCalculatorEndpoints.cs:420-456 | writes made one after another keep one row per key and one id per table |
| RoofingSave.ApplyWritesCommitted | Backend-Endpoints/RoofingCalculatorEndpoints.cs:420-456 | the writes as the code performs them, with every lookup against the rows committed before the save |
| RoofingSave.LastWrite | Backend-Endpoints/RoofingCalculatorEndpoints.cs:368-469 | the amount of the last write of a key; none when no write has that key |
| RoofingSave.ApplyWritesAppend | Backend-Endpoints/RoofingCalculatorEndpoints.cs:368-469 | writing `a` then `b` is writing `a + b` |
| RoofingSave.ApplyWritesKeepsRowState | Backend-Endpoints/RoofingCalculatorEndpoints.cs:446-452 | existing rows keep id, key, approval, payment and batch; only the amount and update stamp move |
| RoofingSave.Settled | Backend-Endpoints/RoofingCalculatorEndpoints.cs:420-456 | after the writes each written key is found, holding the amount of its last write |
| RoofingSave.UnwrittenRowsUntouched | Backend-Endpoints/RoofingCalculatorEndpoints.cs:420-456 | a row is unchanged unless it is the first row of a written key |
| RoofingSave.AddedRowKept | Backend-Endpoints/RoofingCalculatorEndpoints.cs:428-452 | a row added earlier in a save stays an added row after further writes |
| RoofingSave.AddedRows | Backend-Endpoints/RoofingCalculatorEndpoints.cs:428-445 | rows added by a save come after the old ones and are new keys, unapproved, unpaid and in no batch |
| RoofingSave.OverwrittenRowStep | Backend-Endpoints/RoofingCalculatorEndpoints.cs:446-452 | one more write of a present key only moves that row's amount and stamp |
| RoofingSave.OverwriteWhenPresent | Backend-Endpoints/RoofingCalculatorEndpoints.cs:446-452 | when every written key is present, no row is added and only the written rows change |
| RoofingSave.ResaveChangesOnlyTimestamps | Backend-Endpoints/RoofingCalculatorEndpoints.cs:85-142 | saving the same writes again adds no row and changes only update stamps |
| RoofingSave.CommittedAgreesWhenKeysDistinct | Backend-Endpoints/RoofingCalculatorEndpoints.cs:420-456 | when no key is written twice, the as-written save and the corrected save give the same table |
| RoofingSave.DuplicateRowsAsWritten | Backend-Endpoints/RoofingCalculatorEndpoints.cs:420-456 | two writes of an absent key, as written, leave two rows with that key; corrected, one row with the second amount |
| RoofingSave.SaveWalk | Backend-Endpoints/RoofingCalculatorEndpoints.cs:471-552 | at most five levels above the rep, each write an override row of this sale at its level |
| RoofingSave.LinesAsWrites | Backend-Endpoints/RoofingCalculatorEndpoints.cs:518-545 | one write per preview line, with the same length |
| RoofingSave.PreviewOverridesPrefixSave | Backend-Endpoints/RoofingCalculatorEndpoints.cs:297-366 | the preview's override lines, as writes, are a prefix of the save walk's writes |
| RoofingSave.PreviewOverridesSaveWithoutCycle | Backend-Endpoints/RoofingCalculatorEndpoints.cs:471-552 | when no employee reports to the sales rep, preview and save produce the same override writes |
| RoofingSave.OverrideStepWrite | Backend-Endpoints/RoofingCalculatorEndpoints.cs:498-516 | a write exists only when the manager has a rate paying more than zero |
| RoofingSave.SaveWalkStep | Backend-Endpoints/RoofingCalculatorEndpoints.cs:484-551 | one level of the walk is that level's write followed by the walk above |
| RoofingSave.PrefixStep | Backend-Endpoints/RoofingCalculatorEndpoints.cs:297-366 | below a manager who is not the rep, preview and save add the same write |
| RoofingSave.SaveWalkPaysSalesRepInCycle | Backend-Endpoints/RoofingCalculatorEndpoints.cs:486-496 | in a two-person cycle, the save writes an override for the sales rep, and the preview does not |
| RoofingSave.ParticipantWrite | Backend-Endpoints/RoofingCalculatorEndpoints.cs:403-418 | a write only for a rate paying more than zero, keyed by this sale, user and milestone |
| RoofingSave.ParticipantWritesKeys | Backend-Endpoints/RoofingCalculatorEndpoints.cs:401-453 | every participant write is keyed by this sale and this milestone's industry slot |
| RoofingSave.OverrideWritesAllKeys | Backend-Endpoints/RoofingCalculatorEndpoints.cs:455-466 | every override write is keyed by this sale and an override level |
| RoofingSave.MilestoneWritesStayOnSale | Backend-Endpoints/RoofingCalculatorEndpoints.cs:368-469 | a milestone save leaves other sales' rows, and the other milestone's participant rows, unchanged |
| RoofingSave.SaveMatchesPreviewWithoutStateCode | Backend-Endpoints/RoofingCalculatorEndpoints.cs:403-410 | without a customer state code, the save pays each participant what the preview shows |
| RoofingSave.SaveWalkEnds | Backend-Endpoints/RoofingCalculatorEndpoints.cs:489-496 | where the chain ends, the rest of the walk writes nothing |
| RoofingSave.SaveWalkAdvance | Backend-Endpoints/RoofingCalculatorEndpoints.cs:549-550 | after one level's writes, what remains is the walk from the next level |
| RoofingSave.SaveFromEnds | Backend-Endpoints/RoofingCalculatorEndpoints.cs:484-496 | above level 5, or where the chain ends, the level-by-level save writes nothing more |
| RoofingSave.SaveFromStep | Backend-Endpoints/RoofingCalculatorEndpoints.cs:486-550 | one level of the level-by-level save is that level's write, then the levels above on the updated table |
| RoofingSave.SaveFromIsWalk | Backend-Endpoints/RoofingCalculatorEndpoints.cs:471-552 | saving level by level is applying the whole walk's writes |
| RoofingSave.SaveOverrideLevel | Backend-Endpoints/RoofingCalculatorEndpoints.cs:498-546 | one level's upsert leaves the table as the corrected writes of that level say |
| RoofingSave.SaveOverrideStep | Backend-Endpoints/RoofingCalculatorEndpoints.cs:486-550 | proof step of the loop, not source behaviour: one pass of the loop finds the next active manager and leaves the table so that the rest of the level-by-level save ends at the same table |
| RoofingSave.SaveOverrideAllocations | Backend-Endpoints/RoofingCalculatorEndpoints.cs:471-552 | the table afterwards is the old one with the save walk's writes applied |
| RoofingSave.SaveParticipantAllocation | Backend-Endpoints/RoofingCalculatorEndpoints.cs:401-453 | one participant's upsert is the corrected write for that participant |
| RoofingSave.ParticipantLoopStep | Backend-Endpoints/RoofingCalculatorEndpoints.cs:401-453 | proof step of the loop, not source behaviour: the participant loop's invariant carries over one participant |
| RoofingSave.ApplyWritesExtend | Backend-Endpoints/RoofingCalculatorEndpoints.cs:368-469 | writes made after a prefix of writes extend that prefix |
| RoofingSave.OverrideLoopStep | Backend-Endpoints/RoofingCalculatorEndpoints.cs:455-466 | proof step of the loop, not source behaviour: the override loop's invariant carries over one participant |
| RoofingSave.SaveParticipantAllocations | Backend-Endpoints/RoofingCalculatorEndpoints.cs:401-453 | the participant loop applies every participant write in order |
| RoofingSave.SaveAllOverrideAllocations | Backend-Endpoints/RoofingCalculatorEndpoints.cs:455-466 | the override loop applies every participant's override walk in order |
| RoofingSave.SaveMilestoneAllocations | Backend-Endpoints/RoofingCalculatorEndpoints.cs:368-469 | corrected (see Findings): the table afterwards is the old one with the milestone's writes applied: participant rows, then overrides |
| RoofingSave.SaveCommission | Backend-Endpoints/RoofingCalculatorEndpoints.cs:85-142 | corrected (see Findings): in order: 401 without a user; 400 for a milestone other than 1 or 2; 404 for an unknown sale; 400 for a non-roofing project; once all four checks pass it succeeds, the table gets that milestone's writes and the count of participant rows saved; an error changes nothing |
| RateCatalog.FindRate | Backend-Endpoints/RateEndpoints.cs:223-263 | a found index holds the rate id in the requested industry's table |
| RateCatalog.GetRates | Backend-Endpoints/RateEndpoints.cs:22-62 | authority 3, then 400 with the industry list; on success, exactly that industry's rates that pass the filters, newest start date first |
| RateCatalog.RatesForUser | Backend-Endpoints/RateEndpoints.cs:130-147 | the per-user listing is exactly that user's rates of the industry, sorted |
| RateCatalog.NewRate | Backend-Endpoints/RateEndpoints.cs:149-221 | active, starting today unless given, every other field as requested |
| RateCatalog.NextRateId | Backend-Endpoints/RateEndpoints.cs:149-221 | the new rate's id is unused in its table |
| RateCatalog.NewRateIsCandidate | Backend-Endpoints/RateEndpoints.cs:149-221 | a created rate is a lookup candidate for its user on every date in its window its scope fits |
| RateCatalog.CreateRate | Backend-Endpoints/RateEndpoints.cs:149-221 | 403 below authority 4, 400 for an unknown industry; with both it succeeds, the new rate is appended and nothing else changes |
| RateCatalog.ApplyUpdate | Backend-Endpoints/RateEndpoints.cs:265-279 | each supplied field replaces the old value, the others stay; always stamped |
| RateCatalog.UpdateNeverClears | Backend-Endpoints/RateEndpoints.cs:265-279 | an update never clears a field that has a value |
| RateCatalog.UpdateStampsAndRepeats | Backend-Endpoints/RateEndpoints.cs:265-279 | an empty update only stamps; the same update twice equals it once |
| RateCatalog.UpdateRate | Backend-Endpoints/RateEndpoints.cs:223-263 | authority 4, 400 for an unknown industry, 404 for a missing rate; otherwise it succeeds and only that rate changes |
| RateCatalog.Deactivate | Backend-Endpoints/RateEndpoints.cs:281-320 | the row stays, inactive and stamped, otherwise unchanged |
| RateCatalog.DeletedRateNotResolved | Backend-Endpoints/RateEndpoints.cs:281-320 | after a delete the resolver never picks that row; where it picked another row before, it still finds a rate |
| RateCatalog.DeleteRate | Backend-Endpoints/RateEndpoints.cs:281-320 | authority 4, 400 for an unknown industry, 404 for a missing rate; otherwise it succeeds and the rate is deactivated, never removed |
| Sales.OpenSale | Backend-Endpoints/SalesEndpoints.cs:338-357 | 401 without a user, 404 for an unknown sale, 403 out of scope; Ok exactly when signed in, found and in scope |
| Sales.ChooseOrder | Backend-Endpoints/SalesEndpoints.cs:75-82 | no key sorts by date, descending; "date", "amount", "status" and "customer" in any case pick their key, and for these the order is ascending exactly when the direction is "asc"; ascending never without "asc" |
| Sales.UnknownSortFallsBack | Backend-Endpoints/SalesEndpoints.cs:75-82 | an unknown key sorts by date, descending, whatever the direction |
| Sales.DirectionIsCaseSensitive | Backend-Endpoints/SalesEndpoints.cs:75-82 | example: "ASC" sorts descending |
| Sales.KnownSortHonoursDirection | Backend-Endpoints/SalesEndpoints.cs:75-82 | a known key in any case with "asc" sorts ascending |
| Sales.GetSales | Backend-Endpoints/SalesEndpoints.cs:23-117 | 401 exactly when there is no user; otherwise exactly the in-scope sales that pass every filter, with the order `ChooseOrder` picks |
| Sales.ListingAgreesWithDetail | Backend-Endpoints/SalesEndpoints.cs:48-52 | with no filters, a sale is listed exactly when its detail view opens |
| Sales.IndustryDetail | Backend-Endpoints/SalesEndpoints.cs:163-215 | none exactly when the sale has no extension; otherwise the first present in Solar, Pest, Roofing, Fiber order |
| Sales.SingleExtensionShown | Backend-Endpoints/SalesEndpoints.cs:163-215 | a sale with exactly one extension shows that one |
| Sales.GetSaleDetail | Backend-Endpoints/SalesEndpoints.cs:119-295 | the access gate's errors, or the found sale with its industry detail |
| Sales.Cancelled | Backend-Endpoints/SalesEndpoints.cs:313-318 | status CANCELLED, stamped with who, when and why; no other field changes |
| Sales.CancelledStaysFound | Backend-Endpoints/SalesEndpoints.cs:306-311 | after a cancel the same id finds the same row, so a second cancel is refused |
| Sales.CancelSale | Backend-Endpoints/SalesEndpoints.cs:297-329 | authority 4, 404 for an unknown sale, 400 if already cancelled; otherwise it succeeds and only that sale is cancelled |
| Payroll.ValidTransitions | Backend-Endpoints/PayrollEndpoints.cs:12-18 | PAID and CANCELLED are terminal; every other status has two successors, one of them CANCELLED |
| Payroll.BatchCount | Backend-Endpoints/PayrollEndpoints.cs:274-295 | a batch never counts more rows than the table has |
| Payroll.BatchTotalsUpdate | Backend-Endpoints/PayrollEndpoints.cs:274-295 | replacing one row changes a batch's total and count by that row's difference only |
| Payroll.BatchTotalsCongruent | Backend-Endpoints/PayrollEndpoints.cs:274-295 | tables agreeing on a batch's rows give that batch the same total and count |
| Payroll.UnusedBatchIsEmpty | Backend-Endpoints/PayrollEndpoints.cs:274-295 | a batch id no row carries totals 0 with count 0 |
| Payroll.NewBatch | Backend-Endpoints/PayrollEndpoints.cs:97-120 | DRAFT, empty; name, period (default the last 14 days) and pay date (7 days on) as the handler sets them |
| Payroll.NewBatchTotalsAgree | Backend-Endpoints/PayrollEndpoints.cs:97-120 | a new batch's zero totals agree with the rows |
| Payroll.CreateBatch | Backend-Endpoints/PayrollEndpoints.cs:97-120 | 401 without a user; otherwise the new batch is appended |
| Payroll.UpdateFields | Backend-Endpoints/PayrollEndpoints.cs:122-140 | a supplied field replaces the old value; stamped; nothing else changes |
| Payroll.UpdateFieldsOnlyStamps | Backend-Endpoints/PayrollEndpoints.cs:122-140 | an empty update only stamps; the same update twice equals it once |
| Payroll.UpdateBatch | Backend-Endpoints/PayrollEndpoints.cs:122-140 | 401, 404, or 400 unless DRAFT; otherwise it succeeds and only that batch's fields change |
| Payroll.Transition | Backend-Endpoints/PayrollEndpoints.cs:247-272 | fails exactly when the status is not the expected one, with the handler's message; otherwise moves and stamps, and no other field changes |
| Payroll.RouteGate | Backend-Endpoints/PayrollEndpoints.cs:187-206 | submit needs sign-in only; approve, export and mark-paid need authority 5 |
| Payroll.RoutesFollowTable | Backend-Endpoints/PayrollEndpoints.cs:12-18 | every route moves along an entry of the transition table; none reaches CANCELLED; each status has at most one route |
| Payroll.LifecycleInOrder | Backend-Endpoints/PayrollEndpoints.cs:187-272 | from a route's expected status it succeeds, and running the same route again fails |
| Payroll.TransitionBatch | Backend-Endpoints/PayrollEndpoints.cs:247-272 | 401, 404, or the transition's verdict on the batch; only that batch changes |
| Payroll.RunRoute | Backend-Endpoints/PayrollEndpoints.cs:187-206 | the route's gate, then the transition from its expected to its target status |
| Payroll.TagItem | Backend-Endpoints/PayrollEndpoints.cs:152-178 | a row joins exactly when the item names an existing, approved, unpaid row |
| Payroll.TagItems | Backend-Endpoints/PayrollEndpoints.cs:152-178 | same table length, and never more rows added than items |
| Payroll.TagItemsChangesOnlyEligible | Backend-Endpoints/PayrollEndpoints.cs:152-178 | each row is unchanged or was eligible and is now tagged with the batch |
| Payroll.TagItemsCountBounds | Backend-Endpoints/PayrollEndpoints.cs:152-178 | the batch's row count never falls and grows by at most `added` |
| Payroll.TagItemsAddsAllEligible | Backend-Endpoints/PayrollEndpoints.cs:152-178 | items naming distinct existing eligible rows are all added |
| Payroll.ItemRowStable | Backend-Endpoints/PayrollEndpoints.cs:152-178 | tagging keeps the row an item names, and its eligibility |
| Payroll.TagOneItem | Backend-Endpoints/PayrollEndpoints.cs:155-177 | one loop iteration is `TagItem` |
| Payroll.TagItemsStep | Backend-Endpoints/PayrollEndpoints.cs:152-178 | proof step of the loop, not source behaviour: one more item extends the loop's result by that item's step |
| Payroll.TagAllItems | Backend-Endpoints/PayrollEndpoints.cs:152-178 | the loop's table and counter are `TagItems` |
| Payroll.Recalculate | Backend-Endpoints/PayrollEndpoints.cs:274-295 | the stored totals become those of the rows given; no other field changes |
| Payroll.AddedRowsMissingFromTotalsAsWritten | Backend-Endpoints/PayrollEndpoints.cs:142-185 | one added 100.00 row leaves the as-written totals at 0 and 0; corrected, 100.00 and 1 |
| Payroll.RowMovesBetweenBatches | Backend-Endpoints/PayrollEndpoints.cs:152-178 | a row of batch 2 can be added to batch 1, leaving batch 2's stored totals stale |
| Payroll.AddAllocationsToBatch | Backend-Endpoints/PayrollEndpoints.cs:142-185 | corrected (see Findings): 401, 404, 400 unless DRAFT; otherwise it succeeds, tags the eligible rows and stores totals that agree with the new rows |
| Payroll.MarkPaidRows | Backend-Endpoints/PayrollEndpoints.cs:223-237 | every row carrying the batch id is paid now; the others are unchanged |
| Payroll.MarkPaidKeepsTotals | Backend-Endpoints/PayrollEndpoints.cs:223-237 | paying keeps every batch's totals; paying again only moves the stamps |
| Payroll.MarkBatchPaid | Backend-Endpoints/PayrollEndpoints.cs:208-245 | authority 5, 404, 400 unless EXPORTED; otherwise it succeeds: PAID, with all its rows paid |
| AllocationApproval.ApproveRow | Backend-Endpoints/AllocationEndpoints.cs:63-102 | approved, stamped with who and when; nothing else changes |
| AllocationApproval.ApproveRowAgain | Backend-Endpoints/AllocationEndpoints.cs:63-102 | approving again keeps the row approved and only replaces the stamps |
| AllocationApproval.ApproveAllocation | Backend-Endpoints/AllocationEndpoints.cs:63-102 | authority 4, 400 for an unknown industry, 404 for a missing row; otherwise it succeeds and only that row is approved |
| AllocationApproval.ApproveOverride | Backend-Endpoints/AllocationEndpoints.cs:197-215 | authority 4, 404 for a missing override; otherwise it succeeds and only that row is approved |
| AllocationApproval.ApproveItem | Backend-Endpoints/AllocationEndpoints.cs:118-142 | the named row is approved exactly when it exists; otherwise nothing changes |
| AllocationApproval.ApproveItems | Backend-Endpoints/AllocationEndpoints.cs:116-143 | same table length; no more approvals than items |
| AllocationApproval.CountFound | Backend-Endpoints/AllocationEndpoints.cs:116-143 | equals the item count exactly when every item names a row |
| AllocationApproval.ItemRowAfterApproval | Backend-Endpoints/AllocationEndpoints.cs:116-143 | approval keeps the row an item names |
| AllocationApproval.ApproveItemsRows | Backend-Endpoints/AllocationEndpoints.cs:116-143 | each row is left alone or approved by the caller now |
| AllocationApproval.ApprovedCountsFoundItems | Backend-Endpoints/AllocationEndpoints.cs:116-143 | `Approved` counts the items naming a row, and equals `Total` exactly when all do |
| AllocationApproval.ApproveItemsStep | Backend-Endpoints/AllocationEndpoints.cs:116-143 | proof step of the loop, not source behaviour: one more item extends the loop's result by that item |
| AllocationApproval.ApproveOneItem | Backend-Endpoints/AllocationEndpoints.cs:118-142 | one loop iteration is `ApproveItem` |
| AllocationApproval.BatchApproveAllocations | Backend-Endpoints/AllocationEndpoints.cs:104-148 | authority 4; then the loop's table and counts, with `Total` the number of items |
| AllocationApproval.GetAllocations | Backend-Endpoints/AllocationEndpoints.cs:29-61 | 401 without a user; otherwise exactly the in-scope industry rows that pass the filters, newest first |
| AllocationApproval.GetOverrides | Backend-Endpoints/AllocationEndpoints.cs:150-195 | 401 without a user; otherwise exactly the in-scope override rows that pass the filters, newest first |
| AllocationApproval.NarrowerFilterListsFewer | Backend-Endpoints/AllocationEndpoints.cs:43-48 | a filter that accepts fewer rows lists a subset |
| AllocationApproval.UserFilterNarrows | Backend-Endpoints/AllocationEndpoints.cs:43-48 | adding a user filter keeps exactly that user's matching rows |
| Announcements.AudienceOf | Backend-Endpoints/AnnouncementEndpoints.cs:32-37 | the team and office of the viewer's active employee record, none without one |
| Announcements.TeamTargetReachesTeam | Backend-Endpoints/AnnouncementEndpoints.cs:42-46 | a live team-targeted announcement is visible exactly to that team's members |
| Announcements.WithFlags | Backend-Endpoints/AnnouncementEndpoints.cs:49-58 | each listed announcement, in order, with the caller's acknowledged flag |
| Announcements.GetAnnouncements | Backend-Endpoints/AnnouncementEndpoints.cs:24-63 | 401 without a user; otherwise exactly the visible live announcements, pinned first then newest, each flagged by acknowledgement |
| Announcements.FindView | Backend-Endpoints/AnnouncementEndpoints.cs:78-80 | the first view row of the (announcement, user) pair |
| Announcements.FindAppendedView | Backend-Endpoints/AnnouncementEndpoints.cs:81-89 | an appended row for a pair that had none is the one found |
| Announcements.FindUpdatedView | Backend-Endpoints/AnnouncementEndpoints.cs:215-219 | rewriting the found row without changing its key keeps it the one found |
| Announcements.RecordView | Backend-Endpoints/AnnouncementEndpoints.cs:78-92 | a first view adds one row and bumps `ViewCount` by one; later views change nothing |
| Announcements.RecordViewOnce | Backend-Endpoints/AnnouncementEndpoints.cs:78-92 | recording a view twice is recording it once |
| Announcements.RecordViewKeepsCount | Backend-Endpoints/AnnouncementEndpoints.cs:78-92 | where `ViewCount` counts the view rows, it still does after a view |
| Announcements.ViewAcknowledged | Backend-Endpoints/AnnouncementEndpoints.cs:109 | the flag of the caller's view row before opening: false without a row, else that row's flag |
| Announcements.GetAnnouncementDetail | Backend-Endpoints/AnnouncementEndpoints.cs:65-111 | 401, 404 "Announcement not found"; otherwise it succeeds, the view is recorded and the announcement returned |
| Announcements.Acknowledge | Backend-Endpoints/AnnouncementEndpoints.cs:196-223 | the caller's row becomes acknowledged: a new acknowledged row appended if missing; otherwise that row alone is marked acknowledged now, and every other row is unchanged |
| Announcements.AcknowledgeAgain | Backend-Endpoints/AnnouncementEndpoints.cs:196-223 | acknowledging again changes only the acknowledgement time |
| Announcements.AcknowledgeAddsId | Backend-Endpoints/AnnouncementEndpoints.cs:196-223 | the caller's acknowledged set gains exactly that id, and no other user's changes |
| Announcements.AcknowledgeSkipsViewCount | Backend-Endpoints/AnnouncementEndpoints.cs:196-223 | acknowledging an unopened announcement adds a view row that `ViewCount` does not count |
| Announcements.AcknowledgeAnnouncement | Backend-Endpoints/AnnouncementEndpoints.cs:196-223 | 401 without a user; otherwise the acknowledge upsert |
| Announcements.UnreadIsVisibleMinusAcknowledged | Backend-Endpoints/AnnouncementEndpoints.cs:225-255 | unread equals visible minus acknowledged-and-visible |
| Announcements.UnreadAntitone | Backend-Endpoints/AnnouncementEndpoints.cs:225-255 | acknowledging more never raises the unread count |
| Announcements.GetUnreadCount | Backend-Endpoints/AnnouncementEndpoints.cs:225-255 | 401 without a user; otherwise the visible live announcements not acknowledged, at most the visible count |
| Announcements.AcknowledgedVisibleBound | Backend-Endpoints/AnnouncementEndpoints.cs:225-255 | acknowledged-and-visible never exceeds visible |
| Announcements.AcknowledgeLowersUnread | Backend-Endpoints/AnnouncementEndpoints.cs:196-255 | an acknowledge never raises the caller's unread count |
| Announcements.NewAnnouncement | Backend-Endpoints/AnnouncementEndpoints.cs:120-136 | posted and started now, NORMAL and ALL by default, active, unpinned, unviewed |
| Announcements.NewAnnouncementReachesAll | Backend-Endpoints/AnnouncementEndpoints.cs:120-154 | without targets a new announcement is visible to every viewer until it expires |
| Announcements.CreateAnnouncement | Backend-Endpoints/AnnouncementEndpoints.cs:113-157 | 403 below authority 4; otherwise it succeeds and the new announcement with its targets is appended |
| Announcements.ApplyAnnouncementUpdate | Backend-Endpoints/AnnouncementEndpoints.cs:159-178 | supplied fields replace the old ones; stamped; no other field changes |
| Announcements.UpdateKeepsExpiryAndActivity | Backend-Endpoints/AnnouncementEndpoints.cs:159-178 | an update never removes an expiry date nor revives a deleted announcement |
| Announcements.UpdateAnnouncement | Backend-Endpoints/AnnouncementEndpoints.cs:159-178 | authority 4, 404; otherwise it succeeds and only that announcement changes |
| Announcements.Retired | Backend-Endpoints/AnnouncementEndpoints.cs:180-194 | inactive and stamped, otherwise unchanged |
| Announcements.RetiredIsHidden | Backend-Endpoints/AnnouncementEndpoints.cs:180-194 | a deleted announcement is listed to nobody and unread for nobody |
| Announcements.DeleteAnnouncement | Backend-Endpoints/AnnouncementEndpoints.cs:180-194 | authority 4, 404; otherwise it succeeds and the announcement is deactivated in place |
| Tickets.ScopeWidens | Backend-Endpoints/TicketEndpoints.cs:45-51 | with the caller in its own accessible set, level 3 sees everything level 2 sees, and level 4 everything |
| Tickets.GetTickets | Backend-Endpoints/TicketEndpoints.cs:25-72 | 401 without a user; exactly the in-scope tickets passing the filters, newest first |
| Tickets.LastStatusAppend | Backend-Endpoints/TicketEndpoints.cs:237-244 | after appending an entry for a ticket, its latest status is that entry's |
| Tickets.NewTicket | Backend-Endpoints/TicketEndpoints.cs:129-162 | OPEN, MEDIUM unless given, created by the caller, unassigned |
| Tickets.NextTicketId | Backend-Endpoints/TicketEndpoints.cs:129-162 | a fresh id is unused |
| Tickets.CreateKeepsLog | Backend-Endpoints/TicketEndpoints.cs:147-159 | creating keeps every ticket's latest entry matching its status; the new ticket's history is its opening entry |
| Tickets.CreateTicket | Backend-Endpoints/TicketEndpoints.cs:129-162 | 401 without a user; otherwise it succeeds and the ticket and its opening entry are appended |
| Tickets.StatusChanged | Backend-Endpoints/TicketEndpoints.cs:218-234 | the new status upper-cased; RESOLVED and CLOSED get their stamps; the rest is kept |
| Tickets.StatusCaseIgnored | Backend-Endpoints/TicketEndpoints.cs:218-234 | upper-casing an upper-cased status again changes nothing, so every spelling of a status has the same effect |
| Tickets.LowerCaseResolvedStamps | Backend-Endpoints/TicketEndpoints.cs:218-234 | example: a request spelling the status "resolved" sets RESOLVED and stamps the resolution time and user |
| Tickets.MixedCaseClosedStamps | Backend-Endpoints/TicketEndpoints.cs:218-234 | example: a request spelling the status "Closed" sets CLOSED and stamps the closing time and user |
| Tickets.ChangeKeepsLog | Backend-Endpoints/TicketEndpoints.cs:237-244 | a status change logged as (old, new) keeps the log matching the tickets |
| Tickets.SameStatusKeepsLog | Backend-Endpoints/TicketEndpoints.cs:164-181 | an edit keeping id and status keeps the log |
| Tickets.ChangeStatus | Backend-Endpoints/TicketEndpoints.cs:208-248 | authority 3, 404; otherwise it succeeds, the ticket changes and exactly one history entry is appended |
| Tickets.Assigned | Backend-Endpoints/TicketEndpoints.cs:250-265 | the assignee replaced and stamped; nothing else changes |
| Tickets.AssignTicket | Backend-Endpoints/TicketEndpoints.cs:250-265 | authority 3, 404; otherwise it succeeds and only that ticket's assignee changes |
| Tickets.ApplyTicketUpdate | Backend-Endpoints/TicketEndpoints.cs:164-181 | supplied fields replace the old ones; stamped; status and every other field kept |
| Tickets.UpdateTicket | Backend-Endpoints/TicketEndpoints.cs:164-181 | any signed-in caller, 404; otherwise it succeeds and only that ticket changes |
| Tickets.GetTicketDetail | Backend-Endpoints/TicketEndpoints.cs:74-127 | 401, 404, otherwise success: the ticket with exactly its history entries, latest first |
| WebUtils.FirstUpper | src/lib/utils.ts:40-41 | "" for "", else one character: the first, upper-cased |
| WebUtils.GetInitials | src/lib/utils.ts:39-43 | one or two characters; "?" when both names are empty; otherwise the upper-cased first letters |
| WebUtils.InitialsOfLetters | src/lib/utils.ts:39-43 | names starting with ASCII letters, upper or lower case, give two upper-case initials |
| WebUtils.BuildImageUrl | src/lib/utils.ts:45-53 | none for a missing or empty path; an http path unchanged; otherwise base, one "/", the path |
| WebUtils.BuildImageUrlIdempotent | src/lib/utils.ts:45-53 | with an http base, a built URL fed back in is returned unchanged |
| WebUtils.DefaultBaseExample | src/lib/utils.ts:51-52 | example: "img/a.png" with the default base gives "http://localhost:5000/img/a.png" |
| RouteGuard.Guard | src/middleware.ts:6-29 | redirect to login with the path iff private without a session; to the dashboard iff public with one; otherwise pass |
| RouteGuard.PublicPaths | src/middleware.ts:4-11 | example: "/login" and "/login/reset" are public; "/loginx", "/dashboard" and "/" are not |
| RouteGuard.RedirectsSettle | src/middleware.ts:18-28 | the login redirect lands on a page that passes without a session, and the dashboard redirect on one that passes with it |

## Left out

- Transport: HTTP plumbing, JSON shapes, route-level `.RequireAuthorization`, pagination (`PaginateAsync`, page sizes including 100 in `GetRatesForUser`), and `Include` of related entities.
- Clock, user and environment: `DateTime.UtcNow`, `DateOnly` today and the session are parameters. So are `NEXT_PUBLIC_API_URL` and the batch-name date text.
- The users a caller may see: this set is a parameter. The service that computes it is not part of this model.
- One employee record per user is assumed. `ManagerId` is read as the manager's user id. A team's office is flattened onto the employee record.
- Case mapping: ASCII letters only. .NET `ToLower`/`ToUpper` and JavaScript `toUpperCase` map more characters, and JavaScript can lengthen a string (for example "ß").
- `ApiError.Forbidden` carries no message.
- A milestone query parameter that is not a number, which fails with a 500, is not modelled.
- The roofing AllocationType get-or-create is left out; the type id is a parameter.
- RoofingSave.SaveOverrideAllocations: the save's walk has no sales-rep guard, so in a cycle it pays the rep an override the preview never shows (`SaveWalkPaysSalesRepInCycle`). Modelled as written, not as a finding, since the preview's guard may be the extra.
- RoofingSave.MilestoneWritesStayOnSale: the override lookup key has no milestone column, so only participant rows are shown to stay on their milestone. An MP2 save re-amounts MP1's override rows, as written.
- RoofingSave.SaveMatchesPreviewWithoutStateCode: the save looks rates up without the customer's state code; agreement with the preview is proved only when the sale has none.
- RoofingSave.SaveCommission: a re-save updates amounts even on approved, paid or batched rows, as written.
- Payroll.ValidTransitions: the table is never consulted by the handlers, and no route reaches CANCELLED.
- Payroll.AddAllocationsToBatch: a row already in another batch can be moved, leaving that batch's stored totals stale (`RowMovesBetweenBatches`).
- Payroll: the batch status is an enumeration rather than free text.
- AllocationApproval.BatchApproveAllocations: exceptions inside the loop are not modelled, so `Errors` is always empty.
- AllocationApproval.GetAllocations: the unified view (AllocationQueryService) is not part of this model. It is taken to be the participant rows, labelled by industry.
- Sales.GetSales: the chosen sort key and direction are returned but not carried out; the decimal and string sort keys are not compared.
- Sales: `GetSaleAllocations` and `GetSaleNotes` are modelled only through their shared access gate (`OpenSale`); their listings are left out.
- RateCatalog.GetRates: `GetRatesGeneric` is four identical overloads, one per rate table; the model states them once over the table the industry names.
- Announcements.AcknowledgeAnnouncement: it neither checks that the announcement exists nor bumps `ViewCount`, as written (`AcknowledgeSkipsViewCount`).
- Announcements.GetAnnouncementDetail: it checks neither `IsActive` nor visibility, as written.
- Tickets.UpdateTicket: only sign-in is required, so any user may edit any ticket, as written.
- Tickets: `AddComment` and the comments table are not modelled, so `GetTicketDetail` has no comments.
- Frontend: the middleware `config.matcher` regular expression is left out; so are `cn`, `formatCurrency` and `formatDate`, which are `Intl` and UI formatting.
- Concurrency and transactions: each handler is one atomic step.

## Findings

| source | as written | input that shows it | evidently intended | confidence | as-written member | corrected member |
|---|---|---|---|---|---|---|
| Backend-Endpoints/RoofingCalculatorEndpoints.cs:420-456 | each upsert looks for an existing row with a query, which does not see rows added earlier in the same unsaved context | two writes with the same (sale, user, slot) key in one save, against a table without that key, e.g. a user listed twice as participant or reached twice in override chains | one row per key, holding the last amount | not executed | RoofingSave.DuplicateRowsAsWritten | RoofingSave.UpsertFacts |
| Backend-Endpoints/PayrollEndpoints.cs:274-295 | `RecalculateBatchTotals` runs its aggregate queries before `SaveChangesAsync`, so they see the batch ids as committed, not the rows just tagged | a DRAFT batch with no rows; add one approved, unpaid roofing row of 100.00 | stored totals 100.00 and 1 | not executed | Payroll.AddedRowsMissingFromTotalsAsWritten | Payroll.AddAllocationsToBatch |
