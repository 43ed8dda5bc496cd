# Delivery, matching and storage protocols of the backend crates

Eight self-contained algorithms and protocols of the repository, modelled in Dafny and proved over every input, every
interleaving or every reachable state.

* **Kafka delivery** (`tracker.dfy`, `lanes.dfy`, `delivery*.dfy`). The tracker decides which offsets may be stored while
  records finish out of order, sends wait for delivery reports and partitions come and go. `TrackerModel.Spec` is the
  simple form: a set of reported send numbers, whose watermark is the least number missing, and a full sweep of every
  partition after each completion or report. The class `Tracker` keeps a counter and a set of early reports, scans one
  partition on a completion and nothing at all on an early report, and is proved equal to the simple form call by call.
  `DeliveryModel` is the whole consumer as a step system: the pull loop, every record's task, both semaphores, the lanes,
  the sends with their reports or drops, and rebalances. A list of labels is one interleaving, and the theorems are about
  all of them, for any handler, broker and stream.
* **Merge-policy globs** (`glob.dfy`). A token list denotes a language of byte strings, and the folding tokenizer and the
  two-row table are proved to decide exactly that language within a stated number of table cells.
* **OData filters and paged queries** (`filter.dfy`, `filter_meaning.dfy`, `paging.dfy`). The compiler's string is read
  back by an independent lexer and precedence parser (`not`, then `and`, then `or`, section 5.1.1.9 of OData 4.0 Part 2:
  URL Conventions) and given its truth value. The paging loop runs against any service that keeps a small promise
  (`PagingModel.Faithful`).
* **Single-flight schema cache** (`cache.dfy`), **key-value buckets over two file trees** (`keyvalue.dfy`),
  **Connect frames** (`frames.dfy`), **the bounded provider conversation** (`conversation.dfy`) and **the KafkaJS and
  Java murmur2 partitioners** (`murmur.dfy`, `murmur_vectors.dfy`).

State that the program updates in place is a class (`Tracker`, `Lanes`, `Cache`, `KeyLocks`, `FrameStream`,
`Conversation`) whose methods are tied to a function of the old state; concurrent protocols are state machines whose
labels are single atomic actions; loops are loops. A handler, broker, provider, tool, checker, table service or clock is
arbitrary, under the contracts written in the models.

## What turned out to need a condition

* Slots: some run stalls if and only if there is exactly one slot and at least two places
  (`DeliveryProgress.StallsExactlyWhen`): the pull loop holds the only slot, waiting on a silent stream, while a record
  whose turn has come needs it. In every other case some record's task can always move (`NeverStuck`).
* Filters: a compiled filter can be read back if and only if no field in it is a word the reader keeps for itself
  (`and`, `or`, `not` and the literal and operator words) and no value is an infinite double. `validate_field` lets such
  a field through (`ReservedFieldIsLost` for the field `not`), and an infinite double is written `inf` where OData spells
  it `INF` (`InfinityIsLost`); the equivalence is `FilterMeaning.CompiledFilterReadsBack`.
* Continuation tokens: a token is read back as the keys it was made of if and only if the partition key has no U+0000
  (`PagingModel.TokenReadsBack`).
* Pulling an offset again within one assignment replaces its pending entry. A pull of the current assignment at or
  below a stored offset is settled, or was pulled again and its last pull is (`DeliverySafety.SettledOrPulledAgain`);
  `PulledAgainIsPassed` is a run in which a first pull is stored past, and where no offset is pulled twice there is none
  (`PulledOnceIsSettled`).
* A candidate budget of zero still lets one check happen, because the budget is compared after the check
  (`ConversationModel.RejectedToTheEnd`).

## Model

| member | source | states |
|---|---|---|
| TrackerModel.WatermarkUnique | crates/kafka/src/tracker.rs:109-119 | the watermark is the only number that is unreported with every lower one reported |
| TrackerModel.WatermarkNeverDrops | crates/kafka/src/tracker.rs:148-153 | along every run of events the watermark never drops |
| TrackerModel.NothingAtOrBelow | crates/kafka/src/tracker.rs:41-51 | an offset handed back, by whatever event, leaves no pending record at or below it in its partition, and was pending just before |
| TrackerModel.AlwaysStill | crates/kafka/src/tracker.rs:67-130 | after any sequence of pulls, completions, reports, revokes and assigns, no partition's lowest pending record is resolved |
| TrackerModel.OwnPartitionSuffices | crates/kafka/src/tracker.rs:95-107 | in every reachable state scanning the completed record's own partition gives the state and the offsets that a scan of all partitions gives |
| TrackerModel.StaleCompletionIsIdle | crates/kafka/src/tracker.rs:87-107 | a completion with a ticket issued before a revoke changes nothing and hands nothing back, whatever happened since, the same offset pulled again included |
| TrackerModel.PendingWasPulled | crates/kafka/src/tracker.rs:67-85 | every pending record was pulled, and accepted, since its partition was last revoked |
| TrackerModel.StaysAbove | crates/kafka/src/tracker.rs:41-51 | with pulls ascending, once an offset is handed back everything pending later in the assignment lies above it |
| TrackerModel.StoredOffsetsIncrease | crates/kafka/src/tracker.rs:95-119 | with pulls ascending, the offsets handed back for a partition within one assignment strictly increase |
| TrackerModel.Drained | crates/kafka/src/tracker.rs:155-166 | once every pending record is done and every send it waited on is reported, nothing is pending anywhere |
| TrackerModel.RevokedByTheLast | crates/kafka/src/tracker.rs:121-130 | after any events a partition is revoked exactly if the last revoke or assignment of it was a revoke |
| TrackerModel.AssignKeepsPending | crates/kafka/src/tracker.rs:128-130 | an assignment leaves every pending record, report and ticket as it was and hands nothing back |
| TrackerModel.PullIsHeld | crates/kafka/src/tracker.rs:67-93 | a pull of a partition not revoked since its assignment is held under its own ticket |
| TrackerModel.ResolvedIsStored | crates/kafka/src/tracker.rs:41-51 | a pending record resolved with every lower one is stored past at once |
| TrackerModel.PulledIsStored | crates/kafka/src/tracker.rs:67-119 | the completion of such a pull, alone and with its sends reported, hands its offset back |
| TrackerModel.Resolve | crates/kafka/src/tracker.rs:41-51 | the loop removes exactly the leading resolved records and returns the greatest of them, if any |
| TrackerModel.Tracker.Insert | crates/kafka/src/tracker.rs:67-85 | equals the simple form's pull, with a new ticket; a revoked partition takes nothing in |
| TrackerModel.Tracker.Holds | crates/kafka/src/tracker.rs:87-93 | whether the simple form holds that very pull of the offset |
| TrackerModel.Tracker.Done | crates/kafka/src/tracker.rs:95-107 | equals the simple form's completion with its sweep of all partitions, though one partition is scanned |
| TrackerModel.Tracker.Revoke | crates/kafka/src/tracker.rs:121-126 | equals the simple form's revoke |
| TrackerModel.Tracker.Assign | crates/kafka/src/tracker.rs:128-130 | equals the simple form's assign |
| TrackerModel.Tracker.Advance | crates/kafka/src/tracker.rs:148-153 | counter and early reports stay the watermark and exactly the reported numbers above it |
| TrackerModel.Tracker.ResolveAll | crates/kafka/src/tracker.rs:155-166 | settles every partition and returns exactly their last leading offsets, one each |
| TrackerModel.Tracker.NoteDelivered | crates/kafka/src/tracker.rs:109-119 | equals the simple form's report with its full sweep, for reports in any order and repeated |
| LanesModel.Lanes.Enqueue | crates/kafka/src/consume/lanes.rs:17-29 | the new lane is its key's tail and names the tail before it |
| LanesModel.Lanes.Release | crates/kafka/src/consume/lanes.rs:31-36 | the key is forgotten exactly if this lane is still its tail |
| DeliverySafety.AlwaysInv | crates/kafka/src/consume.rs:264-356 | in every run the tracker, the tasks, the sends and the latest pulls agree: what is pending is untold or told with a send count covering its sends, and what is no longer pending is settled |
| DeliverySafety.AtLeastOnce | crates/kafka/src/consume.rs:264-356 | in every run, an offset handed back passes no record of the current assignment, in the latest pull of its offset, whose handler failed or has not returned or that has an unreported send numbered before its return |
| DeliverySafety.LatestPullIsRemembered | crates/kafka/src/consume.rs:264-277 | the history that AtLeastOnce speaks of is exactly the run's own latest pulls of the current assignment |
| DeliverySafety.NoPulledRecordIsPassed | crates/kafka/src/consume.rs:264-356 | the same over the run's labels: every pull of the current assignment at or below a stored offset that no later pull of its offset replaced is settled |
| DeliverySafety.SettledOrPulledAgain | crates/kafka/src/consume.rs:264-356 | over all pulls of the current assignment at or below a stored offset: each is settled, or was pulled again and the last pull of its offset is settled |
| DeliverySafety.PulledOnceIsSettled | crates/kafka/src/consume.rs:264-356 | where no offset is pulled twice within an assignment, every pull at or below a stored offset is settled |
| DeliverySafety.PulledAgainIsPassed | crates/kafka/src/tracker.rs:67-85 | a run with the consumer's own limits in which a record pulled twice is stored past while its first pull is with the handler |
| DeliverySafety.RevokedByTheLast | crates/kafka/src/consume.rs:46-64 | in every run a partition is revoked exactly if its last rebalance was a revoke |
| DeliverySafety.PulledReachesItsHandler | crates/kafka/src/consume.rs:312-319 | in every run a record pulled while its partition is assigned, neither revoked nor pulled again since, is let through when its turn comes |
| DeliverySafety.AllReportedReachesCounter | crates/kafka/src/consume.rs:88-99 | once every send ended, the watermark is the send counter |
| DeliverySafety.ReportedExactlyOnce | crates/kafka/src/consume.rs:145-172 | with the guard's flag and its drop apart from the producer's delivery report, which may come first: in every run a send number has been reported exactly once if its send has ended, by the one or the other, and not at all otherwise, and then one of the two can still come |
| DeliverySafety.ReportStep | crates/kafka/src/consume.rs:161-172 | the flag keeps the guard's drop and the delivery report from both reporting a number |
| DeliverySafety.QuietAtTheEnd | crates/kafka/src/consume.rs:239-242 | once every task is past its completion, none failed, and every send is reported, nothing is pending in any partition |
| DeliveryOrder.AlwaysInv | crates/kafka/src/consume/lanes.rs:17-57 | in every run each lane is behind the record pulled before it for its key, and a record out of its wait finds every earlier one of its key released, also when enqueued between a release and that lane's drop |
| DeliveryOrder.TurnIsSafe | crates/kafka/src/consume/lanes.rs:53-57 | a record takes its turn only when every earlier record of its key has released its lane |
| DeliveryOrder.OneAtATime | crates/kafka/src/consume.rs:279-310 | while a record has not released its lane, a later one of its key has not had its turn; so two are never with the handler at once |
| DeliveryOrder.PullOrder | crates/kafka/src/consume.rs:279-310 | records sharing a key enter the handler in pull order, in every run |
| DeliveryProgress.WithinBounds | crates/kafka/src/consume.rs:204-310 | records with the handler and records admitted never exceed slots and places, each less the one the pull loop holds; a record parked behind its key holds no slot |
| DeliveryProgress.NeverStuck | crates/kafka/src/consume.rs:204-310 | unless there is one slot and a second place, in every reachable state with an unfinished record some record's own task can move, a handler returning being its task's move |
| DeliveryProgress.ConsumerNeverStuck | crates/kafka/src/consume.rs:23-30 | the same for 64 slots and 4096 places, with no more records than that with the handler and admitted |
| DeliveryProgress.WorkShrinks | crates/kafka/src/consume.rs:279-310 | every move of a task takes away work and only an admission adds any |
| DeliveryProgress.AllCanFinish | crates/kafka/src/consume.rs:239-242 | from every reachable state the tasks alone can finish every admitted record |
| DeliveryProgress.OneSlotCanStall | crates/kafka/src/consume.rs:219-237 | with one slot and any two places or more there is a run to a state where an unfinished record waits for the slot the pull loop holds |
| DeliveryProgress.StallsExactlyWhen | crates/kafka/src/consume.rs:204-310 | for every number of slots and places: some run stalls if and only if there is exactly one slot and at least two places |
| GlobModel.LanguageSnoc | crates/git/src/vcs/policy.rs:286-290 | a list ending in a token accepts exactly the texts that split into one the rest accepts and a tail the token accepts |
| GlobModel.DirsSpells | crates/git/src/vcs/policy.rs:265-269 | `**/p` matches a text exactly if p matches it from its beginning or from behind one of its slashes |
| GlobModel.AllSpells | crates/git/src/vcs/policy.rs:265-269 | `**p`, p beginning with no slash, matches exactly if p matches some tail of the text |
| GlobModel.StarSpells | crates/git/src/vcs/policy.rs:270 | `*p`, p beginning with no star, matches exactly if p matches what is behind some slash-free head |
| GlobModel.MarkSpells | crates/git/src/vcs/policy.rs:271 | `?p` matches exactly if the text begins with a byte that is no slash and p matches the rest |
| GlobModel.ByteSpells | crates/git/src/vcs/policy.rs:272 | any other byte before p matches exactly if the text begins with it and p matches the rest |
| GlobModel.NothingSpells | crates/git/src/vcs/policy.rs:297-300 | the empty pattern matches the empty text alone |
| GlobModel.FoldPair | crates/git/src/vcs/policy.rs:258-285 | two adjacent wildcards that fold have the language of the one they fold to |
| GlobModel.PushedKeepsLanguage | crates/git/src/vcs/policy.rs:275-283 | pushing a token with folding accepts the same texts as pushing it plainly |
| GlobModel.TokensBounded | crates/git/src/vcs/policy.rs:258-260 | with no wildcard run longer than `**/` then `*`, tokens are at most 3 times the byte-consuming ones plus 2 |
| GlobModel.NeedsBytes | crates/git/src/vcs/policy.rs:293-295 | a match supplies a byte for every byte-consuming token, so the early rejection never rejects a match |
| GlobModel.Tokens | crates/git/src/vcs/policy.rs:261-285 | for every pattern the folded tokens accept exactly what the unfolded ones accept, runs are short and the count bounded |
| GlobModel.RowExtends | crates/git/src/vcs/policy.rs:297-336 | the row of a longer token list is the shorter list's row extended by the last token |
| GlobModel.FillByte | crates/git/src/vcs/policy.rs:304-308 | the in-place row for one byte is the row extended by it |
| GlobModel.FillOne | crates/git/src/vcs/policy.rs:309-313 | the same for one non-slash byte |
| GlobModel.FillStar | crates/git/src/vcs/policy.rs:314-319 | the same for a slash-free run |
| GlobModel.FillAll | crates/git/src/vcs/policy.rs:320-325 | the same for any run |
| GlobModel.FillDirs | crates/git/src/vcs/policy.rs:326-334 | the same for an empty run or one ending in a slash |
| GlobModel.Table | crates/git/src/vcs/policy.rs:297-339 | the table reaches the end exactly if the token list accepts the text, and decides as many cells as the tokens times the cuts less the byte-consuming tokens, the clearing of a row aside |
| GlobModel.Glob | crates/git/src/vcs/policy.rs:291-339 | for every pattern and text the result is membership in the pattern's language; the cells decided are the folded list's, or none on the early rejection, and so within (3n+2)(n+1) for n bytes of text |
| GlobModel.Matches | crates/git/src/vcs/policy.rs:226-237 | a pattern with a slash is matched against the whole path, one without against the final component |
| GlobModel.SelectsAnywhere | crates/git/src/vcs/policy.rs:226-237 | a pattern without a slash selects a path by its final component, in whatever directory |
| GlobModel.SelectsFromTheRoot | crates/git/src/vcs/policy.rs:226-237 | a pattern with a slash selects by the whole path, a leading slash being no part of it |
| GlobModel.RuleFor | crates/git/src/vcs/policy.rs:178-182 | the strategy of the first rule that selects the path; none exactly if no rule does |
| FilterMeaning.CompilesToText | crates/azure-table/src/store/filter.rs:37-107 | a filter compiles exactly if every node and value of it is supported, and to its text; otherwise it is an error |
| FilterMeaning.FieldsCompile | crates/azure-table/src/store/filter.rs:19-27 | a letter or `_`, then letters, digits and `_`, compiles in a comparison with any value but null |
| FilterMeaning.OtherNamesAreRefused | crates/azure-table/src/store/filter.rs:19-27 | an empty name, one beginning with a digit or holding a blank, quote, parenthesis or punctuation, and a null value are errors |
| FilterMeaning.LiteralReadsBack | crates/azure-table/src/store/filter.rs:121-150 | every literal is read back as the value it was written for, quotes, suffixes and bytes included, exactly unless it is an infinite double |
| FilterMeaning.LexText | crates/azure-table/src/store/filter.rs:37-107 | the text, at the end or before a blank or a closing parenthesis, is split into the filter's tokens; no string's content escapes its quotes |
| FilterMeaning.UnaryReads | crates/azure-table/src/store/filter.rs:39-81 | a comparison, disjunction, negation or set test is read as one operand exactly if no field of it is reserved and no value infinite |
| FilterMeaning.AndReads | crates/azure-table/src/store/filter.rs:65-72 | any filter, without parentheses around its `and`, is read as a chain of operands that goes on with what follows |
| FilterMeaning.TreeMeans | crates/azure-table/src/store/filter.rs:39-81 | the tree read back, with nested conjunctions flattened, has the filter's truth value under every valuation |
| FilterMeaning.CompiledFilterReadsBack | crates/azure-table/src/store/filter.rs:37-150 | the compiled string is read back exactly if no field is a reserved word and no value infinite, and then with the filter's truth value under every valuation of the comparisons |
| FilterMeaning.ReservedFieldIsLost | crates/azure-table/src/store/filter.rs:19-27 | the field `not` is let through, and what it compiles to, `not eq 1`, has no reading |
| FilterMeaning.InfinityIsLost | crates/azure-table/src/store/filter.rs:133-139 | an infinite double is written `inf`, which has no reading |
| FilterMeaning.PartitionedFilterReadsBack | crates/azure-table/src/store.rs:327-336 | joined to any partition clause by `and`, the string still means the clause and the filter, under the same condition |
| FilterMeaning.PartsAlone | crates/azure-table/src/store.rs:327-336 | the clause alone is read back as itself, the filter alone is the whole string, and with neither there is none |
| PagingModel.TokenReadsBack | crates/azure-table/src/store/query.rs:10-27 | a token is read back as its keys exactly if the partition key has no U+0000 |
| PagingModel.Query | crates/azure-table/src/store.rs:141-208 | the loop ends, its subtraction never goes below zero, and it returns exactly the wanted rows from the start to where its token leads, never more than the limit, and a token only when the limit is met |
| PagingModel.AllPages | crates/azure-table/src/store.rs:141-208 | following the tokens to the end, a limited page at a time, gives the whole answer once, against any service that keeps its promise |
| PagingModel.OneRowServiceIsFaithful | crates/azure-table/src/store.rs:168-202 | the promise can be kept for every table and filter: a service that looks at one row a request keeps it |
| PagingModel.AllRows | crates/azure-table/src/store.rs:141-208 | against that service a table whose rows are all wanted comes back whole, whatever the limit |
| PagingModel.ResumingJoins | crates/azure-table/src/store.rs:168-202 | resuming from a token appends exactly the rest, with no gap and no repeat |
| PagingModel.PrefixOfWhole | crates/azure-table/src/store.rs:168-202 | a limited answer is a prefix of the whole one, and what its token leads to is the remainder |
| CacheModel.Cache.Enter | crates/kafka/src/registry.rs:306-317 | the first locked section: a hit, a shared fetch, or the caller's own fetch entered |
| CacheModel.Cache.Leave | crates/kafka/src/registry.rs:321-336 | the second locked section: the entry is settled only if it still names that very fetch |
| CacheModel.AlwaysInv | crates/kafka/src/registry.rs:303-338 | in every interleaving of callers, completions and drops, all of a key's fetches but the one its entry tells of have failed |
| CacheModel.OneFlight | crates/kafka/src/registry.rs:279-283 | a key has at most one fetch that has not failed: one unsettled, and at most one that ever succeeds |
| CacheModel.ReadyForGood | crates/kafka/src/registry.rs:279-283 | a ready value never changes or disappears |
| CacheModel.OwnOutcome | crates/kafka/src/registry.rs:319-337 | a caller gets the outcome of the fetch it waited on, or the value of its key's one successful fetch |
| CacheModel.FlightKeepsEntry | crates/kafka/src/registry.rs:321-336 | a fetch that has not failed keeps its key's entry |
| CacheModel.OnlyItsWaitersSettle | crates/kafka/src/registry.rs:319-336 | along every run an entry naming a fetch stays until a waiter of that very fetch leaves, so a late waiter on another never evicts it |
| CacheModel.FailureIsForgotten | crates/kafka/src/registry.rs:321-336 | once a caller has left with a fetch's failure, no entry names that fetch in any continuation |
| CacheModel.FetchesAfresh | crates/kafka/src/registry.rs:279-283 | where every fetch of a key has failed and been left by somebody, the next caller starts a fetch of its own |
| CacheModel.ValueIsServed | crates/kafka/src/registry.rs:279-283 | once a caller has returned with a value, every later caller of the key gets that value at once |
| CacheModel.JoinsTheFlight | crates/kafka/src/registry.rs:306-317 | who misses a value while the key's fetch is unsettled joins it and starts none, also when its first caller was dropped |
| KeyValueModel.KeyLocks.KeyLock | crates/filesystem/src/keyvalue.rs:59-68 | the registry hands out the live lock of a key, or a new one after dropping dead references |
| KeyValueModel.KeyLocks.DropLock | crates/filesystem/src/keyvalue.rs:59-68 | an operation's reference ends and no other does |
| KeyValueModel.DeadLocksGo | crates/filesystem/src/keyvalue.rs:64-67 | handing out a new lock leaves no dead one in the registry and no lock in use out of it |
| KeyValueModel.OneLockPerKey | crates/filesystem/src/keyvalue.rs:59-68 | in every interleaving all references to a key's lock that are alive are to one mutex |
| KeyValueModel.OneHolderPerKey | crates/filesystem/src/keyvalue.rs:72-177 | no two operations on a key are ever inside its lock at once |
| KeyValueModel.AlikeStaysAlike | crates/filesystem/src/keyvalue.rs:225-232 | maps that nobody can tell apart from now on answer every request alike and stay so, whatever expired entries were purged |
| KeyValueModel.KeysBySegments | crates/filesystem/src/keyvalue.rs:264-270 | a key is plain segments joined by slashes: neither empty nor a dot or two, without backslash or colon |
| KeyValueModel.GetAfterPut | crates/filesystem/src/keyvalue.rs:84-95 | a set value is found until now plus its time to live, counted up to 2^128 - 1, and for good without one |
| KeyValueModel.GetAfterDelete | crates/filesystem/src/keyvalue.rs:97-107 | a deleted key is not found |
| KeyValueModel.GetAfterCas | crates/filesystem/src/keyvalue.rs:158-177 | a swap succeeds exactly on the value a read would find, is found while that value would have been, and otherwise answers that value and changes nothing |
| KeyValueModel.GetAfterIncrement | crates/filesystem/src/keyvalue.rs:141-156 | an increment adds to what a read would find, and its answer is found while that would have been |
| KeyValueModel.RequestsKeepToTheirKey | crates/filesystem/src/keyvalue.rs:72-177 | an invalid key is refused, existence is a read that finds something, reads change nothing, and no request changes another key |
| KeyValueModel.PutIsInTheFiles | crates/filesystem/src/keyvalue.rs:198-208 | in every interleaving an answered set has its value in one file, and in the other the time then and its time to live, or none |
| KeyValueModel.ExpiryIsKept | crates/filesystem/src/keyvalue.rs:141-177 | in every interleaving, when a swap or increment succeeds the key's expiry file holds the live expiry it found, or is absent where there was none, its value file holds the new value, and no other key's files change |
| KeyValueModel.PurgingIsUnobservable | crates/filesystem/src/keyvalue.rs:184-232 | between operations every request at any later time would be answered alike from the file trees, purged as they are, and from the map, and leave the two alike |
| KeyValueModel.BodyOk | crates/filesystem/src/keyvalue.rs:184-254 | each file access keeps the relation of both trees to the map, and the one that answers gives the simple form's answer and effect |
| KeyValueModel.AlwaysInv | crates/filesystem/src/keyvalue.rs:72-177 | in every interleaving the files of a key hold its entry of the map, or what its one running operation has left so far |
| KeyValueModel.Linearizes | crates/filesystem/src/keyvalue.rs:72-177 | the answers are those of one-at-a-time execution, in the order of answering under the lock, on a map from key to value and optional expiry; the operations in that order are exactly the answered ones, each once, at non-decreasing times for each key |
| KeyValueModel.StampIsWithinCall | crates/filesystem/src/keyvalue.rs:72-177 | the time an operation is run at in that order lies between the clock at its entry into the lock and the clock at its answer |
| KeyValueModel.LogKeepsCallOrder | crates/filesystem/src/keyvalue.rs:72-177 | an operation answered before another was called precedes it in that order |
| KeyValueModel.FilesAgree | crates/filesystem/src/keyvalue.rs:184-232 | between operations the two trees show exactly the map's live value, so purging is unobservable |
| FrameModel.BigEndianReadsBack | crates/cursor/src/protocol.rs:380-388 | the four length bytes are read back as the length, below 2^32 |
| FrameModel.BigEndianPlaces | crates/cursor/src/protocol.rs:386 | the highest of the four length bytes stands first |
| FrameModel.Envelope | crates/cursor/src/protocol.rs:380-388 | patching the header in place gives the frame's encoding, whose front is read back as that very frame; a message of 2^32 bytes or more is refused |
| FrameModel.EncodedReadsBack | crates/cursor/src/protocol.rs:392-408 | any list of uncompressed frames, encoded, is read back as itself followed by whatever follows |
| FrameModel.CutMidFrame | crates/cursor/src/protocol.rs:322-334 | a body cut anywhere inside a frame yields all whole frames and then a truncation error |
| FrameModel.HeaderMeans | crates/cursor/src/protocol.rs:392-408 | an even flag byte, a length and that many bytes are a frame of them, whatever follows |
| FrameModel.CompressedIsRefused | crates/cursor/src/protocol.rs:396-400 | whole frames, then a header with an odd flag byte and anything, are read as those frames and the refusal |
| FrameModel.FrontStays | crates/cursor/src/protocol.rs:390-408 | more bytes never change a frame or a refusal already at the front |
| FrameModel.FrameStream.DecodeFrame | crates/cursor/src/protocol.rs:392-408 | takes the first whole frame off the buffer, and leaves the buffer untouched until there is one |
| FrameModel.FrameStream.Next | crates/cursor/src/protocol.rs:323-341 | the next frame, end or error depends only on the bytes not yet handed out, not on their cutting |
| FrameModel.Drain | crates/cursor/src/protocol.rs:323-341 | for every list of chunks, repeated calls yield exactly the encoded frames and a clean end where the bytes are encoded frames, all whole frames and a truncation error where they are cut inside one, and the reading of the joined bytes always |
| FrameModel.ChunkingDoesNotMatter | crates/cursor/src/protocol.rs:321-341 | any cutting of encoded frames has the reading of exactly those frames and a clean end |
| ConversationModel.PairedJoins | crates/genai/src/conversation.rs:330-351 | chats in which every message of calls has its responses join to such a chat, and their call lists join |
| ConversationModel.CallsAreAnswered | crates/genai/src/conversation.rs:330-351 | wherever a message of n calls stands in such a chat, n responses with its ids in order stand right behind it |
| ConversationModel.RoundJoins | crates/genai/src/conversation.rs:330-416 | a round's calls and answers keep everything that must hold as the provider is asked |
| ConversationModel.SayingJoins | crates/genai/src/conversation.rs:160-186 | the candidate and what is wrong with it, appended, keep it too |
| ConversationModel.TruncateKeepsBothEnds | crates/genai/src/conversation.rs:455-462 | a text over the cap keeps half the cap as a head, and a tail, on character boundaries that do not overlap, together at most the cap and short of it by at most three bytes, and names exactly the bytes between |
| ConversationModel.TruncateKeepsShort | crates/genai/src/conversation.rs:455-458 | a text within the cap is kept as it is |
| ConversationModel.CappedKeepsShort | crates/genai/src/conversation.rs:338 | a tool's text of at most 64 KiB is told as it is |
| ConversationModel.CappedKeepsBothEnds | crates/genai/src/conversation.rs:338 | a longer one by its own head of 32 KiB and a tail of as much, less cut characters |
| ConversationModel.BytesOfAscii | crates/genai/src/conversation.rs:456 | a text has as many bytes as characters exactly if all are below 128, and otherwise more |
| ConversationModel.FailureIsNamed | crates/genai/src/conversation.rs:368-377 | a failure's text is the tool's name and its reason, and from the third failure on a note with the count and the budget |
| ConversationModel.NoteNames | crates/genai/src/conversation.rs:372-377 | the note holds the count and, after it, the repeat budget |
| ConversationModel.ClosingSaysWhy | crates/genai/src/conversation.rs:439-441 | a refusal in a closing round says that the answer is due |
| ConversationModel.CutNamesItsCap | crates/genai/src/conversation.rs:389-402 | a refusal of a cut reply is worded for its own bound |
| ConversationModel.CutNames | crates/genai/src/conversation.rs:396-400 | that wording holds the bound's digits |
| ConversationModel.CutExactly | crates/genai/src/conversation.rs:278-285 | a reply is cut exactly by its stop reason or by a bill in range that reaches the bound, and a round runs its calls exactly if neither cut nor closing |
| ConversationModel.StreakOfCall | crates/genai/src/conversation.rs:447-452 | failures are counted by name and arguments: one more of the same call, none after its success, none for another call |
| ConversationModel.NudgesAreBounded | crates/genai/src/conversation.rs:147-186 | there are never more nudges than checks, save one whose check is still to come |
| ConversationModel.Conversation.ExecChat | crates/genai/src/conversation.rs:229-257 | one to four requests, each showing the same chat, fit to be shown; only transport failures are repeated, and the last outcome decides |
| ConversationModel.Conversation.Ask | crates/genai/src/conversation.rs:192-199 | one more round is put to the provider; its number is the provider's count of replies, and whether it closes is a pending nudge or the last round |
| ConversationModel.Conversation.Failed | crates/genai/src/conversation.rs:354-378 | the call's count grows by one and at the repeat budget the completion ends |
| ConversationModel.Conversation.Invoke | crates/genai/src/conversation.rs:332-346 | the count of every call identity is its failures since its last success, the model is told the capped output or the failure and its count, and the completion ends exactly when that count reaches the budget or the tool aborts; an output of at most 64 KiB is told as it is |
| ConversationModel.Conversation.ToolRound | crates/genai/src/conversation.rs:330-352 | all calls of the round are run in order, each answered once in the chat and once in the transcript, with the text the simple form gives |
| ConversationModel.Conversation.Refuse | crates/genai/src/conversation.rs:404-416 | every call of a closing or cut round is answered with the refusal and none is run |
| ConversationModel.Conversation.Dispatch | crates/genai/src/conversation.rs:209-218 | calls are refused when an answer is due, else when the reply was cut, else run |
| ConversationModel.Conversation.NextReply | crates/genai/src/conversation.rs:191-227 | at every provider request calls and responses are paired, the transcript lists them in order, the rounds are those the provider's replies and the pending nudge make (number and nudge computed from the outside), only calls of rounds neither closing nor cut were run, and no identity has used up its repeats; it returns none only when the rounds are used up |
| ConversationModel.Conversation.Run | crates/genai/src/conversation.rs:120-189 | whatever provider, tools and check do, it ends, the provider having replied at most as often as there are rounds, with at most four requests a round, the candidate budget and one nudge before each check; every reply with calls had its round, whose calls were run only if it was neither closing nor cut, and all of those before an answer; every other candidate was nudged or checked, in order, and the model told exactly the nudges and corrections; an answer is the latest reply's candidate, accepted where a check is asked for; and every error has its cause |
| ConversationModel.RejectedToTheEnd | crates/genai/src/conversation.rs:167-175 | rejected to the end, a completion with the rounds for it makes exactly its budget of checks, and exactly one where the budget is zero |
| MurmurModel.RoundStaysBounded | crates/kafka/src/partitioner.rs:90-137 | rounding a product to a double never leaves the bound 2^62 |
| MurmurModel.RoundsToNearest | crates/kafka/src/partitioner.rs:112-117 | a rounded product is a multiple of the doubles' spacing, off by at most half of it, and an even one if off by half |
| MurmurModel.UlpIsSpacing | crates/kafka/src/partitioner.rs:112-117 | the spacing is a power of two under which the significand has at most 53 bits, and all of them from 2^53 on |
| MurmurModel.ProductIsNumber | crates/kafka/src/partitioner.rs:112-117 | a 32-bit value times the multiplier, rounded, is an integer of magnitude at most 2^62 |
| MurmurModel.CastIsToInt32 | crates/kafka/src/partitioner.rs:146-148 | for every such value the cast through i64 never saturates and is ToInt32 (section 7.1.6 of ECMA-262) |
| MurmurModel.PortXorIsJs | crates/kafka/src/partitioner.rs:161-163 | the port's exclusive or is JavaScript's |
| MurmurModel.PortShiftIsJs | crates/kafka/src/partitioner.rs:156-158 | the port's shift is JavaScript's `>>>` |
| MurmurModel.XorBits | crates/kafka/src/partitioner.rs:161-163 | each bit of an exclusive or is set exactly where the two bits differ |
| MurmurModel.ShiftDivides | crates/kafka/src/partitioner.rs:156-158 | shifting by n bits divides by 2^n |
| MurmurModel.WordPlaces | crates/kafka/src/partitioner.rs:107-111 | a chunk's bytes are a little-endian number, missing ones zeros |
| MurmurModel.Mix | crates/kafka/src/partitioner.rs:107-117 | one chunk's mixing, every value in bounds, is the JavaScript program's |
| MurmurModel.Murmur2 | crates/kafka/src/partitioner.rs:90-137 | for every key the port's hash is the JavaScript program's, short last chunk and repeated tail included |
| MurmurModel.JavaMurmur2 | crates/kafka/src/partitioner.rs:52-87 | for every key the indexed loop is Kafka's hash by recursion on the key |
| MurmurModel.Partition | crates/kafka/src/partitioner.rs:18-34 | both schemes return the hash's low 31 bits modulo the count, within range for a positive count |
| MurmurModel.LowBitsAreLow | crates/kafka/src/partitioner.rs:140-142 | the low bits are below 2^31 and congruent to the hash modulo 2^31 |
| MurmurModel.MagnitudeIs | crates/kafka/src/partitioner.rs:26-33 | the divisor is the count or its negation, as for a remainder with the dividend's sign |
| MurmurVectors.KeyPartitions | crates/kafka/tests/live.rs:202-214 | of twelve partitions the key 599999 has the sixth by KafkaJS and the third by Java, as the live tests expect |

## Left out

- DeliverySafety.AtLeastOnce: speaks of the latest pull of each offset, because an earlier one can be stored past; SettledOrPulledAgain covers every pull.
- DeliverySafety.NoPulledRecordIsPassed: the same restriction, lifted by SettledOrPulledAgain.
- librdkafka itself, `store_offset` and its order after the tracker's lock is released: guarantees are about what the tracker hands back.
- The nested maps by topic and then partition are one map by both, and the order of the offsets that `resolve_all` returns is not stated.
- A semaphore is a count that any waiter may take from: its first-come order, and that the pull loop prefers a finished task to a pull, are not modelled, so more runs are allowed than happen.
- A panic in a delivery task, and the abortion of tasks once the loop has ended.
- The repository's rule parsing, `parse_tree_diff`, `TreeDiff.shared` and the git commands around the glob.
- Floating-point literals are opaque text of the printed form; `order_by`, HTTP, request signing and JSON of the table service.
- `Payload` framing, HTTP and schema compilation of the registry; a shared fetch runs only while a caller polls it.
- Bucket operations are steps over two maps rather than methods of a class; `keys`, file failures, malformed expiry files, directory-prefix keys and the temporary file behind an atomic write are not modelled, and the clock does not go back.
- The number codec of `increment` is an arbitrary function of the stored bytes and the delta.
- JSON parsing, schema validation and candidate extraction of the conversation, the call hash, reply timeouts, retry waits, response format and tool choice options, usage and telemetry.
- ConversationModel.Conversation.Run: the provider, tool and check are functions of how often they were called, and each awaited call returns.
- Compression, end-stream payloads and the transport under a frame stream.
