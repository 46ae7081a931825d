# nfdump1.c: reputation gates, rate gate, record loop and file pump

This project models the core of `nfdump1.c`, the command-line reader of
nfdump. Its flow filter was extended with reputation gates and a periodic
flush. The Dafny modules follow that program's own pieces.

- `CArith` holds the fixed-width C arithmetic the program relies on:
  - 32- and 64-bit unsigned wrap-around;
  - an `unsigned int` passed through an `int` and widened to `unsigned long long`;
  - C's remainder, which truncates toward zero;
  - the `uint8_t` to `uint64_t` widths, as subset types. The flow record's
    address, port and protocol fields, the builders' `sscanf` fields and the
    rate tables' timestamps take these widths.
- `DecimalKeys` holds the StrMap keys. They are `%u` numbers joined with `:`,
  and dotted quads for `inet_ntoa`. The module proves that both encodings
  are injective (the dotted quad on 32-bit addresses), and that a two-field
  key never equals a three-field key.
- `Reputation` holds the static gates: service, scanner, popular service,
  whitelist and blacklist.
  - Each builder turns the lines of a file into a key set.
  - The service, scanner and popular-service lookups each test one
    formatted key. The whitelist and blacklist lookups probe three keys in
    turn: "ip:port", then "0:port", then "ip:0".
  - A `check_*_filter` writes a 2-bit source/destination mask onto the flow
    record and decides pass or drop.
  - `process_data` calls none of the five `check_*_filter` gates: their
    calls are commented out at src/nfdump/bin/nfdump1.c:1027-1033. The
    gates are modelled on their own. Only the rate gate below is wired into
    the record loop (1034-1043).
  - Two behaviours of the code are kept as written. The whitelist and
    blacklist builders compare a three-directive `sscanf` against 5, so they
    never insert anything. Their lookups search the scanner map, whose
    three-field keys they can never hit.
- `RateFilter` holds the N-day-Y-percent gate.
  - The threshold is a cursor count over the address table, scaled by y
    percent in 64-bit arithmetic.
  - The client count of a service counts the duplicates of its key since a
    window start aligned down to twelve hours.
  - `check_xdayypercent_filter` combines the two. Exclude mode is an OR over
    the two endpoints, include mode an AND. Counts taken in the exclude pass
    are reused by the include pass.
- `RecordLoop` holds one record and one block of `process_data`:
  - the map-slot check and the fatal out-of-range id;
  - `total_flows`, the time window, the record limit, the filter engine and
    the ten rate-gate calls;
  - `UpdateStat`, `ref_count` and the sink chain;
  - the non-flow record types.
- `Pump` holds the `while (!done)` block/file loop of `process_data`, the
  static flush counter `kk`, the counter-reset tail of `OutputAndDestroy`,
  and the `-p` interval normalisation.
  - The pump's functions are the specification.
  - The class `Pump.Nfdump` holds the file-scope globals.
  - Its methods (`ProcessData`, `PumpOnce`, `ProcessBlock`,
    `OutputAndDestroy`, ...) update those globals step by step, and each is
    proved equal to the functions.

Calls into code outside `nfdump1.c` (the sinks, the writer, the exporter
tables, the flush's output work) are recorded in order in a `calls`
sequence.

The flush at src/nfdump/bin/nfdump1.c:1761-1771 resets the counters, the
time window and the statistics record. It leaves the extension-map list
alone, and so does the model.

## Model

| member | source | states |
|---|---|---|
| CArith.Wrap32 | src/nfdump/bin/nfdump1.c:1012 | an `unsigned int` assignment: the result is below 2^32, congruent to the value modulo 2^32, and equal to it when it fits |
| CArith.Wrap64 | src/nfdump/bin/nfdump1.c:929 | a `uint64_t` accumulation: the result is below 2^64, congruent to the value modulo 2^64, and equal to it when it fits |
| CArith.Low32 | src/nfdump/bin/nfdump1.c:579-580 | `addr & 0xffffffffLL`: below 2^32, the identity on values that fit |
| CArith.IntToULongLong | src/nfdump/bin/nfdump1.c:321-339 | `y` passed as `int` then widened: unchanged up to 0x7fffffff, sign-extended above |
| CArith.CRem | src/nfdump/bin/nfdump1.c:1240 | C's `%`: the Euclidean remainder on non-negative dividends; on negative ones its sign follows the dividend and `a - a % b` rounds toward zero |
| DecimalKeys.Dec | src/nfdump/bin/nfdump1.c:445 | `%u` produces a non-empty string of digits, of length one exactly for single-digit numbers |
| DecimalKeys.DecInjective | src/nfdump/bin/nfdump1.c:445 | distinct numbers print differently |
| DecimalKeys.Key2Injective | src/nfdump/bin/nfdump1.c:556-563 | `"%u:%u"` keys are equal only for equal pairs |
| DecimalKeys.Key3Injective | src/nfdump/bin/nfdump1.c:540-549 | `"%u:%u:%u"` keys are equal only for equal triples |
| DecimalKeys.Key2IsNeverKey3 | src/nfdump/bin/nfdump1.c:556-576 | a two-field key never equals a three-field key |
| DecimalKeys.Key2 | src/nfdump/bin/nfdump1.c:556-563 | the `"%u:%u"` key; Key2Injective and Key2IsNeverKey3 state its meaning |
| DecimalKeys.Key3 | src/nfdump/bin/nfdump1.c:542 | the `"%u:%u:%u"` key; Key3Injective states its meaning |
| DecimalKeys.Octets | src/nfdump/bin/nfdump1.c:608-612 | the four octets of a 32-bit address are each below 256 and recombine to it |
| DecimalKeys.DottedQuad | src/nfdump/bin/nfdump1.c:608-612 | `inet_ntoa`'s text is at least seven characters long and holds no ':', so it never looks like a colon key |
| DecimalKeys.DottedQuadInjective | src/nfdump/bin/nfdump1.c:608-612 | distinct 32-bit addresses give distinct dotted quads |
| FlowTypes.FreshStatRecord | src/nfdump/bin/nfdump1.c:801-803 | the fresh statistics record is all zero except first_seen = 0x7fffffff and msec_first = 999 |
| Reputation.Conversions | src/nfdump/bin/nfdump1.c:444 | `sscanf` returns at most its directive count, and returns exactly that count iff every directive converts |
| Reputation.KeySetMembers | src/nfdump/bin/nfdump1.c:440-447 | a key is in the built set iff some non-skipped line with the expected conversion count produces it |
| Reputation.BuildKeyMap | src/nfdump/bin/nfdump1.c:440-447 | the builder loop's result is the key set of all lines read |
| Reputation.InServiceMap | src/nfdump/bin/nfdump1.c:540-544 | `in_service_map` tests the one key "ip:proto:port"; ServiceLookupAfterBuild states its meaning |
| Reputation.ServiceLookupAfterBuild | src/nfdump/bin/nfdump1.c:440-447 | after the build, `in_service_map(ip, proto, port)` holds iff a valid four-field line carried that triple in its first three fields |
| Reputation.BuildServiceMap | src/nfdump/bin/nfdump1.c:431-451 | `build_service_map` gives the key set, and every lookup answers by the accepted triples |
| Reputation.ServiceMapSingleLine | src/nfdump/bin/nfdump1.c:440-447 | from the line "167772160\t6\t80\t5", (167772160, 6, 80) is found and no other triple is |
| Reputation.InScannerMap | src/nfdump/bin/nfdump1.c:546-550 | `in_scanner_map` tests the one key "ip:proto:peerport"; ScannerLookupAfterBuild states its meaning |
| Reputation.ScannerLookupAfterBuild | src/nfdump/bin/nfdump1.c:462-469 | after the build, `in_scanner_map` holds iff a valid five-field line carried (ip, proto, peerport) in fields 2-4 |
| Reputation.BuildScannerMap | src/nfdump/bin/nfdump1.c:453-473 | `build_scanner_map` gives the key set, and every lookup answers by the accepted triples |
| Reputation.ThreeDirectivesNeverGiveFive | src/nfdump/bin/nfdump1.c:509 | a three-directive scan never returns 5, so the list builders' key set is empty for every input |
| Reputation.BuildWhitelistMap | src/nfdump/bin/nfdump1.c:496-516 | the whitelist map is always built empty |
| Reputation.BuildBlacklistMap | src/nfdump/bin/nfdump1.c:518-538 | the blacklist map is always built empty |
| Reputation.InWhitelistMap | src/nfdump/bin/nfdump1.c:556-565 | an exact "ip:port" entry, an address-0 entry for the port or a port-0 entry for the address makes the lookup succeed, and a hit needs some two-field key in the map |
| Reputation.InBlacklistMap | src/nfdump/bin/nfdump1.c:567-576 | `in_blacklist_map` makes the same three probes in the same map, so it answers as InWhitelistMap |
| Reputation.ListLookupsMissScannerMap | src/nfdump/bin/nfdump1.c:556-576 | the whitelist and blacklist lookups, searching the scanner map, are false for every ip and port |
| Reputation.SkipDelimiters | src/nfdump/bin/nfdump1.c:487 | strtok skips leading delimiters: the rest is no longer than the line and starts with a non-delimiter or is empty |
| Reputation.SkipDelimitersSuffix | src/nfdump/bin/nfdump1.c:487 | the rest is a suffix of the line and every skipped character is a delimiter |
| Reputation.TakeToken | src/nfdump/bin/nfdump1.c:487 | a strtok token holds no delimiter |
| Reputation.TakeTokenPrefix | src/nfdump/bin/nfdump1.c:487 | the token is a prefix of the text that ends at its end or just before a delimiter |
| Reputation.FirstToken | src/nfdump/bin/nfdump1.c:487-488 | the token both strtok calls return; FirstTokenIsStrtok states its meaning |
| Reputation.FirstTokenIsStrtok | src/nfdump/bin/nfdump1.c:487-488 | the token follows the leading delimiters, holds no delimiter, ends at a delimiter or the end, and is empty (NULL) iff the line is all delimiters |
| Reputation.PopularKeySetMembers | src/nfdump/bin/nfdump1.c:483-490 | a key is in the popular set iff it is the first token of some non-skipped line |
| Reputation.BuildPopularServiceMap | src/nfdump/bin/nfdump1.c:475-494 | the builder loop gives exactly the first tokens of the non-skipped lines |
| Reputation.InPopularServiceMap | src/nfdump/bin/nfdump1.c:552-554 | `in_popular_service_map` tests its string as a key; PopularKeySetMembers states its meaning |
| Reputation.EndpointMask | src/nfdump/bin/nfdump1.c:581 | the mask is below 4, bit 0 is set iff the source matched, bit 1 iff the destination matched, and it is 0 iff neither matched |
| Reputation.GateDecision | src/nfdump/bin/nfdump1.c:582-588 | the decision on the mask is the verdict on its two bits: exclude passes iff neither endpoint matched, otherwise only passes iff either matched, otherwise always pass |
| Reputation.CheckServiceFilter | src/nfdump/bin/nfdump1.c:578-589 | only the service field changes; bit 0 iff (sip, prot, srcport) is a service, bit 1 iff (dip, prot, dstport) is; exclude passes iff neither matched, otherwise only passes iff either matched, otherwise always pass |
| Reputation.CheckScannerFilter | src/nfdump/bin/nfdump1.c:591-602 | as the service gate, with the ports crossed: (sip, prot, dstport) and (dip, prot, srcport) |
| Reputation.CheckPopularServiceFilter | src/nfdump/bin/nfdump1.c:604-626 | bit 0 iff the source dotted quad is a key, bit 1 iff the destination's is; same decision rule |
| Reputation.CheckWhitelistFilter | src/nfdump/bin/nfdump1.c:628-639 | bit 0 iff `in_whitelist_map(sip, dstport)`, bit 1 iff `in_whitelist_map(dip, srcport)`; same decision rule |
| Reputation.CheckBlacklistFilter | src/nfdump/bin/nfdump1.c:641-652 | bit 0 iff `in_blacklist_map(sip, dstport)`, bit 1 iff `in_blacklist_map(dip, srcport)`; same decision rule |
| Reputation.ListGatesAreInert | src/nfdump/bin/nfdump1.c:628-652 | with the scanner map as built, both list masks are 0: exclude mode passes every record and include-only mode drops every record |
| RateFilter.WindowStart | src/nfdump/bin/nfdump1.c:327 | the window start is below 2^32, and equals now - x*86400 when that is not negative |
| RateFilter.AlignedWindowStart | src/nfdump/bin/nfdump1.c:372-373 | the client-count boundary is a multiple of 43200 within 43200 seconds at or below the window start |
| RateFilter.CountAtLeastIsCardinality | src/nfdump/bin/nfdump1.c:331-334 | the cursor count is the number of table positions whose timestamp is at or after the window start |
| RateFilter.CountAtLeastAntitone | src/nfdump/bin/nfdump1.c:327-334 | an earlier window start counts at least as many timestamps |
| RateFilter.PercentIsFloor | src/nfdump/bin/nfdump1.c:339 | without 64-bit overflow the threshold is the floor of count*y/100 |
| RateFilter.PercentMonotoneInY | src/nfdump/bin/nfdump1.c:339 | a larger y never gives a smaller threshold |
| RateFilter.PercentAtMostCount | src/nfdump/bin/nfdump1.c:339 | up to 100 percent the threshold never exceeds the count, for every count, also where the 64-bit product wraps |
| RateFilter.Threshold | src/nfdump/bin/nfdump1.c:321-340 | the threshold is a 64-bit value divided by 100 (times 100 it stays below 2^64), and 0 at y = 0 |
| RateFilter.ThresholdAtMostAddresses | src/nfdump/bin/nfdump1.c:331-339 | up to 100 percent the threshold never exceeds the number of addresses in the table, whatever its size |
| RateFilter.GetThreshold | src/nfdump/bin/nfdump1.c:321-340 | the cursor loop returns (count of in-window timestamps) * y / 100 in 64-bit arithmetic |
| RateFilter.ThresholdMonotoneInY | src/nfdump/bin/nfdump1.c:321-340 | the threshold is non-decreasing in y |
| RateFilter.ThresholdMonotoneInDays | src/nfdump/bin/nfdump1.c:321-340 | a longer window never lowers the threshold, while its start x·86400 does not reach back before the epoch and count·y does not wrap |
| RateFilter.WrappedWindowLowersThreshold | src/nfdump/bin/nfdump1.c:327 | once `now - x*86400` wraps, a longer window can give a lower threshold: one address seen at 100000, clock 172800, gives 1 for x = 1 and 0 for x = 3 |
| RateFilter.LoadThresholds | src/nfdump/bin/nfdump1.c:360-363 | each threshold is computed only when its mode is on and its x and y are nonzero, and is left at its previous value otherwise; nothing else in the context changes |
| RateFilter.CountRecentIsCardinality | src/nfdump/bin/nfdump1.c:388-391 | the client count is the number of duplicates seen at or after the aligned boundary |
| RateFilter.ClientCount | src/nfdump/bin/nfdump1.c:368-397 | the client count never exceeds the key's number of duplicates, and is 0 for a key not in the table |
| RateFilter.GetSvcClientCount | src/nfdump/bin/nfdump1.c:368-397 | the duplicate walk returns the count of the key's duplicates at or after the aligned boundary (none for an absent key), at most their number |
| RateFilter.RateAdmits | src/nfdump/bin/nfdump1.c:399-422 | the gate's declarative verdict: with exclusion active both counts are at most its threshold, with inclusion active both exceed its threshold; CheckRateFilter is proved equal to it |
| RateFilter.CheckRateFilter | src/nfdump/bin/nfdump1.c:399-422 | the gate passes iff RateAdmits holds; it makes at most two lookups, none when both tests are off, and one when the source already exceeds the exclusion threshold |
| RateFilter.ExcludeDropsOnEither | src/nfdump/bin/nfdump1.c:406-413 | exclude mode alone drops a record iff either endpoint's count exceeds the threshold |
| RateFilter.IncludeKeepsOnBoth | src/nfdump/bin/nfdump1.c:414-419 | include mode alone keeps a record iff both endpoints' counts exceed the threshold |
| RateFilter.ZeroThresholdsAdmitAll | src/nfdump/bin/nfdump1.c:406-421 | with both thresholds zero every record passes |
| RateFilter.SameHalfDaySameBoundary | src/nfdump/bin/nfdump1.c:370-373 | two clock readings in the same twelve-hour tick give the same aligned boundary, while x·86400 is at most both readings |
| RateFilter.WrappedWindowShiftsBoundary | src/nfdump/bin/nfdump1.c:370-373 | once the start wraps, readings 0 and 20000 share a twelve-hour tick but give different boundaries for x = 1, because 2^32 is not a multiple of 43200 |
| RateFilter.RateAdmitsWithinHalfDay | src/nfdump/bin/nfdump1.c:399-422 | the gate's verdict does not change within a twelve-hour tick of the clock, while both windows' x·86400 is at most both readings |
| RecordLoop.EffLimit | src/nfdump/bin/nfdump1.c:809-828 | sorting and any statistics mode force the record limit to 0; otherwise it is the one given |
| RecordLoop.TimeLimitMatch | src/nfdump/bin/nfdump1.c:1018-1021 | the time-window and limit part of `match`, with the limit as forced by the mode; PassAllAdmits and BlockRunRespectsLimit use it |
| RecordLoop.Admits | src/nfdump/bin/nfdump1.c:1018-1043 | a record is admitted iff it passes the time window and limit, the filter engine and the rate gate; RecordStepKnownMap states what admission does |
| RecordLoop.RateGateTenfold | src/nfdump/bin/nfdump1.c:1034-1043 | the ten short-circuited rate-gate calls decide exactly what one call decides |
| RecordLoop.SinkCalls | src/nfdump/bin/nfdump1.c:1057-1090 | an admitted record reaches one or two sinks, two exactly for flow plus element statistics or for writing with xstat |
| RecordLoop.SinkPriority | src/nfdump/bin/nfdump1.c:1057-1090 | priority flow stat (plus element stat) > element stat > sort > write (plus xstat) > print, with the print shown iff there is no limit or the count is within it |
| RecordLoop.StatModesSuppressOutput | src/nfdump/bin/nfdump1.c:809-832 | in sorting or statistics modes no record is written, printed or sent to the "Bug!" branch |
| RecordLoop.BugIffNoSink | src/nfdump/bin/nfdump1.c:1083-1088 | the "Bug!" branch is taken iff no sink is configured at all |
| RecordLoop.RegisterMap | src/nfdump/bin/nfdump1.c:1092-1099 | an out-of-range id changes nothing; otherwise the id holds the layout afterwards; the definition is new iff the id is in range and did not already hold that layout; other slots are untouched |
| RecordLoop.RegisterMapIdempotent | src/nfdump/bin/nfdump1.c:1092-1099 | registering the same definition twice changes nothing the second time and is not new, so it is mirrored at most once |
| RecordLoop.RecordStep | src/nfdump/bin/nfdump1.c:994-1134 | a record is fatal iff it is a flow with map id >= 65536; calls only grow; map ids are only added, and only by map records; non-flow records leave the statistics and total_flows alone |
| RecordLoop.RecordStepSkipsMissingMap | src/nfdump/bin/nfdump1.c:1006-1010 | a flow whose map slot is empty changes nothing |
| RecordLoop.RecordStepKnownMap | src/nfdump/bin/nfdump1.c:1012-1090 | a flow with a known map adds one (mod 2^32) to total_flows; its ref_count grows by one iff it is admitted; if admitted the statistics are UpdateStat's and the sink calls are appended; if not, nothing else changes |
| RecordLoop.RecordStepNonFlow | src/nfdump/bin/nfdump1.c:1092-1128 | a non-flow record changes only the map slots and the calls; exporter/sampler info and exporter statistics go to their Add* call; the record is mirrored to the output iff a file is written and it is a new map or an info record whose add returned 1; exporter, sampler and unknown records change nothing |
| RecordLoop.BlockRun | src/nfdump/bin/nfdump1.c:996-1134 | a block only appends calls and only adds map ids |
| RecordLoop.BlockRunFatalIff | src/nfdump/bin/nfdump1.c:1002-1005 | a block ends the process iff one of its records is a flow with an out-of-range map id |
| RecordLoop.RecordStepCountsKnown | src/nfdump/bin/nfdump1.c:1006-1012 | a non-map record adds one to total_flows iff it is a flow with a known map, and keeps the map ids |
| RecordLoop.BlockRunKeepsMapIds | src/nfdump/bin/nfdump1.c:1092-1099 | a block without map records leaves the set of known map ids unchanged |
| RecordLoop.BlockRunCountsKnownRecords | src/nfdump/bin/nfdump1.c:1006-1012 | in a block without map records, total_flows grows by the number of flows with a known map, admitted or not |
| RecordLoop.BlockRunRespectsLimit | src/nfdump/bin/nfdump1.c:1020-1021 | with a record limit, and UpdateStat counting one flow per record, a block never takes the statistics' flow count past it |
| RecordLoop.RecordStepPrintsShown | src/nfdump/bin/nfdump1.c:1076-1081 | a record printed by one step is always shown |
| RecordLoop.PrintedRecordsAreShown | src/nfdump/bin/nfdump1.c:1076-1081 | with UpdateStat counting one flow per record, every record printed in a block is shown, because admission already demands a count below the limit |
| RecordLoop.DefinitionBlock | src/nfdump/bin/nfdump1.c:1092-1099 | a block defining map 7 in an empty registry registers exactly id 7 and counts nothing |
| RecordLoop.PassAllAdmits | src/nfdump/bin/nfdump1.c:1012-1055 | with no window, no limit, a pass-all filter and zero rate thresholds, and total_flows + 1 below 2^32, a flow with a known map is counted and reaches the statistics |
| RecordLoop.ThreeKnownRecords | src/nfdump/bin/nfdump1.c:994-1134 | three flows naming a defined map are all counted and all update the statistics |
| RecordLoop.MiddleRecordMissingMap | src/nfdump/bin/nfdump1.c:1006-1012 | with the middle flow naming an undefined map, two are counted and two update the statistics |
| RecordLoop.TwoBlockScenario | src/nfdump/bin/nfdump1.c:994-1134 | a map-definition block then three flows gives total_flows 3 and numflows +3; with map 9 undefined in the middle, 2 and +2 |
| Pump.FlushPeriod | src/nfdump/bin/nfdump1.c:914 | the period is 0 below 300 seconds and sep/300 >= 1 from 300 on |
| Pump.KkStep | src/nfdump/bin/nfdump1.c:912-920 | one `kk++` and compare: with period 0 it never fires; below the period kk stays below it, and it fires exactly when kk wraps to 0 |
| Pump.CadenceWithoutPeriod | src/nfdump/bin/nfdump1.c:912-916 | with period 0, kk counts the advances and no flush ever fires |
| Pump.CadenceWithPeriod | src/nfdump/bin/nfdump1.c:912-916 | with period p, kk after j advances is j mod p, j/p flushes have fired, and advance j fires iff p divides j |
| Pump.FlushCadence | src/nfdump/bin/nfdump1.c:910-921 | the flush fires on every (sep/300)-th file advance and never when the period is 0 |
| Pump.NormaliseInterval | src/nfdump/bin/nfdump1.c:1238-1242 | `-p` yields a non-negative multiple of 300, the largest not above a non-negative argument, and 0 below 300 |
| Pump.NormalisedPeriod | src/nfdump/bin/nfdump1.c:1238-1242 | after `-p n`, there is no flush for n < 300, and otherwise the period times 300 is the normalised interval |
| Pump.Flushed | src/nfdump/bin/nfdump1.c:1761-1771 | the flush zeroes total_flows, total_bytes and skipped_blocks, sets t_first_flow 0x7fffffff and t_last_flow 0, gives a fresh statistics record, keeps the map slots and records the flush |
| Pump.FlushForgetsCounters | src/nfdump/bin/nfdump1.c:1761-1771 | after a flush the counters and statistics no longer depend on what came before |
| Pump.NextFile | src/nfdump/bin/nfdump1.c:894-925 | the loop ends iff there is no next file or it cannot be had; otherwise it moves to block 0 of the next file |
| Pump.PumpStep | src/nfdump/bin/nfdump1.c:885-1138 | a failed, corrupt or finished read takes the end-of-file path; a block stays in its file, advances one block, keeps kk, and ends the loop only at the record limit |
| Pump.Run | src/nfdump/bin/nfdump1.c:881-1140 | the pump runs until the loop has ended or the process has exited; each iteration ends the loop, moves to a later file or reads a later block, so the run terminates |
| Pump.ProcessDataSpec | src/nfdump/bin/nfdump1.c:774-1173 | process_data always ends or exits |
| Pump.FlushDiscardsMergedBounds | src/nfdump/bin/nfdump1.c:903-921 | a flush on a file advance discards the bounds just merged from the next file |
| Pump.AdvanceMergesBounds | src/nfdump/bin/nfdump1.c:903-908 | without a flush, an advance merges the next file's bounds with min and max and leaves the counts alone |
| Pump.SkippedBlocks | src/nfdump/bin/nfdump1.c:978-992 | a non-type-2 block counts its bytes; an xstat block is not counted as skipped, any other adds one to skipped_blocks; nothing else changes and the loop goes on |
| Pump.DataBlockChecksLimit | src/nfdump/bin/nfdump1.c:1137-1138 | after a data block the loop ends iff a limit is set and the flow count has reached it |
| Pump.BlockRunAddsNoFlush | src/nfdump/bin/nfdump1.c:994-1134 | the record loop never flushes |
| Pump.RecordStepAddsNoFlush | src/nfdump/bin/nfdump1.c:994-1134 | no record adds a flush call |
| Pump.NextFileKeepsCadence | src/nfdump/bin/nfdump1.c:910-921 | a file advance keeps kk and the flush count in step with the number of advances |
| Pump.BlockStepCalls | src/nfdump/bin/nfdump1.c:928-1134 | a block leaves the calls alone or extends them with its records' calls |
| Pump.BlockKeepsCadence | src/nfdump/bin/nfdump1.c:928-1138 | reading a block keeps kk and the flush count in step with the file advances |
| Pump.PumpStepKeepsCadence | src/nfdump/bin/nfdump1.c:885-1138 | each loop iteration keeps kk and the flush count in step with the file advances |
| Pump.RunKeepsCadence | src/nfdump/bin/nfdump1.c:881-1140 | over the whole loop, kk and the number of flushes are those of the file advances made |
| Pump.RunReachesLastFile | src/nfdump/bin/nfdump1.c:894-902 | with every file openable, no fatal record and no limit, the loop reaches the last file and ends there |
| Pump.FiveFilesTwoFlushes | src/nfdump/bin/nfdump1.c:910-921 | with -p 600 and five files the run flushes exactly twice, on the 2nd and 4th advance |
| Pump.RunRespectsLimit | src/nfdump/bin/nfdump1.c:1137-1138 | with a record limit, and UpdateStat counting one flow per record, the statistics never count more flows than the limit over a whole run |
| Pump.Nfdump.constructor | src/nfdump/bin/nfdump1.c:99-104 | the program starts with zero counters, no map slots, no calls and kk 0 |
| Pump.Nfdump.OutputAndDestroy | src/nfdump/bin/nfdump1.c:1761-1771 | the reset tail leaves exactly the Flushed state, kk untouched |
| Pump.Nfdump.Dispatch | src/nfdump/bin/nfdump1.c:1057-1090 | the if/else chain appends exactly SinkCalls and changes nothing else |
| Pump.Nfdump.ProcessDataRecord | src/nfdump/bin/nfdump1.c:999-1090 | the flow case updates the globals and the statistics exactly as RecordStep |
| Pump.Nfdump.ProcessOtherRecord | src/nfdump/bin/nfdump1.c:1092-1128 | the non-flow cases update the globals exactly as RecordStep |
| Pump.Nfdump.ProcessBlock | src/nfdump/bin/nfdump1.c:994-1134 | the record loop exits iff BlockRun is fatal; otherwise it leaves BlockRun's state and has advanced by the sum of the record sizes |
| Pump.Nfdump.EndOfFile | src/nfdump/bin/nfdump1.c:894-925 | the end-of-file case leaves exactly NextFile's state |
| Pump.Nfdump.PumpOnce | src/nfdump/bin/nfdump1.c:885-1138 | one loop iteration exits iff PumpStep exits, and otherwise leaves exactly PumpStep's state |
| Pump.Nfdump.ProcessData | src/nfdump/bin/nfdump1.c:774-1173 | process_data exits iff ProcessDataSpec exits, and otherwise leaves exactly its globals, statistics and kk |

## Left out

- LMDB: the environment, transaction and cursor calls, `MDB_CHECK` logging
  and `unload_xdayypercent_db` are not modelled. The tables are values
  (`Store`), and a cursor error simply ends a walk in the source.
- `time(NULL)` is one parameter `now` per run. Each call reads the clock
  anew in the source. RateAdmitsWithinHalfDay states what follows when two
  readings fall in the same twelve-hour tick.
- File reading in the builders (`fopen`, `fgets` with its 1000-byte buffer,
  `sm_new`, and their failures) is not modelled. A file is a sequence of
  already split lines, and `sscanf`'s conversions are carried on each line.
- BuildPopularServiceMap: a line whose first token is NULL is assumed to
  insert nothing; `sm_put` with a NULL key is not modelled.
- The StrMap values (`"1"`, the service name) are never read back and are
  not stored.
- The truncated declarations at src/nfdump/bin/nfdump1.c:301-304 and
  342-343 are not modelled.
- Code in other files of nfdump is not part of this model. It enters as data
  or as recorded calls:
  - ReadBlock, GetNextFile, OpenNewFile and InitXStat;
  - ExpandRecord_v2 (its result is carried by each flow record), the filter
    engine and UpdateStat (functions of the environment);
  - AddFlow, AddStat, InsertFlow, AppendToBuffer, UpdateXStat,
    AddExporterInfo/AddSamplerInfo (their return value is carried by the
    record), AddExporterStat and PackExtensionMapList.
- RegisterMap: `Insert_Extension_Map` lives in nfx.c, which is not part of
  this model. Its behaviour is assumed:
  - an id of 65536 or above is refused;
  - a layout already in its slot is reported as not new and changes nothing;
  - anything else is installed with a reference count of 0 and reported as
    new.
- A block arrives already split into records. The source finds each next
  record by advancing its pointer by the current record's `size`
  (src/nfdump/bin/nfdump1.c:1044-1047, 1130-1131). The model only adds those
  sizes up (`ProcessBlock`'s `consumed`). A `size` that disagrees with the
  record's real length is not modelled, for example a size of 0, which makes
  the source read the same record again.
- COMPAT15 and `Convert_v1_to_v2` are not modelled: the program is taken as
  built without it, and a type-1 block is skipped like any other.
- The printer is assumed to always produce a string. A NULL string from
  `print_record` is not modelled.
- Stdout, stderr and LogError output are not modelled.
- `PrintSummary` and the output and table part of `OutputAndDestroy`
  (export, PrintFlowTable, PrintFlowStat, PrintElementStat,
  Init_FlowTable/Init_StatTable and their `exit(250)`) are one recorded
  `Flush` call.
- The writer tail of process_data (WriteBlock, WriteExtraBlock,
  CloseUpdateFile) is one recorded `CloseOutput` call.
- `main` is not modelled, except the `-p` normalisation. This covers option
  parsing, `usage`, the builder calls, the final OutputAndDestroy and the
  "No matched flows" exit.
- `is_anonymized`, `Ident` and the profiling calls are not modelled.
- The static `kk` is an `int` in the source. Its overflow would need more
  than 2^31 file advances without a flush and is not modelled.
- `atoi` overflow in `-p` is not modelled.
- `x * 86400` is computed in `int` and overflows for x above 24855 days.
  The model computes it exactly.
- `MapSlot.refCount` is an unbounded count. The wrap of the C counter
  `ref_count` at its declared width (in nfx.h, which is not part of this
  model) is not modelled.
- `limitflows` is passed to OutputAndDestroy as `uint32_t`. That truncation
  matters only to the printing part, which is left out.
- CheckRateFilter: the source's `unsigned long long` count of -1 (not yet
  computed) is an `int` -1 here. It is only compared after being replaced
  by a real count, so the verdicts agree.
- BlockRunCountsKnownRecords: stated only while total_flows plus the block
  length stays below 2^32. The 32-bit wrap of each increment is stated per
  record in RecordStepKnownMap.
- ThresholdMonotoneInY, PercentIsFloor and PercentMonotoneInY are stated
  only where the 64-bit product count * y does not wrap.
- ThresholdMonotoneInDays: stated only where count * y does not wrap and
  the longer window's x2 * 86400 is at most `now`. Past the epoch,
  `now - x * 86400` wraps in `unsigned int` (src/nfdump/bin/nfdump1.c:327),
  and a longer window can lower the threshold; WrappedWindowLowersThreshold
  gives an instance.
- SameHalfDaySameBoundary: stated only where x * 86400 is at most both
  clock readings. A wrapped start is shifted by 2^32, which is not a
  multiple of 43200, so one twelve-hour tick can span two boundaries;
  WrappedWindowShiftsBoundary gives an instance.
- RateAdmitsWithinHalfDay: stated only where both windows' x * 86400 is at
  most both clock readings, for the reason given for
  SameHalfDaySameBoundary.
- BlockRunRespectsLimit, RunRespectsLimit and PrintedRecordsAreShown: these
  assume that `UpdateStat` adds exactly one to `numflows` per record.
  `UpdateStat` is not part of this model.
