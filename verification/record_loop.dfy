/** The record loop of `process_data`: what one record of a type-2 data
    block does to the run's globals, and what a whole block does.

    Code from other files of nfdump is not part of this model and enters as
    data: a compact record carries the `master_record_t` that
    `ExpandRecord_v2` makes of it, an exporter or sampler info record the
    value `AddExporterInfo`/`AddSamplerInfo` returns for it; the filter
    engine and `UpdateStat` are functions in the environment. Calls into
    sinks (`AddFlow`, `AddStat`, `InsertFlow`, `AppendToBuffer`, the
    printer, ...) are recorded in order in `calls`. */
module RecordLoop {
  import opened CArith
  import opened FlowTypes
  import opened RateFilter

  /** `MAX_EXTENSION_MAPS` */
  const MaxExtensionMaps: nat := 65536

  /** One record of a data block, as its `type` field tells it apart. Every
      record carries the `size` the loop advances by. */
  datatype RawRecord =
    | CommonRecord(size: nat, extMap: nat, expanded: MasterRecord)
    | ExtensionMapRecord(size: nat, mapId: nat, layout: seq<nat>)
    | ExporterRecord(size: nat)
    | SamplerRecord(size: nat)
    | ExporterInfoRecord(size: nat, addResult: int)
    | ExporterStatRecord(size: nat)
    | SamplerInfoRecord(size: nat, addResult: int)
    | UnknownRecord(size: nat)

  /** A call out of the loop, in the order it is made. `shown` says whether
      the printed string reaches stdout. */
  datatype Call =
    | AddFlow(m: MasterRecord)
    | AddStat(m: MasterRecord)
    | InsertFlow(m: MasterRecord)
    | Append(raw: RawRecord)
    | UpdateXStat(m: MasterRecord)
    | Print(m: MasterRecord, shown: bool)
    | Bug
    | AddExporterInfo(raw: RawRecord)
    | AddExporterStat(raw: RawRecord)
    | AddSamplerInfo(raw: RawRecord)
    | Flush(stat: StatRecord, totalFlows: nat, skippedBlocks: nat, totalBytes: nat)
    | CloseOutput(stat: StatRecord)
    | PackMaps

  /** One slot of the extension map list: the layout registered under its
      id and how many admitted records used it. */
  datatype MapSlot = MapSlot(layout: seq<nat>, refCount: nat)

  /** The state the record loop changes: the file-scope counters and time
      bounds, the local `stat_record`, the extension map slots (an id absent
      from `slots` is a NULL slot) and the calls made so far. */
  datatype Globals = Globals(
    totalBytes: nat,
    totalFlows: nat,
    skippedBlocks: nat,
    tFirstFlow: int,
    tLastFlow: int,
    stat: StatRecord,
    slots: map<nat, MapSlot>,
    calls: seq<Call>)

  /** The arguments of `process_data` the loop reads. */
  datatype Config = Config(
    elementStat: bool,
    flowStat: bool,
    sortFlows: bool,
    hasPrinter: bool,
    hasWfile: bool,
    doXstat: bool,
    twinStart: int,
    twinEnd: int,
    limitflows: nat,
    sep: int)

  /** What the loop consults but does not own: the compiled filter, the
      statistics update, the rate gate's context and tables, and the one
      clock reading of the run. */
  datatype Env = Env(
    engine: MasterRecord -> bool,
    updateStat: (StatRecord, MasterRecord) -> StatRecord,
    rate: RateCtx,
    store: Store,
    now: nat)

  /** Sorting or any statistics mode postpones printing and lifts the limit. */
  predicate StatMode(c: Config) {
    c.sortFlows || c.flowStat || c.elementStat
  }

  /** `limitflows` after the mode forcing at the top of `process_data`. */
  function EffLimit(c: Config): (l: nat)
    ensures StatMode(c) ==> l == 0
    ensures !StatMode(c) ==> l == c.limitflows
  {
    if StatMode(c) then 0 else c.limitflows
  }

  /** `tmp_print_record != NULL` */
  predicate PrintOn(c: Config) {
    c.hasPrinter && !StatMode(c)
  }

  /** `write_file` */
  predicate WriteFile(c: Config) {
    c.hasWfile && !StatMode(c)
  }

  /** `xstat != NULL` once the writer is open. */
  predicate XstatOn(c: Config) {
    WriteFile(c) && c.doXstat
  }

  /** The time-window and record-limit part of `match`, tested before the
      filter engine runs; `numflows` is the count before this record. */
  predicate TimeLimitMatch(c: Config, numflows: nat, m: MasterRecord) {
    && !(c.twinStart != 0 && (m.first < c.twinStart || m.last > c.twinEnd))
    && (EffLimit(c) == 0 || numflows < EffLimit(c))
  }

  /** A record survives the time window, the limit, the filter engine and
      the rate gate. */
  predicate Admits(c: Config, env: Env, numflows: nat, m: MasterRecord) {
    TimeLimitMatch(c, numflows, m) && env.engine(m) && RateAdmits(env.rate, env.store, env.now, m)
  }

  /** The ten back-to-back calls of `check_xdayypercent_filter` in the
      admission test, each made only while the previous ones passed. */
  method RateGateTenfold(ctx: RateCtx, store: Store, now: nat, m: MasterRecord) returns (pass: bool)
    ensures pass == RateAdmits(ctx, store, now, m)
  {
    ghost var lookups: nat;
    pass, lookups := CheckRateFilter(ctx, store, now, m);
    if pass { pass, lookups := CheckRateFilter(ctx, store, now, m); }
    if pass { pass, lookups := CheckRateFilter(ctx, store, now, m); }
    if pass { pass, lookups := CheckRateFilter(ctx, store, now, m); }
    if pass { pass, lookups := CheckRateFilter(ctx, store, now, m); }
    if pass { pass, lookups := CheckRateFilter(ctx, store, now, m); }
    if pass { pass, lookups := CheckRateFilter(ctx, store, now, m); }
    if pass { pass, lookups := CheckRateFilter(ctx, store, now, m); }
    if pass { pass, lookups := CheckRateFilter(ctx, store, now, m); }
    if pass { pass, lookups := CheckRateFilter(ctx, store, now, m); }
  }

  /** The sink chain for an admitted record; `numflows` is the count after
      `UpdateStat`. */
  function SinkCalls(c: Config, numflows: nat, m: MasterRecord, raw: RawRecord): (calls: seq<Call>)
    ensures 1 <= |calls| <= 2
    ensures |calls| == 2 <==> (c.flowStat && c.elementStat) || (!StatMode(c) && XstatOn(c))
  {
    if c.flowStat then
      [AddFlow(m)] + (if c.elementStat then [AddStat(m)] else [])
    else if c.elementStat then
      [AddStat(m)]
    else if c.sortFlows then
      [InsertFlow(m)]
    else if WriteFile(c) then
      [Append(raw)] + (if XstatOn(c) then [UpdateXStat(m)] else [])
    else if PrintOn(c) then
      [Print(m, c.limitflows == 0 || numflows <= c.limitflows)]
    else
      [Bug]
  }

  /** The sink chain is a priority chain: the first configured sink in the
      order flow statistics, element statistics, sorting, writing, printing
      takes the record, and only flow statistics shares it (with element
      statistics). */
  lemma SinkPriority(c: Config, numflows: nat, m: MasterRecord, raw: RawRecord)
    ensures var calls := SinkCalls(c, numflows, m, raw);
      && (c.flowStat ==> calls[0] == AddFlow(m) && (c.elementStat <==> |calls| == 2 && calls[1] == AddStat(m)))
      && (!c.flowStat && c.elementStat ==> calls == [AddStat(m)])
      && (!c.flowStat && !c.elementStat && c.sortFlows ==> calls == [InsertFlow(m)])
      && (!StatMode(c) && c.hasWfile ==> calls[0] == Append(raw) && (|calls| == 2 <==> c.doXstat))
      && (!StatMode(c) && !c.hasWfile && c.hasPrinter ==> calls == [Print(m, c.limitflows == 0 || numflows <= c.limitflows)])
  {
  }

  /** Sorting and the statistics modes never write, print or reach the
      "Bug!" branch. */
  lemma StatModesSuppressOutput(c: Config, numflows: nat, m: MasterRecord, raw: RawRecord)
    requires StatMode(c)
    ensures forall call :: call in SinkCalls(c, numflows, m, raw) ==> !call.Append? && !call.Print? && call != Bug
  {
  }

  /** The "Bug!" branch is reached exactly when no sink at all is configured. */
  lemma BugIffNoSink(c: Config, numflows: nat, m: MasterRecord, raw: RawRecord)
    ensures Bug in SinkCalls(c, numflows, m, raw)
        <==> !c.flowStat && !c.elementStat && !c.sortFlows && !c.hasWfile && !c.hasPrinter
  {
    var calls := SinkCalls(c, numflows, m, raw);
    if !c.flowStat && !c.elementStat && !c.sortFlows && !c.hasWfile && !c.hasPrinter {
      assert calls == [Bug];
    }
  }

  /** `Insert_Extension_Map` lives in nfx.c, which is not part of this
      model; its behaviour is assumed: an id of 65536 or above is refused and
      reported as not new; a layout already in its slot is reported as not
      new and changes nothing; anything else is installed in the slot with a
      reference count of 0 and reported as new. */
  datatype Registration = Registration(isNew: bool, slots: map<nat, MapSlot>)

  function RegisterMap(slots: map<nat, MapSlot>, id: nat, layout: seq<nat>): (r: Registration)
    ensures id >= MaxExtensionMaps ==> r == Registration(false, slots)
    ensures id < MaxExtensionMaps ==> id in r.slots && r.slots[id].layout == layout
    ensures r.isNew <==> id < MaxExtensionMaps && !(id in slots && slots[id].layout == layout)
    ensures forall j :: j != id ==> (j in r.slots <==> j in slots)
    ensures forall j :: j != id && j in slots ==> r.slots[j] == slots[j]
  {
    if id >= MaxExtensionMaps then Registration(false, slots)
    else if id in slots && slots[id].layout == layout then Registration(false, slots)
    else Registration(true, slots[id := MapSlot(layout, 0)])
  }

  /** Registering the same definition again is not new and changes nothing,
      so a repeated definition is mirrored to the output at most once. */
  lemma RegisterMapIdempotent(slots: map<nat, MapSlot>, id: nat, layout: seq<nat>)
    ensures var r := RegisterMap(slots, id, layout);
            var r2 := RegisterMap(r.slots, id, layout);
            !r2.isNew && r2.slots == r.slots
  {
  }

  /** What one step of the loop leads to: the next state, or `exit(255)`. */
  datatype Outcome = Next(g: Globals) | Fatal

  /** `calls` only ever grows at its end. */
  predicate Extends(before: seq<Call>, after: seq<Call>) {
    |before| <= |after| && after[..|before|] == before
  }

  /** One record of a type-2 block. */
  function RecordStep(c: Config, env: Env, g: Globals, r: RawRecord): (o: Outcome)
    ensures o.Fatal? <==> r.CommonRecord? && r.extMap >= MaxExtensionMaps
    ensures o.Next? ==> Extends(g.calls, o.g.calls)
    ensures o.Next? ==> g.slots.Keys <= o.g.slots.Keys
    ensures o.Next? && !r.ExtensionMapRecord? ==> o.g.slots.Keys == g.slots.Keys
    ensures o.Next? && !r.CommonRecord? ==> o.g.stat == g.stat && o.g.totalFlows == g.totalFlows
  {
    match r
    case CommonRecord(_, id, m) =>
      if id >= MaxExtensionMaps then Fatal
      else if id !in g.slots then Next(g)
      else
        var g1 := g.(totalFlows := Wrap32(g.totalFlows + 1));
        if !Admits(c, env, g.stat.numflows, m) then Next(g1)
        else
          var stat := env.updateStat(g.stat, m);
          var slot := g.slots[id];
          Next(g1.(stat := stat,
                   slots := g.slots[id := slot.(refCount := slot.refCount + 1)],
                   calls := g.calls + SinkCalls(c, stat.numflows, m, r)))
    case ExtensionMapRecord(_, id, layout) =>
      var reg := RegisterMap(g.slots, id, layout);
      Next(g.(slots := reg.slots,
              calls := g.calls + if reg.isNew && WriteFile(c) then [Append(r)] else []))
    case ExporterRecord(_) => Next(g)
    case SamplerRecord(_) => Next(g)
    case ExporterInfoRecord(_, ret) =>
      Next(g.(calls := g.calls + [AddExporterInfo(r)]
                       + if ret == 1 && WriteFile(c) then [Append(r)] else []))
    case ExporterStatRecord(_) =>
      Next(g.(calls := g.calls + [AddExporterStat(r)]))
    case SamplerInfoRecord(_, ret) =>
      Next(g.(calls := g.calls + [AddSamplerInfo(r)]
                       + if ret == 1 && WriteFile(c) then [Append(r)] else []))
    case UnknownRecord(_) => Next(g)
  }

  /** A data record whose map slot is empty is skipped: nothing changes. */
  lemma RecordStepSkipsMissingMap(c: Config, env: Env, g: Globals, r: RawRecord)
    requires r.CommonRecord? && r.extMap < MaxExtensionMaps && r.extMap !in g.slots
    ensures RecordStep(c, env, g, r) == Next(g)
  {
  }

  /** A data record whose map is known is counted in `total_flows` whether
      or not it is admitted; its map's reference count, the statistics and
      the sinks see it exactly when it is admitted. */
  lemma RecordStepKnownMap(c: Config, env: Env, g: Globals, r: RawRecord)
    requires r.CommonRecord? && r.extMap < MaxExtensionMaps && r.extMap in g.slots
    ensures var o := RecordStep(c, env, g, r);
      && o.Next? && r.extMap in o.g.slots
      && o.g.totalFlows == Wrap32(g.totalFlows + 1)
      && o.g.slots[r.extMap].layout == g.slots[r.extMap].layout
      && (o.g.slots[r.extMap].refCount == g.slots[r.extMap].refCount + 1
          <==> Admits(c, env, g.stat.numflows, r.expanded))
      && (Admits(c, env, g.stat.numflows, r.expanded) ==>
            && o.g.stat == env.updateStat(g.stat, r.expanded)
            && o.g.calls == g.calls + SinkCalls(c, o.g.stat.numflows, r.expanded, r))
      && (!Admits(c, env, g.stat.numflows, r.expanded) ==> o.g == g.(totalFlows := o.g.totalFlows))
  {
  }

  /** A record that is not a flow touches only the map slots and the calls.
      The info and statistics records are handed to their exporter
      functions; a map definition or an info record is mirrored to the
      output exactly when a file is written and it was newly added (a new
      map, or an add result of 1); the other records change nothing. */
  lemma RecordStepNonFlow(c: Config, env: Env, g: Globals, r: RawRecord)
    requires !r.CommonRecord?
    ensures var o := RecordStep(c, env, g, r);
      && o.Next? && o.g == g.(slots := o.g.slots, calls := o.g.calls)
      && (!r.ExtensionMapRecord? ==> o.g.slots == g.slots)
      && (r.ExtensionMapRecord? ==> o.g.slots == RegisterMap(g.slots, r.mapId, r.layout).slots)
      && (r.ExporterInfoRecord? ==> o.g.calls[..|g.calls| + 1] == g.calls + [AddExporterInfo(r)])
      && (r.SamplerInfoRecord? ==> o.g.calls[..|g.calls| + 1] == g.calls + [AddSamplerInfo(r)])
      && (r.ExporterStatRecord? ==> o.g.calls == g.calls + [AddExporterStat(r)])
      && (r.ExporterRecord? || r.SamplerRecord? || r.UnknownRecord? ==> o.g == g)
      && (Append(r) in o.g.calls[|g.calls|..] <==>
            && WriteFile(c)
            && (r.ExtensionMapRecord? ==> RegisterMap(g.slots, r.mapId, r.layout).isNew)
            && (r.ExporterInfoRecord? || r.SamplerInfoRecord? ==> r.addResult == 1)
            && (r.ExtensionMapRecord? || r.ExporterInfoRecord? || r.SamplerInfoRecord?))
  {
    var o := RecordStep(c, env, g, r);
    match r
    case ExtensionMapRecord(_, id, layout) =>
      var reg := RegisterMap(g.slots, id, layout);
      assert o.g.calls[|g.calls|..] == if reg.isNew && WriteFile(c) then [Append(r)] else [];
    case ExporterInfoRecord(_, ret) =>
      assert o.g.calls[|g.calls|..] == [AddExporterInfo(r)] + if ret == 1 && WriteFile(c) then [Append(r)] else [];
    case SamplerInfoRecord(_, ret) =>
      assert o.g.calls[|g.calls|..] == [AddSamplerInfo(r)] + if ret == 1 && WriteFile(c) then [Append(r)] else [];
    case ExporterStatRecord(_) =>
      assert o.g.calls[|g.calls|..] == [AddExporterStat(r)];
    case ExporterRecord(_) =>
      assert o.g.calls[|g.calls|..] == [];
    case SamplerRecord(_) =>
      assert o.g.calls[|g.calls|..] == [];
    case UnknownRecord(_) =>
      assert o.g.calls[|g.calls|..] == [];
    case CommonRecord(_, _, _) =>
      assert false;
  }

  /** The records of one block, in order, stopping at a fatal one. */
  function BlockRun(c: Config, env: Env, g: Globals, recs: seq<RawRecord>): (o: Outcome)
    ensures o.Next? ==> Extends(g.calls, o.g.calls)
    ensures o.Next? ==> g.slots.Keys <= o.g.slots.Keys
    decreases |recs|
  {
    if |recs| == 0 then Next(g)
    else
      match BlockRun(c, env, g, recs[..|recs| - 1])
      case Fatal => Fatal
      case Next(g1) =>
        var o := RecordStep(c, env, g1, recs[|recs| - 1]);
        assert o.Next? ==> o.g.calls[..|g.calls|] == o.g.calls[..|g1.calls|][..|g.calls|];
        o
  }

  predicate FatalRecord(r: RawRecord) {
    r.CommonRecord? && r.extMap >= MaxExtensionMaps
  }

  /** A block ends the process exactly when one of its records names a map
      id out of range. */
  lemma {:induction false} BlockRunFatalIff(c: Config, env: Env, g: Globals, recs: seq<RawRecord>)
    ensures BlockRun(c, env, g, recs).Fatal? <==> exists i :: 0 <= i < |recs| && FatalRecord(recs[i])
  {
    if |recs| > 0 {
      var n := |recs| - 1;
      BlockRunFatalIff(c, env, g, recs[..n]);
      if exists i :: 0 <= i < n && FatalRecord(recs[..n][i]) {
        var i :| 0 <= i < n && FatalRecord(recs[..n][i]);
        assert FatalRecord(recs[i]);
      }
      if exists i :: 0 <= i < |recs| && FatalRecord(recs[i]) {
        var i :| 0 <= i < |recs| && FatalRecord(recs[i]);
        if i < n {
          assert FatalRecord(recs[..n][i]);
        }
      }
    }
  }

  /** The number of data records whose map id is in `known`. */
  function KnownCount(known: set<nat>, recs: seq<RawRecord>): (n: nat)
    ensures n <= |recs|
  {
    if |recs| == 0 then 0
    else KnownCount(known, recs[..|recs| - 1])
         + (if recs[|recs| - 1].CommonRecord? && recs[|recs| - 1].extMap in known then 1 else 0)
  }

  predicate NoMapRecords(recs: seq<RawRecord>) {
    forall i :: 0 <= i < |recs| ==> !recs[i].ExtensionMapRecord?
  }

  /** One record that defines no map counts itself when its map is known. */
  lemma RecordStepCountsKnown(c: Config, env: Env, g: Globals, r: RawRecord)
    requires !r.ExtensionMapRecord? && RecordStep(c, env, g, r).Next?
    ensures var known := r.CommonRecord? && r.extMap in g.slots;
      RecordStep(c, env, g, r).g.totalFlows == if known then Wrap32(g.totalFlows + 1) else g.totalFlows
    ensures RecordStep(c, env, g, r).g.slots.Keys == g.slots.Keys
  {
    if r.CommonRecord? && r.extMap in g.slots {
      RecordStepKnownMap(c, env, g, r);
    } else if r.CommonRecord? {
      RecordStepSkipsMissingMap(c, env, g, r);
    }
  }

  lemma NoMapRecordsPrefix(recs: seq<RawRecord>, n: nat)
    requires NoMapRecords(recs) && n <= |recs|
    ensures NoMapRecords(recs[..n])
  {
    forall i | 0 <= i < n ensures !recs[..n][i].ExtensionMapRecord? {
      assert recs[..n][i] == recs[i];
    }
  }

  /** A block that defines no maps leaves the set of known map ids alone. */
  lemma {:induction false} BlockRunKeepsMapIds(c: Config, env: Env, g: Globals, recs: seq<RawRecord>)
    requires NoMapRecords(recs)
    requires BlockRun(c, env, g, recs).Next?
    ensures BlockRun(c, env, g, recs).g.slots.Keys == g.slots.Keys
  {
    if |recs| > 0 {
      var n := |recs| - 1;
      NoMapRecordsPrefix(recs, n);
      BlockRunKeepsMapIds(c, env, g, recs[..n]);
    }
  }

  /** In a block that defines no maps, `total_flows` grows by the number of
      data records whose map is known, admitted or not (stated while the
      counter stays below 2^32; each step's wrap is in RecordStepKnownMap). */
  lemma {:induction false} BlockRunCountsKnownRecords(c: Config, env: Env, g: Globals, recs: seq<RawRecord>)
    requires NoMapRecords(recs) && g.totalFlows + |recs| < U32
    requires BlockRun(c, env, g, recs).Next?
    ensures BlockRun(c, env, g, recs).g.totalFlows == g.totalFlows + KnownCount(g.slots.Keys, recs)
  {
    if |recs| > 0 {
      var n := |recs| - 1;
      var r := recs[n];
      NoMapRecordsPrefix(recs, n);
      BlockRunCountsKnownRecords(c, env, g, recs[..n]);
      BlockRunKeepsMapIds(c, env, g, recs[..n]);
      var g1 := BlockRun(c, env, g, recs[..n]).g;
      assert r.CommonRecord? ==> (r.extMap in g1.slots <==> r.extMap in g.slots);
      RecordStepCountsKnown(c, env, g1, r);
    }
  }

  /** `UpdateStat` counts the record it is given. */
  ghost predicate CountsOneFlow(env: Env) {
    forall s: StatRecord, m: MasterRecord :: env.updateStat(s, m).numflows == s.numflows + 1
  }

  /** With a record limit, a block never takes the flow count past the
      limit: a record is only admitted while the count is below it. */
  lemma {:induction false} BlockRunRespectsLimit(c: Config, env: Env, g: Globals, recs: seq<RawRecord>)
    requires CountsOneFlow(env)
    requires EffLimit(c) != 0 && g.stat.numflows <= EffLimit(c)
    requires BlockRun(c, env, g, recs).Next?
    ensures BlockRun(c, env, g, recs).g.stat.numflows <= EffLimit(c)
  {
    if |recs| > 0 {
      var n := |recs| - 1;
      BlockRunRespectsLimit(c, env, g, recs[..n]);
      var g1 := BlockRun(c, env, g, recs[..n]).g;
      var r := recs[n];
      assert BlockRun(c, env, g, recs) == RecordStep(c, env, g1, r);
      if r.CommonRecord? && r.extMap in g1.slots {
        RecordStepKnownMap(c, env, g1, r);
      } else if r.CommonRecord? {
        RecordStepSkipsMissingMap(c, env, g1, r);
      }
    }
  }

  /** No printed record was held back. */
  predicate AllShown(calls: seq<Call>) {
    forall i :: 0 <= i < |calls| && calls[i].Print? ==> calls[i].shown
  }

  lemma RecordStepPrintsShown(c: Config, env: Env, g: Globals, r: RawRecord)
    requires CountsOneFlow(env) && AllShown(g.calls)
    requires RecordStep(c, env, g, r).Next?
    ensures AllShown(RecordStep(c, env, g, r).g.calls)
  {
    var o := RecordStep(c, env, g, r);
    if r.CommonRecord? && r.extMap in g.slots {
      RecordStepKnownMap(c, env, g, r);
      if Admits(c, env, g.stat.numflows, r.expanded) {
        var added := SinkCalls(c, o.g.stat.numflows, r.expanded, r);
        assert o.g.calls == g.calls + added;
        assert AllShown(added);
      }
    } else if r.CommonRecord? {
      RecordStepSkipsMissingMap(c, env, g, r);
    }
  }

  /** Every record that reaches the printer is shown: admission already
      demands a count below the limit, so the limit test at print time
      never suppresses output. */
  lemma {:induction false} PrintedRecordsAreShown(c: Config, env: Env, g: Globals, recs: seq<RawRecord>)
    requires CountsOneFlow(env) && AllShown(g.calls)
    requires BlockRun(c, env, g, recs).Next?
    ensures AllShown(BlockRun(c, env, g, recs).g.calls)
  {
    if |recs| > 0 {
      var n := |recs| - 1;
      PrintedRecordsAreShown(c, env, g, recs[..n]);
      var g1 := BlockRun(c, env, g, recs[..n]).g;
      assert BlockRun(c, env, g, recs) == RecordStep(c, env, g1, recs[n]);
      RecordStepPrintsShown(c, env, g1, recs[n]);
    }
  }

  /** A block holding only the definition of map 7 registers it in an
      empty registry and counts nothing. */
  lemma DefinitionBlock(c: Config, env: Env, g: Globals, sz: nat, layout: seq<nat>)
    requires g.slots == map[]
    ensures var o := BlockRun(c, env, g, [ExtensionMapRecord(sz, 7, layout)]);
            o.Next? && o.g.slots.Keys == {7} && o.g.totalFlows == g.totalFlows && o.g.stat == g.stat
  {
    var def := [ExtensionMapRecord(sz, 7, layout)];
    assert def[..0] == [];
    assert BlockRun(c, env, g, def) == RecordStep(c, env, g, def[0]);
  }

  /** The conditions of the end-to-end scenarios: no time window, no limit,
      a filter that passes everything and both rate thresholds zero. */
  ghost predicate PassAll(c: Config, env: Env) {
    && c.twinStart == 0 && EffLimit(c) == 0
    && (forall m :: env.engine(m))
    && env.rate.exclusionThreshold == 0 && env.rate.inclusionThreshold == 0
    && CountsOneFlow(env)
  }

  /** Under PassAll, a data record naming a defined map is admitted. */
  lemma PassAllAdmits(c: Config, env: Env, g: Globals, a: RawRecord)
    requires PassAll(c, env) && g.totalFlows + 1 < U32
    requires a.CommonRecord? && a.extMap in g.slots && a.extMap < MaxExtensionMaps
    ensures var o := RecordStep(c, env, g, a);
            && o.Next? && o.g.slots.Keys == g.slots.Keys
            && o.g.totalFlows == g.totalFlows + 1 && o.g.stat.numflows == g.stat.numflows + 1
  {
    ZeroThresholdsAdmitAll(env.rate, env.store, env.now, a.expanded);
    RecordStepKnownMap(c, env, g, a);
  }

  /** Three data records naming a defined map are all counted and all reach
      the statistics. */
  lemma ThreeKnownRecords(c: Config, env: Env, g: Globals, a1: RawRecord, a2: RawRecord, a3: RawRecord)
    requires PassAll(c, env) && g.totalFlows == 0
    requires a1.CommonRecord? && a2.CommonRecord? && a3.CommonRecord?
    requires a1.extMap == a2.extMap == a3.extMap == 7 && 7 in g.slots
    ensures var o := BlockRun(c, env, g, [a1, a2, a3]);
            o.Next? && o.g.totalFlows == 3 && o.g.stat.numflows == g.stat.numflows + 3
  {
    assert [a1, a2, a3][..2] == [a1, a2] && [a1, a2][..1] == [a1] && [a1][..0] == [];
    PassAllAdmits(c, env, g, a1);
    var h1 := RecordStep(c, env, g, a1).g;
    assert BlockRun(c, env, g, [a1]) == Next(h1);
    PassAllAdmits(c, env, h1, a2);
    var h2 := RecordStep(c, env, h1, a2).g;
    assert BlockRun(c, env, g, [a1, a2]) == Next(h2);
    PassAllAdmits(c, env, h2, a3);
    assert BlockRun(c, env, g, [a1, a2, a3]) == RecordStep(c, env, h2, a3);
  }

  /** With the middle record naming an undefined map, it is skipped and the
      other two are counted. */
  lemma MiddleRecordMissingMap(c: Config, env: Env, g: Globals, a1: RawRecord, b2: RawRecord, a3: RawRecord)
    requires PassAll(c, env) && g.totalFlows == 0
    requires a1.CommonRecord? && b2.CommonRecord? && a3.CommonRecord?
    requires a1.extMap == a3.extMap == 7 && 7 in g.slots
    requires b2.extMap == 9 && 9 !in g.slots
    ensures var o := BlockRun(c, env, g, [a1, b2, a3]);
            o.Next? && o.g.totalFlows == 2 && o.g.stat.numflows == g.stat.numflows + 2
  {
    assert [a1, b2, a3][..2] == [a1, b2] && [a1, b2][..1] == [a1] && [a1][..0] == [];
    PassAllAdmits(c, env, g, a1);
    var h1 := RecordStep(c, env, g, a1).g;
    assert BlockRun(c, env, g, [a1]) == Next(h1);
    assert 9 !in h1.slots;
    RecordStepSkipsMissingMap(c, env, h1, b2);
    assert BlockRun(c, env, g, [a1, b2]) == Next(h1);
    PassAllAdmits(c, env, h1, a3);
    assert BlockRun(c, env, g, [a1, b2, a3]) == RecordStep(c, env, h1, a3);
  }

  /** The two-block scenario: block 1 defines map 7, block 2 holds three
      data records. A fresh run counts three flows and three statistics
      updates; with the second record naming the undefined map 9, two. */
  lemma TwoBlockScenario(c: Config, env: Env, g: Globals, layout: seq<nat>,
                         sz: nat, s1: nat, s2: nat, s3: nat, m1: MasterRecord, m2: MasterRecord, m3: MasterRecord)
    requires g.totalFlows == 0 && g.slots == map[]
    requires PassAll(c, env)
    ensures var o1 := BlockRun(c, env, g, [ExtensionMapRecord(sz, 7, layout)]);
            && o1.Next?
            && var o2 := BlockRun(c, env, o1.g, [CommonRecord(s1, 7, m1), CommonRecord(s2, 7, m2), CommonRecord(s3, 7, m3)]);
            && o2.Next? && o2.g.totalFlows == 3 && o2.g.stat.numflows == g.stat.numflows + 3
            && var o3 := BlockRun(c, env, o1.g, [CommonRecord(s1, 7, m1), CommonRecord(s2, 9, m2), CommonRecord(s3, 7, m3)]);
            && o3.Next? && o3.g.totalFlows == 2 && o3.g.stat.numflows == g.stat.numflows + 2
  {
    DefinitionBlock(c, env, g, sz, layout);
    var g1 := BlockRun(c, env, g, [ExtensionMapRecord(sz, 7, layout)]).g;
    ThreeKnownRecords(c, env, g1, CommonRecord(s1, 7, m1), CommonRecord(s2, 7, m2), CommonRecord(s3, 7, m3));
    MiddleRecordMissingMap(c, env, g1, CommonRecord(s1, 7, m1), CommonRecord(s2, 9, m2), CommonRecord(s3, 7, m3));
  }
}
