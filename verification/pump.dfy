/** The block and file pump of `process_data`, the periodic flush it
    triggers, and the `-p` interval normalisation.

    `ReadBlock` and `GetNextFile` are not part of this model: a file is the
    sequence of results its reads return (a read past the last one returns
    end of file), and the file list is the sequence of what `GetNextFile`
    returns for each entry. */
module Pump {
  import opened CArith
  import opened FlowTypes
  import opened RecordLoop

  /** The `id` of a block header, as far as the pump tells them apart;
      `OtherBlock` covers type 1 as well, as built without COMPAT15. */
  datatype BlockKind = DataBlockV2 | XstatBlock | OtherBlock(id: nat)

  /** What `ReadBlock` returns. */
  datatype ReadResult =
    | Corrupt
    | ReadError
    | EndOfFile
    | Block(bytes: nat, kind: BlockKind, records: seq<RawRecord>)

  /** An open input file: the time bounds of its statistics record and its
      blocks. */
  datatype InputFile = InputFile(firstSeen: int, lastSeen: int, blocks: seq<ReadResult>)

  /** What `GetNextFile` returns for an entry of the file list. */
  datatype FileEntry = Opened(f: InputFile) | OpenFailed

  function ReadAt(f: InputFile, read: nat): ReadResult {
    if read < |f.blocks| then f.blocks[read] else EndOfFile
  }

  datatype Status = Running | Done | Exited

  /** The pump between two iterations of `while (!done)`: the globals, the
      static counter `kk`, the current file and block, and whether the loop
      goes on, has ended, or the process has exited. */
  datatype PumpState = PumpState(g: Globals, kk: nat, file: nat, read: nat, status: Status)

  predicate ValidPos(files: seq<FileEntry>, s: PumpState) {
    s.file < |files| && files[s.file].Opened? && s.read <= |files[s.file].f.blocks|
  }

  // ---------------------------------------------------------------------
  // The flush cadence

  /** `sep / 300` for a normalised interval; 0 when no flush can happen. */
  function FlushPeriod(c: Config): (p: nat)
    ensures c.sep < 300 ==> p == 0
    ensures c.sep >= 300 ==> p == c.sep / 300 && p >= 1
  {
    if c.sep < 300 then 0 else c.sep / 300
  }

  /** `kk++; if (kk == sep / 300) kk = 0;` and whether the flush fires. */
  function KkStep(kk: nat, period: nat): (r: (nat, bool))
    ensures period == 0 ==> !r.1
    ensures kk < period ==> r.0 < period && (r.1 <==> r.0 == 0)
  {
    if kk + 1 == period then (0, true) else (kk + 1, false)
  }

  /** `kk` after `j` file advances from its initial zero. */
  function KkAfter(period: nat, j: nat): nat {
    if j == 0 then 0 else KkStep(KkAfter(period, j - 1), period).0
  }

  /** Whether the `j`-th file advance flushes. */
  predicate FiresAt(period: nat, j: nat) {
    j > 0 && KkStep(KkAfter(period, j - 1), period).1
  }

  /** How many of the first `j` file advances flush. */
  function FlushCount(period: nat, j: nat): nat {
    if j == 0 then 0 else FlushCount(period, j - 1) + (if FiresAt(period, j) then 1 else 0)
  }

  lemma MulAtLeast(d: int, p: int)
    requires p >= 0
    ensures d >= 1 ==> d * p >= p
    ensures d <= -1 ==> d * p <= -p
  {
    assert d * p == p + (d - 1) * p;
    assert d * p == -p + (d + 1) * p;
  }

  lemma DivModUnique(n: nat, p: nat, q: nat, r: nat)
    requires 0 <= r < p && n == q * p + r
    ensures n / p == q && n % p == r
  {
    var q0, r0 := n / p, n % p;
    assert (q0 - q) * p == r - r0;
    MulAtLeast(q0 - q, p);
  }

  lemma {:induction false} CadenceWithoutPeriod(j: nat)
    ensures KkAfter(0, j) == j && FlushCount(0, j) == 0 && !FiresAt(0, j)
  {
    if j > 0 {
      CadenceWithoutPeriod(j - 1);
    }
  }

  /** How a remainder and a quotient move when the dividend grows by one. */
  lemma DivModSucc(n: nat, p: nat)
    requires p > 0
    ensures n % p + 1 == p ==> (n + 1) % p == 0 && (n + 1) / p == n / p + 1
    ensures n % p + 1 != p ==> (n + 1) % p == n % p + 1 && (n + 1) / p == n / p
  {
    var q, r := n / p, n % p;
    assert n == q * p + r;
    if r + 1 == p {
      assert n + 1 == (q + 1) * p + 0;
      DivModUnique(n + 1, p, q + 1, 0);
    } else {
      DivModUnique(n + 1, p, q, r + 1);
    }
  }

  lemma {:induction false} CadenceWithPeriod(period: nat, j: nat)
    requires period > 0
    ensures KkAfter(period, j) == j % period && FlushCount(period, j) == j / period
    ensures FiresAt(period, j) <==> j > 0 && j % period == 0
  {
    if j > 0 {
      CadenceWithPeriod(period, j - 1);
      DivModSucc(j - 1, period);
    }
  }

  /** The flush fires on every `period`-th file advance and never when the
      period is zero: `kk` is the number of advances modulo the period, and
      after `j` advances `j / period` flushes have happened. */
  lemma FlushCadence(period: nat, j: nat)
    ensures period == 0 ==> KkAfter(period, j) == j && FlushCount(period, j) == 0 && !FiresAt(period, j)
    ensures period > 0 ==> KkAfter(period, j) == j % period && FlushCount(period, j) == j / period
    ensures period > 0 ==> (FiresAt(period, j) <==> j > 0 && j % period == 0)
  {
    if period == 0 {
      CadenceWithoutPeriod(j);
    } else {
      CadenceWithPeriod(period, j);
    }
  }

  /** `-p`: `sep = atoi(optarg); sep -= sep % 300; if (sep < 0) sep = 0;`
      with C's remainder. */
  function NormaliseInterval(n: int): (sep: int)
    ensures sep >= 0 && sep % 300 == 0
    ensures n >= 0 ==> sep <= n < sep + 300
    ensures n < 300 ==> sep == 0
  {
    var s := n - CRem(n, 300);
    if s < 0 then 0 else s
  }

  /** A normalised interval flushes every `sep / 300` files, or never when
      it is below 300 seconds. */
  lemma NormalisedPeriod(n: int, c: Config)
    requires c.sep == NormaliseInterval(n)
    ensures n < 300 ==> FlushPeriod(c) == 0
    ensures n >= 300 ==> FlushPeriod(c) * 300 == c.sep && c.sep <= n < c.sep + 300
  {
    if n >= 300 {
      DivModUnique(c.sep, 300, c.sep / 300, 0);
    }
  }

  // ---------------------------------------------------------------------
  // The flush: the counter-reset tail of OutputAndDestroy

  /** The counters, the time window and the statistics after
      `OutputAndDestroy`: all zero except `t_first_flow` = 0x7fffffff and a
      fresh statistics record. The extension map list is left as it is. The
      output and table work it does is one `Flush` call. */
  function Flushed(g: Globals): (r: Globals)
    ensures r.totalFlows == 0 && r.totalBytes == 0 && r.skippedBlocks == 0
    ensures r.tFirstFlow == 0x7fff_ffff && r.tLastFlow == 0
    ensures r.stat == FreshStatRecord()
    ensures r.slots == g.slots
    ensures r.calls == g.calls + [Flush(g.stat, g.totalFlows, g.skippedBlocks, g.totalBytes)]
  {
    Globals(0, 0, 0, 0x7fff_ffff, 0, FreshStatRecord(), g.slots,
            g.calls + [Flush(g.stat, g.totalFlows, g.skippedBlocks, g.totalBytes)])
  }

  /** After a flush, nothing of the counters or the statistics depends on
      what came before: two runs flushed from different states agree on all
      of them. */
  lemma FlushForgetsCounters(g1: Globals, g2: Globals)
    ensures Flushed(g1).(slots := g2.slots, calls := []) == Flushed(g2).(slots := g2.slots, calls := [])
  {
  }

  // ---------------------------------------------------------------------
  // One iteration of while (!done)

  function Min(a: int, b: int): int { if b < a then b else a }
  function Max(a: int, b: int): int { if b > a then b else a }

  /** The end-of-file path, which corrupt and failed reads fall through to:
      the next file, its time bounds merged into the global window, then
      `kk` and perhaps a flush. */
  function NextFile(c: Config, files: seq<FileEntry>, s: PumpState): (r: PumpState)
    requires ValidPos(files, s)
    ensures ValidPos(files, r)
    ensures r.status.Done? <==> s.file + 1 >= |files| || files[s.file + 1].OpenFailed?
    ensures r.status.Running? <==> !r.status.Done?
    ensures r.status.Running? ==> r.file == s.file + 1 && r.read == 0
  {
    if s.file + 1 >= |files| || files[s.file + 1].OpenFailed? then
      s.(status := Done)
    else
      var next := files[s.file + 1].f;
      var g := s.g.(tFirstFlow := Min(s.g.tFirstFlow, next.firstSeen),
                    tLastFlow := Max(s.g.tLastFlow, next.lastSeen));
      var (kk, fire) := KkStep(s.kk, FlushPeriod(c));
      PumpState(if fire then Flushed(g) else g, kk, s.file + 1, 0, Running)
  }

  /** One block of the current file. */
  function PumpStep(c: Config, env: Env, files: seq<FileEntry>, s: PumpState): (r: PumpState)
    requires ValidPos(files, s) && s.status.Running?
    ensures ValidPos(files, r)
    ensures !ReadAt(files[s.file].f, s.read).Block? ==> r == NextFile(c, files, s)
    ensures ReadAt(files[s.file].f, s.read).Block? ==>
      && r.file == s.file && r.read == s.read + 1 && r.kk == s.kk
      && (r.status.Done? ==> EffLimit(c) != 0 && r.g.stat.numflows >= EffLimit(c))
  {
    var f := files[s.file].f;
    match ReadAt(f, s.read)
    case Block(bytes, kind, recs) =>
      var g := s.g.(totalBytes := Wrap64(s.g.totalBytes + bytes));
      var s1 := s.(g := g, read := s.read + 1);
      (match kind
       case XstatBlock => s1
       case OtherBlock(_) => s1.(g := g.(skippedBlocks := Wrap32(g.skippedBlocks + 1)))
       case DataBlockV2 =>
         match BlockRun(c, env, g, recs)
         case Fatal => s1.(status := Exited)
         case Next(g2) =>
           s1.(g := g2, status := if EffLimit(c) != 0 && g2.stat.numflows >= EffLimit(c) then Done else Running))
    case _ => NextFile(c, files, s)
  }

  /** What orders the iterations: a finished pump, then fewer files left,
      then fewer blocks left in the current file. */
  function BlocksLeft(files: seq<FileEntry>, s: PumpState): nat
    requires ValidPos(files, s)
  {
    |files[s.file].f.blocks| - s.read
  }

  /** The pump from `s` until the loop ends. */
  function Run(c: Config, env: Env, files: seq<FileEntry>, s: PumpState): (r: PumpState)
    requires ValidPos(files, s)
    ensures ValidPos(files, r) && !r.status.Running?
    decreases (if s.status.Running? then 1 else 0), |files| - s.file, BlocksLeft(files, s)
  {
    if !s.status.Running? then s
    else Run(c, env, files, PumpStep(c, env, files, s))
  }

  /** `process_data` as a whole: a fresh statistics record; an empty file
      list, a first file that cannot be had, or an output file or xstat
      buffer that cannot be set up end it at once; otherwise the first
      file's bounds preset the time window, the pump runs, and the output is
      closed and the map list packed. */
  function ProcessDataSpec(c: Config, env: Env, files: seq<FileEntry>, writerOpens: bool, xstatInits: bool,
                           g0: Globals, kk0: nat): (r: PumpState)
    ensures r.status.Exited? || r.status.Done?
  {
    var g := g0.(stat := FreshStatRecord());
    if |files| == 0 || files[0].OpenFailed? then PumpState(g, kk0, 0, 0, Done)
    else
      var g1 := g.(tFirstFlow := files[0].f.firstSeen, tLastFlow := files[0].f.lastSeen);
      if (WriteFile(c) && !writerOpens) || (XstatOn(c) && !xstatInits) then PumpState(g1, kk0, 0, 0, Done)
      else
        var s := Run(c, env, files, PumpState(g1, kk0, 0, 0, Running));
        if s.status.Exited? then s
        else
          s.(g := s.g.(calls := s.g.calls + (if WriteFile(c) then [CloseOutput(s.g.stat)] else []) + [PackMaps]))
  }

  // ---------------------------------------------------------------------
  // Properties of the pump

  /** A flush on a file advance discards the bounds of the file just
      merged: the window restarts at 0x7fffffff..0 with the next file
      already open. */
  lemma FlushDiscardsMergedBounds(c: Config, files: seq<FileEntry>, s: PumpState)
    requires ValidPos(files, s)
    requires s.file + 1 < |files| && files[s.file + 1].Opened?
    requires KkStep(s.kk, FlushPeriod(c)).1
    ensures NextFile(c, files, s).g.tFirstFlow == 0x7fff_ffff && NextFile(c, files, s).g.tLastFlow == 0
  {
  }

  /** Without a flush, a file advance merges the next file's bounds into
      the window with min and max. */
  lemma AdvanceMergesBounds(c: Config, files: seq<FileEntry>, s: PumpState)
    requires ValidPos(files, s)
    requires s.file + 1 < |files| && files[s.file + 1].Opened?
    requires !KkStep(s.kk, FlushPeriod(c)).1
    ensures var r := NextFile(c, files, s);
            var next := files[s.file + 1].f;
            && r.g.tFirstFlow <= s.g.tFirstFlow && r.g.tFirstFlow <= next.firstSeen
            && (r.g.tFirstFlow == s.g.tFirstFlow || r.g.tFirstFlow == next.firstSeen)
            && r.g.tLastFlow >= s.g.tLastFlow && r.g.tLastFlow >= next.lastSeen
            && (r.g.tLastFlow == s.g.tLastFlow || r.g.tLastFlow == next.lastSeen)
            && r.g.totalFlows == s.g.totalFlows && r.g.stat == s.g.stat
  {
  }

  /** Blocks that are not data blocks of type 2 are skipped: an xstat
      block is not counted, any other kind adds one to `skipped_blocks`;
      the bytes read are counted either way. */
  lemma SkippedBlocks(c: Config, env: Env, files: seq<FileEntry>, s: PumpState)
    requires ValidPos(files, s) && s.status.Running?
    requires ReadAt(files[s.file].f, s.read).Block?
    requires ReadAt(files[s.file].f, s.read).kind != DataBlockV2
    ensures var b := ReadAt(files[s.file].f, s.read);
            var r := PumpStep(c, env, files, s);
            && r.status.Running?
            && r.g.totalBytes == Wrap64(s.g.totalBytes + b.bytes)
            && r.g.skippedBlocks == (if b.kind == XstatBlock then s.g.skippedBlocks else Wrap32(s.g.skippedBlocks + 1))
            && r.g.totalFlows == s.g.totalFlows && r.g.stat == s.g.stat && r.g.calls == s.g.calls
  {
  }

  /** After a data block the loop ends exactly when a record limit is set
      and the statistics have reached it. */
  lemma DataBlockChecksLimit(c: Config, env: Env, files: seq<FileEntry>, s: PumpState)
    requires ValidPos(files, s) && s.status.Running?
    requires ReadAt(files[s.file].f, s.read).Block? && ReadAt(files[s.file].f, s.read).kind == DataBlockV2
    ensures var r := PumpStep(c, env, files, s);
            !r.status.Exited? ==> (r.status.Done? <==> EffLimit(c) != 0 && r.g.stat.numflows >= EffLimit(c))
  {
  }

  function CountFlushes(calls: seq<Call>): nat {
    if |calls| == 0 then 0
    else CountFlushes(calls[..|calls| - 1]) + (if calls[|calls| - 1].Flush? then 1 else 0)
  }

  lemma {:induction false} CountFlushesAppend(a: seq<Call>, b: seq<Call>)
    ensures CountFlushes(a + b) == CountFlushes(a) + CountFlushes(b)
    decreases |b|
  {
    if |b| == 0 {
      assert a + b == a;
    } else {
      var n := |b| - 1;
      assert (a + b)[..|a + b| - 1] == a + b[..n];
      CountFlushesAppend(a, b[..n]);
    }
  }

  lemma {:induction false} NoFlushes(calls: seq<Call>)
    requires forall i :: 0 <= i < |calls| ==> !calls[i].Flush?
    ensures CountFlushes(calls) == 0
  {
    if |calls| > 0 {
      NoFlushes(calls[..|calls| - 1]);
    }
  }

  /** The record loop never flushes. */
  lemma {:induction false} BlockRunAddsNoFlush(c: Config, env: Env, g: Globals, recs: seq<RawRecord>)
    requires BlockRun(c, env, g, recs).Next?
    ensures CountFlushes(BlockRun(c, env, g, recs).g.calls) == CountFlushes(g.calls)
  {
    if |recs| > 0 {
      var n := |recs| - 1;
      BlockRunAddsNoFlush(c, env, g, recs[..n]);
      var g1 := BlockRun(c, env, g, recs[..n]).g;
      var g2 := RecordStep(c, env, g1, recs[n]).g;
      assert BlockRun(c, env, g, recs) == Next(g2);
      var added := g2.calls[|g1.calls|..];
      assert g2.calls == g1.calls + added;
      RecordStepAddsNoFlush(c, env, g1, recs[n]);
      NoFlushes(added);
      CountFlushesAppend(g1.calls, added);
    }
  }

  lemma RecordStepAddsNoFlush(c: Config, env: Env, g: Globals, r: RawRecord)
    requires RecordStep(c, env, g, r).Next?
    ensures var calls := RecordStep(c, env, g, r).g.calls;
            forall i :: |g.calls| <= i < |calls| ==> !calls[i].Flush?
  {
    if r.CommonRecord? && r.extMap in g.slots {
      RecordStepKnownMap(c, env, g, r);
    }
  }

  /** What the pump keeps about flushes from the start of a run: `kk` and
      the number of flushes are those of `file` advances. */
  predicate CadenceKept(c: Config, s: PumpState, base: nat) {
    s.kk == KkAfter(FlushPeriod(c), s.file) && CountFlushes(s.g.calls) == base + FlushCount(FlushPeriod(c), s.file)
  }

  lemma NextFileKeepsCadence(c: Config, files: seq<FileEntry>, s: PumpState, base: nat)
    requires ValidPos(files, s) && CadenceKept(c, s, base)
    ensures CadenceKept(c, NextFile(c, files, s), base)
  {
    if s.file + 1 < |files| && files[s.file + 1].Opened? {
      var next := files[s.file + 1].f;
      var g := s.g.(tFirstFlow := Min(s.g.tFirstFlow, next.firstSeen),
                    tLastFlow := Max(s.g.tLastFlow, next.lastSeen));
      var p := FlushPeriod(c);
      assert KkAfter(p, s.file + 1) == KkStep(s.kk, p).0;
      assert FiresAt(p, s.file + 1) == KkStep(s.kk, p).1;
      if KkStep(s.kk, p).1 {
        var flush := [Flush(g.stat, g.totalFlows, g.skippedBlocks, g.totalBytes)];
        CountFlushesAppend(g.calls, flush);
        assert flush[..0] == [];
        assert CountFlushes(flush) == 1;
      }
    }
  }

  /** A block either leaves the call log as it was or extends it with the
      calls of the block's records. */
  lemma BlockStepCalls(c: Config, env: Env, files: seq<FileEntry>, s: PumpState)
    requires ValidPos(files, s) && s.status.Running?
    requires ReadAt(files[s.file].f, s.read).Block?
    ensures var b := ReadAt(files[s.file].f, s.read);
      var o := BlockRun(c, env, s.g.(totalBytes := Wrap64(s.g.totalBytes + b.bytes)), b.records);
      var r := PumpStep(c, env, files, s);
      r.g.calls == s.g.calls || (b.kind == DataBlockV2 && o.Next? && r.g.calls == o.g.calls)
  {
  }

  lemma BlockKeepsCadence(c: Config, env: Env, files: seq<FileEntry>, s: PumpState, base: nat)
    requires ValidPos(files, s) && s.status.Running? && CadenceKept(c, s, base)
    requires ReadAt(files[s.file].f, s.read).Block?
    ensures CadenceKept(c, PumpStep(c, env, files, s), base)
  {
    var b := ReadAt(files[s.file].f, s.read);
    var g := s.g.(totalBytes := Wrap64(s.g.totalBytes + b.bytes));
    var r := PumpStep(c, env, files, s);
    BlockStepCalls(c, env, files, s);
    assert r.kk == s.kk && r.file == s.file;
    if r.g.calls != s.g.calls {
      BlockRunAddsNoFlush(c, env, g, b.records);
      assert CountFlushes(r.g.calls) == CountFlushes(s.g.calls);
    }
  }

  lemma PumpStepKeepsCadence(c: Config, env: Env, files: seq<FileEntry>, s: PumpState, base: nat)
    requires ValidPos(files, s) && s.status.Running? && CadenceKept(c, s, base)
    ensures CadenceKept(c, PumpStep(c, env, files, s), base)
  {
    if ReadAt(files[s.file].f, s.read).Block? {
      BlockKeepsCadence(c, env, files, s, base);
    } else {
      NextFileKeepsCadence(c, files, s, base);
    }
  }

  lemma {:induction false} RunKeepsCadence(c: Config, env: Env, files: seq<FileEntry>, s: PumpState, base: nat)
    requires ValidPos(files, s) && CadenceKept(c, s, base)
    ensures CadenceKept(c, Run(c, env, files, s), base)
    decreases (if s.status.Running? then 1 else 0), |files| - s.file, BlocksLeft(files, s)
  {
    if s.status.Running? {
      PumpStepKeepsCadence(c, env, files, s, base);
      RunKeepsCadence(c, env, files, PumpStep(c, env, files, s), base);
    }
  }

  /** Every block of a file can be processed without `exit(255)`. */
  predicate SafeBlock(b: ReadResult) {
    b.Block? ==> forall k :: 0 <= k < |b.records| ==> !FatalRecord(b.records[k])
  }

  predicate SafeFiles(files: seq<FileEntry>) {
    forall i :: 0 <= i < |files| ==>
      files[i].Opened? && forall j :: 0 <= j < |files[i].f.blocks| ==> SafeBlock(files[i].f.blocks[j])
  }

  /** With every file openable, no fatal record and no record limit, the
      pump visits every file and ends on the last one. */
  lemma {:induction false} RunReachesLastFile(c: Config, env: Env, files: seq<FileEntry>, s: PumpState)
    requires SafeFiles(files) && EffLimit(c) == 0
    requires ValidPos(files, s) && s.status.Running?
    ensures Run(c, env, files, s).status.Done? && Run(c, env, files, s).file == |files| - 1
    decreases |files| - s.file, BlocksLeft(files, s)
  {
    var f := files[s.file].f;
    var b := ReadAt(f, s.read);
    var r := PumpStep(c, env, files, s);
    if b.Block? {
      assert b == f.blocks[s.read];
      assert SafeBlock(b);
      var g := s.g.(totalBytes := Wrap64(s.g.totalBytes + b.bytes));
      if b.kind == DataBlockV2 {
        BlockRunFatalIff(c, env, g, b.records);
      }
      assert r.status.Running?;
      RunReachesLastFile(c, env, files, r);
    } else if s.file + 1 < |files| {
      assert files[s.file + 1].Opened?;
      RunReachesLastFile(c, env, files, r);
    }
  }

  /** With a flush every 2 file advances (`-p 600`) and 5 input files, the
      run flushes exactly twice, on the 2nd and the 4th advance. */
  lemma FiveFilesTwoFlushes(c: Config, env: Env, files: seq<FileEntry>, writerOpens: bool, xstatInits: bool,
                            g0: Globals)
    requires |files| == 5 && SafeFiles(files) && EffLimit(c) == 0 && c.sep == 600
    requires writerOpens && xstatInits
    ensures var r := ProcessDataSpec(c, env, files, writerOpens, xstatInits, g0, 0);
            CountFlushes(r.g.calls) == CountFlushes(g0.calls) + 2
    ensures FiresAt(FlushPeriod(c), 2) && FiresAt(FlushPeriod(c), 4)
    ensures !FiresAt(FlushPeriod(c), 1) && !FiresAt(FlushPeriod(c), 3)
  {
    assert FlushPeriod(c) == 2;
    var g1 := g0.(stat := FreshStatRecord(), tFirstFlow := files[0].f.firstSeen, tLastFlow := files[0].f.lastSeen);
    var s0 := PumpState(g1, 0, 0, 0, Running);
    assert files[0].Opened?;
    FlushCadence(2, 0);
    RunKeepsCadence(c, env, files, s0, CountFlushes(g0.calls));
    RunReachesLastFile(c, env, files, s0);
    var s := Run(c, env, files, s0);
    FlushCadence(2, 4);
    assert CountFlushes(s.g.calls) == CountFlushes(g0.calls) + 2;
    var tail := (if WriteFile(c) then [CloseOutput(s.g.stat)] else []) + [PackMaps];
    assert s.g.calls + (if WriteFile(c) then [CloseOutput(s.g.stat)] else []) + [PackMaps] == s.g.calls + tail;
    NoFlushes(tail);
    CountFlushesAppend(s.g.calls, tail);
    FlushCadence(2, 1);
    FlushCadence(2, 2);
    FlushCadence(2, 3);
  }

  /** With a record limit, the statistics never count more flows than the
      limit over a whole run. */
  lemma {:induction false} RunRespectsLimit(c: Config, env: Env, files: seq<FileEntry>, s: PumpState)
    requires CountsOneFlow(env) && EffLimit(c) != 0
    requires ValidPos(files, s) && s.g.stat.numflows <= EffLimit(c)
    ensures Run(c, env, files, s).g.stat.numflows <= EffLimit(c)
    decreases (if s.status.Running? then 1 else 0), |files| - s.file, BlocksLeft(files, s)
  {
    if s.status.Running? {
      var b := ReadAt(files[s.file].f, s.read);
      if b.Block? && b.kind == DataBlockV2 {
        var g := s.g.(totalBytes := Wrap64(s.g.totalBytes + b.bytes));
        if BlockRun(c, env, g, b.records).Next? {
          BlockRunRespectsLimit(c, env, g, b.records);
        }
      }
      RunRespectsLimit(c, env, files, PumpStep(c, env, files, s));
    }
  }

  // ---------------------------------------------------------------------
  // The program state and the imperative loops

  function SumSizes(recs: seq<RawRecord>): nat {
    if |recs| == 0 then 0 else SumSizes(recs[..|recs| - 1]) + recs[|recs| - 1].size
  }

  /** The file-scope state of nfdump that `process_data` and
      `OutputAndDestroy` update: the run counters, the global time window,
      the extension map list, the static `kk`, and the calls made. */
  class Nfdump {
    var totalBytes: nat
    var totalFlows: nat
    var skippedBlocks: nat
    var tFirstFlow: int
    var tLastFlow: int
    var slots: map<nat, MapSlot>
    var calls: seq<Call>
    var kk: nat

    /** The globals together with a statistics record held by the caller. */
    function Snap(stat: StatRecord): Globals
      reads this
    {
      Globals(totalBytes, totalFlows, skippedBlocks, tFirstFlow, tLastFlow, stat, slots, calls)
    }

    /** The state `main` starts from: zero counters, an empty extension
        map list, `kk` zero. */
    constructor ()
      ensures Snap(FreshStatRecord()) == Globals(0, 0, 0, 0, 0, FreshStatRecord(), map[], [])
      ensures kk == 0
    {
      totalBytes, totalFlows, skippedBlocks := 0, 0, 0;
      tFirstFlow, tLastFlow := 0, 0;
      slots := map[];
      calls := [];
      kk := 0;
    }

    /** The counter-reset tail of `OutputAndDestroy`; the output and table
        work before it is one `Flush` call. */
    method OutputAndDestroy(sumStat: StatRecord) returns (reset: StatRecord)
      modifies this
      ensures Snap(reset) == Flushed(old(Snap(sumStat)))
      ensures kk == old(kk)
    {
      calls := calls + [Flush(sumStat, totalFlows, skippedBlocks, totalBytes)];
      skippedBlocks := 0;
      totalFlows := 0;
      totalBytes := 0;
      tFirstFlow := 0x7fff_ffff;
      tLastFlow := 0;
      reset := StatRecord(0, 0, 0, 0, 0, 0, 0);
      reset := reset.(firstSeen := 0x7fff_ffff, msecFirst := 999);
    }

    /** Everything but the calls made. */
    function Frame(): (nat, nat, nat, int, int, map<nat, MapSlot>, nat)
      reads this
    {
      (totalBytes, totalFlows, skippedBlocks, tFirstFlow, tLastFlow, slots, kk)
    }

    /** The if/else chain that hands an admitted record to one sink. */
    method Dispatch(c: Config, m: MasterRecord, raw: RawRecord, numflows: nat)
      modifies this
      ensures calls == old(calls) + SinkCalls(c, numflows, m, raw)
      ensures Frame() == old(Frame())
    {
      if c.flowStat {
        calls := calls + [AddFlow(m)];
        if c.elementStat {
          calls := calls + [AddStat(m)];
        }
      } else if c.elementStat {
        calls := calls + [AddStat(m)];
      } else if c.sortFlows {
        calls := calls + [InsertFlow(m)];
      } else if WriteFile(c) {
        calls := calls + [Append(raw)];
        if XstatOn(c) {
          calls := calls + [UpdateXStat(m)];
        }
      } else if PrintOn(c) {
        var shown := if c.limitflows != 0 then numflows <= c.limitflows else true;
        calls := calls + [Print(m, shown)];
      } else {
        calls := calls + [Bug];
      }
    }

    /** The `CommonRecordType` case for a map id in range. */
    method ProcessDataRecord(c: Config, env: Env, stat0: StatRecord, r: RawRecord) returns (stat: StatRecord)
      requires r.CommonRecord? && r.extMap < MaxExtensionMaps
      modifies this
      ensures RecordStep(c, env, old(Snap(stat0)), r) == Next(Snap(stat))
      ensures kk == old(kk)
    {
      stat := stat0;
      var id, m := r.extMap, r.expanded;
      if id !in slots {
        RecordStepSkipsMissingMap(c, env, Snap(stat0), r);
        return;
      }
      RecordStepKnownMap(c, env, Snap(stat0), r);
      totalFlows := Wrap32(totalFlows + 1);
      var limitflows := EffLimit(c);
      var matched := !(c.twinStart != 0 && (m.first < c.twinStart || m.last > c.twinEnd));
      matched := matched && (if limitflows != 0 then stat.numflows < limitflows else true);
      if matched {
        matched := env.engine(m);
      }
      var rateOk := false;
      if matched {
        rateOk := RateGateTenfold(env.rate, env.store, env.now, m);
      }
      if !matched || !rateOk {
        return;
      }
      stat := env.updateStat(stat, m);
      slots := slots[id := slots[id].(refCount := slots[id].refCount + 1)];
      Dispatch(c, m, r, stat.numflows);
    }

    /** The cases for the records that are not flows. */
    method ProcessOtherRecord(c: Config, env: Env, stat: StatRecord, r: RawRecord)
      requires !r.CommonRecord?
      modifies this
      ensures RecordStep(c, env, old(Snap(stat)), r) == Next(Snap(stat))
      ensures kk == old(kk)
    {
      var writeFile := WriteFile(c);
      match r {
        case ExtensionMapRecord(_, id, layout) =>
          var reg := RegisterMap(slots, id, layout);
          slots := reg.slots;
          if reg.isNew && writeFile {
            calls := calls + [Append(r)];
          }
        case ExporterRecord(_) =>
        case SamplerRecord(_) =>
        case ExporterInfoRecord(_, ret) =>
          calls := calls + [AddExporterInfo(r)];
          if ret != 0 && writeFile && ret == 1 {
            calls := calls + [Append(r)];
          }
        case ExporterStatRecord(_) =>
          calls := calls + [AddExporterStat(r)];
        case SamplerInfoRecord(_, ret) =>
          calls := calls + [AddSamplerInfo(r)];
          if ret != 0 && writeFile && ret == 1 {
            calls := calls + [Append(r)];
          }
        case UnknownRecord(_) =>
      }
    }

    /** The `for` loop over the records of one type-2 block. `consumed` is
        how far the record pointer has moved. */
    method ProcessBlock(c: Config, env: Env, stat0: StatRecord, recs: seq<RawRecord>)
      returns (stat: StatRecord, fatal: bool, consumed: nat)
      modifies this
      ensures fatal <==> BlockRun(c, env, old(Snap(stat0)), recs).Fatal?
      ensures !fatal ==> Snap(stat) == BlockRun(c, env, old(Snap(stat0)), recs).g
      ensures !fatal ==> consumed == SumSizes(recs)
      ensures kk == old(kk)
    {
      ghost var g0 := Snap(stat0);
      stat, fatal, consumed := stat0, false, 0;
      for i := 0 to |recs|
        invariant BlockRun(c, env, g0, recs[..i]) == Next(Snap(stat))
        invariant consumed == SumSizes(recs[..i])
        invariant kk == old(kk)
      {
        var r := recs[i];
        assert recs[..i + 1][..i] == recs[..i];
        ghost var g := Snap(stat);
        assert BlockRun(c, env, g0, recs[..i + 1]) == RecordStep(c, env, g, r);
        if r.CommonRecord? && r.extMap >= MaxExtensionMaps {
          BlockRunFatalIff(c, env, g0, recs);
          assert FatalRecord(recs[i]);
          fatal := true;
          return;
        }
        if r.CommonRecord? {
          stat := ProcessDataRecord(c, env, stat, r);
        } else {
          ProcessOtherRecord(c, env, stat, r);
        }
        consumed := consumed + r.size;
      }
      assert recs[..|recs|] == recs;
    }

    /** The pump state the loop of `process_data` is in. */
    ghost function Current(stat: StatRecord, file: nat, read: nat, done: bool): PumpState
      reads this
    {
      PumpState(Snap(stat), kk, file, read, if done then Done else Running)
    }

    /** The `NF_EOF` case, which `NF_CORRUPT` and `NF_ERROR` fall into. */
    method EndOfFile(c: Config, files: seq<FileEntry>, stat0: StatRecord, file0: nat, read0: nat)
      returns (stat: StatRecord, file: nat, read: nat, done: bool)
      requires ValidPos(files, Current(stat0, file0, read0, false))
      modifies this
      ensures Current(stat, file, read, done) == NextFile(c, files, old(Current(stat0, file0, read0, false)))
    {
      stat, file, read, done := stat0, file0, read0, false;
      if file + 1 >= |files| || files[file + 1].OpenFailed? {
        done := true;
        return;
      }
      var next := files[file + 1].f;
      if next.firstSeen < tFirstFlow {
        tFirstFlow := next.firstSeen;
      }
      if next.lastSeen > tLastFlow {
        tLastFlow := next.lastSeen;
      }
      file, read := file + 1, 0;
      kk := kk + 1;
      if kk == FlushPeriod(c) {
        kk := 0;
        stat := OutputAndDestroy(stat);
      }
    }

    /** One iteration of `while (!done)`. */
    method PumpOnce(c: Config, env: Env, files: seq<FileEntry>, stat0: StatRecord, file0: nat, read0: nat)
      returns (stat: StatRecord, file: nat, read: nat, done: bool, exited: bool)
      requires ValidPos(files, Current(stat0, file0, read0, false))
      modifies this
      ensures var next := PumpStep(c, env, files, old(Current(stat0, file0, read0, false)));
              && (exited <==> next.status.Exited?)
              && (!exited ==> Current(stat, file, read, done) == next)
    {
      stat, file, read, done, exited := stat0, file0, read0, false, false;
      var ret := ReadAt(files[file].f, read);
      if !ret.Block? {
        stat, file, read, done := EndOfFile(c, files, stat, file, read);
        return;
      }
      totalBytes := Wrap64(totalBytes + ret.bytes);
      read := read + 1;
      if ret.kind == XstatBlock {
        return;
      }
      if ret.kind.OtherBlock? {
        skippedBlocks := Wrap32(skippedBlocks + 1);
        return;
      }
      var fatal, consumed;
      stat, fatal, consumed := ProcessBlock(c, env, stat, ret.records);
      if fatal {
        exited := true;
        return;
      }
      var limitflows := EffLimit(c);
      if limitflows != 0 {
        done := stat.numflows >= limitflows;
      }
    }

    /** `process_data`. `writerOpens` and `xstatInits` say whether
        `OpenNewFile` and `InitXStat` succeed; `exited` is `exit(255)`. */
    method ProcessData(c: Config, env: Env, files: seq<FileEntry>, writerOpens: bool, xstatInits: bool)
      returns (stat: StatRecord, exited: bool)
      modifies this
      ensures var r := ProcessDataSpec(c, env, files, writerOpens, xstatInits, old(Snap(FreshStatRecord())), old(kk));
              && (exited <==> r.status.Exited?)
              && (!exited ==> Snap(stat) == r.g && kk == r.kk)
    {
      stat := StatRecord(0, 0, 0, 0, 0, 0, 0);
      stat := stat.(firstSeen := 0x7fff_ffff, msecFirst := 999);
      exited := false;
      if |files| == 0 || files[0].OpenFailed? {
        return;
      }
      tFirstFlow := files[0].f.firstSeen;
      tLastFlow := files[0].f.lastSeen;
      if WriteFile(c) {
        if !writerOpens {
          return;
        }
        if c.doXstat && !xstatInits {
          return;
        }
      }
      var file: nat, read: nat, done := 0, 0, false;
      ghost var final := Run(c, env, files, Current(stat, file, read, done));
      while !done
        invariant ValidPos(files, Current(stat, file, read, done))
        invariant Run(c, env, files, Current(stat, file, read, done)) == final
        decreases (if done then 0 else 1), |files| - file, |files[file].f.blocks| - read
      {
        var stop;
        stat, file, read, done, stop := PumpOnce(c, env, files, stat, file, read);
        if stop {
          exited := true;
          return;
        }
      }
      if WriteFile(c) {
        calls := calls + [CloseOutput(stat)];
      }
      calls := calls + [PackMaps];
    }
  }
}
