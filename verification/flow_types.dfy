/** The flow records the core reads and writes. */
module FlowTypes {
  import opened CArith

  /** The expanded in-memory flow (`master_record_t`), reduced to the fields
      the modelled code reads or writes. `srcaddr` and `dstaddr` are the second
      64-bit slot of the IPv6 address array, which holds an IPv4 address in its
      low 32 bits. The last five fields are the 2-bit classification masks the
      reputation gates write (bit 0: source matched, bit 1: destination). */
  datatype MasterRecord = MasterRecord(
    srcaddr: UInt64,
    dstaddr: UInt64,
    prot: UInt8,
    srcport: UInt16,
    dstport: UInt16,
    first: int,
    last: int,
    service: nat,
    scanner: nat,
    popularService: nat,
    whitelist: nat,
    blacklist: nat)

  /** The running statistics record (`stat_record_t`), reduced to its totals
      and its time bounds. */
  datatype StatRecord = StatRecord(
    numflows: nat,
    numbytes: nat,
    numpackets: nat,
    firstSeen: nat,
    lastSeen: nat,
    msecFirst: nat,
    msecLast: nat)

  /** The value `process_data` and `OutputAndDestroy` give a fresh statistics
      record: all zero except a first-seen time of 0x7fffffff and a first-seen
      millisecond of 999, so that the first flow's times replace them. */
  function FreshStatRecord(): (s: StatRecord)
    ensures s.numflows == 0 && s.numbytes == 0 && s.numpackets == 0
    ensures s.firstSeen == 0x7fff_ffff && s.msecFirst == 999
    ensures s.lastSeen == 0 && s.msecLast == 0
  {
    StatRecord(0, 0, 0, 0x7fff_ffff, 0, 999, 0)
  }
}
