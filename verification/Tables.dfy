/** The tables of the block database as values, and what each transaction makes of them. */
module Tables {
  import opened Ordering
  import opened Records

  /** Sizes of a compressed block: LENGTH(payload) and uncompressed_bytes. */
  datatype Packed = Packed(bytes: nat, uncompressed: nat)

  /** Sizes and codecs of a store. Compression and hashing are parameters. */
  datatype Config = Config(
    blockMessages: nat,
    target: nat,
    pack: seq<Record> -> Packed,
    digest: seq<Record> -> nat)
  {
    predicate Valid() { blockMessages > 0 && target > 0 }

    function Allowed(): nat
      requires Valid()
    {
      target + (blockMessages - 1)
    }
  }

  /** A row of message_blocks. `records` stands for the payload it decodes to. */
  datatype Block = Block(
    id: nat,
    channel: string,
    sequence: int,
    first: int,
    last: int,
    count: nat,
    packed: Packed,
    records: seq<Record>)

  /** A row of channels, without retained_messages, which is kept apart as a derived column. */
  datatype Row = Row(next: int, requested: int)

  const MAX_I64: int := 0x7FFF_FFFF_FFFF_FFFF

  /** An INTEGER column. */
  type I64 = n: int | -0x8000_0000_0000_0000 <= n <= 0x7FFF_FFFF_FFFF_FFFF

  /** A source and one of its streams. */
  type Stream = (string, string)

  datatype JournalRow = JournalRow(stream: Stream, first: I64, last: I64, digest: nat, payload: seq<Record>)

  datatype Store = Store(
    blocks: seq<Block>,          // in id order
    channels: map<string, Row>,
    blocked: set<string>,
    cutoffs: map<string, int>,
    journal: seq<JournalRow>,    // in insertion order
    offsets: map<Stream, I64>)

  const EMPTY: Store := Store([], map[], {}, map[], [], map[])

  /* ---------- blocks ---------- */

  function MinEvent(rs: seq<Record>): int
    requires rs != []
  {
    if |rs| == 1 then rs[0].eventAt
    else
      var m := MinEvent(rs[1..]); if rs[0].eventAt < m then rs[0].eventAt else m
  }

  function MaxEvent(rs: seq<Record>): int
    requires rs != []
  {
    if |rs| == 1 then rs[0].eventAt
    else
      var m := MaxEvent(rs[1..]); if rs[0].eventAt > m then rs[0].eventAt else m
  }

  function Encode(id: nat, channel: string, sequence: int, rs: seq<Record>, cfg: Config): Block
    requires rs != []
  {
    Block(id, channel, sequence, MinEvent(rs), MaxEvent(rs), |rs|, cfg.pack(rs), rs)
  }

  /** The metadata of a row matches its payload. */
  ghost predicate Encoded(b: Block, cfg: Config) {
    && b.records != []
    && b == Encode(b.id, b.channel, b.sequence, b.records, cfg)
    && AllIn(b.records, b.channel)
  }

  function BlocksOf(blocks: seq<Block>, channel: string): seq<Block> {
    if blocks == [] then []
    else if blocks[0].channel == channel then [blocks[0]] + BlocksOf(blocks[1..], channel)
    else BlocksOf(blocks[1..], channel)
  }

  function RecordsOf(blocks: seq<Block>): seq<Record> {
    if blocks == [] then [] else blocks[0].records + RecordsOf(blocks[1..])
  }

  function Messages(blocks: seq<Block>): nat {
    if blocks == [] then 0 else blocks[0].count + Messages(blocks[1..])
  }

  /** Every record stored for a channel, in block order. */
  function Held(blocks: seq<Block>, channel: string): seq<Record> {
    RecordsOf(BlocksOf(blocks, channel))
  }

  /** The rowid SQLite gives the next inserted block. */
  function NextId(blocks: seq<Block>): nat {
    if blocks == [] then 1 else blocks[|blocks| - 1].id + 1
  }

  /* ---------- append ---------- */

  function UpgradeBlock(b: Block, channel: string, rs: seq<Record>, cfg: Config): Block {
    if b.channel == channel && b.records != [] then
      Encode(b.id, b.channel, b.sequence, Absorb(b.records, rs), cfg)
    else b
  }

  function UpgradeBlocks(blocks: seq<Block>, channel: string, rs: seq<Record>, cfg: Config): seq<Block> {
    if blocks == [] then [] else [UpgradeBlock(blocks[0], channel, rs, cfg)] + UpgradeBlocks(blocks[1..], channel, rs, cfg)
  }

  function ChunkSize(rs: seq<Record>, cfg: Config): (n: nat)
    requires cfg.Valid() && rs != []
    ensures 0 < n <= |rs| && n <= cfg.blockMessages
  {
    if |rs| < cfg.blockMessages then |rs| else cfg.blockMessages
  }

  function FirstChunk(blocks: seq<Block>, channel: string, next: int, rs: seq<Record>, cfg: Config): Block
    requires cfg.Valid() && rs != []
  {
    Encode(NextId(blocks), channel, next, rs[..ChunkSize(rs, cfg)], cfg)
  }

  function AddChunks(blocks: seq<Block>, channel: string, next: int, rs: seq<Record>, cfg: Config): (seq<Block>, int)
    requires cfg.Valid()
    decreases |rs|
  {
    if rs == [] then (blocks, next)
    else AddChunks(blocks + [FirstChunk(blocks, channel, next, rs, cfg)], channel, next + 1, rs[ChunkSize(rs, cfg)..], cfg)
  }

  /** Without the channel's block of least sequence, which comes first. */
  function DropFirst(blocks: seq<Block>, channel: string): (r: seq<Block>)
    ensures |r| <= |blocks|
    ensures BlocksOf(blocks, channel) != [] ==> |r| < |blocks|
  {
    if blocks == [] then []
    else if blocks[0].channel == channel then blocks[1..]
    else [blocks[0]] + DropFirst(blocks[1..], channel)
  }

  /** Whole oldest blocks go until the channel is within its allowance. */
  function Retain(blocks: seq<Block>, channel: string, allowed: nat): seq<Block>
    decreases |blocks|
  {
    if Messages(BlocksOf(blocks, channel)) > allowed then Retain(DropFirst(blocks, channel), channel, allowed) else blocks
  }

  function AfterCutoff(cutoffs: map<string, int>, channel: string, rs: seq<Record>): seq<Record> {
    if channel in cutoffs then Filter(rs, (r: Record) => r.receivedAt > cutoffs[channel]) else rs
  }

  function RowOf(s: Store, channel: string): Row {
    if channel in s.channels then s.channels[channel] else Row(0, 0)
  }

  /** The events of a batch that the channel does not hold yet. */
  function Novel(s: Store, channel: string, kept: seq<Record>): seq<Record> {
    Fresh(Sort(kept, EventOrder()), Keys(Held(s.blocks, channel)))
  }

  /** The blocks after copies of stored events were upgraded in place. */
  function Upgraded(s: Store, cfg: Config, channel: string, kept: seq<Record>): seq<Block> {
    UpgradeBlocks(s.blocks, channel, Sort(kept, EventOrder()), cfg)
  }

  /** The store after deduplication, upgrades and new blocks, before retention. */
  function Filled(s: Store, cfg: Config, channel: string, kept: seq<Record>): Store
    requires cfg.Valid()
  {
    var (blocks, next) := AddChunks(Upgraded(s, cfg, channel, kept), channel, RowOf(s, channel).next, Novel(s, channel, kept), cfg);
    s.(blocks := blocks, channels := s.channels[channel := RowOf(s, channel).(next := next)])
  }

  /** One channel batch in a transaction, deduplicated against everything the channel holds. */
  function Append(s: Store, cfg: Config, channel: string, rs: seq<Record>): Store
    requires cfg.Valid()
  {
    if channel in s.blocked then s
    else
      var kept := AfterCutoff(s.cutoffs, channel, rs);
      if kept == [] then s
      else
        var filled := Filled(s, cfg, channel, kept);
        if Keys(kept) <= Keys(Held(s.blocks, channel)) then filled
        else filled.(blocks := Retain(filled.blocks, channel, cfg.Allowed()))
  }

  /** Batches of one transaction, in order; the channel of a batch is that of its first record. */
  function AppendAll(s: Store, cfg: Config, batches: seq<seq<Record>>): Store
    requires cfg.Valid()
  {
    if batches == [] then s
    else
      var before := AppendAll(s, cfg, batches[..|batches| - 1]);
      var rs := batches[|batches| - 1];
      if rs == [] then before else Append(before, cfg, rs[0].channel, rs)
  }

  /* ---------- removals ---------- */

  function Without(blocks: seq<Block>, drop: Block -> bool): (r: seq<Block>)
    ensures forall b :: b in r <==> b in blocks && !drop(b)
    ensures |r| <= |blocks|
  {
    if blocks == [] then []
    else if drop(blocks[0]) then Without(blocks[1..], drop)
    else [blocks[0]] + Without(blocks[1..], drop)
  }

  function HasId(id: nat): Block -> bool {
    (b: Block) => b.id == id
  }

  function InIds(ids: seq<nat>): Block -> bool {
    (b: Block) => b.id in ids
  }

  function OfChannels(gone: set<string>): Block -> bool {
    (b: Block) => b.channel in gone
  }

  function Purge(s: Store, channel: string, receivedAt: int): Store {
    var cutoff := if channel in s.cutoffs && s.cutoffs[channel] > receivedAt then s.cutoffs[channel] else receivedAt;
    s.(cutoffs := s.cutoffs[channel := cutoff],
       blocks := Without(s.blocks, (b: Block) => b.channel == channel),
       channels := s.channels - {channel})
  }

  function SetBlocked(s: Store, channel: string, blocked: bool): Store {
    if blocked then
      s.(blocked := s.blocked + {channel},
         blocks := Without(s.blocks, (b: Block) => b.channel == channel),
         channels := s.channels - {channel})
    else s.(blocked := s.blocked - {channel})
  }

  function SyncBlocked(s: Store, listed: seq<string>): Store {
    s.(blocked := (set c <- listed),
       blocks := Without(s.blocks, (b: Block) => b.channel in listed),
       channels := s.channels - (set c <- listed))
  }

  function Evict(s: Store, ids: seq<nat>): Store {
    s.(blocks := Without(s.blocks, InIds(ids)))
  }

  /** A channel row that the last step of expiry deletes. */
  predicate Idle(s: Store, channel: string, cutoff: int)
    requires channel in s.channels
  {
    && BlocksOf(s.blocks, channel) == []
    && (s.channels[channel].requested == 0 || s.channels[channel].requested < cutoff)
  }

  function DropIdle(s: Store, cutoff: int): Store {
    s.(channels := map c | c in s.channels && !Idle(s, c, cutoff) :: s.channels[c])
  }

  function Expire(s: Store, cutoff: int): Store {
    DropIdle(s.(blocks := Without(s.blocks, (b: Block) => b.last < cutoff)), cutoff)
  }

  function Touch(s: Store, channel: string, requestedAt: int, coalesceBefore: int): Store {
    if channel !in s.channels then s.(channels := s.channels[channel := Row(0, requestedAt)])
    else if s.channels[channel].requested < coalesceBefore then
      s.(channels := s.channels[channel := s.channels[channel].(requested := requestedAt)])
    else s
  }
}
