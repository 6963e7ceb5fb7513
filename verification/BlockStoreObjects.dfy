/** The two block stores as the objects the data-plane service owns. The disk store is proved
    against the uninterrupted runs of the machine in `BlockStore`, where crashes are considered. */
module BlockStoreObjects {
  import opened Basics
  import opened BlockStore

  datatype StoredBlock = StoredBlock(content: Content, checksum: string, charged: U64)

  ghost function Charged(blocks: map<Ticket, StoredBlock>): nat {
    Sum(blocks, (b: StoredBlock) => b.charged)
  }

  class MemoryBlockStore {
    const capacity: U64
    var used: U64
    var blocks: map<Ticket, StoredBlock>

    ghost predicate Valid()
      reads this
    {
      0 < capacity && used == Charged(blocks) && used <= capacity
    }

    constructor (capacity: U64)
      requires 0 < capacity
      ensures Valid() && blocks == map[] && this.capacity == capacity
    {
      this.capacity := capacity;
      used := 0;
      blocks := map[];
    }

    static method New(capacity: U64) returns (store: Option<MemoryBlockStore>)
      ensures store.Some? <==> 0 < capacity
      ensures store.Some? ==>
        fresh(store.value) && store.value.Valid() && store.value.blocks == map[] && store.value.capacity == capacity
    {
      if capacity == 0 { return None; }
      var made := new MemoryBlockStore(capacity);
      store := Some(made);
    }

    /** Exactly the room left: the charges of the stored blocks and this add up to the capacity. */
    method AvailableBytes() returns (bytes: U64)
      requires Valid()
      ensures bytes + Charged(blocks) == capacity
    {
      bytes := SaturatingSub(capacity, used);
    }

    /** What an upload under this ticket may use: the room there would be without the block the
        ticket already names. */
    method UploadBudget(ticket: Ticket) returns (bytes: U64)
      requires Valid()
      ensures bytes == capacity - Charged(blocks - {ticket})
    {
      var available := AvailableBytes();
      if ticket in blocks {
        SumRemove(blocks, (b: StoredBlock) => b.charged, ticket);
        bytes := Min(available + blocks[ticket].charged, U64_MAX);
      } else {
        assert blocks - {ticket} == blocks;
        bytes := available;
      }
    }

    /** The first block under a ticket stays; the same checksum again is accepted, another is not. */
    method Insert(ticket: Ticket, block: StoredBlock) returns (r: Result<(), StoreError>)
      requires Valid()
      modifies this
      ensures Valid()
      ensures r.Ok? <==>
        if ticket in old(blocks) then old(blocks)[ticket].checksum == block.checksum
        else Charged(old(blocks)[ticket := block]) <= capacity
      ensures blocks == if r.Ok? && ticket !in old(blocks) then old(blocks)[ticket := block] else old(blocks)
      ensures r.Err? ==> r.error == if ticket in old(blocks) then ChecksumMismatch else Full
    {
      if ticket in blocks {
        if blocks[ticket].checksum != block.checksum { return Err(ChecksumMismatch); }
        return Ok(());
      }
      SumAdd(blocks, (b: StoredBlock) => b.charged, ticket, block);
      var available := AvailableBytes();
      if block.charged > available { return Err(Full); }
      used := used + block.charged;
      blocks := blocks[ticket := block];
      r := Ok(());
    }

    method Get(ticket: Ticket) returns (r: Result<StoredBlock, StoreError>)
      ensures r == if ticket in blocks then Ok(blocks[ticket]) else Err(Missing)
    {
      if ticket !in blocks { return Err(Missing); }
      r := Ok(blocks[ticket]);
    }

    method Remove(ticket: Ticket) returns (r: Result<(), StoreError>)
      requires Valid()
      modifies this
      ensures Valid()
      ensures r == if ticket in old(blocks) then Ok(()) else Err(Missing)
      ensures blocks == old(blocks) - {ticket}
    {
      if ticket !in blocks {
        assert blocks - {ticket} == blocks;
        return Err(Missing);
      }
      SumRemove(blocks, (b: StoredBlock) => b.charged, ticket);
      used := used - blocks[ticket].charged;
      blocks := blocks - {ticket};
      r := Ok(());
    }
  }

  /** A name in the directory: a file still being written, a committed block, or neither. */
  datatype Listed = PendingFile(name: Name) | BlockFile(name: Name) | Other

  /** `listing` names every store file of the directory once, in any order. */
  ghost predicate Lists(listing: seq<Listed>, disk: Disk) {
    && (forall i | 0 <= i < |listing| && listing[i].PendingFile? :: listing[i].name in disk.pending)
    && (forall i | 0 <= i < |listing| && listing[i].BlockFile? :: listing[i].name in disk.blocks)
    && (forall n | n in disk.pending :: PendingFile(n) in listing)
    && (forall n | n in disk.blocks :: BlockFile(n) in listing)
    && (forall i, j | 0 <= i < j < |listing| && !listing[i].Other? :: listing[i] != listing[j])
  }

  // ----- the start-up scan -------------------------------------------------------------------

  /** The committed files among the first `k` names listed. */
  ghost function Scanned(blocks: map<Name, File>, listing: seq<Listed>, k: nat): map<Name, File>
    requires k <= |listing|
  {
    map n | n in blocks && BlockFile(n) in listing[..k] :: blocks[n]
  }

  ghost predicate AllReadable(c: Codec, blocks: map<Name, File>) {
    forall n | n in blocks :: ReadBlock(c, blocks[n]).Ok?
  }

  /** What is left of the unfinished files once the first `k` names have been handled. */
  ghost predicate PendingLeft(pending: map<Name, Pending>, before: map<Name, Pending>, listing: seq<Listed>, k: nat)
    requires k <= |listing|
  {
    && pending.Keys <= before.Keys
    && forall n | n in before :: n in pending <==> PendingFile(n) !in listing[..k]
  }

  lemma PendingStep(pending: map<Name, Pending>, before: Disk, listing: seq<Listed>, k: nat)
    requires k < |listing| && Lists(listing, before) && PendingLeft(pending, before.pending, listing, k)
    ensures var left := if listing[k].PendingFile? then pending - {listing[k].name} else pending;
      PendingLeft(left, before.pending, listing, k + 1)
  {
    assert listing[..k + 1] == listing[..k] + [listing[k]];
  }

  lemma ScanOther(blocks: map<Name, File>, listing: seq<Listed>, k: nat)
    requires k < |listing| && !listing[k].BlockFile?
    ensures Scanned(blocks, listing, k + 1) == Scanned(blocks, listing, k)
  {
    assert listing[..k + 1] == listing[..k] + [listing[k]];
  }

  lemma ScanStart(c: Codec, disk: Disk, listing: seq<Listed>)
    ensures var none := Scanned(disk.blocks, listing, 0);
      Indexes(c, map[], none) && TotalSize(c, none) == 0 && AllReadable(c, none)
    ensures PendingLeft(disk.pending, disk.pending, listing, 0)
  {
    assert Scanned(disk.blocks, listing, 0) == map[];
  }

  lemma ScanGrows(disk: Disk, listing: seq<Listed>, k: nat)
    requires k < |listing| && Lists(listing, disk) && listing[k].BlockFile?
    ensures var n := listing[k].name;
      && n in disk.blocks && n !in Scanned(disk.blocks, listing, k)
      && Scanned(disk.blocks, listing, k + 1) == Scanned(disk.blocks, listing, k)[n := disk.blocks[n]]
  {
    hide Lists;
    var n, before, after := listing[k].name, Scanned(disk.blocks, listing, k), Scanned(disk.blocks, listing, k + 1);
    assert n in disk.blocks && BlockFile(n) !in listing[..k] by { ListedOnce(disk, listing, k); }
    assert listing[..k + 1] == listing[..k] + [listing[k]];
    assert after == before[n := disk.blocks[n]];
  }

  lemma ListedOnce(disk: Disk, listing: seq<Listed>, k: nat)
    requires k < |listing| && Lists(listing, disk) && listing[k].BlockFile?
    ensures listing[k].name in disk.blocks && listing[k] !in listing[..k]
  {
  }

  lemma ScannedPart(blocks: map<Name, File>, listing: seq<Listed>, k: nat)
    requires k <= |listing|
    ensures var part := Scanned(blocks, listing, k);
      part.Keys <= blocks.Keys && forall n | n in part :: part[n] == blocks[n]
  {
  }

  /** One committed file: either the directory cannot be opened, or the scan goes on. */
  lemma ScanBlock(c: Codec, index: map<Ticket, Entry>, capacity: U64, disk: Disk, listing: seq<Listed>, k: nat)
    requires k < |listing| && Lists(listing, disk) && listing[k].BlockFile?
    requires Indexes(c, index, Scanned(disk.blocks, listing, k)) && AllReadable(c, Scanned(disk.blocks, listing, k))
    ensures listing[k].name in disk.blocks
    ensures var f := disk.blocks[listing[k].name];
      var total := TotalSize(c, Scanned(disk.blocks, listing, k + 1));
      && total == TotalSize(c, Scanned(disk.blocks, listing, k)) + Size(c, f)
      && (total > capacity || ReadBlock(c, f).Err? || f.ticket in index ==> !Opens(c, disk.blocks, capacity))
      && (f.ticket !in index ==>
            Indexes(c, index[f.ticket := EntryOf(c, listing[k].name, f)], Scanned(disk.blocks, listing, k + 1)))
      && (ReadBlock(c, f).Ok? ==> AllReadable(c, Scanned(disk.blocks, listing, k + 1)))
  {
    hide Scanned; hide Lists; hide TotalSize; hide Size;
    ScanGrows(disk, listing, k);
    ScannedPart(disk.blocks, listing, k);
    ScannedPart(disk.blocks, listing, k + 1);
    var n, before, after := listing[k].name, Scanned(disk.blocks, listing, k), Scanned(disk.blocks, listing, k + 1);
    TotalAdd(c, before, n, disk.blocks[n]);
    PartBelowWhole(c, after, disk.blocks);
    if disk.blocks[n].ticket in index {
      var m := index[disk.blocks[n].ticket].name;
      assert m in before && m != n && disk.blocks[m].ticket == disk.blocks[n].ticket;
    } else {
      IndexAdd(c, index, before, n, disk.blocks[n]);
    }
  }

  lemma ScanDone(c: Codec, index: map<Ticket, Entry>, capacity: U64, disk: Disk, before: Disk, listing: seq<Listed>)
    requires Lists(listing, before) && disk.blocks == before.blocks
    requires PendingLeft(disk.pending, before.pending, listing, |listing|)
    requires var done := Scanned(disk.blocks, listing, |listing|);
      Indexes(c, index, done) && TotalSize(c, done) <= capacity && AllReadable(c, done)
    ensures Scanned(disk.blocks, listing, |listing|) == disk.blocks && disk.pending == map[]
    ensures Opens(c, disk.blocks, capacity) && Indexes(c, index, disk.blocks)
    ensures Store(capacity, disk, Up(TotalSize(c, disk.blocks), index, Ready))
      == Next(c, Store(capacity, before, Down), Start(index))
  {
    assert listing[..|listing|] == listing;
    assert Scanned(disk.blocks, listing, |listing|) == disk.blocks;
    IndexMeansDistinct(c, index, disk.blocks);
  }

  /** What removing a block leaves. */
  lemma RemovedStore(c: Codec, s: Store, t: Ticket)
    requires Inv(c, s) && s.process.Up? && s.process.doing.Ready?
    ensures Inv(c, RemoveAll(c, s, t)) && Absent(c, RemoveAll(c, s, t), t)
    ensures if t in s.process.index then
        var e := s.process.index[t];
        && e.bytes <= s.process.used
        && RemoveAll(c, s, t) == Store(s.capacity, s.disk.(blocks := s.disk.blocks - {e.name}), Up(s.process.used - e.bytes, s.process.index - {t}, Ready))
      else RemoveAll(c, s, t) == s
  {
    IndexedByName(c, s.process.index, s.disk.blocks, t);
    if t in s.process.index {
      NextInv(c, s, BlockStore.Remove(t));
      NextInv(c, Next(c, s, BlockStore.Remove(t)), Forget);
      FinishedCalls(c, Next(c, s, BlockStore.Remove(t)));
      TotalRemove(c, s.disk.blocks, s.process.index[t].name);
    }
  }

  class DiskBlockStore {
    const codec: Codec
    const capacity: U64
    var disk: Disk
    var used: nat
    var index: map<Ticket, Entry>

    ghost function Contents(): Store
      reads this
    {
      Store(capacity, disk, Up(used, index, Ready))
    }

    constructor (codec: Codec, capacity: U64, disk: Disk)
      ensures this.codec == codec && this.capacity == capacity && this.disk == disk
      ensures used == 0 && index == map[]
    {
      this.codec := codec;
      this.capacity := capacity;
      this.disk := disk;
      used := 0;
      index := map[];
    }

    /** The start-up scan accepts exactly the directories the machine opens, in whatever order the
        directory is listed, and then agrees with it on the index and the bytes used. */
    method Scan(listing: seq<Listed>) returns (ok: bool)
      requires Lists(listing, disk) && used == 0 && index == map[]
      modifies this
      ensures disk.blocks == old(disk.blocks) && disk.pending.Keys <= old(disk.pending).Keys
      ensures ok <==> Opens(codec, disk.blocks, capacity)
      ensures ok ==> Enabled(codec, Store(capacity, old(disk), Down), Start(index))
      ensures ok ==> Contents() == Next(codec, Store(capacity, old(disk), Down), Start(index))
    {
      hide Opens; hide Indexes; hide TotalSize; hide Next; hide ReadBlock; hide Size;
      ghost var before := disk;
      var k := 0;
      ScanStart(codec, disk, listing);
      hide Scanned; hide PendingLeft; hide AllReadable; hide Lists;
      while k < |listing|
        invariant 0 <= k <= |listing|
        invariant disk.blocks == before.blocks && PendingLeft(disk.pending, before.pending, listing, k)
        invariant Indexes(codec, index, Scanned(disk.blocks, listing, k))
        invariant used == TotalSize(codec, Scanned(disk.blocks, listing, k)) <= capacity
        invariant AllReadable(codec, Scanned(disk.blocks, listing, k))
      {
        var entry := listing[k];
        PendingStep(disk.pending, before, listing, k);
        match entry {
          case Other =>
            ScanOther(disk.blocks, listing, k);
          case PendingFile(n) =>
            ScanOther(disk.blocks, listing, k);
            disk := disk.(pending := disk.pending - {n});
          case BlockFile(n) =>
            ScanBlock(codec, index, capacity, before, listing, k);
            var file := disk.blocks[n];
            var bytes := Size(codec, file);
            if bytes > SaturatingSub(capacity, used) { return false; }
            if ReadBlock(codec, file).Err? { return false; }
            if file.ticket in index { return false; }
            used := used + bytes;
            index := index[file.ticket := EntryOf(codec, n, file)];
        }
        k := k + 1;
      }
      ScanDone(codec, index, capacity, disk, before, listing);
      ok := true;
    }

    method Insert(ticket: Ticket, content: Content) returns (r: Result<(), StoreError>)
      requires Inv(codec, Contents())
      modifies this
      ensures r == InsertReply(codec, old(Contents()), ticket, content)
      ensures Contents() == InsertAll(codec, old(Contents()), ticket, content)
      ensures Inv(codec, Contents())
    {
      hide Next; hide InsertAll; hide Inv; hide Size; hide FileOf; hide EntryOf; hide BlockStore.Enabled;
      NoPendingBetweenCalls(codec, Contents());
      InsertMeetsItsSpecification(codec, Contents(), ticket, content);
      InsertKeeps(codec, Contents(), ticket, content);
      if ticket in index {
        if index[ticket].checksum != codec.checksum(content) { return Err(ChecksumMismatch); }
        return Ok(());
      }
      var name := codec.name(ticket);
      if name in disk.blocks { return Err(Collision); }
      var file := FileOf(codec, ticket, content);
      disk := disk.(pending := disk.pending[name := Torn]);
      if Size(codec, file) > SaturatingSub(capacity, used) {
        disk := disk.(pending := disk.pending - {name});
        assert disk.pending == map[];
        return Err(Full);
      }
      disk := disk.(pending := disk.pending[name := Whole(file)]);
      disk := Disk(disk.pending - {name}, disk.blocks[name := file]);
      assert disk.pending == map[];
      used := used + Size(codec, file);
      index := index[ticket := EntryOf(codec, name, file)];
      r := Ok(());
    }

    method Get(ticket: Ticket) returns (r: Result<Content, StoreError>)
      requires Inv(codec, Contents())
      ensures r == BlockStore.Get(codec, Contents(), ticket)
      ensures r.Ok? ==> Holds(codec, Contents(), ticket, r.value)
    {
      if ticket !in index { return Err(Missing); }
      IndexedByName(codec, index, disk.blocks, ticket);
      var read := ReadBlock(codec, disk.blocks[index[ticket].name]);
      if read.Err? { return Err(read.error); }
      r := Ok(read.value.content);
    }

    method Remove(ticket: Ticket) returns (r: Result<(), StoreError>)
      requires Inv(codec, Contents())
      modifies this
      ensures r == if ticket in old(index) then Ok(()) else Err(Missing)
      ensures Contents() == RemoveAll(codec, old(Contents()), ticket)
      ensures Inv(codec, Contents()) && Absent(codec, Contents(), ticket)
    {
      hide Inv; hide RemoveAll; hide Absent;
      RemovedStore(codec, Contents(), ticket);
      if ticket !in index { return Err(Missing); }
      disk := disk.(blocks := disk.blocks - {index[ticket].name});
      used := used - index[ticket].bytes;
      index := index - {ticket};
      r := Ok(());
    }
  }

  lemma {:induction false} PartBelowWhole(c: Codec, part: map<Name, File>, whole: map<Name, File>)
    requires part.Keys <= whole.Keys && forall n | n in part :: part[n] == whole[n]
    ensures TotalSize(c, part) <= TotalSize(c, whole)
    decreases |part|
  {
    if part != map[] {
      var n :| n in part;
      TotalRemove(c, part, n);
      TotalRemove(c, whole, n);
      PartBelowWhole(c, part - {n}, whole - {n});
    }
  }

  lemma IndexMeansDistinct(c: Codec, index: map<Ticket, Entry>, blocks: map<Name, File>)
    requires Indexes(c, index, blocks)
    ensures DistinctTickets(blocks)
  {
    forall m, n | m in blocks && n in blocks && m != n ensures blocks[m].ticket != blocks[n].ticket {
      assert EntryOf(c, m, blocks[m]).name == m && EntryOf(c, n, blocks[n]).name == n;
    }
  }
}
