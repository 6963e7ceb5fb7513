/** The disk block store (src/cluster/block_store.rs) as a machine whose steps are its file-system
    operations, with a crash possible between any two of them. Serialisation, the checksum and the
    hash that names a file are library code and enter as the functions of a `Codec`. */
module BlockStore {
  import opened Basics

  type Ticket = string
  type Content = string
  type Name = U32

  datatype Codec = Codec(
    name: Ticket -> Name,                  // CRC-32 of the ticket, which names the file
    checksum: Content -> string,           // checksum of the encoded block
    length: Content -> nat,                // encoded length of the block
    header: (Ticket, string) -> nat)       // encoded length of ticket and checksum

  datatype StoreError = Full | Missing | Collision | ChecksumMismatch | Unreadable | Duplicate | Leftover

  datatype File = File(ticket: Ticket, checksum: string, content: Content)

  /** A `.pending` file: its bytes may be torn until it has been synchronised. */
  datatype Pending = Torn | Whole(file: File)

  datatype Disk = Disk(pending: map<Name, Pending>, blocks: map<Name, File>)

  datatype Entry = Entry(name: Name, bytes: nat, checksum: string)

  const HEADER_LIMIT: nat := 4096

  function FileOf(c: Codec, ticket: Ticket, content: Content): File {
    File(ticket, c.checksum(content), content)
  }

  function Size(c: Codec, f: File): nat {
    4 + c.header(f.ticket, f.checksum) + c.length(f.content)
  }

  predicate ShortHeader(c: Codec, f: File) {
    c.header(f.ticket, f.checksum) <= HEADER_LIMIT
  }

  /** `read_block`: a header above the limit is refused, and the content must match its checksum. */
  function ReadBlock(c: Codec, f: File): Result<File, StoreError> {
    if !ShortHeader(c, f) then Err(Unreadable)
    else if c.checksum(f.content) != f.checksum then Err(ChecksumMismatch)
    else Ok(f)
  }

  // ----- sums over maps ----------------------------------------------------------------------

  ghost function Pick<K, V>(m: map<K, V>): (k: K)
    requires m != map[]
    ensures k in m
  {
    var k :| k in m;
    k
  }

  ghost function Sum<K, V>(m: map<K, V>, size: V -> nat): nat
    decreases |m|
  {
    if m == map[] then 0
    else
      var k := Pick(m);
      size(m[k]) + Sum(m - {k}, size)
  }

  lemma {:induction false} SumRemove<K, V>(m: map<K, V>, size: V -> nat, k: K)
    requires k in m
    ensures Sum(m, size) == size(m[k]) + Sum(m - {k}, size)
    decreases |m|
  {
    var first := Pick(m);
    if first != k {
      SumRemove(m - {first}, size, k);
      SumRemove(m - {k}, size, first);
      assert m - {first} - {k} == m - {k} - {first};
    }
  }

  lemma SumAdd<K, V>(m: map<K, V>, size: V -> nat, k: K, v: V)
    requires k !in m
    ensures Sum(m[k := v], size) == Sum(m, size) + size(v)
  {
    SumRemove(m[k := v], size, k);
    assert m[k := v] - {k} == m;
  }

  ghost function TotalSize(c: Codec, blocks: map<Name, File>): nat {
    Sum(blocks, (f: File) => Size(c, f))
  }

  // ----- the machine -------------------------------------------------------------------------

  datatype Doing =
    | Ready
    | Created(ticket: Ticket, content: Content)     // empty pending file made
    | Aborting(ticket: Ticket)                      // too large, pending file to be removed
    | Written(ticket: Ticket, content: Content)     // bytes written, not yet synchronised
    | Synced(ticket: Ticket, content: Content)      // pending file synchronised
    | Renamed(ticket: Ticket, content: Content)     // published, directory not yet synchronised
    | Unlinked(ticket: Ticket, file: File)          // deleted, directory not yet synchronised

  datatype Process =
    | Down
    | Up(used: nat, index: map<Ticket, Entry>, doing: Doing)

  datatype Store = Store(capacity: U64, disk: Disk, process: Process)

  function Available(s: Store): nat
    requires s.process.Up?
  {
    SaturatingSub(s.capacity, s.process.used)
  }

  predicate DistinctTickets(blocks: map<Name, File>) {
    forall m, n | m in blocks && n in blocks && m != n :: blocks[m].ticket != blocks[n].ticket
  }

  function EntryOf(c: Codec, n: Name, f: File): Entry {
    Entry(n, Size(c, f), f.checksum)
  }

  /** `index` lists exactly the committed files. */
  ghost predicate Indexes(c: Codec, index: map<Ticket, Entry>, blocks: map<Name, File>) {
    && (forall n | n in blocks :: blocks[n].ticket in index && index[blocks[n].ticket] == EntryOf(c, n, blocks[n]))
    && (forall t | t in index :: index[t].name in blocks && blocks[index[t].name].ticket == t)
  }

  lemma IndexUnique(c: Codec, index: map<Ticket, Entry>, index': map<Ticket, Entry>, blocks: map<Name, File>)
    requires Indexes(c, index, blocks) && Indexes(c, index', blocks)
    ensures index == index'
  {
    forall t | t in index ensures t in index' && index'[t] == index[t] {
      assert blocks[index[t].name].ticket == t;
    }
    forall t | t in index' ensures t in index {
      assert blocks[index'[t].name].ticket == t;
    }
  }

  /** The start-up scan accepts a directory. */
  ghost predicate Opens(c: Codec, blocks: map<Name, File>, capacity: U64) {
    && (forall n | n in blocks :: ReadBlock(c, blocks[n]).Ok?)
    && DistinctTickets(blocks)
    && TotalSize(c, blocks) <= capacity
  }

  datatype Step =
    | Start(index: map<Ticket, Entry>)
    | Insert(ticket: Ticket, content: Content)
    | Write
    | Abort
    | Sync
    | Rename
    | Publish
    | Remove(ticket: Ticket)
    | Forget
    | Crash(kept: bool, leftovers: map<Name, Pending>)

  /** Which steps the code can take. A started store indexes the files it scanned; a crash may
      leave any `.pending` files behind, whole or torn. */
  ghost predicate Enabled(c: Codec, s: Store, step: Step) {
    match step
    case Start(index) => s.process.Down? && Opens(c, s.disk.blocks, s.capacity) && Indexes(c, index, s.disk.blocks)
    case Insert(_, _) => s.process.Up? && s.process.doing.Ready?
    case Write => s.process.Up? && s.process.doing.Created?
    case Abort => s.process.Up? && s.process.doing.Aborting?
    case Sync => s.process.Up? && s.process.doing.Written?
    case Rename => s.process.Up? && s.process.doing.Synced?
    case Publish => s.process.Up? && s.process.doing.Renamed?
    case Remove(_) => s.process.Up? && s.process.doing.Ready?
    case Forget => s.process.Up? && s.process.doing.Unlinked?
    case Crash(_, _) => s.process.Up?
  }

  /** The directory a crash leaves: a rename or deletion whose directory entry was not yet
      synchronised may or may not have reached the disk. */
  function AfterCrash(c: Codec, blocks: map<Name, File>, doing: Doing, kept: bool): map<Name, File> {
    match doing
    case Renamed(t, _) => if kept then blocks else blocks - {c.name(t)}
    case Unlinked(t, f) => if kept then blocks else blocks[c.name(t) := f]
    case _ => blocks
  }

  ghost function Next(c: Codec, s: Store, step: Step): Store
    requires Enabled(c, s, step)
  {
    var disk, p := s.disk, s.process;
    match step
    case Start(index) =>
      s.(disk := disk.(pending := map[]), process := Up(TotalSize(c, disk.blocks), index, Ready))
    case Insert(t, content) =>
      if t in p.index || c.name(t) in disk.blocks then s
      else if c.name(t) in disk.pending then s.(disk := disk.(pending := disk.pending - {c.name(t)}))
      else s.(disk := disk.(pending := disk.pending[c.name(t) := Torn]), process := p.(doing := Created(t, content)))
    case Write =>
      var d := p.doing;
      if Size(c, FileOf(c, d.ticket, d.content)) > Available(s) then s.(process := p.(doing := Aborting(d.ticket)))
      else s.(process := p.(doing := Written(d.ticket, d.content)))
    case Abort =>
      s.(disk := disk.(pending := disk.pending - {c.name(p.doing.ticket)}), process := p.(doing := Ready))
    case Sync =>
      var d := p.doing;
      s.(disk := disk.(pending := disk.pending[c.name(d.ticket) := Whole(FileOf(c, d.ticket, d.content))]),
         process := p.(doing := Synced(d.ticket, d.content)))
    case Rename =>
      var n := c.name(p.doing.ticket);
      if n in disk.pending && disk.pending[n].Whole? then
        s.(disk := Disk(disk.pending - {n}, disk.blocks[n := disk.pending[n].file]),
           process := p.(doing := Renamed(p.doing.ticket, p.doing.content)))
      else s
    case Publish =>
      var d := p.doing;
      var f := FileOf(c, d.ticket, d.content);
      s.(process := Up(p.used + Size(c, f), p.index[d.ticket := EntryOf(c, c.name(d.ticket), f)], Ready))
    case Remove(t) =>
      if t !in p.index || p.index[t].name !in disk.blocks then s
      else
        s.(disk := disk.(blocks := disk.blocks - {p.index[t].name}),
           process := p.(doing := Unlinked(t, disk.blocks[p.index[t].name])))
    case Forget =>
      var t := p.doing.ticket;
      var freed := if t in p.index then p.index[t].bytes else 0;
      s.(process := Up(SaturatingSub(p.used, freed), p.index - {t}, Ready))
    case Crash(kept, leftovers) =>
      s.(disk := Disk(leftovers, AfterCrash(c, disk.blocks, p.doing, kept)), process := Down)
  }

  // ----- what every step keeps ---------------------------------------------------------------

  predicate FilesOk(c: Codec, blocks: map<Name, File>) {
    forall n | n in blocks ::
      c.name(blocks[n].ticket) == n && blocks[n].checksum == c.checksum(blocks[n].content)
  }

  /** The committed files as the process accounts for them: the directory, but for the one entry
      whose change is still on its way into the index. */
  function Accounted(c: Codec, s: Store): map<Name, File>
    requires s.process.Up?
  {
    match s.process.doing
    case Renamed(t, _) => s.disk.blocks - {c.name(t)}
    case Unlinked(t, f) => s.disk.blocks[c.name(t) := f]
    case _ => s.disk.blocks
  }

  predicate DoingOk(c: Codec, s: Store)
    requires s.process.Up?
  {
    var pending, blocks := s.disk.pending, s.disk.blocks;
    match s.process.doing
    case Ready => pending == map[]
    case Created(t, _) => c.name(t) !in blocks && pending == map[c.name(t) := Torn]
    case Aborting(t) => c.name(t) !in blocks && pending == map[c.name(t) := Torn]
    case Written(t, x) =>
      && c.name(t) !in blocks && pending == map[c.name(t) := Torn]
      && s.process.used + Size(c, FileOf(c, t, x)) <= s.capacity
    case Synced(t, x) =>
      && c.name(t) !in blocks && pending == map[c.name(t) := Whole(FileOf(c, t, x))]
      && s.process.used + Size(c, FileOf(c, t, x)) <= s.capacity
    case Renamed(t, x) =>
      && pending == map[] && c.name(t) in blocks && blocks[c.name(t)] == FileOf(c, t, x)
      && s.process.used + Size(c, FileOf(c, t, x)) <= s.capacity
    case Unlinked(t, f) =>
      && pending == map[] && c.name(t) !in blocks && f.ticket == t && f.checksum == c.checksum(f.content)
  }

  ghost predicate ProcessOk(c: Codec, s: Store) {
    s.process.Up? ==>
      && DoingOk(c, s)
      && Indexes(c, s.process.index, Accounted(c, s))
      && s.process.used == TotalSize(c, Accounted(c, s)) <= s.capacity
  }

  ghost predicate Inv(c: Codec, s: Store) {
    && FilesOk(c, s.disk.blocks)
    && TotalSize(c, s.disk.blocks) <= s.capacity
    && ProcessOk(c, s)
  }

  lemma IndexAdd(c: Codec, index: map<Ticket, Entry>, blocks: map<Name, File>, n: Name, f: File)
    requires Indexes(c, index, blocks) && n !in blocks && f.ticket !in index
    ensures Indexes(c, index[f.ticket := EntryOf(c, n, f)], blocks[n := f])
  {
  }

  lemma IndexRemove(c: Codec, index: map<Ticket, Entry>, blocks: map<Name, File>, n: Name)
    requires Indexes(c, index, blocks) && n in blocks
    ensures Indexes(c, index - {blocks[n].ticket}, blocks - {n})
  {
    forall m | m in blocks - {n} ensures blocks[m].ticket != blocks[n].ticket {
      assert EntryOf(c, m, blocks[m]).name == m && EntryOf(c, n, blocks[n]).name == n;
    }
  }

  /** With files named after their tickets, an indexed ticket is found under its own name. */
  lemma IndexedByName(c: Codec, index: map<Ticket, Entry>, blocks: map<Name, File>, t: Ticket)
    requires Indexes(c, index, blocks) && FilesOk(c, blocks)
    ensures t in index <==> c.name(t) in blocks && blocks[c.name(t)].ticket == t
    ensures t in index ==> index[t] == EntryOf(c, c.name(t), blocks[c.name(t)])
  {
    if t in index {
      assert blocks[index[t].name].ticket == t;
    }
  }

  lemma TotalRemove(c: Codec, blocks: map<Name, File>, n: Name)
    requires n in blocks
    ensures TotalSize(c, blocks) == Size(c, blocks[n]) + TotalSize(c, blocks - {n})
  {
    SumRemove(blocks, (f: File) => Size(c, f), n);
  }

  lemma TotalAdd(c: Codec, blocks: map<Name, File>, n: Name, f: File)
    requires n !in blocks
    ensures TotalSize(c, blocks[n := f]) == TotalSize(c, blocks) + Size(c, f)
  {
    SumAdd(blocks, (f: File) => Size(c, f), n, f);
  }

  lemma WriteInv(c: Codec, s: Store, step: Step)
    requires Inv(c, s) && Enabled(c, s, step)
    requires step.Start? || step.Insert? || step.Write? || step.Abort? || step.Sync?
    ensures Inv(c, Next(c, s, step))
  {
    if step.Insert? {
      IndexedByName(c, s.process.index, s.disk.blocks, step.ticket);
    }
  }

  lemma PublishInv(c: Codec, s: Store, step: Step)
    requires Inv(c, s) && Enabled(c, s, step) && (step.Rename? || step.Publish?)
    ensures Inv(c, Next(c, s, step))
  {
    var blocks, p := s.disk.blocks, s.process;
    var t, n := p.doing.ticket, c.name(p.doing.ticket);
    var f := FileOf(c, t, p.doing.content);
    if step.Rename? {
      TotalAdd(c, blocks, n, f);
      assert blocks[n := f] - {n} == blocks;
    } else {
      assert blocks == (blocks - {n})[n := f];
      IndexedByName(c, p.index, blocks - {n}, t);
      IndexAdd(c, p.index, blocks - {n}, n, f);
      TotalAdd(c, blocks - {n}, n, f);
    }
  }

  lemma RemoveInv(c: Codec, s: Store, step: Step)
    requires Inv(c, s) && Enabled(c, s, step) && (step.Remove? || step.Forget?)
    ensures Inv(c, Next(c, s, step))
  {
    var blocks, p := s.disk.blocks, s.process;
    if step.Remove? {
      IndexedByName(c, p.index, blocks, step.ticket);
      if step.ticket in p.index {
        var n := c.name(step.ticket);
        TotalRemove(c, blocks, n);
        assert (blocks - {n})[n := blocks[n]] == blocks;
      }
    } else {
      ForgetInv(c, s, step);
    }
  }

  lemma ForgetInv(c: Codec, s: Store, step: Step)
    requires Inv(c, s) && Enabled(c, s, step) && step.Forget?
    ensures Inv(c, Next(c, s, step))
  {
    var blocks, p := s.disk.blocks, s.process;
    var t, f, n := p.doing.ticket, p.doing.file, c.name(p.doing.ticket);
    var before := blocks[n := f];
    assert before - {n} == blocks;
    IndexedByName(c, p.index, before, t);
    IndexRemove(c, p.index, before, n);
    TotalRemove(c, before, n);
  }

  lemma CrashInv(c: Codec, s: Store, step: Step)
    requires Inv(c, s) && Enabled(c, s, step) && step.Crash?
    ensures Inv(c, Next(c, s, step))
  {
    assert AfterCrash(c, s.disk.blocks, s.process.doing, step.kept) in {s.disk.blocks, Accounted(c, s)};
  }

  lemma NextInv(c: Codec, s: Store, step: Step)
    requires Inv(c, s) && Enabled(c, s, step)
    ensures Inv(c, Next(c, s, step)) && Next(c, s, step).capacity == s.capacity
  {
    if step.Rename? || step.Publish? {
      PublishInv(c, s, step);
    } else if step.Remove? || step.Forget? {
      RemoveInv(c, s, step);
    } else if step.Crash? {
      CrashInv(c, s, step);
    } else {
      WriteInv(c, s, step);
    }
  }

  // ----- what a client sees ------------------------------------------------------------------

  /** A complete file with this content is committed under the ticket. */
  predicate Holds(c: Codec, s: Store, t: Ticket, x: Content) {
    c.name(t) in s.disk.blocks && s.disk.blocks[c.name(t)] == FileOf(c, t, x)
  }

  predicate Has(c: Codec, s: Store, t: Ticket) {
    c.name(t) in s.disk.blocks && s.disk.blocks[c.name(t)].ticket == t
  }

  /** `get`. */
  function Get(c: Codec, s: Store, t: Ticket): Result<Content, StoreError>
    requires s.process.Up?
  {
    if t !in s.process.index || s.process.index[t].name !in s.disk.blocks then Err(Missing)
    else
      match ReadBlock(c, s.disk.blocks[s.process.index[t].name])
      case Err(e) => Err(e)
      case Ok(f) =>
        if f.ticket != t || f.checksum != s.process.index[t].checksum then Err(ChecksumMismatch) else Ok(f.content)
  }

  /** The ticket is committed and the call that committed it has returned, or the process has been
      restarted since; no deletion of it is under way. */
  predicate Settled(c: Codec, s: Store, t: Ticket, x: Content) {
    && Holds(c, s, t, x)
    && (s.process.Up? ==> t in s.process.index)
  }

  /** No trace of the ticket: not committed, and no call about it under way. */
  predicate Absent(c: Codec, s: Store, t: Ticket) {
    && !Has(c, s, t)
    && (s.process.Up? ==>
          && t !in s.process.index
          && (s.process.doing.Ready? || s.process.doing.ticket != t))
  }

  lemma SettledIsAccounted(c: Codec, s: Store, t: Ticket, x: Content)
    requires Inv(c, s) && Settled(c, s, t, x) && s.process.Up?
    ensures c.name(t) in Accounted(c, s) && Accounted(c, s)[c.name(t)] == FileOf(c, t, x)
    ensures s.process.index[t] == EntryOf(c, c.name(t), FileOf(c, t, x))
  {
    var blocks := Accounted(c, s);
    assert blocks[s.process.index[t].name].ticket == t;
    assert FilesOk(c, blocks);
  }

  lemma SettledKept(c: Codec, s: Store, step: Step, t: Ticket, x: Content)
    requires Inv(c, s) && Enabled(c, s, step) && Settled(c, s, t, x) && step != Remove(t)
    ensures Settled(c, Next(c, s, step), t, x)
  {
    if s.process.Up? { SettledIsAccounted(c, s, t, x); }
    if step.Remove? && step.ticket in s.process.index {
      IndexedByName(c, s.process.index, s.disk.blocks, step.ticket);
    }
  }

  lemma AbsentKept(c: Codec, s: Store, step: Step, t: Ticket)
    requires Inv(c, s) && Enabled(c, s, step) && Absent(c, s, t)
    requires !(step.Insert? && step.ticket == t)
    ensures Absent(c, Next(c, s, step), t)
  {
    if step.Start? && t in step.index {
      IndexedByName(c, step.index, s.disk.blocks, t);
    }
  }

  /** While a ticket stays committed its content never changes, whatever happens in between. */
  lemma ContentNeverChanges(c: Codec, s: Store, step: Step, t: Ticket, x: Content, y: Content)
    requires Inv(c, s) && Enabled(c, s, step) && Holds(c, s, t, x) && Holds(c, Next(c, s, step), t, y)
    ensures x == y
  {
  }

  // ----- whole runs --------------------------------------------------------------------------

  datatype Run = Run(steps: seq<Step>, states: seq<Store>)

  ghost predicate Follows(c: Codec, run: Run, n: nat)
    requires n < |run.steps| < |run.states|
  {
    Enabled(c, run.states[n], run.steps[n]) && run.states[n + 1] == Next(c, run.states[n], run.steps[n])
  }

  /** A run from an empty directory. */
  ghost predicate IsRun(c: Codec, run: Run) {
    && |run.states| == |run.steps| + 1
    && run.states[0].disk.blocks == map[] && run.states[0].process.Down?
    && forall n: nat | n < |run.steps| :: Follows(c, run, n)
  }

  lemma {:induction false} RunInv(c: Codec, run: Run, n: nat)
    requires IsRun(c, run) && n < |run.states|
    ensures Inv(c, run.states[n]) && run.states[n].capacity == run.states[0].capacity
  {
    hide Next; hide Enabled;
    if n > 0 {
      RunInv(c, run, n - 1);
      assert Follows(c, run, n - 1);
      NextInv(c, run.states[n - 1], run.steps[n - 1]);
    }
  }

  /** In every reachable state the committed bytes fit the capacity, and between calls the index
      lists exactly the committed files and `used` is their total size. */
  lemma IndexIsExact(c: Codec, run: Run, n: nat)
    requires IsRun(c, run) && n < |run.states|
    ensures var s := run.states[n];
      && TotalSize(c, s.disk.blocks) <= s.capacity
      && (s.process.Up? && s.process.doing.Ready? ==>
            && Indexes(c, s.process.index, s.disk.blocks)
            && s.process.used == TotalSize(c, s.disk.blocks)
            && s.disk.pending == map[])
  {
    RunInv(c, run, n);
  }

  /** After a crash at any step, the store opens again at the same capacity exactly when no
      committed file has a header longer than `read_block` accepts. */
  lemma ReopensExactlyWhenHeadersAreShort(c: Codec, run: Run, n: nat)
    requires IsRun(c, run) && n < |run.states|
    ensures var s := run.states[n];
      Opens(c, s.disk.blocks, s.capacity) <==> forall k | k in s.disk.blocks :: ShortHeader(c, s.disk.blocks[k])
  {
    RunInv(c, run, n);
    var blocks := run.states[n].disk.blocks;
    if forall k | k in blocks :: ShortHeader(c, blocks[k]) {
      assert forall k | k in blocks :: ReadBlock(c, blocks[k]).Ok?;
    }
  }

  /** Inserts whose encoded header is short keep every committed header short. */
  ghost predicate ShortInserts(c: Codec, run: Run, n: nat)
    requires n <= |run.steps|
  {
    forall m: nat | m < n && run.steps[m].Insert? ::
      ShortHeader(c, FileOf(c, run.steps[m].ticket, run.steps[m].content))
  }

  ghost predicate Requested(run: Run, n: nat, t: Ticket, x: Content)
    requires n <= |run.steps|
  {
    exists m: nat :: m < n && run.steps[m] == Insert(t, x)
  }

  /** Everything committed, or on its way, is one of the `known` pairs. */
  ghost predicate Origins(s: Store, known: iset<(Ticket, Content)>) {
    && (forall k | k in s.disk.blocks :: (s.disk.blocks[k].ticket, s.disk.blocks[k].content) in known)
    && (s.process.Up? ==>
          match s.process.doing
          case Ready => true
          case Aborting(_) => true
          case Unlinked(t, f) => (t, f.content) in known
          case Created(t, x) => (t, x) in known
          case Written(t, x) => (t, x) in known
          case Synced(t, x) => (t, x) in known
          case Renamed(t, x) => (t, x) in known)
  }

  ghost function Requests(run: Run, n: nat): iset<(Ticket, Content)>
    requires n <= |run.steps|
  {
    iset t, x | Requested(run, n, t, x) :: (t, x)
  }

  lemma OriginsKept(c: Codec, s: Store, step: Step, known: iset<(Ticket, Content)>)
    requires Inv(c, s) && Enabled(c, s, step) && Origins(s, known)
    requires step.Insert? ==> (step.ticket, step.content) in known
    ensures Origins(Next(c, s, step), known)
  {
    hide TotalSize;
    if step.Remove? && step.ticket in s.process.index {
      IndexedByName(c, s.process.index, s.disk.blocks, step.ticket);
    }
  }

  lemma RequestsGrow(run: Run, n: nat)
    requires n < |run.steps|
    ensures Requests(run, n) <= Requests(run, n + 1)
    ensures run.steps[n].Insert? ==> (run.steps[n].ticket, run.steps[n].content) in Requests(run, n + 1)
  {
    forall t, x | Requested(run, n, t, x) ensures Requested(run, n + 1, t, x) {
      var m: nat :| m < n && run.steps[m] == Insert(t, x);
      assert m < n + 1;
    }
    if run.steps[n].Insert? {
      assert Requested(run, n + 1, run.steps[n].ticket, run.steps[n].content);
    }
  }

  lemma OriginsWiden(s: Store, known: iset<(Ticket, Content)>, more: iset<(Ticket, Content)>)
    requires Origins(s, known) && known <= more
    ensures Origins(s, more)
  {
  }

  /** Whatever is committed was handed to an insert of the same ticket. */
  lemma {:induction false} RunOrigins(c: Codec, run: Run, n: nat)
    requires IsRun(c, run) && n < |run.states|
    ensures Origins(run.states[n], Requests(run, n))
  {
    hide Inv; hide Next; hide Enabled;
    if n > 0 {
      RunInv(c, run, n - 1);
      RunOrigins(c, run, n - 1);
      assert Follows(c, run, n - 1);
      RequestsGrow(run, n - 1);
      OriginsWiden(run.states[n - 1], Requests(run, n - 1), Requests(run, n));
      OriginsKept(c, run.states[n - 1], run.steps[n - 1], Requests(run, n));
    }
  }

  lemma ShortInsertsReopen(c: Codec, run: Run, n: nat)
    requires IsRun(c, run) && n < |run.states| && ShortInserts(c, run, n)
    ensures Opens(c, run.states[n].disk.blocks, run.states[n].capacity)
  {
    RunInv(c, run, n);
    RunOrigins(c, run, n);
    var blocks := run.states[n].disk.blocks;
    forall k | k in blocks ensures ShortHeader(c, blocks[k]) {
      assert Requested(run, n, blocks[k].ticket, blocks[k].content);
      var m: nat :| m < n && run.steps[m] == Insert(blocks[k].ticket, blocks[k].content);
    }
    ReopensExactlyWhenHeadersAreShort(c, run, n);
  }

  ghost predicate Untouched(run: Run, m: nat, n: nat, t: Ticket)
    requires m <= n <= |run.steps|
  {
    forall k: nat | m <= k < n :: run.steps[k] != Remove(t)
  }

  lemma {:induction false} RunSettled(c: Codec, run: Run, m: nat, n: nat, t: Ticket, x: Content)
    requires IsRun(c, run) && m <= n < |run.states|
    requires Settled(c, run.states[m], t, x) && Untouched(run, m, n, t)
    ensures Settled(c, run.states[n], t, x)
    decreases n
  {
    hide Inv; hide Next; hide Enabled; hide Settled;
    if m < n {
      RunSettled(c, run, m, n - 1, t, x);
      RunInv(c, run, n - 1);
      assert Follows(c, run, n - 1);
      SettledKept(c, run.states[n - 1], run.steps[n - 1], t, x);
    }
  }

  /** An acknowledged block survives every crash and restart until it is removed: its content is
      one that was inserted under its ticket, and a read returns it, exactly when its header is
      short enough to be read. */
  lemma AcknowledgedBlocksSurvive(c: Codec, run: Run, m: nat, n: nat, t: Ticket, x: Content)
    requires IsRun(c, run) && m <= n < |run.states|
    requires Settled(c, run.states[m], t, x) && Untouched(run, m, n, t)
    ensures Holds(c, run.states[n], t, x)
    ensures Requested(run, m, t, x)
    ensures run.states[n].process.Up? ==>
      Get(c, run.states[n], t) == if ShortHeader(c, FileOf(c, t, x)) then Ok(x) else Err(Unreadable)
  {
    RunSettled(c, run, m, n, t, x);
    RunOrigins(c, run, m);
    RunInv(c, run, n);
    if run.states[n].process.Up? { SettledIsAccounted(c, run.states[n], t, x); }
  }

  ghost predicate NotInserted(run: Run, m: nat, n: nat, t: Ticket)
    requires m <= n <= |run.steps|
  {
    forall k: nat | m <= k < n && run.steps[k].Insert? :: run.steps[k].ticket != t
  }

  /** A removed block does not come back: once a ticket is gone it stays gone over any number of
      crashes and restarts, until it is inserted again. */
  lemma {:induction false} RemovedBlocksStayGone(c: Codec, run: Run, m: nat, n: nat, t: Ticket)
    requires IsRun(c, run) && m <= n < |run.states|
    requires Absent(c, run.states[m], t) && NotInserted(run, m, n, t)
    ensures Absent(c, run.states[n], t)
    ensures run.states[n].process.Up? ==> Get(c, run.states[n], t) == Err(Missing)
    decreases n
  {
    hide Inv; hide Next; hide Enabled;
    if m < n {
      RemovedBlocksStayGone(c, run, m, n - 1, t);
      RunInv(c, run, n - 1);
      assert Follows(c, run, n - 1);
      AbsentKept(c, run.states[n - 1], run.steps[n - 1], t);
    }
  }

  /** A finished insert is settled, a finished removal absent. */
  lemma FinishedCalls(c: Codec, s: Store)
    requires Inv(c, s) && s.process.Up?
    ensures s.process.doing.Renamed? ==>
      Settled(c, Next(c, s, Publish), s.process.doing.ticket, s.process.doing.content)
    ensures s.process.doing.Unlinked? ==> Absent(c, Next(c, s, Forget), s.process.doing.ticket)
  {
  }

  // ----- calls that are not interrupted ------------------------------------------------------

  lemma NoPendingBetweenCalls(c: Codec, s: Store)
    requires Inv(c, s) && s.process.Up? && s.process.doing.Ready?
    ensures s.disk.pending == map[]
  {
  }

  /** The steps of one insert, taken without a crash. */
  ghost function InsertAll(c: Codec, s: Store, t: Ticket, x: Content): Store
    requires s.process.Up? && s.process.doing.Ready?
  {
    var created := Next(c, s, Insert(t, x));
    if !created.process.doing.Created? then created
    else
      var written := Next(c, created, Write);
      if written.process.doing.Aborting? then Next(c, written, Abort)
      else
        var renamed := Next(c, Next(c, written, Sync), Rename);
        if renamed.process.doing.Renamed? then Next(c, renamed, Publish) else renamed
  }

  function InsertReply(c: Codec, s: Store, t: Ticket, x: Content): Result<(), StoreError>
    requires s.process.Up?
  {
    if t in s.process.index then
      if s.process.index[t].checksum == c.checksum(x) then Ok(()) else Err(ChecksumMismatch)
    else if c.name(t) in s.disk.blocks then Err(Collision)
    else if c.name(t) in s.disk.pending then Err(Leftover)
    else if Size(c, FileOf(c, t, x)) > Available(s) then Err(Full)
    else Ok(())
  }

  /** An insert commits exactly the new file when it is accepted, and otherwise changes nothing. */
  lemma InsertMeetsItsSpecification(c: Codec, s: Store, t: Ticket, x: Content)
    requires Inv(c, s) && s.process.Up? && s.process.doing.Ready?
    ensures InsertReply(c, s, t, x) != Err(Leftover)
    ensures InsertAll(c, s, t, x) ==
      if InsertReply(c, s, t, x).Ok? && t !in s.process.index then
        var f, n := FileOf(c, t, x), c.name(t);
        Store(s.capacity, Disk(map[], s.disk.blocks[n := f]),
              Up(s.process.used + Size(c, f), s.process.index[t := EntryOf(c, n, f)], Ready))
      else s
  {
    var created := Next(c, s, Insert(t, x));
    if created.process.doing.Created? {
      var n := c.name(t);
      assert created.disk.pending - {n} == map[];
      assert created.disk.pending[n := Whole(FileOf(c, t, x))] - {n} == map[];
    }
  }

  ghost function RemoveAll(c: Codec, s: Store, t: Ticket): Store
    requires s.process.Up? && s.process.doing.Ready?
  {
    var unlinked := Next(c, s, Remove(t));
    if unlinked.process.doing.Unlinked? then Next(c, unlinked, Forget) else unlinked
  }

  lemma InsertKeeps(c: Codec, s: Store, t: Ticket, x: Content)
    requires Inv(c, s) && s.process.Up? && s.process.doing.Ready?
    ensures Inv(c, InsertAll(c, s, t, x))
  {
    hide Inv;
    var created := Next(c, s, Insert(t, x));
    NextInv(c, s, Insert(t, x));
    if created.process.doing.Created? {
      var written := Next(c, created, Write);
      NextInv(c, created, Write);
      if written.process.doing.Aborting? {
        NextInv(c, written, Abort);
      } else {
        var synced := Next(c, written, Sync);
        NextInv(c, written, Sync);
        NextInv(c, synced, Rename);
        if Next(c, synced, Rename).process.doing.Renamed? {
          NextInv(c, Next(c, synced, Rename), Publish);
        }
      }
    }
  }

  /** A removal takes away exactly the ticket's file and gives its bytes back. */
  lemma RemoveMeetsItsSpecification(c: Codec, s: Store, t: Ticket)
    requires Inv(c, s) && s.process.Up? && s.process.doing.Ready?
    ensures RemoveAll(c, s, t) ==
      if t in s.process.index && Has(c, s, t) then
        var n := c.name(t);
        Store(s.capacity, Disk(map[], s.disk.blocks - {n}),
              Up(SaturatingSub(s.process.used, Size(c, s.disk.blocks[n])), s.process.index - {t}, Ready))
      else s
  {
    hide TotalSize;
    IndexedByName(c, s.process.index, s.disk.blocks, t);
  }

  /** Removing what was just inserted restores the store. */
  lemma RemoveUndoesInsert(c: Codec, s: Store, t: Ticket, x: Content)
    requires Inv(c, s) && s.process.Up? && s.process.doing.Ready?
    requires InsertReply(c, s, t, x).Ok? && t !in s.process.index
    ensures InsertAll(c, s, t, x).process.Up? && InsertAll(c, s, t, x).process.doing.Ready?
    ensures RemoveAll(c, InsertAll(c, s, t, x), t) == s
  {
    hide InsertAll; hide RemoveAll; hide Inv; hide Next; hide Size;
    NoPendingBetweenCalls(c, s);
    InsertMeetsItsSpecification(c, s, t, x);
    InsertKeeps(c, s, t, x);
    RemoveMeetsItsSpecification(c, InsertAll(c, s, t, x), t);
    var n := c.name(t);
    assert s.disk.blocks[n := FileOf(c, t, x)] - {n} == s.disk.blocks;
    assert s.process.index[t := EntryOf(c, n, FileOf(c, t, x))] - {t} == s.process.index;
  }

  /** `insert` never looks at the header length, so an accepted block may be unreadable: reads of
      it fail, and after a crash the whole directory is refused. */
  lemma LongHeaderIsAcceptedAndLost(c: Codec, s: Store, t: Ticket, x: Content, kept: bool, left: map<Name, Pending>)
    requires Inv(c, s) && s.process.Up? && s.process.doing.Ready? && t !in s.process.index
    requires InsertReply(c, s, t, x).Ok? && !ShortHeader(c, FileOf(c, t, x))
    ensures var s' := InsertAll(c, s, t, x);
      && s'.process.Up? && s'.process.doing.Ready?
      && Get(c, s', t) == Err(Unreadable)
      && !Opens(c, Next(c, s', Crash(kept, left)).disk.blocks, s.capacity)
  {
    InsertMeetsItsSpecification(c, s, t, x);
    assert c.name(t) in InsertAll(c, s, t, x).disk.blocks;
  }

  /** The length of a text in JSON: quotes and backslashes take two bytes. */
  function JsonLength(text: string): (n: nat)
    ensures |text| <= n <= 2 * |text|
  {
    if text == [] then 0
    else JsonLength(text[..|text| - 1]) + (if text[|text| - 1] in "\"\\" then 2 else 1)
  }

  /** The header of a file without its ticket and checksum. */
  const HEADER_FRAME := |"{\"version\":5,\"ticket\":\"\",\"checksum\":\"\"}"|

  const PLAIN_TICKET :=
    "{\"version\":5,\"worker_id\":\"w\",\"producer\":{\"query_id\":\"q\",\"stage_id\":0,\"partition_id\":0,\"attempt\":1},\"output_partition\":0}"

  /** Such a block: tickets are stored as the JSON text they arrive as, and blanks after a ticket
      do not change what it says. */
  lemma LongTicketExample() returns (c: Codec, s: Store, t: Ticket)
    ensures t == PLAIN_TICKET + seq(HEADER_LIMIT, _ => ' ')
    ensures forall ticket, checksum :: c.header(ticket, checksum) == HEADER_FRAME + JsonLength(ticket) + JsonLength(checksum)
    ensures Inv(c, s) && s.process.Up? && s.process.doing.Ready? && t !in s.process.index
    ensures InsertReply(c, s, t, "").Ok? && !ShortHeader(c, FileOf(c, t, ""))
  {
    c := Codec(ticket => |ticket| % 0x1_0000_0000, _ => "crc32:00000000", x => |x|,
               (ticket, checksum) => HEADER_FRAME + JsonLength(ticket) + JsonLength(checksum));
    s := Store(10_000, Disk(map[], map[]), Up(0, map[], Ready));
    t := PLAIN_TICKET + seq(HEADER_LIMIT, _ => ' ');
  }
}
