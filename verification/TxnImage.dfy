/**
 * The durable states a transactional replace moves through.  A path is a live file's name with the role of one of its
 * siblings; a file is an inode with bytes; the pending marker is the content of the marker file, always replaced whole.
 */
module TxnImage {
  import opened Wrappers

  type Bytes = seq<bv8>

  datatype Role = Live | Staging | Lkg

  datatype Path = Path(base: string, role: Role)

  datatype File = File(inode: nat, bytes: Bytes)

  datatype Kind = ConfigKind | BinaryKind | BothKind | UnknownKind

  datatype Phase = Inflight | Committed | UnknownPhase

  datatype Pending = Pending(
    txnId: string, kind: Kind, phase: Phase, installOnly: bool, noPriorConfig: bool, noPriorBinary: bool)

  /**
   * One durable state.  The last five fields are history: the inodes another writer created, whether an operation of
   * ours ever removed or replaced one of them, whether a committed marker was ever written, the live files a recovery
   * left alone because of an error, and the live files known to the recovery that dropped an inflight marker.
   */
  datatype Image = Image(
    files: map<Path, File>, marker: Option<Pending>, next: nat,
    foreign: set<nat>, trampled: bool, decided: bool, passed: set<string>, served: Option<set<string>>)

  function At(img: Image, path: Path): Option<File> {
    if path in img.files then Some(img.files[path]) else None
  }

  predicate Foreign(img: Image, path: Path) { path in img.files && img.files[path].inode in img.foreign }

  predicate Contains(img: Image, path: Path, bytes: Bytes) { path in img.files && img.files[path].bytes == bytes }

  // ---- One durable operation ----

  function Removed(img: Image, path: Path): Image {
    img.(files := img.files - {path}, trampled := img.trampled || Foreign(img, path))
  }

  function Renamed(img: Image, from: Path, to: Path): Image
    requires from in img.files
  {
    img.(files := (img.files - {from})[to := img.files[from]], trampled := img.trampled || Foreign(img, to))
  }

  /** A hard link: the new name shares the inode. */
  function Linked(img: Image, from: Path, to: Path): Image
    requires from in img.files && to !in img.files
  {
    img.(files := img.files[to := img.files[from]])
  }

  /** The path names a fresh inode with these bytes. */
  function Wrote(img: Image, path: Path, bytes: Bytes): Image {
    img.(files := img.files[path := File(img.next, bytes)], next := img.next + 1,
         trampled := img.trampled || Foreign(img, path))
  }

  /** Writing in place: every name of the inode gets the bytes; a new name gets a fresh inode. */
  function Overwritten(img: Image, path: Path, bytes: Bytes): Image {
    if path !in img.files then Wrote(img, path, bytes)
    else
      var inode := img.files[path].inode;
      img.(files := map p | p in img.files ::
             if img.files[p].inode == inode then File(inode, bytes) else img.files[p],
           trampled := img.trampled || inode in img.foreign)
  }

  function Marked(img: Image, p: Pending): Image {
    img.(marker := Some(p), decided := img.decided || p.phase.Committed?)
  }

  /** Dropping the marker; a recovery that rolled back also leaves the names of the live files it knew. */
  function Unmarked(img: Image, knew: Option<set<string>>): Image {
    img.(marker := None, served := if knew.Some? then knew else img.served)
  }

  function PassedOver(img: Image, path: string): Image { img.(passed := img.passed + {path}) }

  /** Another writer creates a file that is not there. */
  function Created(img: Image, path: Path, bytes: Bytes): Image
    requires path !in img.files
  {
    img.(files := img.files[path := File(img.next, bytes)], next := img.next + 1, foreign := img.foreign + {img.next})
  }

  /** What another writer of `writer` may do between two of our operations: create the file if it is not there. */
  ghost predicate Interferes(writer: Option<string>, a: Image, b: Image) {
    b == a || (writer.Some? && Creates(a, b, Path(writer.value, Live)))
  }

  predicate Creates(a: Image, b: Image, path: Path) {
    path !in a.files && path in b.files && b == Created(a, path, b.files[path].bytes)
  }

  // ---- What a transaction is about ----

  /** One live file with what it held before (None: absent) and what the transaction offers. */
  datatype Side = Side(path: string, prior: Option<Bytes>, candidate: Bytes, installOnly: bool)

  /**
   * `verdict` is the decision that may no longer change, once there is one, and `boot` holds the live files known to
   * the manager that recovers, once there is one.
   */
  datatype Job = Job(kind: Kind, config: Side, binary: Side, verdict: Option<bool>, boot: Option<set<string>>)

  predicate SwapsConfig(kind: Kind) { kind.ConfigKind? || kind.BothKind? }

  predicate SwapsBinary(kind: Kind) { kind.BinaryKind? || kind.BothKind? }

  predicate ValidJob(job: Job) {
    job.config.path != job.binary.path && !job.binary.installOnly && (job.config.installOnly ==> job.kind.ConfigKind?)
  }

  /** The live file is what it was; where there was none, another writer may have put one. */
  predicate IsOld(img: Image, side: Side) {
    var live := Path(side.path, Live);
    match side.prior
    case None => live !in img.files || Foreign(img, live)
    case Some(bytes) => Contains(img, live, bytes)
  }

  predicate IsNew(img: Image, side: Side) {
    Contains(img, Path(side.path, Live), side.candidate) && !Foreign(img, Path(side.path, Live))
  }

  predicate AllOld(img: Image, job: Job) {
    (SwapsConfig(job.kind) ==> IsOld(img, job.config)) && (SwapsBinary(job.kind) ==> IsOld(img, job.binary))
  }

  predicate AllNew(img: Image, job: Job) {
    (SwapsConfig(job.kind) ==> IsNew(img, job.config)) && (SwapsBinary(job.kind) ==> IsNew(img, job.binary))
  }

  /** The files the transaction is not about. */
  predicate OthersKept(img: Image, job: Job) {
    (!SwapsConfig(job.kind) ==> IsOld(img, job.config)) && (!SwapsBinary(job.kind) ==> IsOld(img, job.binary))
  }

  /** The snapshot the rollback will restore. */
  predicate Snapshotted(img: Image, side: Side) {
    !side.installOnly && side.prior.Some? ==> Contains(img, Path(side.path, Lkg), side.prior.value)
  }

  /** Recovery can still bring the old file back. */
  predicate Undoable(img: Image, side: Side) {
    var live, staging, lkg := Path(side.path, Live), Path(side.path, Staging), Path(side.path, Lkg);
    || (IsOld(img, side) && (side.prior.Some? ==> Snapshotted(img, side) || lkg !in img.files))
    || (IsNew(img, side) && Snapshotted(img, side)
        && (side.installOnly ==> staging in img.files && img.files[staging].inode == img.files[live].inode))
  }

  /** What is left to rely on for a live file some recovery left alone. */
  predicate Loose(img: Image, side: Side) {
    var lkg := Path(side.path, Lkg);
    && (IsOld(img, side) || IsNew(img, side))
    && (!side.installOnly && side.prior.Some? && lkg in img.files ==> Contains(img, lkg, side.prior.value))
  }

  predicate Held(img: Image, side: Side) {
    if side.path in img.passed then Loose(img, side) else Undoable(img, side)
  }

  /** No recovery has restored this live file: it was left alone after an error, or the recovery did not know it. */
  predicate Left(img: Image, side: Side) {
    side.path in img.passed || (img.served.Some? && side.path !in img.served.value)
  }

  /** After a rollback a live file is the old one, unless it was left; then it may also be the candidate. */
  predicate Rests(img: Image, side: Side) {
    IsOld(img, side) || (IsNew(img, side) && Left(img, side))
  }

  predicate Describes(p: Pending, job: Job) {
    && p.kind == job.kind && !p.phase.UnknownPhase?
    && p.installOnly == job.config.installOnly && (p.installOnly ==> job.config.prior.None?)
    && (SwapsConfig(job.kind) ==> p.noPriorConfig == job.config.prior.None?)
    && (SwapsBinary(job.kind) ==> p.noPriorBinary == job.binary.prior.None?)
  }

  /** The marker tells the truth about the live files. */
  predicate Consistent(img: Image, job: Job) {
    && OthersKept(img, job)
    && match img.marker
       case None =>
         if img.decided then AllNew(img, job)
         else
           (SwapsConfig(job.kind) ==> Rests(img, job.config)) && (SwapsBinary(job.kind) ==> Rests(img, job.binary))
       case Some(p) =>
         if p.phase.Committed? then img.decided && AllNew(img, job)
         else
           && !img.decided && img.served.None?
           && (SwapsConfig(job.kind) ==> Held(img, job.config))
           && (SwapsBinary(job.kind) ==> Held(img, job.binary))
  }

  /**
   * Inodes are handed out once, a snapshot shares its inode with no other name, and another writer's files sit at
   * the live config only.
   */
  ghost predicate Sound(img: Image, job: Job) {
    && (forall p | p in img.files :: img.files[p].inode < img.next)
    && (forall i | i in img.foreign :: i < img.next)
    && (forall p, q | p in img.files && q in img.files && p.role == Lkg && p != q ::
          img.files[p].inode != img.files[q].inode)
    && (forall p | p in img.files && img.files[p].inode in img.foreign :: p == Path(job.config.path, Live))
    && (img.foreign != {} ==> job.config.installOnly)
  }

  /** What every durable state of a transaction and its recovery keeps. */
  ghost predicate Recoverable(img: Image, job: Job) {
    && Sound(img, job) && !img.trampled && (job.verdict.Some? ==> img.decided == job.verdict.value)
    && (img.marker.Some? ==> Describes(img.marker.value, job))
    && Accounted(img, job) && Consistent(img, job)
  }

  /** Only a recovery leaves live files alone, and only ones it knows after an error. */
  predicate Accounted(img: Image, job: Job) {
    match job.boot
    case None => Untroubled(img)
    case Some(known) => img.passed <= known && (img.served.Some? ==> img.served == job.boot)
  }

  /** Where a transaction has to end: no marker, and all old or all new as the committed marker decided. */
  predicate Settled(img: Image, job: Job) {
    img.marker.None? && OthersKept(img, job) && if img.decided then AllNew(img, job) else AllOld(img, job)
  }

  /** A transaction recovery would roll back. */
  predicate Underway(img: Image) { img.marker.Some? && !img.marker.value.phase.Committed? }

  /** No recovery has left anything alone. */
  predicate Untroubled(img: Image) { img.passed == {} && img.served.None? }

  predicate SameHistory(a: Image, b: Image) {
    b.decided == a.decided && b.passed == a.passed && b.served == a.served
  }

  // ---- What each operation keeps ----

  lemma InterferenceKeeps(writer: Option<string>, a: Image, b: Image, job: Job)
    requires Recoverable(a, job) && Interferes(writer, a, b) && ValidJob(job)
    requires writer.Some? ==> job.config.installOnly && writer.value == job.config.path
    ensures Recoverable(b, job) && b.marker == a.marker && SameHistory(a, b)
    ensures forall p | p != Path(job.config.path, Live) || p in a.files :: At(b, p) == At(a, p)
  {
  }

  /** The sibling an unfinished rollback of this side relies on. */
  predicate Needs(side: Side, role: Role) {
    if side.installOnly then role.Staging? else role.Lkg? && side.prior.Some?
  }

  /** Removing this sibling cannot hurt the side: it is not needed, or there is nothing left to undo. */
  predicate SpareFor(img: Image, side: Side, path: Path) {
    path.base == side.path && Needs(side, path.role) ==> IsOld(img, side) || side.path in img.passed
  }

  /** Removing a sibling of a live file is safe unless an unfinished rollback may still need it. */
  predicate Spare(img: Image, job: Job, path: Path) {
    path.role != Live && (Underway(img) ==>
      && (SwapsConfig(job.kind) ==> SpareFor(img, job.config, path))
      && (SwapsBinary(job.kind) ==> SpareFor(img, job.binary, path)))
  }

  lemma RemovedKeeps(img: Image, job: Job, path: Path)
    requires ValidJob(job) && Recoverable(img, job) && Spare(img, job, path)
    ensures Recoverable(Removed(img, path), job)
  {
  }

  lemma WroteKeeps(img: Image, job: Job, path: Path, bytes: Bytes)
    requires ValidJob(job) && Recoverable(img, job) && path.role != Live && img.marker.None?
    ensures Recoverable(Wrote(img, path, bytes), job)
  {
  }

  /** No other name shares a snapshot's inode, so writing it in place changes no other name. */
  lemma OverwrittenAlone(img: Image, job: Job, path: Path, bytes: Bytes)
    requires Sound(img, job) && path.role == Lkg && path in img.files
    ensures Overwritten(img, path, bytes) == img.(files := img.files[path := File(img.files[path].inode, bytes)])
  {
    assert img.files[path].inode !in img.foreign;
    var t := img.files[path := File(img.files[path].inode, bytes)];
    forall p | p in img.files ensures Overwritten(img, path, bytes).files[p] == t[p] {
    }
    assert Overwritten(img, path, bytes).files.Keys == t.Keys;
  }

  lemma OverwrittenKeeps(img: Image, job: Job, path: Path, bytes: Bytes)
    requires ValidJob(job) && Recoverable(img, job) && path.role == Lkg && img.marker.None?
    ensures Recoverable(Overwritten(img, path, bytes), job) && Contains(Overwritten(img, path, bytes), path, bytes)
    ensures forall p | p != path :: At(Overwritten(img, path, bytes), p) == At(img, p)
  {
    hide Overwritten;
    if path in img.files {
      OverwrittenAlone(img, job, path, bytes);
    } else {
      WroteKeeps(img, job, path, bytes);
      OverwrittenNew(img, path, bytes);
    }
  }

  lemma OverwrittenNew(img: Image, path: Path, bytes: Bytes)
    requires path !in img.files
    ensures Overwritten(img, path, bytes) == Wrote(img, path, bytes)
  {
  }

  lemma MarkedKeeps(img: Image, job: Job, p: Pending)
    requires ValidJob(job) && Recoverable(img, job) && Describes(p, job) && Untroubled(img)
    requires if p.phase.Committed? then AllNew(img, job) && job.verdict.None?
             else !img.decided && AllOld(img, job)
                  && (SwapsConfig(job.kind) ==> Snapshotted(img, job.config))
                  && (SwapsBinary(job.kind) ==> Snapshotted(img, job.binary))
    ensures Recoverable(Marked(img, p), job)
  {
  }

  /** Dropping an inflight marker is right when every swapped live file is old or will show as left. */
  lemma UnmarkedKeeps(img: Image, job: Job, knew: Option<set<string>>)
    requires Recoverable(img, job)
    requires Underway(img) ==>
               && (SwapsConfig(job.kind) ==> Rests(Unmarked(img, knew), job.config))
               && (SwapsBinary(job.kind) ==> Rests(Unmarked(img, knew), job.binary))
    requires knew.Some? ==> Underway(img) && knew == job.boot
    ensures Recoverable(Unmarked(img, knew), job)
  {
  }

  predicate Swaps(job: Job, side: Side) {
    (side == job.config && SwapsConfig(job.kind)) || (side == job.binary && SwapsBinary(job.kind))
  }

  /** Renaming one of our files over a live file. */
  lemma RenamedSound(img: Image, job: Job, from: Path, to: Path)
    requires Sound(img, job) && from in img.files && from.role != Live && to.role == Live
    ensures Sound(Renamed(img, from, to), job)
  {
    assert !Foreign(img, from);
  }

  lemma RenamedElsewhere(img: Image, from: Path, to: Path, side: Side)
    requires from in img.files && from.base != side.path && to.base != side.path
    ensures var t := Renamed(img, from, to); Held(t, side) == Held(img, side) && IsOld(t, side) == IsOld(img, side)
  {
  }

  /** A snapshot brings the side back. */
  lemma RestoredSide(img: Image, side: Side)
    requires Held(img, side) && !side.installOnly && side.prior.Some? && Path(side.path, Lkg) in img.files
    ensures var t := Renamed(img, Path(side.path, Lkg), Path(side.path, Live)); IsOld(t, side) && Held(t, side)
  {
  }

  /** The candidate goes live over a file of this transaction, with the snapshot left beside it. */
  lemma CommittedSide(img: Image, side: Side)
    requires Held(img, side) && !side.installOnly && Snapshotted(img, side) && img.foreign == {}
    requires Contains(img, Path(side.path, Staging), side.candidate)
    ensures var t := Renamed(img, Path(side.path, Staging), Path(side.path, Live)); IsNew(t, side) && Held(t, side)
  {
  }

  /** The commit rename of one side. */
  lemma CommitKeeps(img: Image, job: Job, side: Side)
    requires ValidJob(job) && Recoverable(img, job) && Underway(img) && Swaps(job, side) && !side.installOnly
    requires Contains(img, Path(side.path, Staging), side.candidate) && Snapshotted(img, side) && img.foreign == {}
    ensures Recoverable(Renamed(img, Path(side.path, Staging), Path(side.path, Live)), job)
    ensures IsNew(Renamed(img, Path(side.path, Staging), Path(side.path, Live)), side)
  {
    var other := if side == job.config then job.binary else job.config;
    RenamedSound(img, job, Path(side.path, Staging), Path(side.path, Live));
    CommittedSide(img, side);
    RenamedElsewhere(img, Path(side.path, Staging), Path(side.path, Live), other);
    hide Sound, Held, IsOld, IsNew;
  }

  /** The exclusive link of a first configuration. */
  lemma LinkKeeps(img: Image, job: Job)
    requires ValidJob(job) && Recoverable(img, job) && Underway(img) && job.config.installOnly
    requires Contains(img, Path(job.config.path, Staging), job.config.candidate)
    requires Path(job.config.path, Live) !in img.files
    ensures Recoverable(Linked(img, Path(job.config.path, Staging), Path(job.config.path, Live)), job)
    ensures IsNew(Linked(img, Path(job.config.path, Staging), Path(job.config.path, Live)), job.config)
  {
  }

  /** A live file recovery may roll back: a swapped side that is not install-only, or a file of no side. */
  predicate Rollable(job: Job, path: string, noPrior: bool) {
    && !job.config.installOnly
    && (path == job.config.path ==> SwapsConfig(job.kind) && noPrior == job.config.prior.None?)
    && (path == job.binary.path ==> SwapsBinary(job.kind) && noPrior == job.binary.prior.None?)
  }

  predicate OldAt(img: Image, job: Job, path: string) {
    && (path == job.config.path ==> IsOld(img, job.config))
    && (path == job.binary.path ==> IsOld(img, job.binary))
  }

  /** Restoring a snapshot over the live file. */
  lemma RestoreKeeps(img: Image, job: Job, path: string)
    requires ValidJob(job) && Recoverable(img, job) && Underway(img) && Rollable(job, path, false)
    requires Path(path, Lkg) in img.files
    ensures var t := Renamed(img, Path(path, Lkg), Path(path, Live)); Recoverable(t, job) && OldAt(t, job, path)
  {
    RenamedSound(img, job, Path(path, Lkg), Path(path, Live));
    NoForeignFile(img, job, Path(path, Live));
    if path == job.config.path { RestoredSide(img, job.config); }
    else { RenamedElsewhere(img, Path(path, Lkg), Path(path, Live), job.config); }
    if path == job.binary.path { RestoredSide(img, job.binary); }
    else { RenamedElsewhere(img, Path(path, Lkg), Path(path, Live), job.binary); }
    hide Sound, Held, IsOld;
  }

  lemma NoForeignFile(img: Image, job: Job, path: Path)
    requires Sound(img, job) && !job.config.installOnly
    ensures !Foreign(img, path)
  {
  }

  /** Removing a live file that was not there before. */
  lemma RemovedLiveKeeps(img: Image, job: Job, path: string)
    requires ValidJob(job) && Recoverable(img, job) && Underway(img) && Rollable(job, path, true)
    ensures var t := Removed(img, Path(path, Live)); Recoverable(t, job) && OldAt(t, job, path)
  {
  }

  /** Removing the first configuration this transaction linked. */
  lemma WithdrawnKeeps(img: Image, job: Job)
    requires ValidJob(job) && Recoverable(img, job) && Underway(img) && job.config.installOnly
    requires !Foreign(img, Path(job.config.path, Live))
    ensures var t := Removed(img, Path(job.config.path, Live)); Recoverable(t, job) && IsOld(t, job.config)
  {
  }

  lemma PassedOverKeeps(img: Image, job: Job, path: string)
    requires Recoverable(img, job) && Underway(img) && job.boot.Some? && path in job.boot.value
    ensures Recoverable(PassedOver(img, path), job)
  {
  }
}
