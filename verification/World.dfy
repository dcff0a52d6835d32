/** Everything outside the client: target files, transaction directory, guard session, sshd's answers. */
module World {
  import opened Basics
  import opened WritePolicy
  import AuthKeys
  import Manifest

  datatype Node = Node(content: Bytes, meta: Meta)
  type Disk = map<Path, Node>

  datatype Verdict = Accepted | Rejected | Inconclusive

  /** One fresh connection: who asked, with which key, what sshd said, and the files it could read. */
  datatype Probe = Probe(user: User, key: AuthKeys.Key, full: bool, verdict: Verdict, seen: Disk)

  datatype World = World(
    disk: Disk,                  // regular files
    links: set<Path>,            // symbolic links
    backups: map<Path, Bytes>,   // the transaction directory's backups
    manifest: Option<Bytes>,
    commit: bool,
    restored: bool,
    refused: seq<Path>,          // restorations the trap refused
    guard: bool,                 // the guard session is running, its trap armed
    conn: bool,                  // the guard connection is up
    local: map<User, Bytes>,     // backups on the operator's machine
    snapshots: map<User, Bytes>, // and the copies made before a later phase
    probes: seq<Probe>)

  function ContentIn(d: Disk, p: Path): Option<Bytes> {
    if p in d then Some(d[p].content) else None
  }

  function At(w: World, p: Path): Option<Bytes> {
    ContentIn(w.disk, p)
  }

  /** The position of the last slash, or -1. */
  function LastSlash(p: Path): (i: int)
    ensures -1 <= i < |p|
  {
    if p == "" then -1
    else if p[|p| - 1] == '/' then |p| - 1
    else LastSlash(p[..|p| - 1])
  }

  function DirOf(p: Path): Path {
    var i := LastSlash(p);
    if i <= 0 then "/" else p[..i]
  }

  lemma {:induction false} LastSlashIs(d: Path, n: string)
    requires '/' !in n
    ensures LastSlash(d + "/" + n) == |d|
  {
    var p := d + "/" + n;
    if n == "" {
      assert p[|p| - 1] == '/';
    } else {
      assert p[|p| - 1] == n[|n| - 1] && n[|n| - 1] in n;
      assert p[..|p| - 1] == d + "/" + n[..|n| - 1];
      LastSlashIs(d, n[..|n| - 1]);
    }
  }

  /** The directory of a file is what stands before its last component; the root's own files are in the root. */
  lemma DirOfJoined(d: Path, n: string)
    requires '/' !in n
    ensures DirOf(d + "/" + n) == if d == "" then "/" else d
  {
    LastSlashIs(d, n);
    assert (d + "/" + n)[..|d|] == d;
  }

  // ----------------------------------------------------------- the trap

  /** Owner and mode of a file the trap has to create. */
  const TRAP_META := Meta("0", "0", "600")

  function NodeMeta(d: Disk, p: Path): Meta {
    if p in d then d[p].meta else TRAP_META
  }

  /** The trap writes through no link: neither the target nor, for content, its directory. */
  predicate TrapRefuses(w: World, r: Manifest.Record) {
    (r.typ == "F" && (r.dst in w.links || DirOf(r.dst) in w.links)) || (r.typ == "A" && r.dst in w.links)
  }

  /** One manifest line: overwrite content in place, or delete. */
  function RestoredDisk(w: World, r: Manifest.Record): Disk {
    if TrapRefuses(w, r) then w.disk
    else if r.typ == "F" then
      if r.bak in w.backups then w.disk[r.dst := Node(w.backups[r.bak], NodeMeta(w.disk, r.dst))] else w.disk
    else if r.typ == "A" then w.disk - {r.dst}
    else w.disk
  }

  function RestoreRecord(w: World, r: Manifest.Record): World {
    w.(disk := RestoredDisk(w, r), refused := if TrapRefuses(w, r) then w.refused + [r.dst] else w.refused)
  }

  function RestoreFrom(w: World, rs: seq<Manifest.Record>): World
    decreases |rs|
  {
    if rs == [] then w else RestoreFrom(RestoreRecord(w, rs[0]), rs[1..])
  }

  /** restore_all: nothing once the commit marker exists. */
  function RestoreAll(w: World): World {
    if w.commit || w.manifest.None? then w
    else RestoreFrom(w, Manifest.Decode(w.manifest.value)).(restored := true)
  }

  /** The guard session ends, for whatever reason. */
  function EndGuard(w: World): World {
    if w.guard then RestoreAll(w).(guard := false) else w
  }

  /** The guard connection breaks, taking the guard session with it. */
  function Hangup(w: World): World {
    EndGuard(w).(conn := false)
  }

  // ----------------------------------------------------- remote commands

  datatype Command =
    | Inspect
    | Swap(path: Path, content: Bytes, stamp: Meta)
    | Unlink(path: Path)
    | SaveBackup(name: Path, content: Bytes)
    | AppendManifest(text: Bytes)
    | MarkCommit
    | RemoveTxDir

  /** How much of a command took effect when its reply is not success. */
  datatype Part = Nothing | Cut(n: nat) | Whole
  datatype Fate = Ok | Fail(part: Part) | Lose(part: Part)
  datatype Reply = Done | Exit | Lost

  /** One turn of the environment: the command's fate and what breaks meanwhile. */
  datatype Tick = Tick(fate: Fate, dies: bool, quits: bool, late: bool, verdict: Verdict)

  /** Nothing goes wrong during this turn. */
  predicate Smooth(t: Tick) {
    t.fate.Ok? && !t.dies && !t.quits
  }

  /** SwapFile looks for links before it writes. */
  predicate Refuses(w: World, c: Command) {
    c.Swap? && (c.path in w.links || DirOf(c.path) in w.links)
  }

  function Apply(w: World, c: Command): World {
    match c
    case Inspect => w
    case Swap(p, content, stamp) => w.(disk := w.disk[p := Node(content, stamp)])
    case Unlink(p) => w.(disk := w.disk - {p})
    case SaveBackup(name, content) => w.(backups := w.backups[name := content])
    case AppendManifest(text) => w.(manifest := Some((if w.manifest.Some? then w.manifest.value else "") + text))
    case MarkCommit => w.(commit := true)
    case RemoveTxDir =>
      w.(backups := map[], manifest := None, commit := false, restored := false, refused := [])
  }

  function Clip(text: Bytes, n: nat): Bytes {
    if n <= |text| then text[..n] else text
  }

  /** A `cat >` can stop half way; a rename, an unlink or a marker's creation cannot. */
  function ApplyPart(w: World, c: Command, part: Part): World {
    match part
    case Nothing => w
    case Whole => Apply(w, c)
    case Cut(n) =>
      match c
      case SaveBackup(name, content) => Apply(w, SaveBackup(name, Clip(content, n)))
      case AppendManifest(text) => Apply(w, AppendManifest(Clip(text, n)))
      case MarkCommit => Apply(w, c)
      case _ => w
  }

  /** A non-zero exit: a swap, an unlink or a removal did nothing, a `cat >` may have left something. */
  function ApplyFailed(w: World, c: Command, part: Part): World {
    if c.SaveBackup? || c.AppendManifest? || c.MarkCommit? then ApplyPart(w, c, part) else w
  }

  function Perform(w: World, c: Command, t: Tick): (World, Reply) {
    if !w.conn then (w, Lost)
    else if t.dies then (Hangup(w), Lost)
    else match t.fate
      case Ok => if Refuses(w, c) then (w, Exit) else (Apply(w, c), Done)
      case Fail(part) => (ApplyFailed(w, c, part), Exit)
      case Lose(part) => (if Refuses(w, c) then w else ApplyPart(w, c, part), Lost)
  }

  /** checkHealth's remote test; here alone the guard session may end while the connection lives. */
  function CheckGuard(w: World, t: Tick): (World, Reply) {
    if !w.conn then (w, Lost)
    else if t.dies then (Hangup(w), Lost)
    else if t.quits then (EndGuard(w), Exit)
    else match t.fate
      case Ok => (w, if w.guard && !w.restored then Done else Exit)
      case Fail(_) => (w, Exit)
      case Lose(_) => (w, Lost)
  }

  /** The health check at this moment finds everything in order. */
  predicate Alive(w: World, t: Tick) {
    CheckGuard(w, t).1 == Done
  }

  /** That is: connected, the guard session running, its trap unfired, and nothing going wrong meanwhile. */
  lemma AliveExactly(w: World, t: Tick)
    ensures Alive(w, t) <==> w.conn && w.guard && !w.restored && t.fate.Ok? && !t.dies && !t.quits
  {
  }

  /** A swap whose target or parent is a link changes nothing, and does not report success. */
  lemma LinkedSwapDoesNothing(w: World, path: Path, content: Bytes, stamp: Meta, t: Tick)
    requires path in w.links || DirOf(path) in w.links
    ensures var (v, r) := Perform(w, Swap(path, content, stamp), t);
            r != Done && (v == w || v == Hangup(w))
  {
    hide DirOf, Hangup;
  }

  /** A probe is its own connection: it works while the guard connection breaks. */
  function Ask(w: World, user: User, key: AuthKeys.Key, full: bool, t: Tick): World {
    var v := if t.dies && w.conn then Hangup(w) else w;
    v.(probes := v.probes + [Probe(user, key, full, t.verdict, v.disk)])
  }

  /** Closing the guard's stdin; a late guard outlives the wait. */
  function Close(w: World, t: Tick): World {
    if t.late then w else EndGuard(w)
  }

  /** The operator's own copy of what a later phase starts from. */
  function SaveSnapshot(w: World, user: User, content: Bytes, t: Tick): (World, Reply) {
    match t.fate
    case Ok => (w.(snapshots := w.snapshots[user := content]), Done)
    case Fail(Cut(n)) => (w.(snapshots := w.snapshots[user := Clip(content, n)]), Exit)
    case _ => (w, Exit)
  }

  /** A write on the operator's own disk. */
  function SaveLocally(w: World, user: User, content: Bytes, t: Tick): (World, Reply) {
    match t.fate
    case Ok => (w.(local := w.local[user := content]), Done)
    case Fail(Cut(n)) => (w.(local := w.local[user := Clip(content, n)]), Exit)
    case _ => (w, Exit)
  }

  /** Starting the guard session: on success, and only then, its trap is armed. */
  function StartGuard(w: World, t: Tick): (World, Reply) {
    if !w.conn then (w, Lost)
    else if t.dies then (Hangup(w), Lost)
    else match t.fate
      case Ok => (w.(guard := true), Done)
      case Fail(_) => (w, Exit)
      case Lose(_) => (w, Lost)
  }

  // ------------------------------------------------------------- the record

  /** Everything a client does that the environment answers. */
  datatype Event =
    | Remote(command: Command)
    | Health
    | Question(user: User, key: AuthKeys.Key, full: bool)
    | Keep(user: User, content: Bytes)
    | KeepSnapshot(user: User, content: Bytes)
    | Leave
    | Start
    | Hang

  datatype Call = Call(event: Event, tick: Tick, reply: Reply)

  /** What one event does under one turn of the environment. */
  function Turn(w: World, e: Event, t: Tick): (World, Reply) {
    match e
    case Remote(c) => Perform(w, c, t)
    case Health => CheckGuard(w, t)
    case Question(user, key, full) => (Ask(w, user, key, full, t), Done)
    case Keep(user, content) => SaveLocally(w, user, content, t)
    case KeepSnapshot(user, content) => SaveSnapshot(w, user, content, t)
    case Leave => (Close(w, t), Done)
    case Start => StartGuard(w, t)
    case Hang => (Hangup(w), Done)
  }

  /** An order to change one file, and the reply to it. */
  datatype Write = Write(content: Option<Bytes>, reply: Reply)

  function WriteTo(c: Call, path: Path): seq<Write> {
    if c.event.Remote? && c.event.command.Swap? && c.event.command.path == path then
      [Write(Some(c.event.command.content), c.reply)]
    else if c.event.Remote? && c.event.command.Unlink? && c.event.command.path == path then
      [Write(None, c.reply)]
    else []
  }

  /** All orders to change one file, in order. */
  function WritesOf(calls: seq<Call>, path: Path): seq<Write> {
    if calls == [] then []
    else WritesOf(calls[..|calls| - 1], path) + WriteTo(calls[|calls| - 1], path)
  }

  predicate Marking(c: Call) {
    c.event == Remote(MarkCommit)
  }

  /** The replies to every order to set the commit marker. */
  function MarksOf(calls: seq<Call>): seq<Reply> {
    if calls == [] then []
    else MarksOf(calls[..|calls| - 1])
         + if Marking(calls[|calls| - 1]) then [calls[|calls| - 1].reply] else []
  }

  /** The client has neither hung up nor removed the transaction directory. */
  predicate Together(calls: seq<Call>) {
    forall c | c in calls :: c.event != Hang && c.event != Remote(RemoveTxDir)
  }

  /** A marker ordered in this state under this turn of the environment is there afterwards. */
  predicate Lands(w: World, t: Tick) {
    w.conn && !t.dies && (t.fate.Ok? || t.fate.part != Nothing)
  }

  /** A file's change ordered in this state under this turn takes place, unless a link is in the way. */
  predicate Takes(w: World, t: Tick) {
    w.conn && !t.dies && (t.fate.Ok? || t.fate == Lose(Whole))
  }

  /** sshd's rule: the user is not denied and the key is in the file now on disk. */
  predicate Authorizes(c: AuthKeys.Codec, denied: set<User>, d: Disk, p: Path, user: User, key: AuthKeys.Key) {
    user !in denied && p in d && AuthKeys.Has(AuthKeys.Parse(c, d[p].content), key)
  }
}
