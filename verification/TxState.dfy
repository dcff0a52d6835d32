/** A transaction's plan and the invariants that tie the client's bookkeeping to the host. */
module TxState {
  import opened Basics
  import opened AuthKeys
  import opened World
  import opened WritePolicy
  import Manifest

  datatype Action = Adding | Removing

  datatype Op = Op(
    user: User, action: Action, spec: string, matcher: Matcher,
    key: Option<Key>, comment: Bytes, options: seq<Bytes>)

  function OpsOf(ops: seq<Op>, u: User, a: Action): (part: seq<Op>)
    ensures forall op :: op in part <==> op in ops && op.user == u && op.action == a
  {
    if ops == [] then []
    else
      var rest := OpsOf(ops[1..], u, a);
      assert forall op :: op in ops <==> op == ops[0] || op in ops[1..];
      if ops[0].user == u && ops[0].action == a then [ops[0]] + rest else rest
  }

  function GrantOf(op: Op): Grant {
    Grant(if op.key.Some? then op.key.value else "", op.comment, op.options)
  }

  function Grants(ops: seq<Op>): (gs: seq<Grant>)
    ensures |gs| == |ops|
    ensures forall g :: g in gs <==> exists op | op in ops :: GrantOf(op) == g
  {
    if ops == [] then []
    else
      assert forall op :: op in ops <==> op == ops[0] || op in ops[1..];
      [GrantOf(ops[0])] + Grants(ops[1..])
  }

  function Matchers(ops: seq<Op>): (ms: seq<Matcher>)
    ensures |ms| == |ops|
    ensures forall m :: m in ms <==> exists op | op in ops :: op.matcher == m
  {
    if ops == [] then []
    else
      assert forall op :: op in ops <==> op == ops[0] || op in ops[1..];
      [ops[0].matcher] + Matchers(ops[1..])
  }

  /** One user's file: what it held, what each phase makes of it, where its backup goes. */
  datatype Target = Target(
    path: Path, bak: Path, orig: Option<Bytes>, origMeta: Meta, stamp: Meta,
    doc0: Doc, doc1: Doc, doc2: Doc)

  function OrEmpty(content: Option<Bytes>): Bytes {
    if content.Some? then content.value else ""
  }

  function MakeTarget(c: Codec, ops: seq<Op>, u: User, path: Path, bak: Path, node: Option<Node>, stamp: Meta): Target {
    var orig := if node.Some? then Some(node.value.content) else None;
    var doc0 := Parse(c, OrEmpty(orig));
    var doc1 := AddAll(c, doc0, Grants(OpsOf(ops, u, Adding)));
    var doc2 := RemoveAll(c, doc1, Matchers(OpsOf(ops, u, Removing)));
    Target(path, bak, orig, if node.Some? then node.value.meta else stamp, stamp, doc0, doc1, doc2)
  }

  /** The content after the add phase, and after the remove phase. */
  function Mid(t: Target): Option<Bytes> {
    if t.doc1 == t.doc0 then t.orig else Some(Render(t.doc1))
  }

  function Fin(t: Target): Option<Bytes> {
    if t.doc2 == t.doc1 then Mid(t) else Some(Render(t.doc2))
  }

  /** The target's documents are what the requested operations make of its original. */
  predicate Planned(c: Codec, ops: seq<Op>, u: User, t: Target) {
    && t.doc0 == Parse(c, OrEmpty(t.orig))
    && t.doc1 == AddAll(c, t.doc0, Grants(OpsOf(ops, u, Adding)))
    && t.doc2 == RemoveAll(c, t.doc1, Matchers(OpsOf(ops, u, Removing)))
  }

  datatype Plan = Plan(ops: seq<Op>, ts: map<User, Target>, signers: set<Key>)

  /** Where a user's backup and its forensic snapshot go. */
  function BakName(txdir: Path, u: User): Path {
    txdir + "/backup/" + u
  }

  function SnapName(bak: Path): Path {
    bak + ".pre-remove"
  }

  ghost predicate Distinct(ts: map<User, Target>) {
    && (forall u, v | u in ts && v in ts && u != v :: ts[u].path != ts[v].path && ts[u].bak != ts[v].bak)
    && (forall u | u in ts :: Manifest.CleanField(ts[u].path) && Manifest.CleanField(ts[u].bak))
  }

  /** What the client knows about one file. */
  datatype View = View(doc: Doc, dirty: bool, manifested: bool, unconfirmed: bool)
  type Views = map<User, View>

  function RecordOf(t: Target): Manifest.Record {
    if t.orig.Some? then Manifest.Record("F", t.bak, t.path) else Manifest.Record("A", "-", t.path)
  }

  function Log(w: World): seq<Manifest.Record> {
    if w.manifest.Some? then Manifest.Decode(w.manifest.value) else []
  }

  /** The manifest so far, as text. */
  function LogText(w: World): Bytes {
    if w.manifest.Some? then w.manifest.value else ""
  }

  predicate BackupOk(t: Target, w: World) {
    t.orig.Some? ==> t.bak in w.backups && w.backups[t.bak] == t.orig.value
  }

  predicate LocalOk(t: Target, u: User, w: World) {
    t.orig.Some? ==> u in w.local && w.local[u] == t.orig.value
  }

  predicate Logs(p: Plan, w: World, r: Manifest.Record, u: User) {
    u in p.ts && r == RecordOf(p.ts[u]) && BackupOk(p.ts[u], w)
  }

  /** Every manifest line is some target's, and its backup is exactly the original. */
  ghost predicate LogGood(p: Plan, w: World) {
    forall r | r in Log(w) :: exists u :: Logs(p, w, r, u)
  }

  predicate NoLinks(t: Target, w: World) {
    t.path !in w.links && DirOf(t.path) !in w.links
  }

  /** The file holds one of its three contents under its old attributes or the swap's. */
  predicate Staged(t: Target, w: World) {
    && (At(w, t.path) == t.orig || At(w, t.path) == Mid(t) || At(w, t.path) == Fin(t))
    && (t.path in w.disk ==> w.disk[t.path].meta == t.stamp || (t.orig.Some? && w.disk[t.path].meta == t.origMeta))
  }

  ghost predicate CoreAt(t: Target, u: User, v: View, forgot: bool, w: World) {
    && NoLinks(t, w)
    && Staged(t, w)
    && (v.manifested ==> RecordOf(t) in Log(w) && BackupOk(t, w) && LocalOk(t, u, w))
    && (At(w, t.path) != t.orig ==> w.guard && v.manifested && (v.dirty || forgot))
  }

  /** sshd accepted this added key while every target held its add-phase content. */
  ghost predicate AddProven(p: Plan, op: Op, q: Probe) {
    && q.user == op.user && op.key == Some(q.key) && q.verdict == Accepted
    && q.full == (q.key in p.signers)
    && ShowsMid(p, q.seen)
  }

  ghost predicate ShowsMid(p: Plan, seen: Disk) {
    forall u | u in p.ts :: ContentIn(seen, p.ts[u].path) == Mid(p.ts[u])
  }

  ghost predicate ShowsFin(p: Plan, seen: Disk) {
    forall u | u in p.ts :: ContentIn(seen, p.ts[u].path) == Fin(p.ts[u])
  }

  ghost predicate AddsProven(p: Plan, qs: seq<Probe>) {
    forall op | op in p.ops && op.action == Adding :: exists q | q in qs :: AddProven(p, op, q)
  }

  /** No removal has reached any file yet. */
  ghost predicate BeforeRemovals(p: Plan, w: World) {
    forall u | u in p.ts :: At(w, p.ts[u].path) == p.ts[u].orig || At(w, p.ts[u].path) == Mid(p.ts[u])
  }

  /** The add phase arms this user's file. */
  predicate Adds(p: Plan, u: User) {
    OpsOf(p.ops, u, Adding) != []
  }

  /** Some operation on this user's file is more than a removal of what is not there. */
  predicate Concerned(p: Plan, u: User) {
    u in p.ts && (Adds(p, u) || p.ts[u].doc2 != p.ts[u].doc1)
  }

  /** A run that gets far enough keeps a copy of this user's file. */
  predicate Copied(p: Plan, u: User) {
    Concerned(p, u) && p.ts[u].orig.Some?
  }

  /** Only files that came to be armed, or nearly, are backed up on the operator's disk. */
  ghost predicate BackupsConcern(p: Plan, w: World) {
    forall u | u in w.local :: Copied(p, u)
  }

  /** The operator's disk holds the originals of the files the operations concern, whole, and nothing else. */
  ghost predicate CopiedExactly(p: Plan, w: World) {
    && w.local.Keys == (set u | u in p.ts && Copied(p, u))
    && forall u | u in p.ts && Copied(p, u) :: LocalOk(p.ts[u], u, w)
  }

  /** v's snapshot before the remove phase goes where u's backup is, which by then is armed. */
  predicate SnapshotHits(p: Plan, v: User, u: User)
    requires u in p.ts && v in p.ts
  {
    && p.ts[u].bak == SnapName(p.ts[v].bak)
    && p.ts[u].orig.Some? && Adds(p, u) && Adds(p, v) && p.ts[v].doc2 != p.ts[v].doc1
  }

  /** No snapshot overwrites a backup that the trap may need. */
  ghost predicate NamesApart(p: Plan) {
    forall u, v | u in p.ts && v in p.ts :: !SnapshotHits(p, v, u)
  }

  /** The write-ahead invariant, as long as there is no commit marker. */
  ghost predicate Core(p: Plan, vs: Views, forgotten: set<User>, w: World) {
    && vs.Keys == p.ts.Keys
    && Distinct(p.ts)
    && !w.commit
    && LogGood(p, w)
    && (forall u | u in p.ts :: CoreAt(p.ts[u], u, vs[u], u in forgotten, w))
    && (BeforeRemovals(p, w) || AddsProven(p, w.probes))
    && BackupsConcern(p, w)
  }

  ghost predicate AllOrig(p: Plan, w: World) {
    forall u | u in p.ts :: At(w, p.ts[u].path) == p.ts[u].orig
  }

  ghost predicate AllFin(p: Plan, w: World) {
    ShowsFin(p, w.disk)
  }

  /** If the client vanished now, the trap would put every original back. */
  ghost predicate Recoverable(p: Plan, w: World) {
    AllOrig(p, EndGuard(w))
  }

  /** Between steps of a healthy run: nothing is pending in the manifest and nothing was forgotten. */
  ghost predicate Steady(p: Plan, vs: Views, forgotten: set<User>, w: World) {
    && Core(p, vs, forgotten, w)
    && forgotten == {}
    && w.conn == w.guard && (w.guard ==> !w.restored)
    && Manifest.Whole(LogText(w))
    && (forall u | u in p.ts :: !vs[u].manifested ==> RecordOf(p.ts[u]) !in Log(w))
  }

  /** A file that is not at its original has its whole original on the operator's disk. */
  predicate Insured(t: Target, u: User, s: World) {
    At(s, t.path) != t.orig ==> LocalOk(t, u, s)
  }

  /** What every state before the commit marker satisfies. */
  ghost predicate Sane(p: Plan, s: World) {
    && !s.commit
    && Recoverable(p, s)
    && (forall u | u in p.ts :: Staged(p.ts[u], s) && Staged(p.ts[u], EndGuard(s)) && Insured(p.ts[u], u, s))
    && (BeforeRemovals(p, s) || AddsProven(p, s.probes))
  }

  /** All or nothing, once the guard session has ended. */
  ghost predicate Atomic(p: Plan, s: World) {
    AllOrig(p, EndGuard(s)) || AllFin(p, EndGuard(s))
  }

  // ---------------------------------------------------------------- progress

  /** Document, content and dirty mark of a file through k phases (0 none, 1 add, 2 add and remove). */
  function DocAt(t: Target, k: int): Doc {
    if k <= 0 then t.doc0 else if k == 1 then t.doc1 else t.doc2
  }

  function ContentAt(t: Target, k: int): Option<Bytes> {
    if k <= 0 then t.orig else if k == 1 then Mid(t) else Fin(t)
  }

  predicate TouchedAt(t: Target, k: int) {
    (k >= 1 && t.doc1 != t.doc0) || (k >= 2 && t.doc2 != t.doc1)
  }

  predicate InPhase(t: Target, v: View, w: World, k: int) {
    && v.doc == DocAt(t, k)
    && v.dirty == TouchedAt(t, k)
    && (w.guard ==> At(w, t.path) == ContentAt(t, k))
  }

  /** The users in `done` are through phase k+1, the others through phase k. */
  ghost predicate Progress(p: Plan, vs: Views, w: World, k: int, done: set<User>) {
    && vs.Keys == p.ts.Keys
    && forall u | u in p.ts :: InPhase(p.ts[u], vs[u], w, if u in done then k + 1 else k)
  }

  // --------------------------------------------------------- orders to write

  /** What has been ordered of a file through k phases, every order carried out. */
  function WritesAt(t: Target, k: int): seq<Write> {
    (if k >= 1 && t.doc1 != t.doc0 then [Write(Mid(t), Done)] else [])
    + (if k >= 2 && t.doc2 != t.doc1 then [Write(Fin(t), Done)] else [])
  }

  /** No order concerns a file that is nobody's. */
  ghost predicate NoForeignWrites(p: Plan, calls: seq<Call>) {
    forall x | (forall u | u in p.ts :: p.ts[u].path != x) :: WritesOf(calls, x) == []
  }

  predicate PacedAt(t: Target, v: View, calls: seq<Call>, k: int) {
    !v.unconfirmed && WritesOf(calls, t.path) == WritesAt(t, k)
  }

  /** Through k phases exactly the files those phases concern are armed. */
  predicate ArmedBy(p: Plan, u: User, v: View, k: int)
    requires u in p.ts
  {
    v.manifested <==> (k >= 1 && Adds(p, u)) || (k >= 2 && p.ts[u].doc2 != p.ts[u].doc1)
  }

  /** Every copy the operator keeps is of an original. */
  ghost predicate KeepsOriginal(p: Plan, calls: seq<Call>) {
    forall c | c in calls && c.event.Keep? :: c.event.user in p.ts && p.ts[c.event.user].orig == Some(c.event.content)
  }

  /** The record of a healthy run: exactly the orders of the phases so far. */
  ghost predicate Paced(p: Plan, vs: Views, calls: seq<Call>, k: int, done: set<User>) {
    && vs.Keys == p.ts.Keys && NoForeignWrites(p, calls) && MarksOf(calls) == []
    && (forall u | u in p.ts :: PacedAt(p.ts[u], vs[u], calls, if u in done then k + 1 else k))
    && forall u | u in p.ts :: ArmedBy(p, u, vs[u], if u in done then k + 1 else k)
  }

  /** What the client remembers of a file, given the orders and replies so far. */
  predicate Books(t: Target, keepDirty: bool, v: View, forgot: bool, ws: seq<Write>) {
    if ws == [] then !v.dirty && !v.unconfirmed && !forgot
    else if |ws| == 1 then
      && ((ws[0].content == Mid(t) && t.doc1 != t.doc0)
          || (ws[0].content == Fin(t) && t.doc1 == t.doc0 && t.doc2 != t.doc1))
      && v.dirty == (ws[0].reply != Exit) && v.unconfirmed == (ws[0].reply == Lost) && !forgot
    else
      && |ws| == 2 && t.doc1 != t.doc0 && t.doc2 != t.doc1
      && ws[0] == Write(Mid(t), Done) && ws[1].content == Fin(t)
      && v.dirty == (ws[1].reply != Exit || keepDirty) && v.unconfirmed == (ws[1].reply == Lost)
      && forgot == (ws[1].reply == Exit && !keepDirty)
  }

  ghost predicate Booked(p: Plan, keepDirty: bool, vs: Views, forgotten: set<User>, calls: seq<Call>) {
    && vs.Keys == p.ts.Keys && forgotten <= p.ts.Keys && NoForeignWrites(p, calls)
    && forall u | u in p.ts :: Books(p.ts[u], keepDirty, vs[u], u in forgotten, WritesOf(calls, p.ts[u].path))
  }

  /** The record of a whole commit: every order of both phases carried out, and the marker heard of. */
  ghost predicate Completed(p: Plan, calls: seq<Call>) {
    && NoForeignWrites(p, calls) && MarksOf(calls) == [Done]
    && forall u | u in p.ts :: WritesOf(calls, p.ts[u].path) == WritesAt(p.ts[u], 2)
  }

  /** A first order was carried out and a later one refused. */
  predicate Dropped(ws: seq<Write>) {
    exists i, j | 0 <= i < j < |ws| :: ws[i].reply == Done && ws[j].reply == Exit
  }

  ghost predicate SameOrders(before: seq<Call>, after: seq<Call>) {
    MarksOf(after) == MarksOf(before) && forall x :: WritesOf(after, x) == WritesOf(before, x)
  }

  ghost predicate OrdersElsewhere(path: Path, before: seq<Call>, after: seq<Call>) {
    MarksOf(after) == MarksOf(before) && forall x | x != path :: WritesOf(after, x) == WritesOf(before, x)
  }

  // -------------------------------------------------------------- enrichment

  /** A removal that named a fingerprint learns the full key of the first line it deleted. */
  function Enrich(op: Op, removed: seq<Line>): Op {
    if removed != [] && op.key.None? && removed[0].key.Some? then op.(key := removed[0].key) else op
  }

  function Enriched(c: Codec, d: Doc, rms: seq<Op>): (enriched: seq<Op>)
    ensures |enriched| == |rms|
    decreases |rms|
  {
    if rms == [] then []
    else [Enrich(rms[0], Removed(c, d.lines, rms[0].matcher))] + Enriched(c, Remove(c, d, rms[0].matcher), rms[1..])
  }

  /** What enrichRemovalKeys stores back: the last enriched copy with the same spec wins. */
  function WriteBack(op: Op, copies: seq<Op>): Op
    decreases |copies|
  {
    if op.action != Removing || copies == [] then op
    else
      var last := copies[|copies| - 1];
      if last.spec == op.spec && last.key.Some? then op.(key := last.key)
      else WriteBack(op, copies[..|copies| - 1])
  }

  function WrittenBack(op: Op, copies: map<User, seq<Op>>): Op {
    if op.key.None? && op.user in copies then WriteBack(op, copies[op.user]) else op
  }

  /** The removals of every user as the remove phase leaves them, keys filled in. */
  function Copies(c: Codec, p: Plan): map<User, seq<Op>> {
    map u | u in p.ts :: Enriched(c, p.ts[u].doc1, OpsOf(p.ops, u, Removing))
  }

  function AfterRemoval(c: Codec, p: Plan): seq<Op> {
    seq(|p.ops|, i requires 0 <= i < |p.ops| => WrittenBack(p.ops[i], Copies(c, p)))
  }

  /** A file whose mark a clean failure erased still holds its add-phase content. */
  ghost predicate Strays(p: Plan, vs: Views, forgotten: set<User>, w: World) {
    && (forgotten != {} ==> w.conn == w.guard)
    && (forall u, v | u in forgotten && v in forgotten :: u == v)
    && forall u | u in forgotten ::
         u in p.ts && u in vs && !vs[u].dirty && (w.guard ==> At(w, p.ts[u].path) == Mid(p.ts[u]))
  }

  // ------------------------------------------------------------------ probes

  /** The key is in the file's content. */
  predicate Holds(c: Codec, content: Option<Bytes>, k: Key) {
    Has(Parse(c, OrEmpty(content)), k)
  }

  /** sshd reads the targets and answers by them, at once and for everybody. */
  ghost predicate Answers(c: Codec, p: Plan, qs: seq<Probe>) {
    forall q | q in qs && q.user in p.ts :: q.verdict == Answer(c, p.ts[q.user].path, q)
  }

  ghost function Answer(c: Codec, path: Path, q: Probe): Verdict {
    if Holds(c, ContentIn(q.seen, path), q.key) then Accepted else Rejected
  }

  /** The added keys can be read off the add-phase files, the remaining ones off the final files. */
  ghost predicate AddsVisible(c: Codec, p: Plan) {
    forall op | op in p.ops && op.action == Adding ::
      op.user in p.ts && op.key.Some? && Holds(c, Mid(p.ts[op.user]), op.key.value)
  }

  ghost predicate FinalVisible(c: Codec, p: Plan) {
    forall u, k | u in p.ts && k in Keys(p.ts[u].doc2.lines) :: Holds(c, Fin(p.ts[u]), k)
  }

  /** What a removal was about is not in the final file. */
  ghost predicate Gone(c: Codec, p: Plan, op: Op) {
    op.user in p.ts &&
    match op.key
    case None => forall l | l in p.ts[op.user].doc2.lines :: !Matches(c, op.matcher, l)
    case Some(k) => !Holds(c, Fin(p.ts[op.user]), k)
  }

  ghost predicate AllGone(c: Codec, p: Plan, ops: seq<Op>) {
    forall op | op in ops && op.action == Removing :: Gone(c, p, op)
  }

  /** No changed file is left without a key. */
  ghost predicate Peopled(p: Plan) {
    forall u | u in p.ts && TouchedAt(p.ts[u], 2) :: Keys(p.ts[u].doc2.lines) != []
  }

  /** What an sshd that answers by the files would say to every question of a run without failures. */
  ghost predicate Expected(c: Codec, p: Plan) {
    AddsVisible(c, p) && FinalVisible(c, p) && AllGone(c, p, AfterRemoval(c, p))
  }

  /** How often one key is asked about at most. */
  function Most(attempts: int): nat {
    if attempts < 1 then 1 else attempts
  }

  /** The log grew by a run of tries for one key; only the last can hold a verdict. */
  ghost predicate Tries(before: seq<Probe>, after: seq<Probe>, user: User, key: Key, full: bool, attempts: int,
                        v: Verdict) {
    && before < after
    && |after| - |before| <= Most(attempts)
    && (forall i | |before| <= i < |after| :: after[i].user == user && after[i].key == key && after[i].full == full)
    && (forall i | |before| <= i < |after| - 1 :: after[i].verdict == Inconclusive)
    && after[|after| - 1].verdict == v
    && (v == Inconclusive ==> |after| - |before| == Most(attempts))
  }

  /** Every allowed try for this key was made, and none brought a verdict. */
  ghost predicate Exhausted(before: seq<Probe>, after: seq<Probe>, user: User, key: Key, attempts: int) {
    exists a, b | |before| <= a <= b <= |after| ::
      Tries(after[..a], after[..b], user, key, false, attempts, Inconclusive)
  }

  ghost predicate RejectedIn(before: seq<Probe>, after: seq<Probe>, user: User, key: Key) {
    exists i | |before| <= i < |after| :: after[i].user == user && after[i].key == key && after[i].verdict == Rejected
  }

  /** u was let in with a key of its final file, every file being final, before probe n. */
  ghost predicate LetIn(p: Plan, u: User, qs: seq<Probe>, n: nat) {
    u in p.ts && exists i | 0 <= i < n && i < |qs| ::
      qs[i].user == u && qs[i].verdict == Accepted && qs[i].key in Keys(p.ts[u].doc2.lines) && ShowsFin(p, qs[i].seen)
  }

  /** The positive control: u was let in, unless no key is left that could be. */
  ghost predicate Controlled(p: Plan, u: User, qs: seq<Probe>, n: nat) {
    u in p.ts && (Keys(p.ts[u].doc2.lines) != [] ==> LetIn(p, u, qs, n))
  }

  /** sshd refused this key with every file final, after the user's control. */
  ghost predicate RefusedAt(p: Plan, u: User, k: Key, qs: seq<Probe>, j: nat) {
    && j < |qs|
    && qs[j].user == u && qs[j].key == k && qs[j].verdict == Rejected && ShowsFin(p, qs[j].seen)
    && Controlled(p, u, qs, j)
  }

  /** A removal with key material was probed; any other is absent from the final document. */
  ghost predicate RemovalProven(c: Codec, p: Plan, op: Op, qs: seq<Probe>) {
    op.user in p.ts &&
    match op.key
    case None => forall l | l in p.ts[op.user].doc2.lines :: !Matches(c, op.matcher, l)
    case Some(k) => exists j: nat :: RefusedAt(p, op.user, k, qs, j)
  }

  ghost predicate RemovalsProven(c: Codec, p: Plan, ops: seq<Op>, qs: seq<Probe>) {
    forall op | op in ops && op.action == Removing :: RemovalProven(c, p, op, qs)
  }

  /** Every file the transaction changed lets its user in with a key it now holds. */
  ghost predicate AccessProven(p: Plan, qs: seq<Probe>) {
    forall u | u in p.ts && TouchedAt(p.ts[u], 2) :: LetIn(p, u, qs, |qs|)
  }

  /** What asking about a list of keys leaves behind: stop at an acceptance, remember a missing verdict. */
  ghost predicate AskedAround(before: seq<Probe>, after: seq<Probe>, user: User, keys: seq<Key>, attempts: int,
                              r: Option<bool>) {
    && before <= after && |after| - |before| <= |keys| * Most(attempts)
    && (forall i | |before| <= i < |after| :: after[i].user == user && after[i].key in keys && !after[i].full)
    && (forall i | |before| <= i < |after| - 1 :: after[i].verdict != Accepted)
    && (r == Some(true) <==> |before| < |after| && after[|after| - 1].verdict == Accepted)
    && (r == Some(false) ==> forall k | k in keys :: RejectedIn(before, after, user, k))
    && (r == None ==> exists k | k in keys :: Exhausted(before, after, user, k, attempts))
  }
}
