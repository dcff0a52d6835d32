/** How a run ends: the commit marker and the cleanup, or the explicit revert. */
module Ending {
  import opened Basics
  import opened World
  import opened WritePolicy
  import opened TxState
  import opened TxSteps
  import opened TrapLaws
  import opened Host
  import opened Ledger
  import opened Probing

  /** Forgotten files kept their add-phase content, all others are back. */
  ghost predicate LeftAt(p: Plan, forgotten: set<User>, w: World) {
    forall u | u in p.ts :: At(w, p.ts[u].path) == if u in forgotten then Mid(p.ts[u]) else p.ts[u].orig
  }

  ghost predicate OrigOrFin(p: Plan, w: World) {
    forall u | u in p.ts :: At(w, p.ts[u].path) == p.ts[u].orig || At(w, p.ts[u].path) == Fin(p.ts[u])
  }

  /** Every file is in one of its stages, and one that is not at its original has a whole copy. */
  ghost predicate Placed(p: Plan, w: World) {
    forall u | u in p.ts :: Staged(p.ts[u], w) && Insured(p.ts[u], u, w)
  }

  /** What every state of a whole run satisfies, the two known exceptions included.
      Without a marker a crash now restores everything, until the cleanup is complete;
      under a marker the files are final, or reverted but for the forgotten ones,
      or, if the client never learnt of its marker, in the middle of a revert. */
  ghost predicate Sound(p: Plan, forgotten: set<User>, lost: bool, s: World) {
    && (forall u | u in p.ts :: Staged(p.ts[u], s) && Staged(p.ts[u], EndGuard(s)) && Insured(p.ts[u], u, s))
    && (BeforeRemovals(p, s) || AddsProven(p, s.probes))
    && (!s.commit ==> Recoverable(p, s) || (s.manifest.None? && AllFin(p, s)))
    && (s.commit ==> AllFin(p, s) || LeftAt(p, forgotten, s) || (lost && OrigOrFin(p, s)))
  }

  lemma SaneIsSound(p: Plan, forgotten: set<User>, lost: bool, s: World)
    requires Sane(p, s)
    ensures Sound(p, forgotten, lost, s)
  {
    hide Recoverable, Staged, BeforeRemovals, AddsProven;
  }

  /** Without the exceptions: all or nothing. */
  lemma SoundIsAtomic(p: Plan, s: World)
    requires Sound(p, {}, false, s)
    ensures Atomic(p, s)
  {
    hide Staged, BeforeRemovals, AddsProven, RestoreFrom;
  }

  // ---------------------------------------------------------------- commit

  /** Final and disarmed. */
  ghost predicate Settled(p: Plan, w: World) {
    && (w.commit || w.manifest.None?)
    && AllFin(p, w) && AddsProven(p, w.probes)
    && Placed(p, w)
  }

  /** A disarmed trap leaves every file in its stage. */
  lemma StagedDisarmed(p: Plan, w: World)
    requires w.commit || w.manifest.None?
    requires Placed(p, w)
    ensures Placed(p, EndGuard(w))
  {
    DisarmedTrap(w);
    hide EndGuard, Mid, Fin;
  }

  lemma SettledIsSound(p: Plan, forgotten: set<User>, lost: bool, w: World)
    requires Settled(p, w)
    ensures Sound(p, forgotten, lost, w)
  {
    StagedDisarmed(p, w);
    hide Staged, AddsProven, EndGuard;
  }

  lemma SettledStays(p: Plan, w: World, v: World)
    requires Settled(p, w) && v.disk == w.disk && v.probes == w.probes && v.local == w.local
    requires v.commit || v.manifest.None?
    ensures Settled(p, v)
  {
    hide AddsProven, Mid, Fin;
  }

  /** A disarmed trap does nothing. */
  lemma DisarmedTrap(w: World)
    requires w.commit || w.manifest.None?
    ensures EndGuard(w) == w.(guard := false) && Hangup(w) == w.(guard := false, conn := false)
  {
  }

  lemma StepCleanup(p: Plan, w: World, t: Tick)
    requires Settled(p, w)
    ensures Settled(p, Perform(w, RemoveTxDir, t).0) && Settled(p, Close(w, t)) && Settled(p, Hangup(w))
    ensures Perform(w, RemoveTxDir, t).0.probes == w.probes
    ensures Close(w, t).probes == w.probes && Hangup(w).probes == w.probes
  {
    DisarmedTrap(w);
    hide EndGuard, Settled, Hangup;
    CleanupFrame(w, t);
    SettledStays(p, w, Perform(w, RemoveTxDir, t).0);
    SettledStays(p, w, Close(w, t));
    SettledStays(p, w, Hangup(w));
  }

  lemma CloseKeepsConnection(w: World, t: Tick)
    ensures Close(w, t).conn == w.conn
  {
    RestoreAllFrame(w);
  }

  lemma CalmRemoval(w: World, t: Tick)
    ensures var v := Perform(w, RemoveTxDir, t).0; Smooth(t) && w.conn ==> v.manifest.None? && v.backups == map[]
  {
  }

  lemma CleanupFrame(w: World, t: Tick)
    requires (w.commit || w.manifest.None?)
    ensures var v := Perform(w, RemoveTxDir, t).0;
            v.disk == w.disk && v.probes == w.probes && v.local == w.local && (v.commit || v.manifest.None?)
  {
    DisarmedTrap(w);
    hide EndGuard, Hangup;
  }

  // ---------------------------------------------------- the state of an abort

  /** Where an abort starts and what its reverts keep. */
  ghost predicate Fallen(p: Plan, vs: Views, forgotten: set<User>, w: World) {
    && (!w.commit ==> Core(p, vs, forgotten, w) && Strays(p, vs, forgotten, w))
    && (w.commit ==> forgotten == {} && Overtaken(p, vs, w))
  }

  /** The marker is there and the client does not know. */
  ghost predicate Overtaken(p: Plan, vs: Views, w: World) {
    && vs.Keys == p.ts.Keys && Distinct(p.ts) && AddsProven(p, w.probes)
    && forall u | u in p.ts :: OvertakenAt(p.ts[u], u, vs[u], w)
  }

  ghost predicate OvertakenAt(t: Target, u: User, v: View, w: World) {
    && NoLinks(t, w) && Staged(t, w) && Insured(t, u, w)
    && (At(w, t.path) == t.orig || (At(w, t.path) == Fin(t) && v.dirty))
  }

  lemma OvertakenIsSound(p: Plan, vs: Views, w: World)
    requires Overtaken(p, vs, w) && w.commit
    ensures Sound(p, {}, true, w)
  {
    StagedDisarmed(p, w);
    hide Fin, Mid, NoLinks, AddsProven, EndGuard;
  }

  lemma FallenIsSound(p: Plan, vs: Views, forgotten: set<User>, lost: bool, w: World)
    requires Fallen(p, vs, forgotten, w) && (w.commit ==> lost)
    ensures Sound(p, forgotten, lost, w)
  {
    hide Core, Strays, Overtaken, Sound, Sane;
    if w.commit {
      OvertakenIsSound(p, vs, w);
    } else {
      CoreIsSane(p, vs, forgotten, w);
      SaneIsSound(p, forgotten, lost, w);
    }
  }

  // ------------------------------------------------------- the commit marker

  lemma MarkFrame(w: World, t: Tick)
    ensures var (v, r) := Perform(w, MarkCommit, t);
            && (v == w || v == w.(commit := true) || (v == Hangup(w) && r == Lost))
            && (r == Done ==> w.conn && v == w.(commit := true))
            && (v != w && v == w.(commit := true) ==> w.conn)
            && (Smooth(t) && w.conn ==> r == Done)
  {
    hide Hangup;
  }

  lemma FinalIsSettled(p: Plan, vs: Views, w: World)
    requires Steady(p, vs, {}, w) && AllFin(p, w) && AddsProven(p, w.probes)
    ensures Settled(p, w.(commit := true))
  {
    hide Distinct, LogGood, Log, AddsProven, BeforeRemovals, Mid, Fin;
  }

  lemma FinalIsOvertaken(p: Plan, vs: Views, w: World)
    requires Steady(p, vs, {}, w) && AllFin(p, w) && AddsProven(p, w.probes)
    ensures Overtaken(p, vs, w.(commit := true))
  {
    hide Distinct, LogGood, Log, AddsProven, BeforeRemovals, Mid, Fin;
  }

  lemma StepMark(p: Plan, vs: Views, w: World, t: Tick)
    requires Steady(p, vs, {}, w) && (w.guard ==> AllFin(p, w) && AddsProven(p, w.probes))
    ensures var (v, r) := Perform(w, MarkCommit, t);
            && v.probes == w.probes
            && (r == Done ==> w.guard && Settled(p, v))
            && (r != Done ==> Fallen(p, vs, {}, v)) && (Smooth(t) && w.conn ==> r == Done)
            && (v.commit ==> AllFin(p, v))
  {
    var (v, r) := Perform(w, MarkCommit, t);
    hide Perform, Core, AllFin, AddsProven, Hangup, Overtaken, Settled;
    MarkFrame(w, t);
    SteadyIsCore(p, vs, {}, w);
    UnmarkedCore(p, vs, w);
    HangupKeeps(p, vs, {}, w);
    HangupFrame(w);
    UnmarkedCore(p, vs, Hangup(w));
    if v == w.(commit := true) && v != w {
      FinalIsSettled(p, vs, w);
      FinalIsOvertaken(p, vs, w);
      MarkKeepsFiles(p, w);
    }
  }

  lemma MarkKeepsFiles(p: Plan, w: World)
    requires AllFin(p, w)
    ensures AllFin(p, w.(commit := true))
  {
  }

  lemma UnmarkedCore(p: Plan, vs: Views, w: World)
    requires Core(p, vs, {}, w)
    ensures !w.commit && Fallen(p, vs, {}, w)
  {
  }

  /** The trace a healthy run leaves, as the whole run sees it. */
  lemma TraceIsSound(h: Host, p: Plan, forgotten: set<User>, lost: bool)
    requires forall s | s in h.trace :: Sane(p, s)
    ensures forall s | s in h.trace :: Sound(p, forgotten, lost, s)
  {
    hide Sane, Sound;
    forall s | s in h.trace
      ensures Sound(p, forgotten, lost, s)
    {
      SaneIsSound(p, forgotten, lost, s);
    }
  }

  /** The host once the marker is known to be there. */
  ghost predicate Over(h: Host, p: Plan)
    reads h
  {
    && h.Valid() && (forall s | s in h.trace :: Sound(p, {}, false, s)) && Settled(p, h.w)
    && KeepsOriginal(p, h.calls)
  }

  /** From the n-th event on, which the client stayed up to, every file is final. */
  ghost predicate FinalSince(h: Host, p: Plan, n: nat)
    reads h
  {
    n <= |h.calls| && Together(h.calls[..n]) && forall i | n <= i < |h.trace| :: AllFin(p, h.trace[i])
  }

  /** Another moment with every file final. */
  lemma StillFinal(p: Plan, w: World, n: nat, calls: seq<Call>, trace: seq<World>, more: seq<Call>, longer: seq<World>)
    requires n <= |calls| && Together(calls[..n]) && (forall i | n <= i < |trace| :: AllFin(p, trace[i]))
    requires calls <= more && longer == trace + [w] && Settled(p, w)
    ensures n <= |more| && Together(more[..n]) && forall i | n <= i < |longer| :: AllFin(p, longer[i])
  {
    hide AllFin, Placed, AddsProven, Together;
    assert more[..n] == calls[..n];
  }

  /** The first such moment. */
  lemma NowFinal(h: Host, p: Plan)
    requires h.Valid() && Settled(p, h.w) && Together(h.calls)
    ensures FinalSince(h, p, |h.calls|)
  {
    hide Turn, AllSmooth, Together, AddsProven, Placed, AllFin;
    assert h.calls[..|h.calls|] == h.calls;
  }

  /** The host during an abort. */
  ghost predicate Falling(h: Host, p: Plan, vs: Views, forgotten: set<User>, lost: bool)
    reads h
  {
    && h.Valid() && (forall s | s in h.trace :: Sound(p, forgotten, lost, s))
    && Fallen(p, vs, forgotten, h.w) && (h.w.commit ==> lost)
    && Together(h.calls) && KeepsOriginal(p, h.calls)
  }

  /** Marks the transaction committed. A reply other than success hides whether the mark is there. */
  method MarkCommitted(h: Host, ghost p: Plan, ghost vs: Views) returns (ok: bool, ghost lost: bool)
    requires Good(h, p, vs) && (h.w.guard ==> AllFin(p, h.w) && AddsProven(p, h.w.probes))
    modifies h
    ensures SameRecords(old(h.w), h.w)
    ensures ok ==> Over(h, p) && old(h.w.guard) && FinalSince(h, p, |h.calls|)
    ensures lost <==> !ok && h.w.commit
    ensures lost ==> AllFin(p, h.w)
    ensures !ok ==> Falling(h, p, vs, {}, lost)
    ensures h.calm ==> old(h.calm) && (old(h.w.conn) ==> ok)
    ensures MarkedNow(old(h.calls), h.calls, ok)
  {
    hide Sane, Sound, Steady, Fallen, Settled, AllFin, AddsProven, Perform, Close, Hangup, Logged, WritesOf, MarksOf,
         AllSmooth;
    StepMark(p, vs, h.w, h.Next(Remote(MarkCommit)));
    RecordsKept(h.w, MarkCommit, h.Next(Remote(MarkCommit)));
    ghost var calls, t := h.calls, h.Next(Remote(MarkCommit));
    var r := h.Issue(MarkCommit);
    ok := r == Done;
    lost := h.w.commit && !ok;
    TraceBefore(h, p, lost, if |h.trace| > 0 then h.trace[..|h.trace| - 1] else []);
    if ok {
      SettledIsSound(p, {}, false, h.w);
      NowFinal(h, p);
    } else {
      FallenIsSound(p, vs, {}, lost, h.w);
    }
  }

  lemma TraceBefore(h: Host, p: Plan, lost: bool, before: seq<World>)
    requires forall s | s in before :: Sane(p, s)
    ensures forall s | s in before :: Sound(p, {}, lost, s)
  {
    hide Sane, Sound;
    forall s | s in before
      ensures Sound(p, {}, lost, s)
    {
      SaneIsSound(p, {}, lost, s);
    }
  }

  /** The guard's stdin is closed and the transaction directory removed; failures no longer matter. */
  method CleanUp(h: Host, ghost p: Plan, ghost n: nat)
    requires Over(h, p) && FinalSince(h, p, n)
    modifies h
    ensures Over(h, p) && FinalSince(h, p, n) && SameRecords(old(h.w), h.w)
    ensures WentOn(old(h.calls), old(h.trace), h) && SameOrders(old(h.calls), h.calls)
    ensures |h.calls| == old(|h.calls|) + 2 && h.calls[|h.calls| - 2].event == Leave
    ensures h.calls[|h.calls| - 1].event == Remote(RemoveTxDir)
    ensures h.calm ==> old(h.calm) && (old(h.w.conn) ==> h.w.manifest.None? && h.w.backups == map[])
  {
    hide Sound, Settled, Perform, Close, Hangup, Logged, SameOrders, AllFin, Together;
    StepCleanup(p, h.w, h.Next(Leave));
    RecordsKept(h.w, RemoveTxDir, h.Next(Leave));
    CloseKeepsConnection(h.w, h.Next(Leave));
    QuietCall(h.calls, Call(Leave, h.Next(Leave), Done));
    ghost var calls, trace := h.calls, h.trace;
    h.CloseGuard();
    StillFinal(p, h.w, n, calls, trace, h.calls, h.trace);
    SettledIsSound(p, {}, false, h.w);
    StepCleanup(p, h.w, h.Next(Remote(RemoveTxDir)));
    RecordsKept(h.w, RemoveTxDir, h.Next(Remote(RemoveTxDir)));
    CalmRemoval(h.w, h.Next(Remote(RemoveTxDir)));
    ghost var mid, later, t := h.calls, h.trace, h.Next(Remote(RemoveTxDir));
    var r := h.Issue(RemoveTxDir);
    StillFinal(p, h.w, n, mid, later, h.calls, h.trace);
    QuietCall(mid, Call(Remote(RemoveTxDir), t, r));
    SameOrdersChain(calls, mid, h.calls);
    SettledIsSound(p, {}, false, h.w);
  }

  // -------------------------------------------------------------- the revert

  /** The write that puts a target back: its old content, or its deletion. */
  function Undo(path: Path, orig: Option<Bytes>, stamp: Meta): Command {
    match orig
    case Some(content) => Swap(path, content, stamp)
    case None => Unlink(path)
  }

  /** Originals that are in place stay in place. */
  ghost predicate KeepsOriginals(p: Plan, before: World, after: World) {
    forall x | x in p.ts && At(before, p.ts[x].path) == p.ts[x].orig :: At(after, p.ts[x].path) == p.ts[x].orig
  }

  lemma UndoHarmless(p: Plan, vs: Views, forgotten: set<User>, w: World, u: User)
    requires Core(p, vs, forgotten, w) && u in p.ts
    ensures Harmless(p, vs, forgotten, w, Undo(p.ts[u].path, p.ts[u].orig, p.ts[u].stamp))
  {
    hide Core, Harmless;
    if p.ts[u].orig.Some? {
      OriginalMayBeWritten(p, vs, forgotten, w, u);
      WriteHarmless(p, vs, forgotten, w, u, p.ts[u].orig.value);
    } else {
      UnlinkHarmless(p, vs, forgotten, w, u);
    }
  }

  lemma OriginalMayBeWritten(p: Plan, vs: Views, forgotten: set<User>, w: World, u: User)
    requires Core(p, vs, forgotten, w) && u in p.ts && p.ts[u].orig.Some?
    ensures MayWrite(p, vs, w, u, p.ts[u].orig.value)
  {
  }

  /** All a revert's write can do to the world. */
  predicate UndoEffect(w: World, v: World, path: Path, orig: Option<Bytes>, stamp: Meta) {
    || v == w
    || v == Hangup(w)
    || v == w.(disk := if orig.Some? then w.disk[path := Node(orig.value, stamp)] else w.disk - {path})
  }

  lemma UndoFrame(w: World, path: Path, orig: Option<Bytes>, stamp: Meta, t: Tick)
    ensures var (v, r) := Perform(w, Undo(path, orig, stamp), t);
            && UndoEffect(w, v, path, orig, stamp)
            && (r == Done ==> At(v, path) == orig && v.conn)
            && (Smooth(t) && w.conn && path !in w.links && DirOf(path) !in w.links ==> r == Done)
  {
    hide Hangup;
  }

  lemma InspectFrame(w: World, t: Tick)
    ensures var (v, r) := Perform(w, Inspect, t);
            (v == w || v == Hangup(w)) && (r == Done ==> v == w) && (Smooth(t) && w.conn ==> r == Done)
  {
    hide Hangup;
  }

  /** Hanging up brings everything back, or nothing under a marker. */
  lemma HangupKeepsOriginals(p: Plan, vs: Views, forgotten: set<User>, w: World)
    requires Fallen(p, vs, forgotten, w)
    ensures KeepsOriginals(p, w, Hangup(w)) && Fallen(p, vs, forgotten, Hangup(w)) && Hangup(w).commit == w.commit
    ensures !w.commit ==> AllOrig(p, Hangup(w))
    ensures w.commit ==> OrigOrFin(p, Hangup(w))
  {
    HangupFrame(w);
    if w.commit {
      DisarmedTrap(w);
      hide Hangup;
      OvertakenMoves(p, vs, w, Hangup(w));
    } else {
      hide Hangup, Core;
      HangupKeeps(p, vs, forgotten, w);
    }
  }

  lemma OvertakenMoves(p: Plan, vs: Views, w: World, v: World)
    requires Overtaken(p, vs, w) && v.disk == w.disk && v.links == w.links && v.probes == w.probes && v.local == w.local
    ensures Overtaken(p, vs, v) && KeepsOriginals(p, w, v) && OrigOrFin(p, v)
  {
    hide Mid, Fin, AddsProven, DirOf;
  }

  lemma OtherPathsKept(p: Plan, w: World, u: User, disk: Disk)
    requires Distinct(p.ts) && u in p.ts
    requires forall x | x != p.ts[u].path :: ContentIn(disk, x) == ContentIn(w.disk, x)
    requires ContentIn(disk, p.ts[u].path) == p.ts[u].orig
    ensures KeepsOriginals(p, w, w.(disk := disk))
    ensures forall x | x in p.ts && x != u :: At(w.(disk := disk), p.ts[x].path) == At(w, p.ts[x].path)
  {
    hide ContentIn;
  }

  function UndoneDisk(d: Disk, path: Path, orig: Option<Bytes>, stamp: Meta): (after: Disk)
    ensures ContentIn(after, path) == orig
    ensures forall x | x != path :: ContentIn(after, x) == ContentIn(d, x)
    ensures forall x | x != path :: NodeAt(after, x) == NodeAt(d, x)
    ensures path in after ==> after[path].meta == stamp
  {
    if orig.Some? then d[path := Node(orig.value, stamp)] else d - {path}
  }

  lemma OvertakenUndone(p: Plan, vs: Views, w: World, u: User)
    requires Overtaken(p, vs, w) && u in p.ts
    ensures var v := w.(disk := UndoneDisk(w.disk, p.ts[u].path, p.ts[u].orig, p.ts[u].stamp));
            Overtaken(p, vs, v) && KeepsOriginals(p, w, v)
  {
    hide AddsProven, DirOf, UndoneDisk, Mid, Fin;
    var v := w.(disk := UndoneDisk(w.disk, p.ts[u].path, p.ts[u].orig, p.ts[u].stamp));
    OtherPathsKept(p, w, u, v.disk);
    forall x | x in p.ts
      ensures OvertakenAt(p.ts[x], x, vs[x], v)
    {
      if x != u {
        assert p.ts[x].path != p.ts[u].path;
        assert NodeAt(v.disk, p.ts[x].path) == NodeAt(w.disk, p.ts[x].path);
      }
    }
  }

  lemma StraysUndone(p: Plan, vs: Views, forgotten: set<User>, w: World, u: User)
    requires Distinct(p.ts) && u in p.ts && u in vs && vs[u].dirty && Strays(p, vs, forgotten, w)
    ensures var v := w.(disk := UndoneDisk(w.disk, p.ts[u].path, p.ts[u].orig, p.ts[u].stamp));
            Strays(p, vs, forgotten, v) && KeepsOriginals(p, w, v)
  {
    hide UndoneDisk, Mid;
    var v := w.(disk := UndoneDisk(w.disk, p.ts[u].path, p.ts[u].orig, p.ts[u].stamp));
    OtherPathsKept(p, w, u, v.disk);
  }

  lemma StepUndoMarked(p: Plan, vs: Views, w: World, u: User, v: World)
    requires Overtaken(p, vs, w) && w.commit && u in p.ts
    requires UndoEffect(w, v, p.ts[u].path, p.ts[u].orig, p.ts[u].stamp)
    ensures Overtaken(p, vs, v) && v.commit && KeepsOriginals(p, w, v)
  {
    DisarmedTrap(w);
    hide Hangup, EndGuard, Overtaken, KeepsOriginals;
    OvertakenUndone(p, vs, w, u);
    OvertakenMoves(p, vs, w, w);
    OvertakenMoves(p, vs, w, Hangup(w));
  }

  lemma StepUndoUnmarked(p: Plan, vs: Views, forgotten: set<User>, w: World, u: User, v: World)
    requires Core(p, vs, forgotten, w) && Strays(p, vs, forgotten, w) && u in p.ts && u in vs && vs[u].dirty
    requires UndoEffect(w, v, p.ts[u].path, p.ts[u].orig, p.ts[u].stamp)
    ensures Strays(p, vs, forgotten, v) && v.commit == w.commit && KeepsOriginals(p, w, v)
  {
    CoreIsDistinct(p, vs, forgotten, w);
    hide Hangup, Core, Mid, Distinct;
    HangupFrame(w);
    HangupKeeps(p, vs, forgotten, w);
    StraysUndone(p, vs, forgotten, w, u);
  }

  /** A revert's write, whatever its fate, keeps the abort's invariant; success means the original is back. */
  lemma StepUndo(p: Plan, vs: Views, forgotten: set<User>, w: World, u: User, t: Tick)
    requires Fallen(p, vs, forgotten, w) && u in p.ts && u in vs && vs[u].dirty
    ensures var (v, r) := Perform(w, Undo(p.ts[u].path, p.ts[u].orig, p.ts[u].stamp), t);
            && Fallen(p, vs, forgotten, v) && v.commit == w.commit && KeepsOriginals(p, w, v)
            && (r == Done ==> At(v, p.ts[u].path) == p.ts[u].orig && v.conn)
            && (Smooth(t) && w.conn ==> r == Done)
  {
    hide Perform, Core, Hangup, Strays, Overtaken, At, UndoEffect, KeepsOriginals, Undo, DirOf;
    NoLinkInTheWay(p, vs, forgotten, w, u);
    var c := Undo(p.ts[u].path, p.ts[u].orig, p.ts[u].stamp);
    var (v, r) := Perform(w, c, t);
    UndoFrame(w, p.ts[u].path, p.ts[u].orig, p.ts[u].stamp, t);
    if w.commit {
      StepUndoMarked(p, vs, w, u, v);
    } else {
      UndoHarmless(p, vs, forgotten, w, u);
      PerformKeeps(p, vs, forgotten, w, c, t);
      StepUndoUnmarked(p, vs, forgotten, w, u, v);
    }
  }

  lemma NoLinkInTheWay(p: Plan, vs: Views, forgotten: set<User>, w: World, u: User)
    requires Fallen(p, vs, forgotten, w) && u in p.ts
    ensures p.ts[u].path !in w.links && DirOf(p.ts[u].path) !in w.links
  {
    hide DirOf, Staged, LogGood, AddsProven, BeforeRemovals, Distinct;
  }

  lemma CoreIsDistinct(p: Plan, vs: Views, forgotten: set<User>, w: World)
    requires Core(p, vs, forgotten, w)
    ensures Distinct(p.ts)
  {
  }

  lemma StepReadBack(p: Plan, vs: Views, forgotten: set<User>, w: World, t: Tick)
    requires Fallen(p, vs, forgotten, w)
    ensures var (v, r) := Perform(w, Inspect, t);
            && Fallen(p, vs, forgotten, v) && v.commit == w.commit && KeepsOriginals(p, w, v)
            && (r == Done ==> v == w) && (Smooth(t) && w.conn ==> r == Done)
  {
    hide Perform, Fallen, Hangup;
    InspectFrame(w, t);
    HangupKeepsOriginals(p, vs, forgotten, w);
  }

  /** The probes and the operator's own backups are as they were. */
  predicate SameRecords(before: World, after: World) {
    after.probes == before.probes && after.local == before.local
  }

  /** No command asks sshd anything or touches the operator's disk. */
  lemma RecordsKept(w: World, c: Command, t: Tick)
    ensures SameRecords(w, Perform(w, c, t).0)
    ensures SameRecords(w, Close(w, t)) && SameRecords(w, Hangup(w))
  {
    EndRecords(w);
    hide Hangup, EndGuard, Refuses, Clip;
    hide ApplyPart, Apply;
    PartRecords(w, c, Whole);
    if t.fate.Fail? || t.fate.Lose? {
      PartRecords(w, c, t.fate.part);
    }
  }

  lemma EndRecords(w: World)
    ensures SameRecords(w, EndGuard(w)) && SameRecords(w, Hangup(w))
  {
    RestoreAllFrame(w);
  }

  lemma PartRecords(w: World, c: Command, part: Part)
    ensures SameRecords(w, Apply(w, c)) && SameRecords(w, ApplyPart(w, c, part))
  {
    hide Clip;
  }

  function UndoOf(t: Target): Command {
    Undo(t.path, t.orig, t.stamp)
  }

  /** What an abort may do: put a marked file back, look, and in the end disarm the trap and leave. */
  ghost predicate Reverting(p: Plan, vs: Views, e: Event) {
    || e == Remote(Inspect) || e == Remote(MarkCommit) || e == Leave || e == Hang
    || exists u :: u in p.ts && u in vs && vs[u].dirty && e == Remote(UndoOf(p.ts[u]))
  }

  /** From the n-th event on the client only reverts. */
  ghost predicate RevertsFrom(p: Plan, vs: Views, n: nat, calls: seq<Call>) {
    n <= |calls| && forall i | n <= i < |calls| :: Reverting(p, vs, calls[i].event)
  }

  ghost predicate SmoothFrom(n: nat, calls: seq<Call>) {
    forall i | n <= i < |calls| :: Smooth(calls[i].tick)
  }

  ghost predicate DoneFrom(n: nat, calls: seq<Call>) {
    forall i | n <= i < |calls| && Ordering(calls[i].event) && !Marking(calls[i]) :: calls[i].reply == Done
  }

  /** The order to put this file back was given. */
  ghost predicate Attempted(t: Target, n: nat, calls: seq<Call>) {
    exists i | n <= i < |calls| :: calls[i].event == Remote(UndoOf(t))
  }

  /** The record went on from an earlier moment. */
  ghost predicate WentOn(calls0: seq<Call>, trace0: seq<World>, h: Host)
    reads h
  {
    calls0 <= h.calls && trace0 <= h.trace
  }

  lemma OneMoreEvent(p: Plan, vs: Views, n: nat, calls: seq<Call>, c: Call)
    requires RevertsFrom(p, vs, n, calls) && Reverting(p, vs, c.event)
    ensures RevertsFrom(p, vs, n, calls + [c])
    ensures SmoothFrom(n, calls + [c]) ==> SmoothFrom(n, calls) && Smooth(c.tick)
    ensures DoneFrom(n, calls) && (c.reply == Done || !Ordering(c.event) || Marking(c)) ==> DoneFrom(n, calls + [c])
  {
    hide Reverting;
    if SmoothFrom(n, calls + [c]) {
      forall i | n <= i < |calls|
        ensures Smooth(calls[i].tick)
      {
        assert (calls + [c])[i] == calls[i];
      }
      assert (calls + [c])[|calls|] == c;
    }
  }

  lemma MoreEvents(p: Plan, vs: Views, n: nat, m: nat, calls: seq<Call>, more: seq<Call>)
    requires RevertsFrom(p, vs, n, calls) && m == |calls| && calls <= more && RevertsFrom(p, vs, m, more)
    ensures RevertsFrom(p, vs, n, more)
    ensures SmoothFrom(n, more) ==> SmoothFrom(n, calls) && SmoothFrom(m, more)
    ensures DoneFrom(n, calls) && DoneFrom(m, more) ==> DoneFrom(n, more)
    ensures forall t :: Attempted(t, n, calls) ==> Attempted(t, n, more)
  {
    hide Reverting;
    forall i | n <= i < |more|
      ensures Reverting(p, vs, more[i].event)
    {
      if i < m {
        assert more[i] == calls[i];
      }
    }
    if SmoothFrom(n, more) {
      forall i | n <= i < |calls|
        ensures Smooth(calls[i].tick)
      {
        assert more[i] == calls[i];
      }
    }
    forall t | Attempted(t, n, calls)
      ensures Attempted(t, n, more)
    {
      var i :| n <= i < |calls| && calls[i].event == Remote(UndoOf(t));
      assert more[i] == calls[i];
    }
  }

  datatype Original = Original(path: Path, content: Option<Bytes>, stamp: Meta)

  /** The write that puts one file back. */
  method Undoing(h: Host, ghost p: Plan, ghost vs: Views, ghost forgotten: set<User>, ghost lost: bool,
                 ghost u: User, o: Original)
    returns (ok: bool)
    requires Falling(h, p, vs, forgotten, lost) && u in p.ts && u in vs && vs[u].dirty
    requires o == Original(p.ts[u].path, p.ts[u].orig, p.ts[u].stamp)
    modifies h
    ensures Falling(h, p, vs, forgotten, lost) && KeepsOriginals(p, old(h.w), h.w) && SameRecords(old(h.w), h.w)
    ensures ok ==> At(h.w, o.path) == o.content && h.w.conn
    ensures WentOn(old(h.calls), old(h.trace), h) && |h.calls| == old(|h.calls|) + 1 && h.clock == old(h.clock) + 1
    ensures RevertsFrom(p, vs, old(|h.calls|), h.calls) && Attempted(p.ts[u], old(|h.calls|), h.calls)
    ensures ok ==> DoneFrom(old(|h.calls|), h.calls)
    ensures SmoothFrom(old(|h.calls|), h.calls) && old(h.w.conn) ==> ok
  {
    hide Fallen, Sound, Perform, At, Logged, Reverting, RevertsFrom, SmoothFrom, DoneFrom, Attempted, KeepsOriginals,
         SameRecords;
    ghost var calls0 := h.calls;
    ghost var t1 := h.Next(Remote(Undo(o.path, o.content, o.stamp)));
    StepUndo(p, vs, forgotten, h.w, u, t1);
    RecordsKept(h.w, Undo(o.path, o.content, o.stamp), t1);
    var r := h.Issue(Undo(o.path, o.content, o.stamp));
    FallenIsSound(p, vs, forgotten, lost, h.w);
    UndoIsReverting(p, vs, u, calls0, Call(Remote(UndoOf(p.ts[u])), t1, r));
    return r == Done;
  }

  /** Reads the file again. */
  method LookAgain(h: Host, ghost p: Plan, ghost vs: Views, ghost forgotten: set<User>, ghost lost: bool,
                   ghost u: User, ghost n: nat)
    returns (ok: bool)
    requires Falling(h, p, vs, forgotten, lost) && u in p.ts
    requires RevertsFrom(p, vs, n, h.calls) && Attempted(p.ts[u], n, h.calls)
    modifies h
    ensures Falling(h, p, vs, forgotten, lost) && KeepsOriginals(p, old(h.w), h.w) && SameRecords(old(h.w), h.w)
    ensures ok ==> h.w == old(h.w)
    ensures WentOn(old(h.calls), old(h.trace), h) && h.clock == old(h.clock) + 1
    ensures RevertsFrom(p, vs, n, h.calls) && Attempted(p.ts[u], n, h.calls)
    ensures DoneFrom(n, old(h.calls)) ==> DoneFrom(n, h.calls)
    ensures SmoothFrom(n, h.calls) ==> SmoothFrom(n, old(h.calls)) && (old(h.w.conn) ==> ok)
  {
    hide Fallen, Sound, Perform, Logged, Reverting, RevertsFrom, SmoothFrom, DoneFrom, Attempted, KeepsOriginals,
         SameRecords;
    ghost var calls, t := h.calls, h.Next(Remote(Inspect));
    StepReadBack(p, vs, forgotten, h.w, t);
    RecordsKept(h.w, Inspect, t);
    var r := h.Issue(Inspect);
    FallenIsSound(p, vs, forgotten, lost, h.w);
    LookIsReverting(p, vs, u, n, calls, Call(Remote(Inspect), t, r));
    return r == Done;
  }

  /** Puts one file back and reads it back to be sure. */
  method RevertFile(h: Host, ghost p: Plan, ghost vs: Views, ghost forgotten: set<User>, ghost lost: bool,
                    ghost u: User, o: Original)
    returns (ok: bool)
    requires Falling(h, p, vs, forgotten, lost) && u in p.ts && u in vs && vs[u].dirty
    requires o == Original(p.ts[u].path, p.ts[u].orig, p.ts[u].stamp)
    modifies h
    ensures Falling(h, p, vs, forgotten, lost) && KeepsOriginals(p, old(h.w), h.w) && SameRecords(old(h.w), h.w)
    ensures ok ==> At(h.w, p.ts[u].path) == p.ts[u].orig
    ensures ok ==> h.clock == old(h.clock) + 2   // the write and the read-back
    ensures WentOn(old(h.calls), old(h.trace), h) && RevertsFrom(p, vs, old(|h.calls|), h.calls)
    ensures Attempted(p.ts[u], old(|h.calls|), h.calls) && (ok ==> DoneFrom(old(|h.calls|), h.calls))
    ensures SmoothFrom(old(|h.calls|), h.calls) && old(h.w.conn) ==> ok && h.w.conn
  {
    hide Falling, At, RevertsFrom, SmoothFrom, DoneFrom, Attempted;
    ghost var n := |h.calls|;
    ok := Undoing(h, p, vs, forgotten, lost, u, o);
    if ok {
      ok := LookAgain(h, p, vs, forgotten, lost, u, n);
      ok := ok && At(h.w, o.path) == o.content;
    }
  }

  lemma UndoIsReverting(p: Plan, vs: Views, u: User, calls: seq<Call>, c: Call)
    requires u in p.ts && u in vs && vs[u].dirty && c.event == Remote(UndoOf(p.ts[u]))
    ensures RevertsFrom(p, vs, |calls|, calls + [c]) && Attempted(p.ts[u], |calls|, calls + [c])
    ensures SmoothFrom(|calls|, calls + [c]) ==> Smooth(c.tick)
    ensures c.reply == Done ==> DoneFrom(|calls|, calls + [c])
  {
    hide Undo, UndoOf;
    assert Reverting(p, vs, c.event);
    assert (calls + [c])[|calls|] == c;
  }

  lemma LookIsReverting(p: Plan, vs: Views, u: User, n: nat, calls: seq<Call>, c: Call)
    requires RevertsFrom(p, vs, n, calls) && u in p.ts && Attempted(p.ts[u], n, calls) && c.event == Remote(Inspect)
    ensures RevertsFrom(p, vs, n, calls + [c]) && Attempted(p.ts[u], n, calls + [c])
    ensures SmoothFrom(n, calls + [c]) ==> SmoothFrom(n, calls) && Smooth(c.tick)
    ensures DoneFrom(n, calls) ==> DoneFrom(n, calls + [c])
  {
    hide Undo, UndoOf, Attempted, DoneFrom, RevertsFrom, SmoothFrom;
    LookContinues(p, vs, n, calls, c);
    StillAttempted(p.ts[u], n, calls, calls + [c]);
  }

  lemma LookContinues(p: Plan, vs: Views, n: nat, calls: seq<Call>, c: Call)
    requires RevertsFrom(p, vs, n, calls) && c.event == Remote(Inspect)
    ensures RevertsFrom(p, vs, n, calls + [c])
    ensures SmoothFrom(n, calls + [c]) ==> SmoothFrom(n, calls) && Smooth(c.tick)
    ensures DoneFrom(n, calls) ==> DoneFrom(n, calls + [c])
  {
    OneMoreEvent(p, vs, n, calls, c);
  }

  lemma StillAttempted(t: Target, n: nat, calls: seq<Call>, more: seq<Call>)
    requires Attempted(t, n, calls) && calls <= more
    ensures Attempted(t, n, more)
  {
    var i :| n <= i < |calls| && calls[i].event == Remote(UndoOf(t));
    assert more[i] == calls[i];
  }

  ghost predicate RevertedUpTo(p: Plan, vs: Views, order: seq<User>, i: nat, w: World)
    requires i <= |order|
  {
    forall j | 0 <= j < i && order[j] in p.ts && order[j] in vs && vs[order[j]].dirty ::
      At(w, p.ts[order[j]].path) == p.ts[order[j]].orig
  }

  /** Every file still marked as written is back. */
  ghost predicate Reverted(p: Plan, vs: Views, w: World) {
    forall u | u in p.ts && u in vs && vs[u].dirty :: At(w, p.ts[u].path) == p.ts[u].orig
  }

  lemma OneMoreReverted(p: Plan, vs: Views, order: seq<User>, i: nat, w: World, v: World)
    requires i < |order| && RevertedUpTo(p, vs, order, i, w) && KeepsOriginals(p, w, v)
    requires order[i] in p.ts && order[i] in vs && vs[order[i]].dirty
             ==> At(v, p.ts[order[i]].path) == p.ts[order[i]].orig
    ensures RevertedUpTo(p, vs, order, i + 1, v)
  {
    hide At;
  }

  lemma AllReverted(p: Plan, vs: Views, order: seq<User>, w: World)
    requires RevertedUpTo(p, vs, order, |order|, w) && forall u | u in vs :: u in order
    ensures Reverted(p, vs, w)
  {
    hide At;
    forall u | u in p.ts && u in vs && vs[u].dirty
      ensures At(w, p.ts[u].path) == p.ts[u].orig
    {
      var j :| 0 <= j < |order| && order[j] == u;
    }
  }

  ghost predicate AttemptedUpTo(p: Plan, vs: Views, order: seq<User>, i: nat, n: nat, calls: seq<Call>)
    requires i <= |order|
  {
    forall j | 0 <= j < i && order[j] in p.ts && order[j] in vs && vs[order[j]].dirty ::
      Attempted(p.ts[order[j]], n, calls)
  }

  /** Every file still marked was ordered back. */
  ghost predicate AllAttempted(p: Plan, vs: Views, n: nat, calls: seq<Call>) {
    forall u | u in p.ts && u in vs && vs[u].dirty :: Attempted(p.ts[u], n, calls)
  }

  lemma OneMoreAttempt(p: Plan, vs: Views, order: seq<User>, i: nat, n: nat, calls: seq<Call>, m: nat, more: seq<Call>)
    requires i < |order| && AttemptedUpTo(p, vs, order, i, n, calls) && calls <= more && n <= m == |calls|
    requires order[i] in p.ts && order[i] in vs && vs[order[i]].dirty ==> Attempted(p.ts[order[i]], m, more)
    ensures AttemptedUpTo(p, vs, order, i + 1, n, more)
  {
    hide Attempted;
    forall j | 0 <= j < i + 1 && order[j] in p.ts && order[j] in vs && vs[order[j]].dirty
      ensures Attempted(p.ts[order[j]], n, more)
    {
      if j < i {
        StillAttempted(p.ts[order[j]], n, calls, more);
      } else {
        EarlierStart(p.ts[order[j]], n, m, more);
      }
    }
  }

  lemma EarlierStart(t: Target, n: nat, m: nat, calls: seq<Call>)
    requires Attempted(t, m, calls) && n <= m
    ensures Attempted(t, n, calls)
  {
  }

  lemma AllWereAttempted(p: Plan, vs: Views, order: seq<User>, n: nat, calls: seq<Call>)
    requires AttemptedUpTo(p, vs, order, |order|, n, calls) && forall u | u in vs :: u in order
    ensures AllAttempted(p, vs, n, calls)
  {
    hide Attempted;
    forall u | u in p.ts && u in vs && vs[u].dirty
      ensures Attempted(p.ts[u], n, calls)
    {
      var j :| 0 <= j < |order| && order[j] == u;
    }
  }

  lemma NothingYet(p: Plan, vs: Views, order: seq<User>, w: World, calls: seq<Call>)
    ensures RevertedUpTo(p, vs, order, 0, w) && AttemptedUpTo(p, vs, order, 0, |calls|, calls)
    ensures RevertsFrom(p, vs, |calls|, calls) && DoneFrom(|calls|, calls)
  {
  }

  /** Every marked file is reverted; one failure does not stop the others. */
  method RevertAll(h: Host, ghost p: Plan, ghost vs: Views, ghost forgotten: set<User>, ghost lost: bool,
                   order: seq<User>, dirty: set<User>, originals: map<User, Original>)
    returns (failed: bool)
    requires Falling(h, p, vs, forgotten, lost) && vs.Keys == p.ts.Keys == originals.Keys
    requires forall u :: u in order <==> u in vs
    requires forall u | u in vs :: u in dirty <==> vs[u].dirty
    requires forall u | u in vs :: originals[u] == Original(p.ts[u].path, p.ts[u].orig, p.ts[u].stamp)
    modifies h
    ensures Falling(h, p, vs, forgotten, lost) && SameRecords(old(h.w), h.w)
    ensures !failed ==> Reverted(p, vs, h.w)
    ensures WentOn(old(h.calls), old(h.trace), h) && AllAttempted(p, vs, old(|h.calls|), h.calls)
    ensures RevertsFrom(p, vs, old(|h.calls|), h.calls) && (!failed ==> DoneFrom(old(|h.calls|), h.calls))
    ensures SmoothFrom(old(|h.calls|), h.calls) && old(h.w.conn) ==> !failed && h.w.conn
  {
    hide Falling, KeepsOriginals, Reverted, At, RevertsFrom, DoneFrom, SmoothFrom, Attempted, RevertedUpTo,
         AttemptedUpTo;
    failed := false;
    ghost var n, up := |h.calls|, h.w.conn;
    NothingYet(p, vs, order, h.w, h.calls);
    for i := 0 to |order|
      invariant Falling(h, p, vs, forgotten, lost) && SameRecords(old(h.w), h.w)
      invariant WentOn(old(h.calls), old(h.trace), h)
      invariant RevertsFrom(p, vs, n, h.calls) && (!failed ==> DoneFrom(n, h.calls))
      invariant !failed ==> RevertedUpTo(p, vs, order, i, h.w)
      invariant AttemptedUpTo(p, vs, order, i, n, h.calls)
      invariant SmoothFrom(n, h.calls) && up ==> !failed && h.w.conn
    {
      var u := order[i];
      ghost var w, calls := h.w, h.calls;
      OriginalsKept(p, w);
      if u in dirty {
        var ok := RevertFile(h, p, vs, forgotten, lost, u, originals[u]);
        MoreEvents(p, vs, n, |calls|, calls, h.calls);
        if !ok {
          failed := true;
        }
      }
      OneMoreAttempt(p, vs, order, i, n, calls, |calls|, h.calls);
      if !failed {
        OneMoreReverted(p, vs, order, i, w, h.w);
      }
    }
    AllWereAttempted(p, vs, order, n, h.calls);
    if !failed {
      AllReverted(p, vs, order, h.w);
    }
  }

  lemma OriginalsKept(p: Plan, w: World)
    ensures KeepsOriginals(p, w, w)
  {
  }

  // ----------------------------------------------------------- after a revert

  /** Nothing is left to do but to close: the trap restores, or a marker says that all is back. */
  ghost predicate Settling(p: Plan, vs: Views, forgotten: set<User>, w: World) {
    && (!w.commit ==> Core(p, vs, forgotten, w))
    && (w.commit ==> LeftAt(p, forgotten, w) && Placed(p, w))
  }

  lemma UnmarkedBack(p: Plan, vs: Views, forgotten: set<User>, w: World)
    requires Core(p, vs, forgotten, w) && Strays(p, vs, forgotten, w) && Reverted(p, vs, w) && w.conn
    ensures LeftAt(p, forgotten, w) && Placed(p, w)
  {
    hide Distinct, LogGood, Log, AddsProven, BeforeRemovals, Staged, At, Mid;
  }

  lemma OvertakenBack(p: Plan, vs: Views, w: World)
    requires Overtaken(p, vs, w) && Reverted(p, vs, w)
    ensures LeftAt(p, {}, w) && Placed(p, w)
  {
    hide Distinct, AddsProven, Staged, At, NoLinks;
  }

  /** The marker after a complete revert, whatever becomes of it. */
  lemma StepDisarm(p: Plan, vs: Views, forgotten: set<User>, w: World, t: Tick)
    requires Fallen(p, vs, forgotten, w) && Reverted(p, vs, w)
    ensures Settling(p, vs, forgotten, Perform(w, MarkCommit, t).0)
  {
    var v := Perform(w, MarkCommit, t).0;
    hide Core, Strays, Overtaken, Reverted, LeftAt, Staged, Perform, Hangup;
    MarkFrame(w, t);
    if w.commit {
      OvertakenBack(p, vs, w);
      HangupFrame(w);
      MarkedStays(p, forgotten, w, v);
    } else {
      HangupKeeps(p, vs, forgotten, w);
      HangupFrame(w);
      if v == w.(commit := true) {
        UnmarkedBack(p, vs, forgotten, w);
        LeftMoves(p, forgotten, w, v);
      }
    }
  }

  lemma MarkedStays(p: Plan, forgotten: set<User>, w: World, v: World)
    requires w.commit && LeftAt(p, forgotten, w) && Placed(p, w)
    requires v == w || v == w.(commit := true) || v == Hangup(w) || v == EndGuard(w)
    ensures LeftAt(p, forgotten, v) && v.commit && Placed(p, v)
  {
    DisarmedTrap(w);
    hide Hangup, EndGuard, LeftAt, Staged;
    LeftMoves(p, forgotten, w, v);
  }

  lemma LeftIsEarly(p: Plan, forgotten: set<User>, w: World)
    requires LeftAt(p, forgotten, w)
    ensures BeforeRemovals(p, w)
  {
    hide At, Mid;
  }

  lemma SettlingIsSound(p: Plan, vs: Views, forgotten: set<User>, lost: bool, w: World)
    requires Settling(p, vs, forgotten, w)
    ensures Sound(p, forgotten, lost, w)
  {
    hide Core, LeftAt, Staged, AddsProven, BeforeRemovals;
    if w.commit {
      LeftIsEarly(p, forgotten, w);
      StagedDisarmed(p, w);
    } else {
      hide Sound, Sane;
      CoreIsSane(p, vs, forgotten, w);
      SaneIsSound(p, forgotten, lost, w);
    }
  }

  /** The trap goes off, or finds the marker: either way the files end where the abort says. */
  lemma SettlingEnds(p: Plan, vs: Views, forgotten: set<User>, w: World, v: World)
    requires Settling(p, vs, forgotten, w) && (v == EndGuard(w) || v == Hangup(w))
    ensures Settling(p, vs, forgotten, v) && (!v.commit ==> AllOrig(p, v)) && v.commit == w.commit
  {
    hide Core, Hangup, EndGuard, LeftAt, Staged;
    EndFrame(w);
    if w.commit {
      MarkedStays(p, forgotten, w, v);
    } else {
      GuardEnds(p, vs, forgotten, w);
      HangupKeeps(p, vs, forgotten, w);
    }
  }

  lemma EndFrame(w: World)
    ensures EndGuard(w).commit == w.commit && Hangup(w).commit == w.commit
  {
    RestoreAllFrame(w);
  }

  lemma LeftMoves(p: Plan, forgotten: set<User>, w: World, v: World)
    requires LeftAt(p, forgotten, w) && v.disk == w.disk && v.local == w.local && Placed(p, w)
    ensures LeftAt(p, forgotten, v) && Placed(p, v)
  {
    hide Mid, Fin;
  }

  /** The host once an abort has nothing left to revert. */
  ghost predicate Disarmed(h: Host, p: Plan, vs: Views, forgotten: set<User>, lost: bool)
    reads h
  {
    && h.Valid() && (forall s | s in h.trace :: Sound(p, forgotten, lost, s)) && Settling(p, vs, forgotten, h.w)
    && Together(h.calls) && KeepsOriginal(p, h.calls)
  }

  lemma HangRecord(p: Plan, vs: Views, calls: seq<Call>, c: Call)
    requires c.event == Hang
    ensures RevertsFrom(p, vs, |calls|, calls + [c]) && DoneFrom(|calls|, calls + [c])
    ensures SameOrders(calls, calls + [c]) && HungUp(calls, calls + [c])
  {
    QuietCall(calls, c);
    assert (calls + [c])[|calls|] == c;
  }

  /** The marker is ordered, whatever comes of it. */
  method OrderMarker(h: Host, ghost p: Plan, ghost vs: Views, ghost forgotten: set<User>, ghost lost: bool)
    requires Falling(h, p, vs, forgotten, lost) && Reverted(p, vs, h.w)
    modifies h
    ensures Disarmed(h, p, vs, forgotten, lost) && SameRecords(old(h.w), h.w)
    ensures WentOn(old(h.calls), old(h.trace), h) && RevertsFrom(p, vs, old(|h.calls|), h.calls)
    ensures DoneFrom(old(|h.calls|), h.calls)
    ensures |h.calls| == old(|h.calls|) + 1 && Marking(h.calls[|h.calls| - 1])
    ensures SmoothFrom(old(|h.calls|), h.calls) && old(h.w.conn) ==> h.w.commit
  {
    hide Sound, Settling, Fallen, Perform, Reverted, Hangup, Logged, RevertsFrom, DoneFrom, SmoothFrom, SameRecords;
    ghost var calls, t := h.calls, h.Next(Remote(MarkCommit));
    StepDisarm(p, vs, forgotten, h.w, t);
    MarkFrame(h.w, t);
    RecordsKept(h.w, MarkCommit, t);
    var r := h.Issue(MarkCommit);
    SettlingIsSound(p, vs, forgotten, lost, h.w);
    NothingFrom(p, vs, calls);
    OneMoreEvent(p, vs, |calls|, calls, Call(Remote(MarkCommit), t, r));
  }

  lemma NothingFrom(p: Plan, vs: Views, calls: seq<Call>)
    ensures RevertsFrom(p, vs, |calls|, calls) && DoneFrom(|calls|, calls) && SmoothFrom(|calls|, calls)
  {
  }

  /** The guard's stdin is closed. */
  method LeaveGuard(h: Host, ghost p: Plan, ghost vs: Views, ghost forgotten: set<User>, ghost lost: bool, ghost n: nat)
    requires Disarmed(h, p, vs, forgotten, lost) && RevertsFrom(p, vs, n, h.calls)
    modifies h
    ensures Disarmed(h, p, vs, forgotten, lost) && SameRecords(old(h.w), h.w)
    ensures WentOn(old(h.calls), old(h.trace), h) && RevertsFrom(p, vs, n, h.calls)
    ensures DoneFrom(n, old(h.calls)) ==> DoneFrom(n, h.calls)
    ensures SmoothFrom(n, h.calls) ==> SmoothFrom(n, old(h.calls))
    ensures |h.calls| == old(|h.calls|) + 1 && h.calls[|h.calls| - 1].event == Leave
    ensures h.w.commit == old(h.w.commit)
  {
    hide Sound, Settling, EndGuard, Logged, RevertsFrom, DoneFrom, SmoothFrom;
    ghost var calls, t := h.calls, h.Next(Leave);
    EndFrame(h.w);
    SettlingEnds(p, vs, forgotten, h.w, EndGuard(h.w));
    EndRecords(h.w);
    h.CloseGuard();
    SettlingIsSound(p, vs, forgotten, lost, h.w);
    OneMoreEvent(p, vs, n, calls, Call(Leave, t, Done));
  }

  /** The trap is disarmed, which may fail: it would only restore what is already back. */
  method Disarm(h: Host, ghost p: Plan, ghost vs: Views, ghost forgotten: set<User>, ghost lost: bool)
    requires Falling(h, p, vs, forgotten, lost) && Reverted(p, vs, h.w)
    modifies h
    ensures Disarmed(h, p, vs, forgotten, lost) && SameRecords(old(h.w), h.w)
    ensures WentOn(old(h.calls), old(h.trace), h) && RevertsFrom(p, vs, old(|h.calls|), h.calls)
    ensures DoneFrom(old(|h.calls|), h.calls)
    ensures |h.calls| == old(|h.calls|) + 2 && Marking(h.calls[|h.calls| - 2])
    ensures h.calls[|h.calls| - 1].event == Leave
    ensures SmoothFrom(old(|h.calls|), h.calls) && old(h.w.conn) ==> h.w.commit
  {
    hide Falling, Disarmed, Reverted, RevertsFrom, DoneFrom, SmoothFrom;
    ghost var n := |h.calls|;
    OrderMarker(h, p, vs, forgotten, lost);
    LeaveGuard(h, p, vs, forgotten, lost, n);
  }

  // ------------------------------------------------------------ the last step

  datatype Outcome = NothingChanged | DryRun | Committed | AbortedReverted | RevertUnverified

  /** What each outcome promises of the files once the connection is closed. */
  ghost predicate Delivered(p: Plan, forgotten: set<User>, lost: bool, o: Outcome, w: World) {
    && (o == Committed ==> AllFin(p, w) && AddsProven(p, w.probes))
    && (o == AbortedReverted ==> if w.commit then LeftAt(p, forgotten, w) else AllOrig(p, w))
    && (o == RevertUnverified ==> if w.commit then lost && OrigOrFin(p, w) else AllOrig(p, w))
  }

  /** The connection is closed and the outcome stands. */
  ghost predicate Closed(h: Host, p: Plan, forgotten: set<User>, lost: bool, o: Outcome)
    reads h
  {
    && h.Valid() && (forall s | s in h.trace :: Sound(p, forgotten, lost, s)) && Delivered(p, forgotten, lost, o, h.w)
    && KeepsOriginal(p, h.calls)
  }

  lemma CommittedDelivers(p: Plan, w: World)
    requires Settled(p, w)
    ensures Delivered(p, {}, false, Committed, w)
  {
    hide AllFin, AddsProven;
  }

  method CloseCommitted(h: Host, ghost p: Plan, ghost n: nat)
    requires Over(h, p) && FinalSince(h, p, n)
    modifies h
    ensures Closed(h, p, {}, false, Committed) && FinalSince(h, p, n) && SameRecords(old(h.w), h.w)
    ensures WentOn(old(h.calls), old(h.trace), h) && SameOrders(old(h.calls), h.calls)
    ensures HungUp(old(h.calls), h.calls) && (h.calm ==> old(h.calm))
  {
    hide Logged, SameOrders, Sound, Settled, Hangup, Delivered, Perform, Close, AllFin, Together;
    StepCleanup(p, h.w, h.Next(Hang));
    RecordsKept(h.w, RemoveTxDir, h.Next(Hang));
    HangRecord(p, map[], h.calls, Call(Hang, h.Next(Hang), Done));
    ghost var calls, trace := h.calls, h.trace;
    h.Disconnect();
    StillFinal(p, h.w, n, calls, trace, h.calls, h.trace);
    SettledIsSound(p, {}, false, h.w);
    CommittedDelivers(p, h.w);
  }

  lemma RevertedDelivers(p: Plan, vs: Views, forgotten: set<User>, lost: bool, w: World)
    requires Settling(p, vs, forgotten, w)
    ensures Settling(p, vs, forgotten, Hangup(w)) && Delivered(p, forgotten, lost, AbortedReverted, Hangup(w))
  {
    hide Core, Hangup, LeftAt, Staged, AllOrig;
    SettlingEnds(p, vs, forgotten, w, Hangup(w));
  }

  method CloseReverted(h: Host, ghost p: Plan, ghost vs: Views, ghost forgotten: set<User>, ghost lost: bool)
    requires Disarmed(h, p, vs, forgotten, lost)
    modifies h
    ensures Closed(h, p, forgotten, lost, AbortedReverted) && SameRecords(old(h.w), h.w)
    ensures WentOn(old(h.calls), old(h.trace), h) && HungUp(old(h.calls), h.calls)
    ensures RevertsFrom(p, vs, old(|h.calls|), h.calls) && DoneFrom(old(|h.calls|), h.calls)
    ensures old(h.w.commit) ==> h.w.commit
  {
    hide Logged, SameOrders, Sound, Settling, Hangup, Delivered;
    RecordsKept(h.w, Inspect, h.Next(Hang));
    RevertedDelivers(p, vs, forgotten, lost, h.w);
    HangRecord(p, vs, h.calls, Call(Hang, h.Next(Hang), Done));
    EndFrame(h.w);
    h.Disconnect();
    SettlingIsSound(p, vs, forgotten, lost, h.w);
  }

  lemma DroppedDelivers(p: Plan, vs: Views, forgotten: set<User>, lost: bool, w: World)
    requires Fallen(p, vs, forgotten, w) && (w.commit ==> lost)
    ensures Fallen(p, vs, forgotten, Hangup(w)) && Hangup(w).commit == w.commit
    ensures Delivered(p, forgotten, lost, RevertUnverified, Hangup(w))
  {
    hide Fallen, Hangup, OrigOrFin, AllOrig;
    HangupKeepsOriginals(p, vs, forgotten, w);
  }

  /** The revert could not be verified: the connection is dropped without a marker, the trap takes over. */
  method CloseUnverified(h: Host, ghost p: Plan, ghost vs: Views, ghost forgotten: set<User>, ghost lost: bool)
    requires Falling(h, p, vs, forgotten, lost)
    modifies h
    ensures Closed(h, p, forgotten, lost, RevertUnverified) && SameRecords(old(h.w), h.w)
    ensures WentOn(old(h.calls), old(h.trace), h) && HungUp(old(h.calls), h.calls)
    ensures RevertsFrom(p, vs, old(|h.calls|), h.calls)
  {
    hide Logged, SameOrders, Sound, Fallen, Hangup, Delivered;
    RecordsKept(h.w, Inspect, h.Next(Hang));
    DroppedDelivers(p, vs, forgotten, lost, h.w);
    HangRecord(p, vs, h.calls, Call(Hang, h.Next(Hang), Done));
    h.Disconnect();
    FallenIsSound(p, vs, forgotten, lost, h.w);
  }

  // ------------------------------------------------------- what is on record

  /** Exactly the files the operations change are marked as written. */
  ghost predicate AllMarked(p: Plan, vs: Views) {
    forall u | u in p.ts :: u in vs && (vs[u].dirty <==> TouchedAt(p.ts[u], 2))
  }

  lemma ThroughMarks(p: Plan, vs: Views, w: World)
    requires Progress(p, vs, w, 2, {})
    ensures AllMarked(p, vs)
  {
    hide TouchedAt, ContentAt, DocAt, At;
  }

  /** What is on record when an abort begins. */
  ghost predicate OnRecord(p: Plan, keepDirty: bool, vs: Views, forgotten: set<User>, lost: bool, w: World,
                           calls: seq<Call>) {
    && Booked(p, keepDirty, vs, forgotten, calls) && MarkLast(calls)
    && (lost <==> w.commit) && (lost ==> AllFin(p, w) && forgotten == {} && AllMarked(p, vs))
    && (forall u, v | u in forgotten && v in forgotten :: u == v)
  }

  /** What an abort that began after the n-th event, with or without a connection, does until the last one.
      Unless something goes wrong meanwhile it reverts everything and disarms the trap. */
  ghost predicate BackedOut(p: Plan, vs: Views, o: Outcome, n: nat, conn: bool, commit: bool, calls: seq<Call>) {
    && n < |calls| && Together(calls[..|calls| - 1]) && calls[|calls| - 1].event == Hang
    && RevertsFrom(p, vs, n, calls) && AllAttempted(p, vs, n, calls)
    && (o == AbortedReverted ==> DoneFrom(n, calls))
    && (SmoothFrom(n, calls) && conn ==> o == AbortedReverted && commit)
  }

  /** A run that turned back after its n-th event. */
  ghost predicate TurnedBack(p: Plan, keepDirty: bool, vs: Views, forgotten: set<User>, lost: bool, o: Outcome, n: nat,
                             trace: seq<World>, calls: seq<Call>) {
    && n < |calls| && |trace| == |calls| + 1
    && OnRecord(p, keepDirty, vs, forgotten, lost, trace[n], calls[..n])
    && BackedOut(p, vs, o, n, trace[n].conn, trace[|calls|].commit, calls)
  }

  lemma StillAllAttempted(p: Plan, vs: Views, n: nat, calls: seq<Call>, more: seq<Call>)
    requires AllAttempted(p, vs, n, calls) && calls <= more
    ensures AllAttempted(p, vs, n, more)
  {
    hide Attempted;
    forall u | u in p.ts && u in vs && vs[u].dirty
      ensures Attempted(p.ts[u], n, more)
    {
      StillAttempted(p.ts[u], n, calls, more);
    }
  }

  /** Reverts that failed, then the end. */
  lemma BackedOutUnverified(p: Plan, vs: Views, n: nat, conn: bool, commit: bool, calls1: seq<Call>, calls: seq<Call>)
    requires n <= |calls1| && Together(calls1) && HungUp(calls1, calls)
    requires RevertsFrom(p, vs, n, calls1) && AllAttempted(p, vs, n, calls1) && RevertsFrom(p, vs, |calls1|, calls)
    requires !(SmoothFrom(n, calls1) && conn)
    ensures BackedOut(p, vs, RevertUnverified, n, conn, commit, calls) && n < |calls|
  {
    hide Reverting, RevertsFrom, AllAttempted, SmoothFrom, DoneFrom, Together;
    assert calls1 <= calls;
    MoreEvents(p, vs, n, |calls1|, calls1, calls);
    StillAllAttempted(p, vs, n, calls1, calls);
    assert calls[..|calls| - 1] == calls1;
  }

  /** Reverts that worked, the disarming, the end. */
  lemma BackedOutReverted(p: Plan, vs: Views, n: nat, conn: bool, commit: bool, calls1: seq<Call>, calls2: seq<Call>,
                          calls: seq<Call>)
    requires n <= |calls1| && calls1 <= calls2 && Together(calls2) && HungUp(calls2, calls)
    requires RevertsFrom(p, vs, n, calls1) && AllAttempted(p, vs, n, calls1) && DoneFrom(n, calls1)
    requires RevertsFrom(p, vs, |calls1|, calls2) && DoneFrom(|calls1|, calls2)
    requires RevertsFrom(p, vs, |calls2|, calls) && DoneFrom(|calls2|, calls)
    requires SmoothFrom(n, calls1) && SmoothFrom(|calls1|, calls2) && conn ==> commit
    ensures BackedOut(p, vs, AbortedReverted, n, conn, commit, calls) && n < |calls|
  {
    hide Reverting, RevertsFrom, AllAttempted, SmoothFrom, DoneFrom, Together;
    MoreEvents(p, vs, n, |calls1|, calls1, calls2);
    assert calls2 <= calls && calls1 <= calls;
    MoreEvents(p, vs, n, |calls2|, calls2, calls);
    StillAllAttempted(p, vs, n, calls1, calls);
    assert calls[..|calls| - 1] == calls2;
  }

  lemma FallingRecord(h: Host, p: Plan, vs: Views, forgotten: set<User>, lost: bool)
    requires Falling(h, p, vs, forgotten, lost)
    ensures Together(h.calls)
  {
  }

  lemma DisarmedRecord(h: Host, p: Plan, vs: Views, forgotten: set<User>, lost: bool)
    requires Disarmed(h, p, vs, forgotten, lost)
    ensures Together(h.calls)
  {
  }

  /** Every file is back: the trap is disarmed and the connection closed. */
  method FinishReverted(h: Host, ghost p: Plan, ghost vs: Views, ghost forgotten: set<User>, ghost lost: bool,
                        ghost n: nat, ghost conn: bool)
    requires Falling(h, p, vs, forgotten, lost) && Reverted(p, vs, h.w) && n <= |h.calls|
    requires RevertsFrom(p, vs, n, h.calls) && AllAttempted(p, vs, n, h.calls) && DoneFrom(n, h.calls)
    requires SmoothFrom(n, h.calls) && conn ==> h.w.conn
    modifies h
    ensures Closed(h, p, forgotten, lost, AbortedReverted) && SameRecords(old(h.w), h.w)
    ensures WentOn(old(h.calls), old(h.trace), h) && n < |h.calls|
    ensures BackedOut(p, vs, AbortedReverted, n, conn, h.w.commit, h.calls)
  {
    hide Falling, Disarmed, Reverted, RevertsFrom, DoneFrom, SmoothFrom, AllAttempted, Together, BackedOut, Closed,
         HungUp;
    ghost var calls1 := h.calls;
    Disarm(h, p, vs, forgotten, lost);
    DisarmedRecord(h, p, vs, forgotten, lost);
    ghost var calls2 := h.calls;
    CloseReverted(h, p, vs, forgotten, lost);
    BackedOutReverted(p, vs, n, conn, h.w.commit, calls1, calls2, h.calls);
  }

  /** Some file is not: the connection is closed and the rest left to the trap. */
  method FinishUnverified(h: Host, ghost p: Plan, ghost vs: Views, ghost forgotten: set<User>, ghost lost: bool,
                          ghost n: nat, ghost conn: bool)
    requires Falling(h, p, vs, forgotten, lost) && n <= |h.calls|
    requires RevertsFrom(p, vs, n, h.calls) && AllAttempted(p, vs, n, h.calls) && !(SmoothFrom(n, h.calls) && conn)
    modifies h
    ensures Closed(h, p, forgotten, lost, RevertUnverified) && SameRecords(old(h.w), h.w)
    ensures WentOn(old(h.calls), old(h.trace), h) && n < |h.calls|
    ensures BackedOut(p, vs, RevertUnverified, n, conn, h.w.commit, h.calls)
  {
    hide Falling, RevertsFrom, DoneFrom, SmoothFrom, AllAttempted, Together, BackedOut, Closed, HungUp;
    ghost var calls1 := h.calls;
    FallingRecord(h, p, vs, forgotten, lost);
    CloseUnverified(h, p, vs, forgotten, lost);
    BackedOutUnverified(p, vs, n, conn, h.w.commit, calls1, h.calls);
  }

  /** A committed run is all or nothing at every moment. */
  lemma CommitIsAtomic(h: Host, p: Plan)
    requires Closed(h, p, {}, false, Committed)
    ensures forall s | s in h.trace :: Atomic(p, s)
  {
    hide Sound, Atomic, Delivered;
    forall s | s in h.trace
      ensures Atomic(p, s)
    {
      SoundIsAtomic(p, s);
    }
  }
}
