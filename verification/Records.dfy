/** Reading a run's record: which replies decide whether an abort was honest and the run all or nothing. */
module Records {
  import opened Basics
  import opened AuthKeys
  import opened World
  import opened WritePolicy
  import opened TxState
  import opened TxSteps
  import opened Host
  import opened Ledger
  import opened Ending
  import L = AuthKeysLaws

  // ------------------------------------------------------ event after event

  /** What one event can do to links, marker and connection. */
  predicate Framed(w: World, v: World, marks: bool, unmarks: bool, keeps: bool) {
    && v.links == w.links
    && (v.commit ==> w.commit || marks) && (w.commit && !unmarks ==> v.commit)
    && (w.conn && keeps ==> v.conn)
  }

  lemma EndsFramed(w: World, keeps: bool)
    ensures Framed(w, EndGuard(w), false, false, true) && Framed(w, Hangup(w), false, false, false)
  {
    RestoreAllFrame(w);
    hide RestoreAll;
  }

  lemma AppliedFramed(w: World, c: Command, part: Part)
    requires !c.MarkCommit?
    ensures Framed(w, Apply(w, c), false, c.RemoveTxDir?, true)
    ensures Framed(w, ApplyPart(w, c, part), false, c.RemoveTxDir?, true)
  {
    hide Clip;
  }

  lemma MarkFramed(w: World, t: Tick)
    ensures Framed(w, Perform(w, MarkCommit, t).0, Lands(w, t), false, !t.dies)
    ensures Perform(w, MarkCommit, t).0.commit <==> w.commit || Lands(w, t)
  {
    hide Perform, Hangup, Framed;
    MarkFrame(w, t);
    MarkReaches(w, t);
    HangupKeepsMarker(w);
    MarkedFramed(w, Perform(w, MarkCommit, t).0, Lands(w, t), !t.dies);
  }

  lemma MarkedFramed(w: World, v: World, lands: bool, keeps: bool)
    requires v == w || v == w.(commit := true) || v == Hangup(w)
    requires (v.commit ==> w.commit || lands) && (w.conn && keeps ==> v.conn)
    ensures Framed(w, v, lands, false, keeps)
  {
    hide Hangup, EndGuard;
    EndsFramed(w, true);
  }

  /** Whether the marker's file is there after the order. */
  lemma MarkReaches(w: World, t: Tick)
    ensures var v := Perform(w, MarkCommit, t).0;
            if !w.conn then v == w
            else if t.dies then v == Hangup(w)
            else v == w.(commit := w.commit || Lands(w, t))
  {
    hide Hangup;
  }

  lemma HangupKeepsMarker(w: World)
    ensures Hangup(w).commit == w.commit
  {
    RestoreAllFrame(w);
    hide RestoreAll;
  }

  lemma PerformFramed(w: World, c: Command, t: Tick)
    requires !c.MarkCommit?
    ensures Framed(w, Perform(w, c, t).0, false, c.RemoveTxDir?, !t.dies)
  {
    hide Hangup, EndGuard, Apply, ApplyPart, Refuses;
    EndsFramed(w, true);
    AppliedFramed(w, c, Whole);
    if t.fate.Fail? || t.fate.Lose? {
      AppliedFramed(w, c, t.fate.part);
    }
  }

  lemma CheckFramed(w: World, t: Tick)
    ensures Framed(w, CheckGuard(w, t).0, false, false, !t.dies)
  {
    hide Hangup, EndGuard;
    EndsFramed(w, true);
  }

  lemma AskFramed(w: World, user: User, key: Key, full: bool, t: Tick)
    ensures Framed(w, Ask(w, user, key, full, t), false, false, !t.dies)
  {
    hide Hangup, EndGuard;
    EndsFramed(w, true);
  }

  lemma SaveFramed(w: World, user: User, content: Bytes, t: Tick)
    ensures Framed(w, SaveLocally(w, user, content, t).0, false, false, true)
  {
    hide Clip;
  }

  lemma SnapshotFramed(w: World, user: User, content: Bytes, t: Tick)
    ensures Framed(w, SaveSnapshot(w, user, content, t).0, false, false, true)
  {
    hide Clip;
  }

  lemma StartFramed(w: World, t: Tick)
    ensures Framed(w, StartGuard(w, t).0, false, false, !t.dies) && Framed(w, Close(w, t), false, false, true)
  {
    hide Hangup, EndGuard;
    EndsFramed(w, true);
  }

  lemma LessFramed(w: World, v: World, keeps: bool, less: bool)
    requires Framed(w, v, false, false, keeps) && (less ==> keeps)
    ensures Framed(w, v, false, false, less)
  {
  }

  lemma OthersFramed(w: World, e: Event, t: Tick)
    requires !e.Remote?
    ensures Framed(w, Turn(w, e, t).0, false, false, !t.dies && e != Hang)
  {
    hide Hangup, EndGuard, Framed, CheckGuard, Ask, SaveLocally, SaveSnapshot, StartGuard, Close;
    var less, v := !t.dies && e != Hang, Turn(w, e, t).0;
    match e
    case Health =>
      CheckFramed(w, t);
      LessFramed(w, v, !t.dies, less);
    case Question(user, key, full) =>
      AskFramed(w, user, key, full, t);
      LessFramed(w, v, !t.dies, less);
    case Keep(user, content) =>
      SaveFramed(w, user, content, t);
      LessFramed(w, v, true, less);
    case KeepSnapshot(user, content) =>
      SnapshotFramed(w, user, content, t);
      LessFramed(w, v, true, less);
    case Leave =>
      StartFramed(w, t);
      LessFramed(w, v, true, less);
    case Start =>
      StartFramed(w, t);
      LessFramed(w, v, !t.dies, less);
    case Hang =>
      EndsFramed(w, true);
  }

  lemma TurnFrame(w: World, e: Event, t: Tick)
    ensures Framed(w, Turn(w, e, t).0, e == Remote(MarkCommit) && Lands(w, t), e == Remote(RemoveTxDir),
                   !t.dies && e != Hang)
  {
    hide Framed, Perform, CheckGuard, Ask, Close, SaveLocally, SaveSnapshot, StartGuard, Hangup, Lands;
    if e.Remote? {
      if e.command.MarkCommit? {
        MarkFramed(w, t);
      } else {
        PerformFramed(w, e.command, t);
      }
    } else {
      OthersFramed(w, e, t);
    }
  }

  lemma OneStep(h: Host, i: nat)
    requires h.Valid() && i < |h.calls|
    ensures |h.trace| == |h.calls| + 1
    ensures h.calls[i].tick == h.script(i, h.trace[i], h.calls[i].event)
    ensures (h.trace[i + 1], h.calls[i].reply) == Turn(h.trace[i], h.calls[i].event, h.calls[i].tick)
  {
    hide Turn, AllSmooth;
  }

  lemma Ends(h: Host)
    requires h.Valid()
    ensures |h.trace| == |h.calls| + 1 && h.trace[0] == h.start && h.trace[|h.calls|] == h.w
  {
    hide Turn, AllSmooth;
  }

  lemma {:induction false} LinksStay(h: Host, i: nat)
    requires h.Valid() && i <= |h.calls|
    ensures |h.trace| == |h.calls| + 1 && h.trace[i].links == h.start.links
  {
    hide Turn, Host.Valid;
    Ends(h);
    if i > 0 {
      LinksStay(h, i - 1);
      OneStep(h, i - 1);
      TurnFrame(h.trace[i - 1], h.calls[i - 1].event, h.calls[i - 1].tick);
    }
  }

  /** A connection lasts while nothing breaks it and the client stays. */
  lemma {:induction false} StaysUp(h: Host, a: nat, b: nat)
    requires h.Valid() && a <= b <= |h.calls| && |h.trace| == |h.calls| + 1 && h.trace[a].conn
    requires forall i | a <= i < b :: !h.calls[i].tick.dies && h.calls[i].event != Hang
    ensures h.trace[b].conn
    decreases b
  {
    hide Turn, Host.Valid;
    if a < b {
      StaysUp(h, a, b - 1);
      OneStep(h, b - 1);
      TurnFrame(h.trace[b - 1], h.calls[b - 1].event, h.calls[b - 1].tick);
    }
  }

  /** The i-th event ordered the marker, and the marker landed. */
  ghost predicate MarkLands(h: Host, i: nat)
    reads h
  {
    i < |h.calls| && i < |h.trace| && Marking(h.calls[i]) && Lands(h.trace[i], h.calls[i].tick)
  }

  /** No marker without an order that landed. */
  lemma {:induction false} CommitNeedsMark(h: Host, b: nat) returns (i: nat)
    requires h.Valid() && b <= |h.calls| && |h.trace| == |h.calls| + 1 && !h.start.commit && h.trace[b].commit
    ensures i < b && MarkLands(h, i)
    decreases b
  {
    hide Turn, Host.Valid;
    Ends(h);
    OneStep(h, b - 1);
    TurnFrame(h.trace[b - 1], h.calls[b - 1].event, h.calls[b - 1].tick);
    if h.trace[b - 1].commit {
      i := CommitNeedsMark(h, b - 1);
    } else {
      i := b - 1;
    }
  }

  lemma MarkIsThere(h: Host, i: nat)
    requires h.Valid() && MarkLands(h, i)
    ensures |h.trace| == |h.calls| + 1 && h.trace[i + 1].commit
  {
    hide Perform, Host.Valid, Lands;
    OneStep(h, i);
    MarkFramed(h.trace[i], h.calls[i].tick);
  }

  /** Only the directory's removal takes a marker away. */
  lemma {:induction false} MarkStays(h: Host, a: nat, b: nat)
    requires h.Valid() && a <= b <= |h.calls| && |h.trace| == |h.calls| + 1 && h.trace[a].commit
    requires forall i | a <= i < b :: h.calls[i].event != Remote(RemoveTxDir)
    ensures h.trace[b].commit
    decreases b
  {
    hide Turn, Host.Valid;
    if a < b {
      MarkStays(h, a, b - 1);
      OneStep(h, b - 1);
      TurnFrame(h.trace[b - 1], h.calls[b - 1].event, h.calls[b - 1].tick);
    }
  }

  /** Every entry in a file's list of orders is some event's. */
  lemma {:induction false} WriteBehind(calls: seq<Call>, path: Path, k: nat) returns (i: nat)
    requires k < |WritesOf(calls, path)|
    ensures i < |calls| && WriteTo(calls[i], path) == [WritesOf(calls, path)[k]]
  {
    var n := |calls| - 1;
    if k < |WritesOf(calls[..n], path)| {
      i := WriteBehind(calls[..n], path, k);
    } else {
      i := n;
    }
  }

  /** And every order has its entry. */
  lemma {:induction false} WriteFound(calls: seq<Call>, path: Path, i: nat)
    requires i < |calls| && WriteTo(calls[i], path) != []
    ensures WriteTo(calls[i], path)[0] in WritesOf(calls, path)
  {
    var n := |calls| - 1;
    if i < n {
      WriteFound(calls[..n], path, i);
    }
  }

  // ------------------------------------------------------ a run that turned back

  /** A run that turned back after its n-th event. */
  datatype Fall = Fall(p: Plan, keepDirty: bool, vs: Views, forgotten: set<User>, lost: bool, o: Outcome, n: nat)

  ghost predicate Fell(h: Host, f: Fall)
    reads h
  {
    && Closed(h, f.p, f.forgotten, f.lost, f.o) && (f.o == AbortedReverted || f.o == RevertUnverified)
    && TurnedBack(f.p, f.keepDirty, f.vs, f.forgotten, f.lost, f.o, f.n, h.trace, h.calls)
    && Distinct(f.p.ts) && !h.start.commit && forall u | u in f.p.ts :: NoLinks(f.p.ts[u], h.start)
  }

  lemma FellBasics(h: Host, f: Fall)
    requires Fell(h, f)
    ensures h.Valid() && f.n < |h.calls| && |h.trace| == |h.calls| + 1 && h.trace[|h.calls|] == h.w
    ensures f.lost <==> h.trace[f.n].commit
    ensures f.lost ==> f.forgotten == {} && AllFin(f.p, h.trace[f.n]) && AllMarked(f.p, f.vs)
    ensures forall s | s in h.trace :: Sound(f.p, f.forgotten, f.lost, s)
    ensures Delivered(f.p, f.forgotten, f.lost, f.o, h.w)
    ensures f.vs.Keys == f.p.ts.Keys && f.forgotten <= f.p.ts.Keys
  {
    hide Sound, Delivered, Books, AllFin, Distinct, NoLinks, WritesOf, RevertsFrom, AllAttempted, AllSmooth, Turn,
         AllMarked;
  }

  lemma NoLinkEver(h: Host, f: Fall, u: User, i: nat)
    requires Fell(h, f) && u in f.p.ts && i <= |h.calls| && |h.trace| == |h.calls| + 1
    ensures f.p.ts[u].path !in h.trace[i].links && DirOf(f.p.ts[u].path) !in h.trace[i].links
  {
    hide Sound, Delivered, TurnedBack, Distinct, DirOf;
    LinksStay(h, i);
  }

  /** Which orders were refused although an earlier one was carried out. */
  ghost predicate Refused(h: Host, f: Fall, u: User)
    reads h
  {
    u in f.p.ts && f.n <= |h.calls| && Dropped(WritesOf(h.calls[..f.n], f.p.ts[u].path))
  }

  /** A file is forgotten if and only if an order to write it was carried out, a later one refused,
      and the rule is the written one. */
  lemma ForgottenExactly(h: Host, f: Fall, u: User)
    requires Fell(h, f) && u in f.p.ts
    ensures u in f.forgotten <==> !f.keepDirty && Refused(h, f, u)
  {
    hide Closed, BackedOut, Dropped, WritesOf, Distinct, NoLinks, MarkLast, AllFin, Booked;
    Ledger.ForgottenExactly(f.p, f.keepDirty, f.vs, f.forgotten, h.calls[..f.n], u);
  }

  lemma LandedIsLast(h: Host, f: Fall, i: nat)
    requires Fell(h, f) && i < f.n && MarkLands(h, i)
    ensures i == f.n - 1 && h.calls[i].reply != Done && f.n < |h.trace|
  {
    hide Closed, BackedOut, Distinct, NoLinks, Booked, AllFin;
    assert h.calls[..f.n][i] == h.calls[i];
  }

  /** The marker was lost if and only if the commit's order for it landed; the reply was then not success. */
  lemma LostExactly(h: Host, f: Fall)
    requires Fell(h, f)
    ensures f.lost <==> exists i: nat :: i < f.n && MarkLands(h, i)
    ensures forall i: nat | i < f.n && MarkLands(h, i) :: h.calls[i].reply != Done
  {
    hide Fell, MarkLands, Host.Valid, Sound, Delivered, AllFin;
    FellBasics(h, f);
    NotMarkedAtFirst(h, f);
    if f.lost {
      var i := CommitNeedsMark(h, f.n);
    }
    forall i: nat | i < f.n && MarkLands(h, i)
      ensures f.lost && h.calls[i].reply != Done
    {
      LandedIsLast(h, f, i);
      MarkIsThere(h, i);
    }
  }

  lemma NotMarkedAtFirst(h: Host, f: Fall)
    requires Fell(h, f)
    ensures !h.start.commit && Distinct(f.p.ts)
  {
  }

  /** A forgotten file holds neither its original nor its final content. */
  lemma ForgottenIsOff(c: Codec, h: Host, f: Fall, u: User)
    requires Fell(h, f) && u in f.forgotten && u in f.p.ts && Planned(c, f.p.ops, u, f.p.ts[u])
    ensures Mid(f.p.ts[u]) != f.p.ts[u].orig && Mid(f.p.ts[u]) != Fin(f.p.ts[u])
  {
    hide Closed, BackedOut, Distinct, NoLinks, Planned, MarkLast, AllFin, Booked;
    ForgottenIsTouched(f.p, f.keepDirty, f.vs, f.forgotten, h.calls[..f.n], u);
    TwiceChangedDiffers(c, f.p.ops, u, f.p.ts[u]);
  }

  /** The add phase lengthens the file, the remove phase shortens it. */
  lemma TwiceChangedDiffers(c: Codec, ops: seq<Op>, u: User, t: Target)
    requires Planned(c, ops, u, t) && t.doc1 != t.doc0 && t.doc2 != t.doc1
    ensures Mid(t) != t.orig && Mid(t) != Fin(t)
  {
    hide Parse, AddAll, RemoveAll, Render;
    L.AddAllLengthens(c, t.doc0, Grants(OpsOf(ops, u, Adding)));
    L.RemoveAllShortens(c, t.doc1, Matchers(OpsOf(ops, u, Removing)));
    L.RoundTrip(c, OrEmpty(t.orig));
  }

  // ------------------------------------------------------ files under a marker

  lemma SwapMoves(w: World, target: Path, content: Bytes, stamp: Meta, t: Tick, path: Path)
    requires w.commit && target !in w.links && DirOf(target) !in w.links
    ensures At(Perform(w, Command.Swap(target, content, stamp), t).0, path)
         == if path == target && Takes(w, t) then Some(content) else At(w, path)
  {
    DisarmedTrap(w);
    hide Hangup, EndGuard, DirOf, Apply, ApplyPart, At;
    AppliedMoves(w, Command.Swap(target, content, stamp), Whole, path);
    if t.fate.Lose? {
      AppliedMoves(w, Command.Swap(target, content, stamp), t.fate.part, path);
    }
    HungUpKeeps(w, path);
  }

  lemma HungUpKeeps(w: World, path: Path)
    requires w.commit
    ensures At(Hangup(w), path) == At(w, path)
  {
    DisarmedTrap(w);
    hide EndGuard;
  }

  /** What an order to write or delete does as far as it gets: all or nothing. */
  lemma AppliedMoves(w: World, c: Command, part: Part, path: Path)
    requires c.Swap? || c.Unlink?
    ensures At(Apply(w, c), path) == if path != c.path then At(w, path) else if c.Swap? then Some(c.content) else None
    ensures ApplyPart(w, c, part) == if part == Whole then Apply(w, c) else w
  {
    hide Clip;
  }

  lemma UnlinkMoves(w: World, target: Path, t: Tick, path: Path)
    requires w.commit
    ensures At(Perform(w, Unlink(target), t).0, path) == if path == target && Takes(w, t) then None else At(w, path)
  {
    DisarmedTrap(w);
    hide Hangup, EndGuard, DirOf, Apply, ApplyPart, At;
    AppliedMoves(w, Unlink(target), Whole, path);
    if t.fate.Lose? {
      AppliedMoves(w, Unlink(target), t.fate.part, path);
    }
    HungUpKeeps(w, path);
  }

  /** Under a marker only the order itself moves a file, and only its own. */
  lemma UndoMoves(w: World, x: Target, t: Tick, path: Path)
    requires w.commit && x.path !in w.links && DirOf(x.path) !in w.links
    ensures At(Perform(w, UndoOf(x), t).0, path) == if path == x.path && Takes(w, t) then x.orig else At(w, path)
  {
    hide Perform, At, DirOf, Takes;
    if x.orig.Some? {
      SwapMoves(w, x.path, x.orig.value, x.stamp, t, path);
    } else {
      UnlinkMoves(w, x.path, t, path);
    }
  }

  /** Nothing else an abort does moves any. */
  lemma RestMoves(w: World, e: Event, t: Tick)
    requires w.commit && (e == Remote(Inspect) || e == Remote(MarkCommit) || e == Leave || e == Hang)
    ensures Turn(w, e, t).0.disk == w.disk
  {
    DisarmedTrap(w);
    hide Hangup, EndGuard;
  }

  lemma RevertingAt(h: Host, f: Fall, i: nat)
    requires Fell(h, f) && f.n <= i < |h.calls|
    ensures Reverting(f.p, f.vs, h.calls[i].event) && h.calls[i].event != Remote(RemoveTxDir)
  {
    hide Closed, Distinct, NoLinks, OnRecord, AllAttempted, DoneFrom, SmoothFrom, Together;
  }

  lemma RevertStep(h: Host, f: Fall, i: nat, u: User)
    requires Fell(h, f) && f.n <= i < |h.calls| && |h.trace| == |h.calls| + 1 && h.trace[i].commit && u in f.p.ts
    ensures At(h.trace[i + 1], f.p.ts[u].path)
         == if h.calls[i].event == Remote(UndoOf(f.p.ts[u])) && Takes(h.trace[i], h.calls[i].tick) then f.p.ts[u].orig
            else At(h.trace[i], f.p.ts[u].path)
  {
    hide Fell, Takes, Perform, Close, Hangup, DirOf, NoLinks;
    FellBasics(h, f);
    NotMarkedAtFirst(h, f);
    hide Host.Valid, Sound, Delivered, AllFin;
    OneStep(h, i);
    RevertingAt(h, f, i);
    var w, e, t := h.trace[i], h.calls[i].event, h.calls[i].tick;
    if x :| x in f.p.ts && x in f.vs && f.vs[x].dirty && e == Remote(UndoOf(f.p.ts[x])) {
      NoLinkEver(h, f, x, i);
      UndoMoves(w, f.p.ts[x], t, f.p.ts[u].path);
      SameUndo(f.p, x, u);
    } else {
      RestMoves(w, e, t);
    }
  }

  lemma SameUndo(p: Plan, x: User, u: User)
    requires Distinct(p.ts) && x in p.ts && u in p.ts
    ensures p.ts[x].path == p.ts[u].path <==> x == u
    ensures UndoOf(p.ts[x]) == UndoOf(p.ts[u]) <==> x == u
  {
  }

  /** The order to put this file back was given after turning back and before the i-th event, and took place. */
  ghost predicate Undone(h: Host, f: Fall, u: User, i: nat)
    reads h
  {
    && u in f.p.ts && i <= |h.calls| && i <= |h.trace|
    && exists j: nat :: f.n <= j < i && UndoneAt(h, f, u, j)
  }

  ghost predicate UndoneAt(h: Host, f: Fall, u: User, j: nat)
    requires u in f.p.ts && j < |h.calls| && j < |h.trace|
    reads h
  {
    h.calls[j].event == Remote(UndoOf(f.p.ts[u])) && Takes(h.trace[j], h.calls[j].tick)
  }

  lemma MarkKept(h: Host, f: Fall, i: nat, j: nat)
    requires Fell(h, f) && f.n <= i <= j <= |h.calls| && |h.trace| == |h.calls| + 1 && h.trace[i].commit
    ensures h.trace[j].commit
  {
    hide Fell, Host.Valid, Sound, Delivered, AllFin;
    FellBasics(h, f);
    forall k | i <= k < j
      ensures h.calls[k].event != Remote(RemoveTxDir)
    {
      RevertingAt(h, f, k);
    }
    MarkStays(h, i, j);
  }

  /** Under an unheard marker a file is final until its own revert takes place. */
  lemma {:induction false} FinalUntilUndone(h: Host, f: Fall, u: User, i: nat)
    requires Fell(h, f) && f.lost && u in f.p.ts && f.n <= i <= |h.calls| && |h.trace| == |h.calls| + 1
    ensures At(h.trace[i], f.p.ts[u].path) == if Undone(h, f, u, i) then f.p.ts[u].orig else Fin(f.p.ts[u])
    decreases i
  {
    hide Fell, Host.Valid, Sound, Delivered, At, Fin, UndoneAt;
    FellBasics(h, f);
    if f.n < i {
      FinalUntilUndone(h, f, u, i - 1);
      MarkKept(h, f, f.n, i - 1);
      StepsBack(h, f, u, i - 1);
    } else {
      FinalAtFirst(h, f, u);
    }
  }

  lemma FinalAtFirst(h: Host, f: Fall, u: User)
    requires u in f.p.ts && f.n < |h.trace| && AllFin(f.p, h.trace[f.n])
    ensures At(h.trace[f.n], f.p.ts[u].path) == Fin(f.p.ts[u])
  {
  }

  lemma StepsBack(h: Host, f: Fall, u: User, i: nat)
    requires Fell(h, f) && f.n <= i < |h.calls| && |h.trace| == |h.calls| + 1 && h.trace[i].commit && u in f.p.ts
    ensures Undone(h, f, u, i + 1) <==> Undone(h, f, u, i) || UndoneAt(h, f, u, i)
    ensures At(h.trace[i + 1], f.p.ts[u].path)
         == if UndoneAt(h, f, u, i) then f.p.ts[u].orig else At(h.trace[i], f.p.ts[u].path)
  {
    hide Fell, At, UndoOf, Takes, Undone;
    RevertStep(h, f, i, u);
    OneMoreUndone(h, f, u, i);
  }

  lemma OneMoreUndone(h: Host, f: Fall, u: User, i: nat)
    requires u in f.p.ts && f.n <= i < |h.calls| && |h.trace| == |h.calls| + 1
    ensures Undone(h, f, u, i + 1) <==> Undone(h, f, u, i) || UndoneAt(h, f, u, i)
  {
    hide UndoneAt;
    if UndoneAt(h, f, u, i) {
      assert f.n <= i < i + 1;
    }
  }

  // ------------------------------------------------------------- the verdicts

  /** An addition was carried out, a later change of the same file refused and forgotten,
      and the abort's marker landed. */
  ghost predicate LeftBehind(h: Host, f: Fall)
    reads h
  {
    !f.keepDirty && (exists u :: Refused(h, f, u)) && exists i: nat :: f.n <= i && MarkLands(h, i)
  }

  /** The transaction changes this file. */
  predicate Changes(p: Plan, u: User) {
    u in p.ts && Fin(p.ts[u]) != p.ts[u].orig
  }

  /** The commit's own marker landed unheard, two files change, and one of them was put back. */
  ghost predicate Halfway(h: Host, f: Fall)
    reads h
  {
    && (exists i: nat :: i < f.n && MarkLands(h, i))
    && exists u, v :: u != v && Changes(f.p, u) && Changes(f.p, v) && Undone(h, f, u, |h.calls|)
  }

  ghost predicate AllPlanned(c: Codec, p: Plan) {
    forall u | u in p.ts :: Planned(c, p.ops, u, p.ts[u])
  }

  /** A marker that landed after turning back is still there at the end. */
  lemma MarkedAtTheEnd(h: Host, f: Fall, i: nat)
    requires Fell(h, f) && f.n <= i && MarkLands(h, i)
    ensures h.w.commit
  {
    hide Fell, Host.Valid, Sound, Delivered, AllFin, MarkLands;
    FellBasics(h, f);
    MarkIsThere(h, i);
    assert i < |h.calls| by {
      InRange(h, i);
    }
    MarkKept(h, f, i + 1, |h.calls|);
  }

  lemma InRange(h: Host, i: nat)
    requires MarkLands(h, i)
    ensures i < |h.calls| && i < |h.trace|
  {
  }

  /** What was left behind at the end. */
  lemma LeftBehindEnd(h: Host, f: Fall)
    requires Fell(h, f) && LeftBehind(h, f)
    ensures h.w.commit && !f.lost && f.o == AbortedReverted && LeftAt(f.p, f.forgotten, h.w)
    ensures exists u :: u in f.p.ts && u in f.forgotten
  {
    hide Fell, Sound, AllFin, MarkLands, Refused, LeftAt, OrigOrFin, Host.Valid, AllOrig;
    FellBasics(h, f);
    var u :| Refused(h, f, u);
    var i: nat :| f.n <= i && MarkLands(h, i);
    RefusedUser(h, f, u);
    ForgottenExactly(h, f, u);
    MarkedAtTheEnd(h, f, i);
    TwoEnds(h, f);
  }

  lemma RefusedUser(h: Host, f: Fall, u: User)
    requires Refused(h, f, u)
    ensures u in f.p.ts
  {
  }

  lemma TwoEnds(h: Host, f: Fall)
    requires Fell(h, f)
    ensures f.o == AbortedReverted || f.o == RevertUnverified
  {
  }

  /** A marker at the end of a run whose commit's marker was not lost is the abort's. */
  lemma MarkerOfTheAbort(h: Host, f: Fall, i: nat)
    requires Fell(h, f) && !f.lost && MarkLands(h, i)
    ensures f.n <= i
  {
    hide Fell, MarkLands;
    LostExactly(h, f);
  }

  /** "Reverted" is true unless a file's addition was carried out, its removal refused and forgotten,
      and the trap then disarmed; in that case it is false. */
  lemma HonestAbortExactly(c: Codec, h: Host, f: Fall)
    requires Fell(h, f) && f.o == AbortedReverted && AllPlanned(c, f.p)
    ensures AllOrig(f.p, h.w) <==> !LeftBehind(h, f)
  {
    hide Fell, Sound, AllFin, MarkLands, Refused, OrigOrFin, Host.Valid, At, Mid, Fin, Planned;
    FellBasics(h, f);
    NotMarkedAtFirst(h, f);
    if LeftBehind(h, f) {
      LeftBehindEnd(h, f);
      var u :| u in f.p.ts && u in f.forgotten;
      ForgottenIsOff(c, h, f, u);
    } else if h.w.commit {
      NothingForgotten(h, f, |h.calls|);
    }
  }

  /** Under a marker with nothing left behind nothing was forgotten. */
  lemma NothingForgotten(h: Host, f: Fall, i: nat)
    requires Fell(h, f) && !LeftBehind(h, f) && i < |h.trace| && i <= |h.calls| && h.trace[i].commit
    ensures f.forgotten == {}
  {
    hide Fell, Sound, AllFin, MarkLands, Refused, Host.Valid, Delivered;
    FellBasics(h, f);
    NotMarkedAtFirst(h, f);
    if f.forgotten != {} {
      var u :| u in f.forgotten;
      ForgottenExactly(h, f, u);
      var j := CommitNeedsMark(h, i);
      MarkerOfTheAbort(h, f, j);
    }
  }

  // ------------------------------------------------------------ all or nothing

  /** A moment that is neither all nor nothing: under a marker, one file back and one final, or one in between. */
  lemma MixedIsNotAtomic(p: Plan, s: World, u: User, v: User)
    requires s.commit && u in p.ts && v in p.ts
    requires At(s, p.ts[u].path) != Fin(p.ts[u]) && At(s, p.ts[v].path) != p.ts[v].orig
    ensures !Atomic(p, s)
  {
    DisarmedTrap(s);
    hide EndGuard, Mid, Fin;
    assert At(EndGuard(s), p.ts[u].path) == At(s, p.ts[u].path);
    assert At(EndGuard(s), p.ts[v].path) == At(s, p.ts[v].path);
  }

  lemma LeftBehindIsNotAtomic(c: Codec, h: Host, f: Fall)
    requires Fell(h, f) && LeftBehind(h, f) && AllPlanned(c, f.p)
    ensures !Atomic(f.p, h.w) && h.w in h.trace
  {
    hide Fell, Sound, AllFin, LeftBehind, Host.Valid, At, Mid, Fin, Planned, Delivered, Atomic;
    FellBasics(h, f);
    LeftBehindEnd(h, f);
    var u :| u in f.p.ts && u in f.forgotten;
    ForgottenIsOff(c, h, f, u);
    MixedIsNotAtomic(f.p, h.w, u, u);
  }

  /** The first changed file to come back leaves another one final. */
  lemma {:induction false} HalfwayMoment(h: Host, f: Fall, u: User, v: User, x: User, i: nat) returns (k: nat)
    requires Fell(h, f) && f.lost && u != v && Changes(f.p, u) && Changes(f.p, v) && Changes(f.p, x)
    requires i <= |h.calls| && Undone(h, f, x, i)
    ensures k < |h.trace| && !Atomic(f.p, h.trace[k])
    decreases i
  {
    hide Fell, Host.Valid, Sound, Delivered, At, Fin, UndoneAt, Atomic, AllFin;
    FellBasics(h, f);
    var j: nat :| f.n <= j < i && UndoneAt(h, f, x, j);
    if y :| Changes(f.p, y) && Undone(h, f, y, i - 1) {
      k := HalfwayMoment(h, f, u, v, y, i - 1);
    } else {
      k := i;
      var z := if x == u then v else u;
      MarkKept(h, f, f.n, i);
      MarkKept(h, f, f.n, i - 1);
      StepsBack(h, f, x, i - 1);
      StepsBack(h, f, z, i - 1);
      OneAtATime(h, f, x, z, i - 1);
      FinalUntilUndone(h, f, x, i);
      FinalUntilUndone(h, f, z, i);
      MixedIsNotAtomic(f.p, h.trace[i], x, z);
    }
  }

  lemma OneAtATime(h: Host, f: Fall, x: User, z: User, j: nat)
    requires Fell(h, f) && x in f.p.ts && z in f.p.ts && x != z && j < |h.calls| && j < |h.trace|
    ensures !(UndoneAt(h, f, x, j) && UndoneAt(h, f, z, j))
  {
    NotMarkedAtFirst(h, f);
    hide Fell;
    SameUndo(f.p, x, z);
  }

  /** A moment that is not all or nothing has a marker, and one of the two reasons behind it. */
  lemma WhyNotAtomic(h: Host, f: Fall, i: nat)
    requires Fell(h, f) && i < |h.trace| && i <= |h.calls| && !Atomic(f.p, h.trace[i])
    ensures LeftBehind(h, f) || Halfway(h, f)
  {
    hide Fell, Host.Valid, Sound, Delivered, LeftBehind, Halfway, Atomic, MarkLands, OrigOrFin, LeftAt, AllFin;
    FellBasics(h, f);
    NotMarkedAtFirst(h, f);
    var s := h.trace[i];
    NotAtomicIsMarked(f, s);
    if !LeftBehind(h, f) {
      NothingForgotten(h, f, i);
      NotAtomicIsMixed(f, s);
      var j := CommitNeedsMark(h, i);
      assert f.n <= i by {
        LandedAfter(h, f, j);
      }
      MixedIsHalfway(h, f, i);
    }
  }

  lemma LandedAfter(h: Host, f: Fall, j: nat)
    requires Fell(h, f) && MarkLands(h, j)
    ensures f.n <= j + 1
  {
    hide Fell, MarkLands;
    if j < f.n {
      LandedIsLast(h, f, j);
    }
  }

  lemma NotAtomicIsMarked(f: Fall, s: World)
    requires Sound(f.p, f.forgotten, f.lost, s) && !Atomic(f.p, s)
    ensures s.commit && (LeftAt(f.p, f.forgotten, s) || (f.lost && OrigOrFin(f.p, s))) && !AllFin(f.p, s)
  {
    hide Staged, BeforeRemovals, AddsProven, RestoreFrom;
  }

  lemma NotAtomicIsMixed(f: Fall, s: World)
    requires f.forgotten == {} && s.commit && !Atomic(f.p, s)
    requires LeftAt(f.p, f.forgotten, s) || (f.lost && OrigOrFin(f.p, s))
    ensures f.lost && OrigOrFin(f.p, s) && !AllFin(f.p, s) && !AllOrig(f.p, s)
  {
    DisarmedTrap(s);
    hide EndGuard, Mid, Fin;
  }

  lemma MixedIsHalfway(h: Host, f: Fall, i: nat)
    requires Fell(h, f) && f.lost && f.n <= i <= |h.calls| && i < |h.trace|
    requires !AllFin(f.p, h.trace[i]) && !AllOrig(f.p, h.trace[i])
    ensures Halfway(h, f)
  {
    hide Fell, Host.Valid, Sound, Delivered, At, Fin, Undone, MarkLands;
    FellBasics(h, f);
    LostExactly(h, f);
    var u, v := TwoSides(f.p, h.trace[i]);
    FinalUntilUndone(h, f, u, i);
    FinalUntilUndone(h, f, v, i);
    StillUndone(h, f, u, i);
    assert u != v && Changes(f.p, u) && Changes(f.p, v) && Undone(h, f, u, |h.calls|);
  }

  lemma TwoSides(p: Plan, s: World) returns (u: User, v: User)
    requires !AllFin(p, s) && !AllOrig(p, s)
    ensures u in p.ts && At(s, p.ts[u].path) != Fin(p.ts[u])
    ensures v in p.ts && At(s, p.ts[v].path) != p.ts[v].orig
  {
    hide Fin;
    u :| u in p.ts && ContentIn(s.disk, p.ts[u].path) != Fin(p.ts[u]);
    v :| v in p.ts && At(s, p.ts[v].path) != p.ts[v].orig;
  }

  lemma StillUndone(h: Host, f: Fall, u: User, i: nat)
    requires Undone(h, f, u, i) && |h.calls| < |h.trace|
    ensures Undone(h, f, u, |h.calls|)
  {
    hide UndoneAt;
  }

  /** A run that turned back is all or nothing at every moment unless, and only unless,
      one of the two things happened. */
  lemma AtomicExactly(c: Codec, h: Host, f: Fall)
    requires Fell(h, f) && AllPlanned(c, f.p)
    ensures (forall s | s in h.trace :: Atomic(f.p, s)) <==> !LeftBehind(h, f) && !Halfway(h, f)
  {
    hide Fell, LeftBehind, Halfway, Atomic, AllPlanned, Sound, Delivered, Host.Valid, AllFin;
    FellBasics(h, f);
    if LeftBehind(h, f) {
      LeftBehindIsNotAtomic(c, h, f);
    }
    if Halfway(h, f) {
      var k := HalfwayIsNotAtomic(h, f);
    }
    if s :| s in h.trace && !Atomic(f.p, s) {
      var i :| 0 <= i < |h.trace| && h.trace[i] == s;
      WhyNotAtomic(h, f, i);
    }
  }

  lemma HalfwayIsNotAtomic(h: Host, f: Fall) returns (k: nat)
    requires Fell(h, f) && Halfway(h, f)
    ensures k < |h.trace| && !Atomic(f.p, h.trace[k])
  {
    hide Fell, Changes, Undone, MarkLands, Atomic;
    LostExactly(h, f);
    var u, v :| u != v && Changes(f.p, u) && Changes(f.p, v) && Undone(h, f, u, |h.calls|);
    k := HalfwayMoment(h, f, u, v, u, |h.calls|);
  }

  /** Every state a crash can leave behind. Two mixtures remain, never both in one run: under the abort's marker
      one user's file, changed by both phases, at its add-phase content and all others at their originals;
      under a commit's marker that was not heard of, each file original or final. */
  lemma MixedStates(h: Host, f: Fall, s: World)
    requires Fell(h, f) && s in h.trace
    ensures Atomic(f.p, s)
         || (s.commit && !f.lost && exists u :: OneLeft(f.p, u, s))
         || (s.commit && f.lost && f.forgotten == {} && OrigOrFin(f.p, EndGuard(s)))
  {
    hide Fell, Sound, Delivered, Host.Valid, AllFin, AllMarked;
    FellBasics(h, f);
    FewForgotten(h, f);
    hide Atomic, OneLeft;
    if !Atomic(f.p, s) {
      NotAtomicIsMarked(f, s);
      MarkedEnd(f, s);
    }
  }

  /** This user's file, and no other, is where the add phase left it. */
  ghost predicate OneLeft(p: Plan, u: User, s: World) {
    && u in p.ts && p.ts[u].doc1 != p.ts[u].doc0 && p.ts[u].doc2 != p.ts[u].doc1
    && LeftAt(p, {u}, EndGuard(s))
  }

  lemma FewForgotten(h: Host, f: Fall)
    requires Fell(h, f)
    ensures forall u, v | u in f.forgotten && v in f.forgotten :: u == v
    ensures forall u | u in f.forgotten ::
              u in f.p.ts && f.p.ts[u].doc1 != f.p.ts[u].doc0 && f.p.ts[u].doc2 != f.p.ts[u].doc1
  {
    hide Closed, BackedOut, Distinct, NoLinks, MarkLast, AllFin, Booked;
    forall u | u in f.forgotten
      ensures u in f.p.ts && f.p.ts[u].doc1 != f.p.ts[u].doc0 && f.p.ts[u].doc2 != f.p.ts[u].doc1
    {
      ForgottenIsTouched(f.p, f.keepDirty, f.vs, f.forgotten, h.calls[..f.n], u);
    }
  }

  lemma MarkedEnd(f: Fall, s: World)
    requires s.commit && !Atomic(f.p, s) && (LeftAt(f.p, f.forgotten, s) || (f.lost && OrigOrFin(f.p, s)))
    requires f.lost ==> f.forgotten == {}
    requires forall u, v | u in f.forgotten && v in f.forgotten :: u == v
    requires forall u | u in f.forgotten ::
               u in f.p.ts && f.p.ts[u].doc1 != f.p.ts[u].doc0 && f.p.ts[u].doc2 != f.p.ts[u].doc1
    ensures (!f.lost && exists u :: OneLeft(f.p, u, s)) || (f.lost && f.forgotten == {} && OrigOrFin(f.p, EndGuard(s)))
  {
    DisarmedTrap(s);
    hide EndGuard, Mid, Fin;
    if LeftAt(f.p, f.forgotten, s) {
      if u :| u in f.forgotten {
        assert f.forgotten == {u};
        assert OneLeft(f.p, u, s);
      }
    }
  }

  // --------------------------------------------------------- nothing to write

  /** No order to change any file. */
  ghost predicate NoWrites(calls: seq<Call>) {
    forall c | c in calls :: !(c.event.Remote? && (c.event.command.Swap? || c.event.command.Unlink?))
  }

  lemma NoEntryNoWrite(calls: seq<Call>, n: nat)
    requires n <= |calls| && forall x :: WritesOf(calls[..n], x) == []
    ensures forall i | 0 <= i < n ::
              !(calls[i].event.Remote? && (calls[i].event.command.Swap? || calls[i].event.command.Unlink?))
  {
    hide WritesOf;
    forall i | 0 <= i < n && calls[i].event.Remote? && (calls[i].event.command.Swap? || calls[i].event.command.Unlink?)
      ensures false
    {
      assert calls[..n][i] == calls[i];
      WriteFound(calls[..n], calls[i].event.command.path, i);
    }
  }

  /** A run whose operations change no document orders no change, however it ends. */
  lemma IdleFallWritesNothing(h: Host, f: Fall)
    requires Fell(h, f) && forall u | u in f.p.ts :: !TouchedAt(f.p.ts[u], 2)
    ensures NoWrites(h.calls)
  {
    IdleBooks(h, f);
    hide Fell, Host.Valid, Sound, Delivered, AllFin, AllMarked, WritesOf, UndoOf, TouchedAt;
    FellBasics(h, f);
    NoEntryNoWrite(h.calls, f.n);
    forall c | c in h.calls
      ensures !(c.event.Remote? && (c.event.command.Swap? || c.event.command.Unlink?))
    {
      var i :| 0 <= i < |h.calls| && h.calls[i] == c;
      if f.n <= i {
        RevertingAt(h, f, i);
      }
    }
  }

  lemma IdleBooks(h: Host, f: Fall)
    requires Fell(h, f) && forall u | u in f.p.ts :: !TouchedAt(f.p.ts[u], 2)
    ensures f.n <= |h.calls| && forall x :: WritesOf(h.calls[..f.n], x) == []
    ensures forall u | u in f.p.ts :: u in f.vs && !f.vs[u].dirty
  {
    hide Closed, BackedOut, Distinct, NoLinks, MarkLast, AllFin, AllMarked, WritesOf, TouchedAt, Books;
    forall u | u in f.p.ts
      ensures u in f.vs && !f.vs[u].dirty && WritesOf(h.calls[..f.n], f.p.ts[u].path) == []
    {
      IdleFileIsLeftAlone(f.p, f.keepDirty, f.vs, f.forgotten, h.calls[..f.n], u);
    }
  }

  lemma IdleCommitWritesNothing(p: Plan, calls: seq<Call>)
    requires Completed(p, calls) && forall u | u in p.ts :: !TouchedAt(p.ts[u], 2)
    ensures NoWrites(calls)
  {
    hide WritesOf, MarksOf, Mid, Fin;
    assert calls[..|calls|] == calls;
    NoEntryNoWrite(calls, |calls|);
  }

  lemma NoOrdersNoWrites(calls: seq<Call>)
    requires NoOrders(calls)
    ensures NoWrites(calls)
  {
    hide WritesOf, MarksOf;
    assert calls[..|calls|] == calls;
    NoEntryNoWrite(calls, |calls|);
  }

  // ------------------------------------------------------ before turning back

  /** Unless the trap went off, only an order to write a file moved it; a probe shows what it leaves. */
  ghost predicate Forward(w: World, v: World, e: Event) {
    && (v.restored || forall x :: At(v, x) == At(w, x) || Written(e, x, At(v, x)))
    && (w.restored ==> v.restored)
    && (v.probes == w.probes || exists q :: v.probes == w.probes + [q] && q.seen == v.disk)
  }

  /** The event orders this content for this file. */
  predicate Written(e: Event, path: Path, content: Option<Bytes>) {
    && e.Remote?
    && ((e.command.Swap? && e.command.path == path && content == Some(e.command.content))
        || (e.command.Unlink? && e.command.path == path && content == None))
  }

  lemma StillForward(w: World, v: World, e: Event)
    requires v.disk == w.disk && v.restored == w.restored && v.probes == w.probes
    ensures Forward(w, v, e)
  {
  }

  lemma EndForward(w: World, e: Event)
    ensures Forward(w, EndGuard(w), e) && Forward(w, Hangup(w), e)
    ensures EndGuard(w).restored || EndGuard(w).disk == w.disk
  {
    RestoreAllFrame(w);
    if w.commit || w.manifest.None? {
      assert RestoreAll(w) == w;
    }
    hide RestoreAll;
  }

  lemma AppliedForward(w: World, c: Command, part: Part)
    requires !c.RemoveTxDir?
    ensures Forward(w, Apply(w, c), Remote(c)) && Forward(w, ApplyPart(w, c, part), Remote(c))
  {
    hide Clip;
  }

  lemma PerformForward(w: World, c: Command, t: Tick)
    requires !c.RemoveTxDir?
    ensures Forward(w, Perform(w, c, t).0, Remote(c))
  {
    hide Hangup, EndGuard, Apply, ApplyPart, Refuses, Forward;
    EndForward(w, Remote(c));
    StillForward(w, w, Remote(c));
    AppliedForward(w, c, Whole);
    if t.fate.Fail? || t.fate.Lose? {
      AppliedForward(w, c, t.fate.part);
    }
  }

  lemma AskForward(w: World, user: User, key: Key, full: bool, t: Tick)
    ensures Forward(w, Ask(w, user, key, full, t), Question(user, key, full))
  {
    EndForward(w, Question(user, key, full));
    var u := if t.dies && w.conn then Hangup(w) else w;
    var v := Ask(w, user, key, full, t);
    var q := Probe(user, key, full, t.verdict, u.disk);
    EndRecords(w);
    hide EndGuard, Hangup;
    assert u.probes == w.probes && v.probes == w.probes + [q] && q.seen == v.disk;
  }

  lemma OthersForward(w: World, e: Event, t: Tick)
    requires !e.Remote? && !e.Question?
    ensures Forward(w, Turn(w, e, t).0, e)
  {
    hide EndGuard, Hangup, Clip, Forward;
    EndForward(w, e);
    StillForward(w, w, e);
    match e
    case Keep(user, content) =>
      KeepForward(w, user, content, t);
    case KeepSnapshot(user, content) =>
      KeepForward(w, user, content, t);
    case Start =>
      StillForward(w, w.(guard := true), e);
    case _ =>
  }

  lemma KeepForward(w: World, user: User, content: Bytes, t: Tick)
    ensures Forward(w, SaveLocally(w, user, content, t).0, Keep(user, content))
    ensures Forward(w, SaveSnapshot(w, user, content, t).0, KeepSnapshot(user, content))
  {
    hide Clip, Forward, SaveLocally, SaveSnapshot;
    KeepsElsewhere(w, user, content, t);
    StillForward(w, SaveLocally(w, user, content, t).0, Keep(user, content));
    StillForward(w, SaveSnapshot(w, user, content, t).0, KeepSnapshot(user, content));
  }

  lemma KeepsElsewhere(w: World, user: User, content: Bytes, t: Tick)
    ensures var v := SaveLocally(w, user, content, t).0; v == w.(local := v.local)
    ensures var v := SaveSnapshot(w, user, content, t).0; v == w.(snapshots := v.snapshots)
  {
    hide Clip;
  }

  lemma TurnForward(w: World, e: Event, t: Tick)
    requires e != Remote(RemoveTxDir)
    ensures Forward(w, Turn(w, e, t).0, e)
  {
    hide Forward, Perform, Ask, CheckGuard, Close, SaveLocally, SaveSnapshot, StartGuard, Hangup;
    match e
    case Remote(c) => PerformForward(w, c, t);
    case Question(user, key, full) => AskForward(w, user, key, full, t);
    case _ => OthersForward(w, e, t);
  }

  /** Until the n-th event the client is there, and every order for a target is one of the phases'. */
  ghost predicate ForwardUntil(h: Host, p: Plan, n: nat)
    reads h
  {
    && h.Valid() && h.start.probes == [] && n <= |h.calls| && Together(h.calls[..n])
    && forall i, u | 0 <= i < n && u in p.ts :: OrderStaged(p.ts[u], h.calls[i])
  }

  predicate OrderStaged(t: Target, c: Call) {
    forall x | x in WriteTo(c, t.path) :: x.content == Mid(t) || x.content == Fin(t)
  }

  /** Every file holds what the add phase or the remove phase made of it. */
  ghost predicate AllMidOrFin(p: Plan, s: World) {
    forall u | u in p.ts :: At(s, p.ts[u].path) == Mid(p.ts[u]) || At(s, p.ts[u].path) == Fin(p.ts[u])
  }

  lemma MidOrFinStep(p: Plan, w: World, v: World, c: Call)
    requires Forward(w, v, c.event) && !v.restored && AllMidOrFin(p, w)
    requires forall u | u in p.ts :: OrderStaged(p.ts[u], c)
    ensures AllMidOrFin(p, v)
  {
    hide Mid, Fin, At;
    forall u | u in p.ts
      ensures At(v, p.ts[u].path) == Mid(p.ts[u]) || At(v, p.ts[u].path) == Fin(p.ts[u])
    {
      var path := p.ts[u].path;
      if Written(c.event, path, At(v, path)) {
        assert Write(At(v, path), c.reply) in WriteTo(c, path);
      }
    }
  }

  /** The probe that completes the proof sees every file at its add-phase content. */
  lemma ProofShows(p: Plan, w: World, v: World, e: Event)
    requires Forward(w, v, e) && !AddsProven(p, w.probes) && AddsProven(p, v.probes)
    ensures AllMidOrFin(p, v)
  {
    hide Mid, Fin;
    var op :| op in p.ops && op.action == Adding && !exists q | q in w.probes :: AddProven(p, op, q);
    var q :| q in v.probes && AddProven(p, op, q);
    assert q !in w.probes;
  }

  /** From the moment every addition is proven, and until the trap goes off or the client turns back,
      no file is without its additions. */
  lemma {:induction false} ProvenIsMidOrFin(h: Host, p: Plan, n: nat, i: nat, a: Op)
    requires ForwardUntil(h, p, n) && i <= n && i < |h.trace| && a in p.ops && a.action == Adding
    requires !h.trace[i].restored && AddsProven(p, h.trace[i].probes)
    ensures AllMidOrFin(p, h.trace[i])
    decreases i
  {
    hide Host.Valid, Turn, AllMidOrFin, AddProven, OrderStaged, Forward;
    Ends(h);
    if i > 0 {
      OneStep(h, i - 1);
      var w, v, c := h.trace[i - 1], h.trace[i], h.calls[i - 1];
      assert c in h.calls[..n] by {
        assert h.calls[..n][i - 1] == c;
      }
      TurnForward(w, c.event, c.tick);
      NotYetRestored(w, v, c.event);
      if AddsProven(p, w.probes) {
        ProvenIsMidOrFin(h, p, n, i - 1, a);
        MidOrFinStep(p, w, v, c);
      } else {
        ProofShows(p, w, v, c.event);
      }
    }
  }

  lemma NotYetRestored(w: World, v: World, e: Event)
    requires Forward(w, v, e) && !v.restored
    ensures !w.restored
  {
  }

  lemma {:induction false} EntryOf(calls: seq<Call>, path: Path, n: nat, i: nat)
    requires i < n <= |calls|
    ensures forall x | x in WriteTo(calls[i], path) :: x in WritesOf(calls[..n], path)
  {
    assert calls[..n][i] == calls[i];
    if WriteTo(calls[i], path) != [] {
      WriteFound(calls[..n], path, i);
    }
  }

  lemma BooksAreStaged(t: Target, keepDirty: bool, v: View, forgot: bool, ws: seq<Write>)
    requires Books(t, keepDirty, v, forgot, ws)
    ensures forall x | x in ws :: x.content == Mid(t) || x.content == Fin(t)
  {
    hide Mid, Fin;
  }

  /** A run that turned back went forward until then. */
  lemma FallGoesForward(h: Host, f: Fall)
    requires Fell(h, f) && h.start.probes == []
    ensures ForwardUntil(h, f.p, f.n)
  {
    hide Sound, Delivered, Distinct, NoLinks, RevertsFrom, AllAttempted, DoneFrom, SmoothFrom, AllFin, MarkLast, Logged,
         AllSmooth, Books, OrderStaged;
    assert h.calls[..|h.calls| - 1][..f.n] == h.calls[..f.n];
    forall i, u | 0 <= i < f.n && u in f.p.ts
      ensures OrderStaged(f.p.ts[u], h.calls[i])
    {
      var t := f.p.ts[u];
      BooksAreStaged(t, f.keepDirty, f.vs[u], u in f.forgotten, WritesOf(h.calls[..f.n], t.path));
      StagedByBooks(t, h.calls, f.n, i);
    }
  }

  lemma StagedByBooks(t: Target, calls: seq<Call>, n: nat, i: nat)
    requires i < n <= |calls|
    requires forall x | x in WritesOf(calls[..n], t.path) :: x.content == Mid(t) || x.content == Fin(t)
    ensures OrderStaged(t, calls[i])
  {
    hide Mid, Fin, WritesOf, WriteTo;
    EntryOf(calls, t.path, n, i);
  }

  lemma WholeRecord(calls: seq<Call>)
    ensures calls[..|calls|] == calls
  {
  }

  /** So did one that committed. */
  lemma CommitGoesForward(h: Host, p: Plan, n: nat)
    requires h.Valid() && h.start.probes == [] && Completed(p, h.calls) && FinalSince(h, p, n)
    ensures ForwardUntil(h, p, n)
  {
    hide Host.Valid, AllFin, OrderStaged, Completed, NoForeignWrites;
    forall i, u | 0 <= i < n && u in p.ts
      ensures OrderStaged(p.ts[u], h.calls[i])
    {
      CompletedIsStaged(p, h.calls, u);
      WholeRecord(h.calls);
      StagedByBooks(p.ts[u], h.calls, |h.calls|, i);
    }
  }

  lemma CompletedIsStaged(p: Plan, calls: seq<Call>, u: User)
    requires Completed(p, calls) && u in p.ts
    ensures forall x | x in WritesOf(calls, p.ts[u].path) :: x.content == Mid(p.ts[u]) || x.content == Fin(p.ts[u])
  {
    hide Mid, Fin, WritesOf, MarksOf, NoForeignWrites;
  }

  // --------------------------------------------------- the operator's copies

  /** Puts something in the operator's copy of this user's file. */
  predicate Keeping(c: Call, u: User) {
    c.event.Keep? && c.event.user == u && (c.tick.fate.Ok? || (c.tick.fate.Fail? && c.tick.fate.part.Cut?))
  }

  function LastKeep(calls: seq<Call>, u: User): (c: Option<Call>)
    ensures c.Some? ==> Keeping(c.value, u) && c.value in calls
  {
    if calls == [] then None
    else if Keeping(calls[|calls| - 1], u) then Some(calls[|calls| - 1])
    else LastKeep(calls[..|calls| - 1], u)
  }

  /** What it leaves there. */
  function LeftBy(c: Call): Bytes
    requires c.event.Keep? && (c.tick.fate.Fail? ==> c.tick.fate.part.Cut?)
  {
    if c.tick.fate.Fail? then Clip(c.event.content, c.tick.fate.part.n) else c.event.content
  }

  /** The write of the copy was cut before its end. */
  predicate CutShort(c: Call) {
    c.event.Keep? && c.tick.fate.Fail? && c.tick.fate.part.Cut? && c.tick.fate.part.n < |c.event.content|
  }

  lemma OthersKeepNothing(w: World, e: Event, t: Tick)
    requires !e.Keep?
    ensures Turn(w, e, t).0.local == w.local
  {
    hide Perform, EndGuard, Hangup, Clip, SaveSnapshot;
    EndRecords(w);
    match e
    case Remote(command) => RecordsKept(w, command, t);
    case Leave => RecordsKept(w, Inspect, t);
    case KeepSnapshot(user, content) => KeepsElsewhere(w, user, content, t);
    case _ =>
  }

  lemma KeepLeaves(w: World, c: Call, u: User)
    requires c.event.Keep?
    ensures var v := Turn(w, c.event, c.tick).0;
            if Keeping(c, u) then v.local == w.local[u := LeftBy(c)]
            else (u in v.local <==> u in w.local) && (u in w.local ==> v.local[u] == w.local[u])
  {
    hide Clip, SaveLocally;
    KeptAs(w, c.event.user, c.event.content, c.tick);
  }

  lemma KeptAs(w: World, user: User, content: Bytes, t: Tick)
    ensures SaveLocally(w, user, content, t).0.local
         == if t.fate.Ok? then w.local[user := content]
            else if t.fate.Fail? && t.fate.part.Cut? then w.local[user := Clip(content, t.fate.part.n)]
            else w.local
  {
    hide Clip;
  }

  /** The copy is what the last write of it left. */
  lemma {:induction false} CopyIsLastKeep(h: Host, u: User, i: nat)
    requires h.Valid() && h.start.local == map[] && i <= |h.calls|
    ensures |h.trace| == |h.calls| + 1
    ensures var c := LastKeep(h.calls[..i], u);
            && (u in h.trace[i].local <==> c.Some?)
            && (c.Some? ==> u in h.trace[i].local && h.trace[i].local[u] == LeftBy(c.value))
  {
    hide Turn, Host.Valid, Keeping, LeftBy;
    Ends(h);
    if i > 0 {
      CopyIsLastKeep(h, u, i - 1);
      OneStep(h, i - 1);
      LastOfMore(h.calls, u, i);
      if h.calls[i - 1].event.Keep? {
        KeepLeaves(h.trace[i - 1], h.calls[i - 1], u);
      } else {
        NotKeeping(h.calls[i - 1], u);
        OthersKeepNothing(h.trace[i - 1], h.calls[i - 1].event, h.calls[i - 1].tick);
      }
    }
  }

  lemma NotKeeping(c: Call, u: User)
    requires !c.event.Keep?
    ensures !Keeping(c, u)
  {
  }

  lemma LastOfMore(calls: seq<Call>, u: User, i: nat)
    requires 0 < i <= |calls|
    ensures LastKeep(calls[..i], u)
         == if Keeping(calls[i - 1], u) then Some(calls[i - 1]) else LastKeep(calls[..i - 1], u)
  {
    hide Keeping;
    assert calls[..i][..i - 1] == calls[..i - 1];
  }

  lemma ClipIsShort(text: Bytes, n: nat)
    ensures Clip(text, n) == text <==> n >= |text|
  {
  }

  /** A run's copy of an original is whole if and only if it was written and the last write of it was not cut. */
  lemma WholeExactly(h: Host, p: Plan, u: User)
    requires h.Valid() && h.start.local == map[] && KeepsOriginal(p, h.calls) && u in p.ts && p.ts[u].orig.Some?
    ensures var c := LastKeep(h.calls, u);
            && (u in h.w.local <==> c.Some?)
            && (LocalOk(p.ts[u], u, h.w) <==> c.Some? && !CutShort(c.value))
  {
    hide Host.Valid;
    Ends(h);
    CopyIsLastKeep(h, u, |h.calls|);
    assert h.calls[..|h.calls|] == h.calls;
    var c := LastKeep(h.calls, u);
    if c.Some? && c.value.tick.fate.Fail? {
      ClipIsShort(c.value.event.content, c.value.tick.fate.part.n);
    }
    hide Clip;
  }

  // ------------------------------------------------------- harmless failures

  /** No non-zero exit of an order to change a file, and no reply but success to an order for the marker. */
  predicate Benign(c: Call) {
    && (c.event.Remote? && (c.event.command.Swap? || c.event.command.Unlink?) ==> !c.tick.fate.Fail?)
    && (Marking(c) ==> c.tick.fate.Ok?)
  }

  ghost predicate AllBenign(calls: seq<Call>) {
    forall c | c in calls :: Benign(c)
  }

  lemma BenignWrite(w: World, c: Call, path: Path)
    requires Benign(c) && WriteTo(c, path) != [] && path !in w.links && DirOf(path) !in w.links
    requires c.reply == Turn(w, c.event, c.tick).1
    ensures c.reply != Exit
  {
    hide DirOf, Hangup;
  }

  lemma BenignMark(w: World, c: Call)
    requires Benign(c) && Marking(c) && Lands(w, c.tick) && c.reply == Turn(w, c.event, c.tick).1
    ensures c.reply == Done
  {
  }

  lemma NobodyRefused(h: Host, f: Fall, u: User)
    requires Fell(h, f) && AllBenign(h.calls)
    ensures !Refused(h, f, u)
  {
    hide Fell, Host.Valid, Sound, Delivered, AllFin, Benign, WritesOf, WriteTo, Turn;
    FellBasics(h, f);
    if Refused(h, f, u) {
      var path, part := f.p.ts[u].path, h.calls[..f.n];
      var ws := WritesOf(part, path);
      var a, b :| 0 <= a < b < |ws| && ws[a].reply == Done && ws[b].reply == Exit;
      var i := WriteBehind(part, path, b);
      assert part[i] == h.calls[i] && h.calls[i] in h.calls;
      OneStep(h, i);
      NoLinkEver(h, f, u, i);
      BenignWrite(h.trace[i], h.calls[i], path);
      EntryReply(h.calls[i], path);
    }
  }

  lemma EntryReply(c: Call, path: Path)
    requires WriteTo(c, path) != []
    ensures WriteTo(c, path)[0].reply == c.reply
  {
  }

  lemma NoMarkUnheard(h: Host, f: Fall, i: nat)
    requires Fell(h, f) && AllBenign(h.calls) && i < f.n
    ensures !MarkLands(h, i)
  {
    hide Fell, Host.Valid, Sound, Delivered, AllFin, Benign, Turn, Lands, Marking;
    if MarkLands(h, i) {
      FellBasics(h, f);
      OneStep(h, i);
      assert h.calls[i] in h.calls;
      BenignMark(h.trace[i], h.calls[i]);
      LandedIsLast(h, f, i);
    }
  }

  /** Whatever else fails - connections, guard sessions, backups, health checks, lost replies to writes -
      the run is all or nothing at every moment and its report is true. */
  lemma OtherFailuresAreHarmless(c: Codec, h: Host, f: Fall)
    requires Fell(h, f) && AllPlanned(c, f.p) && AllBenign(h.calls)
    ensures forall s | s in h.trace :: Atomic(f.p, s)
    ensures f.forgotten == {} && !f.lost && (f.o == AbortedReverted ==> AllOrig(f.p, h.w))
  {
    hide Fell, AllPlanned, AllBenign, Atomic, Refused, MarkLands, AllOrig;
    forall u
      ensures !Refused(h, f, u)
    {
      NobodyRefused(h, f, u);
    }
    forall i: nat | i < f.n
      ensures !MarkLands(h, i)
    {
      NoMarkUnheard(h, f, i);
    }
    AtomicExactly(c, h, f);
    LostExactly(h, f);
    ForgottenUsers(h, f);
    if f.forgotten != {} {
      var u :| u in f.forgotten;
      ForgottenExactly(h, f, u);
    }
    if f.o == AbortedReverted {
      HonestAbortExactly(c, h, f);
    }
  }

  lemma ForgottenUsers(h: Host, f: Fall)
    requires Fell(h, f)
    ensures f.forgotten <= f.p.ts.Keys
  {
    hide Sound, Delivered;
    FellBasics(h, f);
  }

  /** An abort during which nothing goes wrong succeeds, whatever made it necessary, if the connection lasted so far. */
  lemma QuietAbortReverts(h: Host, f: Fall)
    requires Fell(h, f) && h.start.conn && SmoothFrom(f.n, h.calls)
    requires forall i | 0 <= i < f.n && i < |h.calls| :: !h.calls[i].tick.dies
    ensures f.o == AbortedReverted && h.w.commit
  {
    hide Host.Valid, Sound, Delivered, AllFin, OnRecord, RevertsFrom, AllAttempted, DoneFrom, SmoothFrom, Distinct,
         NoLinks;
    FellBasics(h, f);
    forall i | 0 <= i < f.n
      ensures h.calls[i].event != Hang
    {
      assert h.calls[..|h.calls| - 1][i] == h.calls[i];
    }
    Ends(h);
    StaysUp(h, 0, f.n);
  }

  /** An abort of a run in which nothing went wrong: the reason was a verdict, and everything is back. */
  lemma CalmAbort(c: Codec, h: Host, f: Fall)
    requires Fell(h, f) && AllPlanned(c, f.p) && h.start.conn && h.calm
    ensures f.o == AbortedReverted && h.w.commit && AllOrig(f.p, h.w)
    ensures forall s | s in h.trace :: Atomic(f.p, s)
  {
    hide Fell, AllPlanned, Atomic, AllOrig, Host.Valid, Sound, Delivered, AllFin;
    FellBasics(h, f);
    CalmCalls(h, f.n);
    OtherFailuresAreHarmless(c, h, f);
    QuietAbortReverts(h, f);
  }

  lemma CalmCalls(h: Host, n: nat)
    requires h.Valid() && h.calm && n <= |h.calls|
    ensures AllBenign(h.calls) && SmoothFrom(n, h.calls) && forall i | 0 <= i < |h.calls| :: !h.calls[i].tick.dies
  {
    hide Logged;
    forall i | 0 <= i < |h.calls|
      ensures Smooth(h.calls[i].tick)
    {
      assert h.calls[i] in h.calls;
    }
  }
}
