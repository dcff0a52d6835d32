/** Where the promises stop: whole transactions that end in each exception, whatever they start from. */
module Pitfalls {
  import opened Basics
  import opened AuthKeys
  import opened World
  import opened TxState
  import opened TxSteps
  import opened TrapLaws
  import opened Ending
  import opened Loading
  import opened Ledger
  import opened Records
  import opened Tx
  import Manifest
  import Shell
  import H = Host
  import L = AuthKeysLaws

  // -------------------------------------------------------- a fair environment

  /** What an sshd that follows the files says of a key. */
  function Says(c: Codec, p: Plan, w: World, user: User, key: Key): Verdict {
    if user in p.ts && Holds(c, ContentIn(w.disk, p.ts[user].path), key) then Accepted else Rejected
  }

  /** Nothing goes wrong, and sshd follows the files. */
  function FairTick(c: Codec, p: Plan, w: World, e: Event): Tick {
    Tick(Ok, false, false, false, if e.Question? then Says(c, p, w, e.user, e.key) else Inconclusive)
  }

  /** That, but for the fate of some events. */
  function Fated(c: Codec, p: Plan, w: World, e: Event, fate: Fate): Tick {
    FairTick(c, p, w, e).(fate := fate)
  }

  /** An environment in which only orders can meet with anything but success. */
  ghost predicate OnlyOrders(fate: (World, Event) -> Fate) {
    forall w, e :: !Ordering(e) ==> fate(w, e) == Ok
  }

  function ScriptOf(c: Codec, p: Plan, fate: (World, Event) -> Fate): (nat, World, Event) -> Tick {
    (n: nat, w: World, e: Event) => Fated(c, p, w, e, fate(w, e))
  }

  /** Every event met the fate that was meant for it, and nothing ever broke by itself. */
  ghost predicate Met(h: H.Host, c: Codec, p: Plan, fate: (World, Event) -> Fate)
    reads h
  {
    && |h.trace| == |h.calls| + 1
    && forall i | 0 <= i < |h.calls| ::
         h.calls[i].tick == Fated(c, p, h.trace[i], h.calls[i].event, fate(h.trace[i], h.calls[i].event))
  }

  lemma ScriptIsMet(h: H.Host, c: Codec, p: Plan, fate: (World, Event) -> Fate)
    requires h.Valid() && h.script == ScriptOf(c, p, fate)
    ensures Met(h, c, p, fate)
  {
    hide Turn, H.Host.Valid, Fated;
    Ends(h);
    forall i | 0 <= i < |h.calls|
      ensures h.calls[i].tick == Fated(c, p, h.trace[i], h.calls[i].event, fate(h.trace[i], h.calls[i].event))
    {
      OneStep(h, i);
    }
  }

  lemma ProbesFrame(w: World, e: Event, t: Tick)
    ensures match e
            case Question(user, key, full) =>
              !t.dies ==> Turn(w, e, t).0.probes == w.probes + [Probe(user, key, full, t.verdict, w.disk)]
            case _ => Turn(w, e, t).0.probes == w.probes
  {
    hide Perform, EndGuard, Hangup, Clip, SaveLocally, SaveSnapshot;
    EndRecords(w);
    match e
    case Remote(command) => RecordsKept(w, command, t);
    case Keep(user, content) => SaveLocallyFrame(w, user, content, t);
    case KeepSnapshot(user, content) => SnapshotFrame(w, user, content, t);
    case _ =>
  }

  lemma SnapshotFrame(w: World, user: User, content: Bytes, t: Tick)
    ensures SaveSnapshot(w, user, content, t).0.probes == w.probes
  {
    hide Clip;
  }

  lemma MetStep(h: H.Host, c: Codec, p: Plan, fate: (World, Event) -> Fate, i: nat)
    requires h.Valid() && Met(h, c, p, fate) && i < |h.calls| && Answers(c, p, h.trace[i].probes)
    ensures Answers(c, p, h.trace[i + 1].probes)
  {
    hide Turn, H.Host.Valid, Holds;
    OneStep(h, i);
    ProbesFrame(h.trace[i], h.calls[i].event, h.calls[i].tick);
  }

  /** Then every answer on record follows the files. */
  lemma {:induction false} MetAnswers(h: H.Host, c: Codec, p: Plan, fate: (World, Event) -> Fate, i: nat)
    requires h.Valid() && Met(h, c, p, fate) && h.start.probes == [] && i <= |h.calls|
    ensures Answers(c, p, h.trace[i].probes)
  {
    hide H.Host.Valid, Met, Answer;
    Ends(h);
    if i > 0 {
      MetAnswers(h, c, p, fate, i - 1);
      MetStep(h, c, p, fate, i - 1);
    }
  }

  /** The connection is up until the client hangs up. */
  lemma MetConnection(h: H.Host, c: Codec, fate: (World, Event) -> Fate, f: Fall, i: nat)
    requires Fell(h, f) && Met(h, c, f.p, fate) && h.start.conn && i < |h.calls|
    ensures i < |h.trace| && h.trace[i].conn
  {
    hide Closed, OnRecord, Distinct, NoLinks, RevertsFrom, AllAttempted, DoneFrom, SmoothFrom;
    forall j | 0 <= j < i
      ensures !h.calls[j].tick.dies && h.calls[j].event != Hang
    {
      assert h.calls[..|h.calls| - 1][j] == h.calls[j];
    }
    hide Fell, Met;
    FellBasics(h, f);
    hide H.Host.Valid;
    Ends(h);
    StaysUp(h, 0, i);
  }

  lemma MetSmoothly(h: H.Host, c: Codec, p: Plan, fate: (World, Event) -> Fate, n: nat)
    requires Met(h, c, p, fate) && n <= |h.calls|
    requires forall i | 0 <= i < n :: fate(h.trace[i], h.calls[i].event) == Ok
    ensures H.AllSmooth(h.calls[..n])
  {
    forall x | x in h.calls[..n]
      ensures Smooth(x.tick)
    {
      var i :| 0 <= i < n && h.calls[..n][i] == x;
    }
  }

  /** A record without orders holds none. */
  lemma NoOrderAt(calls: seq<Call>, i: nat)
    requires NoOrders(calls) && i < |calls|
    ensures !Ordering(calls[i].event)
  {
    hide MarksOf, WritesOf;
    if Marking(calls[i]) {
      MarksFound(calls, i);
    } else if Ordering(calls[i].event) {
      WriteFound(calls, calls[i].event.command.path, i);
    }
  }

  /** A request that a fair host would let through, unless its names clash. */
  ghost predicate Admissible(cfg: Config, site: H.Site, w: World) {
    && Fresh(w, w.disk, w.links) && w.conn && Separate(cfg, site) && !cfg.dryRun
    && Acceptable(cfg.codec, cfg.ops) && AllLoadable(cfg, site, w)
    && var p := PlanFor(cfg, site, w); Expected(cfg.codec, p) && Peopled(p)
  }

  ghost predicate Welcome(cfg: Config, site: H.Site, w: World) {
    Admissible(cfg, site, w) && NamesApart(PlanFor(cfg, site, w))
  }

  /** Something met with a fate other than success before the run turned back. */
  ghost predicate Odd(h: H.Host, fate: (World, Event) -> Fate, n: nat)
    reads h
  {
    n <= |h.calls| && n <= |h.trace| && exists i :: 0 <= i < n && fate(h.trace[i], h.calls[i].event) != Ok
  }

  lemma NotOddIsSmooth(h: H.Host, c: Codec, p: Plan, fate: (World, Event) -> Fate, n: nat)
    requires Met(h, c, p, fate) && n <= |h.calls| && !Odd(h, fate, n)
    ensures H.AllSmooth(h.calls[..n])
  {
    hide Fated;
    MetSmoothly(h, c, p, fate, n);
  }

  lemma NoOrdersNothingOdd(h: H.Host, c: Codec, p: Plan, fate: (World, Event) -> Fate, n: nat)
    requires Met(h, c, p, fate) && n <= |h.calls| && NoOrders(h.calls) && OnlyOrders(fate)
    ensures H.AllSmooth(h.calls[..n])
  {
    hide NoOrders, Ordering, Fated;
    forall i | 0 <= i < n
      ensures fate(h.trace[i], h.calls[i].event) == Ok
    {
      NoOrderAt(h.calls, i);
    }
    MetSmoothly(h, c, p, fate, n);
  }

  /** A whole transaction in such an environment: it commits, or some order before the abort met with another fate. */
  method Transact(cfg: Config, site: H.Site, w: World, fate: (World, Event) -> Fate)
    returns (t: T, outcome: Outcome)
    requires Welcome(cfg, site, w) && OnlyOrders(fate)
    ensures t.cfg == cfg && t.host.start == w && t.plan == PlanFor(cfg, site, w) && AllPlanned(cfg.codec, t.plan)
    ensures t.host.Valid() && Met(t.host, cfg.codec, t.plan, fate)
    ensures outcome == Committed || outcome == AbortedReverted || outcome == RevertUnverified
    ensures outcome == Committed ==> Completed(t.plan, t.host.calls)
    ensures outcome != Committed ==> Fell(t.host, t.TheFall(outcome)) && Odd(t.host, fate, t.turned)
  {
    hide Separate, Acceptable, AllLoadable, PlanFor, Expected, Peopled, Met, Answers, Completed, AllPlanned, NoOrders,
         Odd, H.AllSmooth, OnlyOrders, Fell, T.Views, T.Earned, TurnedBack, Closed, T.BackedUp;
    var plan := PlanFor(cfg, site, w);
    var host := new H.Host(site, w, ScriptOf(cfg.codec, plan, fate));
    t := new T(cfg, host);
    outcome := t.Run();
    ScriptIsMet(host, cfg.codec, plan, fate);
    if outcome == NothingChanged {
      NoOrdersNothingOdd(host, cfg.codec, plan, fate, t.turned);
    } else {
      MetAnswers(host, cfg.codec, plan, fate, |host.calls|);
      Ends(host);
      if outcome != Committed && !Odd(host, fate, t.turned) {
        NotOddIsSmooth(host, cfg.codec, plan, fate, t.turned);
      }
    }
  }

  // ------------------------------------------------- the forgotten addition

  /** The remove phase's order to write this user's file. */
  predicate FinalSwap(p: Plan, u: User, e: Event) {
    && u in p.ts && e.Remote? && e.command.Swap?
    && e.command.path == p.ts[u].path && Some(e.command.content) == Fin(p.ts[u])
  }

  /** Only that order exits non-zero. */
  function RefusesFinal(p: Plan, u: User): (World, Event) -> Fate {
    (w: World, e: Event) => if FinalSwap(p, u, e) then Fail(Nothing) else Ok
  }

  lemma RefusedReply(w: World, p: Plan, u: User, e: Event, t: Tick)
    requires FinalSwap(p, u, e) && t.fate == Fail(Nothing) && !t.dies
    ensures Turn(w, e, t).1 == if w.conn then Exit else Lost
  {
    hide Fin, Hangup;
  }

  lemma RefusedFinal(h: H.Host, c: Codec, p: Plan, u: User, i: nat)
    requires h.Valid() && Met(h, c, p, RefusesFinal(p, u)) && i < |h.calls| && FinalSwap(p, u, h.calls[i].event)
    ensures h.calls[i].reply == if h.trace[i].conn then Exit else Lost
    ensures WriteTo(h.calls[i], p.ts[u].path) == [Write(Fin(p.ts[u]), h.calls[i].reply)]
  {
    hide H.Host.Valid, Turn, Fin;
    OneStep(h, i);
    RefusedReply(h.trace[i], p, u, h.calls[i].event, h.calls[i].tick);
  }

  /** A commit would have carried the order out. */
  lemma RefusedNeverCompletes(h: H.Host, c: Codec, p: Plan, u: User)
    requires h.Valid() && Met(h, c, p, RefusesFinal(p, u)) && u in p.ts
    requires p.ts[u].doc1 != p.ts[u].doc0 && p.ts[u].doc2 != p.ts[u].doc1
    ensures !Completed(p, h.calls)
  {
    hide H.Host.Valid, Met, Mid, MarksOf, WritesOf;
    var path := p.ts[u].path;
    if Completed(p, h.calls) {
      assert WritesOf(h.calls, path)[1] == Write(Fin(p.ts[u]), Done);
      var i := WriteBehind(h.calls, path, 1);
      RefusedFinal(h, c, p, u, i);
    }
  }

  /** So that order is the odd one, and the books hold its refusal. */
  lemma RefusalIsBooked(h: H.Host, c: Codec, f: Fall, u: User)
    requires Fell(h, f) && Met(h, c, f.p, RefusesFinal(f.p, u)) && h.start.conn && u in f.p.ts
    requires Odd(h, RefusesFinal(f.p, u), f.n)
    ensures f.n <= |h.calls| && Write(Fin(f.p.ts[u]), Exit) in WritesOf(h.calls[..f.n], f.p.ts[u].path)
  {
    hide Fell, Met, H.Host.Valid, Sound, Delivered, AllFin, WritesOf, WriteTo, Fin, AllMarked;
    FellBasics(h, f);
    var fate := RefusesFinal(f.p, u);
    var i :| 0 <= i < f.n && fate(h.trace[i], h.calls[i].event) != Ok;
    MetConnection(h, c, fate, f, i);
    RefusedFinal(h, c, f.p, u, i);
    assert h.calls[..f.n][i] == h.calls[i];
    WriteFound(h.calls[..f.n], f.p.ts[u].path, i);
  }

  lemma RefusalInBooks(t: Target, keepDirty: bool, v: View, forgot: bool, ws: seq<Write>)
    requires Books(t, keepDirty, v, forgot, ws) && Write(Fin(t), Exit) in ws
    requires t.doc1 != t.doc0 && Mid(t) != Fin(t)
    ensures forgot == !keepDirty && v.dirty == keepDirty
  {
    hide Mid, Fin;
  }

  lemma OneForgotten(h: H.Host, f: Fall, u: User)
    requires Fell(h, f) && u in f.p.ts && Write(Fin(f.p.ts[u]), Exit) in WritesOf(h.calls[..f.n], f.p.ts[u].path)
    requires f.p.ts[u].doc1 != f.p.ts[u].doc0 && Mid(f.p.ts[u]) != Fin(f.p.ts[u])
    ensures f.forgotten == (if f.keepDirty then {} else {u}) && u in f.vs && f.vs[u].dirty == f.keepDirty
  {
    hide Closed, BackedOut, Distinct, NoLinks, WritesOf, Books, Mid, Fin, MarkLast, AllFin, AllMarked;
    RefusalInBooks(f.p.ts[u], f.keepDirty, f.vs[u], u in f.forgotten, WritesOf(h.calls[..f.n], f.p.ts[u].path));
    hide Fell;
    if f.keepDirty && f.forgotten != {} {
      var x :| x in f.forgotten;
      ForgottenUsers(h, f);
      Records.ForgottenExactly(h, f, x);
    }
  }

  /** Nothing the abort does is the refused order. */
  lemma AbortMeetsNoRefusal(h: H.Host, c: Codec, f: Fall, u: User)
    requires Fell(h, f) && Met(h, c, f.p, RefusesFinal(f.p, u)) && u in f.p.ts && u in f.vs
    requires f.vs[u].dirty ==> Fin(f.p.ts[u]) != f.p.ts[u].orig
    ensures SmoothFrom(f.n, h.calls)
  {
    hide Fell, H.Host.Valid, Fin, Turn;
    NotMarkedAtFirst(h, f);
    hide Distinct;
    forall i | f.n <= i < |h.calls|
      ensures Smooth(h.calls[i].tick)
    {
      RevertingAt(h, f, i);
      if x :| x in f.p.ts && x in f.vs && f.vs[x].dirty && h.calls[i].event == Remote(UndoOf(f.p.ts[x])) {
        SameUndo(f.p, x, u);
      }
    }
  }

  /** Between them, additions that land and a removal that exits non-zero.
      As written the addition stays behind and the run reports a verified revert; keeping the mark, it is undone. */
  method ForgottenAddition(cfg: Config, site: H.Site, w: World, u: User) returns (t: T, outcome: Outcome)
    requires Welcome(cfg, site, w) && u in PlanFor(cfg, site, w).ts
    requires var x := PlanFor(cfg, site, w).ts[u];
             x.doc1 != x.doc0 && x.doc2 != x.doc1 && (cfg.keepDirty ==> Fin(x) != x.orig)
    ensures t.plan == PlanFor(cfg, site, w) && outcome == AbortedReverted
    ensures forall x | x in t.plan.ts ::
              At(t.host.w, t.plan.ts[x].path)
              == if x == u && !cfg.keepDirty then Mid(t.plan.ts[x]) else t.plan.ts[x].orig
    ensures AllOrig(t.plan, t.host.w) <==> cfg.keepDirty
  {
    hide PlanFor, Met, Completed, AllPlanned, Fell, Odd, WritesOf, Mid, Fin, SmoothFrom, H.Host.Valid, T.Views, Welcome,
         At;
    var fate := RefusesFinal(PlanFor(cfg, site, w), u);
    RefusesOrders(PlanFor(cfg, site, w), u);
    t, outcome := Transact(cfg, site, w, fate);
    WelcomeConnects(cfg, site, w);
    RefusedNeverCompletes(t.host, cfg.codec, t.plan, u);
    ghost var f := t.TheFall(outcome);
    RefusalIsBooked(t.host, cfg.codec, f, u);
    TwiceChangedHere(cfg.codec, t.plan, u);
    OneForgotten(t.host, f, u);
    AbortMeetsNoRefusal(t.host, cfg.codec, f, u);
    MetNoDeath(t.host, cfg.codec, t.plan, fate);
    QuietAbortReverts(t.host, f);
    RevertedEnd(t.host, f);
  }

  lemma RefusesOrders(p: Plan, u: User)
    ensures OnlyOrders(RefusesFinal(p, u))
  {
    hide Fin;
  }

  lemma WelcomeConnects(cfg: Config, site: H.Site, w: World)
    requires Welcome(cfg, site, w)
    ensures w.conn && w.probes == [] && !w.commit
  {
    hide Separate, Acceptable, AllLoadable, Expected, Peopled;
  }

  lemma TwiceChangedHere(c: Codec, p: Plan, u: User)
    requires AllPlanned(c, p) && u in p.ts && p.ts[u].doc1 != p.ts[u].doc0 && p.ts[u].doc2 != p.ts[u].doc1
    ensures Mid(p.ts[u]) != p.ts[u].orig && Mid(p.ts[u]) != Fin(p.ts[u])
  {
    hide Planned, Mid, Fin;
    TwiceChangedDiffers(c, p.ops, u, p.ts[u]);
  }

  lemma MetNoDeath(h: H.Host, c: Codec, p: Plan, fate: (World, Event) -> Fate)
    requires Met(h, c, p, fate)
    ensures forall i | 0 <= i < |h.calls| :: !h.calls[i].tick.dies
  {
  }

  lemma RevertedEnd(h: H.Host, f: Fall)
    requires Fell(h, f) && f.o == AbortedReverted && h.w.commit
    ensures LeftAt(f.p, f.forgotten, h.w)
  {
    hide Sound, TurnedBack, Distinct, NoLinks, LeftAt;
  }

  // ----------------------------------------------------- the unheard marker

  /** The order to put back a file that is not among those. */
  predicate HeldBack(p: Plan, back: set<User>, e: Event) {
    exists x | x in p.ts :: x !in back && e == Remote(UndoOf(p.ts[x]))
  }

  /** The marker lands and its reply is lost; then the other files' reverts are lost without effect. */
  function Mixes(p: Plan, back: set<User>): (World, Event) -> Fate {
    (w: World, e: Event) =>
      if e == Remote(MarkCommit) then Lose(Whole)
      else if w.commit && HeldBack(p, back, e) then Lose(Nothing)
      else Ok
  }

  lemma MixesOrders(p: Plan, back: set<User>)
    ensures OnlyOrders(Mixes(p, back))
  {
    hide UndoOf;
    forall w, e | !Ordering(e)
      ensures Mixes(p, back)(w, e) == Ok
    {
      if HeldBack(p, back, e) {
        var x :| x in p.ts && x !in back && e == Remote(UndoOf(p.ts[x]));
        UndoIsOrdered(p.ts[x]);
      }
    }
  }

  lemma LostReply(w: World, e: Event, t: Tick)
    requires e.Remote? && t.fate.Lose?
    ensures Turn(w, e, t).1 == Lost
  {
    hide Hangup, ApplyPart;
  }

  lemma LostEvent(h: H.Host, c: Codec, p: Plan, fate: (World, Event) -> Fate, i: nat)
    requires h.Valid() && Met(h, c, p, fate) && i < |h.calls| && h.calls[i].event.Remote?
    requires fate(h.trace[i], h.calls[i].event).Lose?
    ensures h.calls[i].reply == Lost
  {
    hide H.Host.Valid, Turn;
    OneStep(h, i);
    LostReply(h.trace[i], h.calls[i].event, h.calls[i].tick);
  }

  lemma UnheardNeverCompletes(h: H.Host, c: Codec, p: Plan, back: set<User>)
    requires h.Valid() && Met(h, c, p, Mixes(p, back))
    ensures !Completed(p, h.calls)
  {
    hide H.Host.Valid, Met, MarksOf, WritesOf, WritesAt, HeldBack;
    if Completed(p, h.calls) {
      var i := MarkBehind(h.calls, Done);
      LostEvent(h, c, p, Mixes(p, back), i);
    }
  }

  /** The odd event is the marker's, or comes after it. */
  lemma UnheardIsLost(h: H.Host, c: Codec, f: Fall, back: set<User>)
    requires Fell(h, f) && Met(h, c, f.p, Mixes(f.p, back)) && h.start.conn && Odd(h, Mixes(f.p, back), f.n)
    ensures f.lost
  {
    hide Fell, H.Host.Valid, HeldBack, Sound, Delivered, AllFin, AllMarked;
    FellBasics(h, f);
    NotMarkedAtFirst(h, f);
    LostExactly(h, f);
    var fate := Mixes(f.p, back);
    var i :| 0 <= i < f.n && fate(h.trace[i], h.calls[i].event) != Ok;
    if Marking(h.calls[i]) {
      MetConnection(h, c, fate, f, i);
      assert MarkLands(h, i);
    } else {
      var j := CommitNeedsMark(h, i);
    }
  }

  lemma AttemptedThen(h: H.Host, f: Fall, u: User) returns (j: nat)
    requires Fell(h, f) && u in f.p.ts && u in f.vs && f.vs[u].dirty
    ensures f.n <= j < |h.calls| && j < |h.trace| && h.calls[j].event == Remote(UndoOf(f.p.ts[u]))
  {
    hide Closed, OnRecord, Distinct, NoLinks, RevertsFrom, DoneFrom, SmoothFrom, Together;
    assert Attempted(f.p.ts[u], f.n, h.calls);
    j :| f.n <= j < |h.calls| && h.calls[j].event == Remote(UndoOf(f.p.ts[u]));
  }

  lemma HeldOnlyIfNotBack(p: Plan, back: set<User>, u: User)
    requires Distinct(p.ts) && u in p.ts
    ensures HeldBack(p, back, Remote(UndoOf(p.ts[u]))) <==> u !in back
  {
    hide Distinct, UndoOf;
    forall x | x in p.ts && UndoOf(p.ts[x]) == UndoOf(p.ts[u])
      ensures x == u
    {
      SameUndo(p, x, u);
    }
  }

  lemma BackIsUndone(h: H.Host, c: Codec, f: Fall, back: set<User>, u: User)
    requires Fell(h, f) && Met(h, c, f.p, Mixes(f.p, back)) && h.start.conn
    requires u in f.p.ts && u in f.vs && f.vs[u].dirty && u in back
    ensures Undone(h, f, u, |h.calls|)
  {
    hide Fell, H.Host.Valid, HeldBack, Sound, Delivered, AllFin, AllMarked, UndoOf;
    FellBasics(h, f);
    NotMarkedAtFirst(h, f);
    var j := AttemptedThen(h, f, u);
    HeldOnlyIfNotBack(f.p, back, u);
    MetConnection(h, c, Mixes(f.p, back), f, j);
    UndoIsOrdered(f.p.ts[u]);
    assert UndoneAt(h, f, u, j);
  }

  lemma HeldIsNotUndone(h: H.Host, c: Codec, f: Fall, back: set<User>, u: User)
    requires Fell(h, f) && f.lost && Met(h, c, f.p, Mixes(f.p, back)) && u in f.p.ts && u !in back
    ensures !Undone(h, f, u, |h.calls|)
  {
    hide Fell, H.Host.Valid, HeldBack, Sound, Delivered, AllFin, AllMarked, UndoOf;
    FellBasics(h, f);
    NotMarkedAtFirst(h, f);
    HeldOnlyIfNotBack(f.p, back, u);
    UndoIsOrdered(f.p.ts[u]);
    forall j: nat | f.n <= j < |h.calls|
      ensures !UndoneAt(h, f, u, j)
    {
      MarkKept(h, f, f.n, j);
    }
  }

  /** A revert that did not succeed is not reported as one that did. */
  lemma HeldIsUnverified(h: H.Host, c: Codec, f: Fall, back: set<User>, u: User)
    requires Fell(h, f) && f.lost && Met(h, c, f.p, Mixes(f.p, back))
    requires u in f.p.ts && u in f.vs && f.vs[u].dirty && u !in back
    ensures f.o == RevertUnverified
  {
    hide Fell, H.Host.Valid, HeldBack, Sound, Delivered, AllFin, AllMarked, UndoOf;
    FellBasics(h, f);
    NotMarkedAtFirst(h, f);
    SuccessMeansDone(h, f);
    var j := AttemptedThen(h, f, u);
    MarkKept(h, f, f.n, j);
    HeldOnlyIfNotBack(f.p, back, u);
    LostEvent(h, c, f.p, Mixes(f.p, back), j);
    UndoIsOrdered(f.p.ts[u]);
  }

  lemma UndoIsOrdered(t: Target)
    ensures Ordering(Remote(UndoOf(t))) && UndoOf(t) != MarkCommit
  {
  }

  lemma SuccessMeansDone(h: H.Host, f: Fall)
    requires Fell(h, f)
    ensures f.o == AbortedReverted ==> DoneFrom(f.n, h.calls)
    ensures f.o == AbortedReverted || f.o == RevertUnverified
  {
    hide Closed, OnRecord, Distinct, NoLinks, RevertsFrom, AllAttempted, SmoothFrom, Together, DoneFrom;
  }

  lemma UntouchedIsFinal(t: Target)
    requires !TouchedAt(t, 2)
    ensures Fin(t) == t.orig
  {
  }

  lemma MarkedIfTouched(f: Fall, u: User)
    requires AllMarked(f.p, f.vs) && u in f.p.ts
    ensures u in f.vs && (f.vs[u].dirty <==> TouchedAt(f.p.ts[u], 2))
  {
  }

  /** Where a run ends whose marker landed unheard. */
  lemma MixedEnd(h: H.Host, c: Codec, f: Fall, back: set<User>, u: User)
    requires Fell(h, f) && f.lost && Met(h, c, f.p, Mixes(f.p, back)) && h.start.conn && u in f.p.ts
    ensures At(h.w, f.p.ts[u].path) == if u in back then f.p.ts[u].orig else Fin(f.p.ts[u])
    ensures u !in back && TouchedAt(f.p.ts[u], 2) ==> f.o == RevertUnverified
  {
    hide Fell, H.Host.Valid, HeldBack, Sound, Delivered, AllFin, AllMarked, UndoOf, At, Fin, Undone, TouchedAt, Met;
    FellBasics(h, f);
    MarkedIfTouched(f, u);
    FinalUntilUndone(h, f, u, |h.calls|);
    if !TouchedAt(f.p.ts[u], 2) {
      UntouchedIsFinal(f.p.ts[u]);
    } else if u in back {
      BackIsUndone(h, c, f, back, u);
    } else {
      HeldIsNotUndone(h, c, f, back, u);
      HeldIsUnverified(h, c, f, back, u);
    }
  }

  /** The marker lands unheard and the reverts of some files are lost: every mixture of originals and final contents
      is where some run ends, with the trap disarmed. */
  method UnheardMarkerMixes(cfg: Config, site: H.Site, w: World, back: set<User>) returns (t: T, outcome: Outcome)
    requires Welcome(cfg, site, w)
    ensures t.plan == PlanFor(cfg, site, w) && (outcome == AbortedReverted || outcome == RevertUnverified)
    ensures t.host.w.commit && forall x | x in t.plan.ts ::
              At(t.host.w, t.plan.ts[x].path) == if x in back then t.plan.ts[x].orig else Fin(t.plan.ts[x])
    ensures (exists x | x in t.plan.ts :: x !in back && TouchedAt(t.plan.ts[x], 2)) ==> outcome == RevertUnverified
  {
    hide PlanFor, Met, Completed, AllPlanned, Fell, Odd, H.Host.Valid, T.Views, Welcome, At, Fin, TouchedAt, HeldBack;
    var fate := Mixes(PlanFor(cfg, site, w), back);
    MixesOrders(PlanFor(cfg, site, w), back);
    t, outcome := Transact(cfg, site, w, fate);
    WelcomeConnects(cfg, site, w);
    UnheardNeverCompletes(t.host, cfg.codec, t.plan, back);
    ghost var f := t.TheFall(outcome);
    UnheardIsLost(t.host, cfg.codec, f, back);
    LostAtTheEnd(t.host, f);
    forall x | x in t.plan.ts
      ensures At(t.host.w, t.plan.ts[x].path) == if x in back then t.plan.ts[x].orig else Fin(t.plan.ts[x])
      ensures x !in back && TouchedAt(t.plan.ts[x], 2) ==> outcome == RevertUnverified
    {
      MixedEnd(t.host, cfg.codec, f, back, x);
    }
  }

  lemma LostAtTheEnd(h: H.Host, f: Fall)
    requires Fell(h, f) && f.lost
    ensures h.w.commit
  {
    hide Fell, H.Host.Valid, Sound, Delivered, AllFin, AllMarked;
    FellBasics(h, f);
    MarkKept(h, f, f.n, |h.calls|);
  }

  // --------------------------------------------------------- the late trap

  /** The transaction directory half removed, a guard still there. */
  function HalfRemoved(w: World, marker: bool, manifest: bool, gone: set<Path>): World {
    w.(commit := marker, manifest := if manifest then w.manifest else None, backups := w.backups - gone)
  }

  function ContentOf(x: Option<Node>): Option<Bytes> {
    if x.Some? then Some(x.value.content) else None
  }

  /** What the backups say a file held. */
  function InStore(t: Target, w: World): Option<Bytes> {
    if t.orig.Some? && t.bak in w.backups then Some(w.backups[t.bak]) else None
  }

  /** What the trap makes of one file whatever the backups are: a record of an absent file always deletes. */
  lemma {:induction false} PathAfterPart(t: Target, w: World, rs: seq<Manifest.Record>, x: Option<Node>)
    requires NoLinks(t, w)
    requires forall r | r in rs :: r.dst == t.path ==> r == RecordOf(t)
    ensures ContentOf(PathAfter(w, rs, t.path, x))
         == if RecordOf(t) in rs && (t.orig.Some? ==> t.bak in w.backups) then InStore(t, w) else ContentOf(x)
    decreases |rs|
  {
    hide DirOf;
    if rs != [] {
      var x1 := NodeAfter(w, rs[0], t.path, x);
      assert rs[0] in rs && forall r :: r in rs <==> r == rs[0] || r in rs[1..];
      PathAfterPart(t, w, rs[1..], x1);
    }
  }

  /** This file's original is out of a late guard's reach, or where it belongs. */
  predicate OutOfReach(t: Target, gone: set<Path>) {
    Fin(t) == t.orig || (t.orig.Some? && t.bak in gone)
  }

  lemma TrapContent(w: World, path: Path)
    requires !w.commit && w.guard && w.manifest.Some?
    ensures At(EndGuard(w), path) == ContentOf(PathAfter(w, Log(w), path, NodeAt(w.disk, path)))
  {
    hide Manifest.Decode, RestoreFrom, PathAfter;
    PathwiseRestore(w, Log(w), path);
  }

  lemma NoTrap(w: World, path: Path)
    requires w.manifest.None?
    ensures At(EndGuard(w), path) == At(w, path) && Log(w) == []
  {
  }

  lemma OnlyOwnLines(p: Plan, w: World, u: User)
    requires Distinct(p.ts) && LogGood(p, w) && u in p.ts
    ensures forall r | r in Log(w) :: r.dst == p.ts[u].path ==> r == RecordOf(p.ts[u])
  {
    hide Log, LogGood, Distinct;
    forall r | r in Log(w) && r.dst == p.ts[u].path
      ensures r == RecordOf(p.ts[u])
    {
      OwnLines(p, w, u, r);
    }
  }

  lemma LateTrapAt(p: Plan, vs: Views, w: World, gone: set<Path>, u: User)
    requires Steady(p, vs, {}, w) && w.guard && u in p.ts && At(w, p.ts[u].path) == Fin(p.ts[u])
    ensures At(EndGuard(HalfRemoved(w, false, true, gone)), p.ts[u].path) == Fin(p.ts[u]) <==> OutOfReach(p.ts[u], gone)
  {
    var t, v := p.ts[u], HalfRemoved(w, false, true, gone);
    assert v == w.(backups := w.backups - gone) by {
      SteadyIsCore(p, vs, {}, w);
      hide Steady;
    }
    hide Steady, Log, Mid, Fin, DirOf, Distinct, LogGood, EndGuard, RecordOf, PathAfter, HalfRemoved;
    LoggedIfChanged(p, vs, w, u);
    OnlyOwnLines(p, w, u);
    SameLog(w, v);
    if v.manifest.Some? {
      TrapContent(v, t.path);
      PathAfterPart(t, v, Log(w), NodeAt(v.disk, t.path));
    } else {
      NoTrap(v, t.path);
    }
  }

  lemma SameLog(w: World, v: World)
    requires v.manifest == w.manifest
    ensures Log(v) == Log(w)
  {
  }

  lemma LoggedIfChanged(p: Plan, vs: Views, w: World, u: User)
    requires Steady(p, vs, {}, w) && u in p.ts && At(w, p.ts[u].path) == Fin(p.ts[u])
    ensures Distinct(p.ts) && LogGood(p, w) && NoLinks(p.ts[u], w)
    ensures RecordOf(p.ts[u]) in Log(w) ==> BackupOk(p.ts[u], w)
    ensures Fin(p.ts[u]) != p.ts[u].orig ==> RecordOf(p.ts[u]) in Log(w)
  {
    hide DirOf, Manifest.Decode, Distinct, AddsProven, BeforeRemovals, Staged;
    if RecordOf(p.ts[u]) in Log(w) {
      OwnLines(p, w, u, RecordOf(p.ts[u]));
    }
  }

  /** A removal that was cut short anywhere is safe against a late guard if and only if the marker is still there,
      or the manifest is gone, or every file the transaction changed existed and has lost its backup. */
  lemma LateTrapSafeExactly(p: Plan, vs: Views, w: World, marker: bool, manifest: bool, gone: set<Path>)
    requires Steady(p, vs, {}, w) && w.guard && AllFin(p, w)
    ensures AllFin(p, EndGuard(HalfRemoved(w, marker, manifest, gone)))
       <==> marker || !manifest || forall u | u in p.ts :: OutOfReach(p.ts[u], gone)
  {
    var v := HalfRemoved(w, marker, manifest, gone);
    if marker || !manifest {
      DisarmedTrap(v);
      hide EndGuard, Steady, Mid, Fin;
    } else {
      hide EndGuard, Steady, Mid, Fin, OutOfReach;
      forall u | u in p.ts
        ensures At(EndGuard(v), p.ts[u].path) == Fin(p.ts[u]) <==> OutOfReach(p.ts[u], gone)
      {
        LateTrapAt(p, vs, w, gone, u);
      }
    }
  }

  // --------------------------------------------------- the clashing snapshot

  /** One user's snapshot before the remove phase goes where the backup of another user goes, whose name is valid. */
  lemma SnapshotNamesClash(txdir: Path, u: User)
    requires Shell.ValidUsername(u)
    ensures Shell.ValidUsername(u + ".pre-remove") && SnapName(BakName(txdir, u)) == BakName(txdir, u + ".pre-remove")
  {
  }

  /** What a name holds after an order to store this text there that took effect so far. */
  function Stored(text: Bytes, part: Part): Bytes {
    if part.Cut? then Clip(text, part.n) else text
  }

  lemma PartlyStored(w: World, name: Path, text: Bytes, part: Part)
    ensures ApplyPart(w, SaveBackup(name, text), part)
         == if part == Nothing then w else w.(backups := w.backups[name := Stored(text, part)])
  {
    hide Clip;
  }

  /** The trap would look for this user's original under that name, and find something else. */
  predicate Spoils(p: Plan, vs: Views, name: Path, text: Bytes, u: User)
    requires u in p.ts && u in vs
  {
    vs[u].manifested && p.ts[u].bak == name && p.ts[u].orig.Some? && p.ts[u].orig.value != text
  }

  lemma LoggedExactly(p: Plan, vs: Views, w: World, u: User)
    requires Steady(p, vs, {}, w) && u in p.ts
    ensures vs.Keys == p.ts.Keys && Distinct(p.ts) && LogGood(p, w) && !w.commit && NoLinks(p.ts[u], w)
    ensures vs[u].manifested <==> RecordOf(p.ts[u]) in Log(w)
    ensures if vs[u].manifested then BackupOk(p.ts[u], w) else At(w, p.ts[u].path) == p.ts[u].orig
  {
    hide DirOf, Manifest.Decode, Distinct, AddsProven, BeforeRemovals, Staged, LogGood;
    assert CoreAt(p.ts[u], u, vs[u], false, w);
  }

  /** The trap gives every armed file what the backups hold, and every other file is at its original. */
  lemma TrapOver(p: Plan, vs: Views, w: World, backups: map<Path, Bytes>, u: User)
    requires Steady(p, vs, {}, w) && w.guard && u in p.ts
    requires forall name | name in w.backups :: name in backups
    ensures u in vs && At(EndGuard(w.(backups := backups)), p.ts[u].path)
                    == if vs[u].manifested then InStore(p.ts[u], w.(backups := backups)) else p.ts[u].orig
  {
    hide Steady, Log, DirOf, Distinct, LogGood, EndGuard, RecordOf, PathAfter;
    var t, v := p.ts[u], w.(backups := backups);
    LoggedExactly(p, vs, w, u);
    OnlyOwnLines(p, w, u);
    SameLog(w, v);
    if v.manifest.Some? {
      TrapContent(v, t.path);
      PathAfterPart(t, v, Log(w), NodeAt(v.disk, t.path));
    } else {
      NoTrap(v, t.path);
    }
  }

  lemma SpoiledExactly(p: Plan, vs: Views, w: World, name: Path, text: Bytes, u: User)
    requires Steady(p, vs, {}, w) && w.guard && u in p.ts
    ensures u in vs
    ensures At(EndGuard(w.(backups := w.backups[name := text])), p.ts[u].path) != p.ts[u].orig
       <==> Spoils(p, vs, name, text, u)
  {
    hide Steady, EndGuard, Distinct, NoLinks, Log, LogGood;
    TrapOver(p, vs, w, w.backups[name := text], u);
    LoggedExactly(p, vs, w, u);
  }

  /** Between two steps, storing a text in the transaction directory keeps every original within the trap's reach
      if and only if nothing comes of it, or no armed file's backup has that name and another content. */
  lemma SnapshotSafeExactly(p: Plan, vs: Views, w: World, name: Path, text: Bytes, part: Part)
    requires Steady(p, vs, {}, w) && w.guard
    ensures vs.Keys == p.ts.Keys
    ensures Recoverable(p, ApplyPart(w, SaveBackup(name, text), part))
       <==> part == Nothing || forall u | u in p.ts :: !Spoils(p, vs, name, Stored(text, part), u)
  {
    PartlyStored(w, name, text, part);
    SteadyIsCore(p, vs, {}, w);
    hide Steady, EndGuard, Stored, ApplyPart, Spoils;
    if part == Nothing {
      SteadyRecovers(p, vs, w);
    } else {
      forall u | u in p.ts
        ensures At(EndGuard(w.(backups := w.backups[name := Stored(text, part)])), p.ts[u].path) != p.ts[u].orig
           <==> Spoils(p, vs, name, Stored(text, part), u)
      {
        SpoiledExactly(p, vs, w, name, Stored(text, part), u);
      }
    }
  }

  lemma SteadyRecovers(p: Plan, vs: Views, w: World)
    requires Steady(p, vs, {}, w) && w.guard
    ensures Recoverable(p, w)
  {
    hide Steady, EndGuard, Distinct, NoLinks, Log, LogGood;
    forall u | u in p.ts
      ensures At(EndGuard(w), p.ts[u].path) == p.ts[u].orig
    {
      TrapOver(p, vs, w, w.backups, u);
      LoggedExactly(p, vs, w, u);
      assert w.(backups := w.backups) == w;
    }
  }

  /** However far an order gets, the trap puts every original back. */
  ghost predicate SafeHoweverFar(p: Plan, w: World, c: Command) {
    forall part :: Recoverable(p, ApplyPart(w, c, part))
  }

  /** This armed file's backup has that name. */
  predicate KeptUnder(p: Plan, vs: Views, name: Path, u: User)
    requires u in p.ts && u in vs
  {
    vs[u].manifested && p.ts[u].orig.Some? && p.ts[u].bak == name
  }

  lemma SomePartSpoils(p: Plan, vs: Views, w: World, name: Path, text: Bytes, u: User)
    requires Steady(p, vs, {}, w) && w.guard && text != "" && u in p.ts && u in vs && KeptUnder(p, vs, name, u)
    ensures !SafeHoweverFar(p, w, SaveBackup(name, text))
  {
    hide Steady, Recoverable, ApplyPart;
    var part := if p.ts[u].orig.value == text then Cut(0) else Whole;
    assert Spoils(p, vs, name, Stored(text, part), u);
    SnapshotSafeExactly(p, vs, w, name, text, part);
    assert !Recoverable(p, ApplyPart(w, SaveBackup(name, text), part));
  }

  /** Storing a text is safe however far it gets, if and only if no armed file's backup has that name. */
  lemma SafeHoweverFarExactly(p: Plan, vs: Views, w: World, name: Path, text: Bytes)
    requires Steady(p, vs, {}, w) && w.guard && text != ""
    ensures vs.Keys == p.ts.Keys
    ensures SafeHoweverFar(p, w, SaveBackup(name, text)) <==> forall u | u in p.ts :: !KeptUnder(p, vs, name, u)
  {
    hide Steady, Recoverable, ApplyPart, SafeHoweverFar, KeptUnder;
    SteadyIsCore(p, vs, {}, w);
    if u :| u in p.ts && KeptUnder(p, vs, name, u) {
      SomePartSpoils(p, vs, w, name, text, u);
    } else {
      NobodysName(p, vs, w, name, text);
    }
  }

  lemma NobodysName(p: Plan, vs: Views, w: World, name: Path, text: Bytes)
    requires Steady(p, vs, {}, w) && w.guard && vs.Keys == p.ts.Keys
    requires forall u | u in p.ts :: !KeptUnder(p, vs, name, u)
    ensures SafeHoweverFar(p, w, SaveBackup(name, text))
  {
    hide Steady, Recoverable, ApplyPart, Stored;
    forall part
      ensures Recoverable(p, ApplyPart(w, SaveBackup(name, text), part))
    {
      SnapshotSafeExactly(p, vs, w, name, text, part);
    }
  }

  /** The remove phase's copy of what it starts from. */
  function SnapshotOrder(t: Target): Command {
    SaveBackup(SnapName(t.bak), OrEmpty(Mid(t)))
  }

  lemma {:induction false} NothingInNothing(c: Codec, d: Doc, ms: seq<Matcher>)
    requires d.lines == [] && Tidy(d)
    ensures RemoveAll(c, d, ms) == d
    decreases |ms|
  {
    if ms != [] {
      NothingInNothing(c, d, ms[1..]);
    }
  }

  /** Who has something to remove has something to copy. */
  lemma MidHasText(c: Codec, ops: seq<Op>, u: User, t: Target)
    requires Planned(c, ops, u, t) && t.doc2 != t.doc1
    ensures Mid(t).Some? && Mid(t).value != ""
  {
    hide RemoveAll, AddAll, Render, ParseLine, Split;
    if t.doc1 == t.doc0 && OrEmpty(t.orig) == "" {
      NothingInNothing(c, t.doc1, Matchers(OpsOf(ops, u, Removing)));
    }
    L.AddAllLengthens(c, t.doc0, Grants(OpsOf(ops, u, Adding)));
  }

  /** This user is snapshotted before its removals. */
  predicate Snapshotted(p: Plan, v: User)
    requires v in p.ts
  {
    Adds(p, v) && p.ts[v].doc2 != p.ts[v].doc1
  }

  lemma OneNameApart(c: Codec, p: Plan, vs: Views, w: World, calls: seq<Call>, v: User)
    requires Steady(p, vs, {}, w) && w.guard && Paced(p, vs, calls, 1, {}) && AllPlanned(c, p)
    requires v in p.ts && Snapshotted(p, v)
    ensures SafeHoweverFar(p, w, SnapshotOrder(p.ts[v])) <==> forall u | u in p.ts :: !SnapshotHits(p, v, u)
  {
    hide Steady, SafeHoweverFar, Planned, Mid, Adds, PacedAt, WritesOf, MarksOf, SnapName;
    MidHasText(c, p.ops, v, p.ts[v]);
    SafeHoweverFarExactly(p, vs, w, SnapName(p.ts[v].bak), Mid(p.ts[v]).value);
    forall u | u in p.ts
      ensures KeptUnder(p, vs, SnapName(p.ts[v].bak), u) <==> SnapshotHits(p, v, u)
    {
      ArmedInPhase(p, vs, calls, 1, {}, u);
    }
  }

  /** What a run asks of the names is exactly that the snapshots of its remove phase can do no harm. */
  lemma NamesApartExactly(c: Codec, p: Plan, vs: Views, w: World, calls: seq<Call>)
    requires Steady(p, vs, {}, w) && w.guard && Paced(p, vs, calls, 1, {}) && AllPlanned(c, p)
    ensures NamesApart(p)
       <==> forall v | v in p.ts && Snapshotted(p, v) :: SafeHoweverFar(p, w, SnapshotOrder(p.ts[v]))
  {
    hide Steady, SafeHoweverFar, Planned, SnapshotOrder, Adds, Paced, SnapName;
    forall v | v in p.ts && Snapshotted(p, v)
      ensures SafeHoweverFar(p, w, SnapshotOrder(p.ts[v])) <==> forall u | u in p.ts :: !SnapshotHits(p, v, u)
    {
      OneNameApart(c, p, vs, w, calls, v);
    }
  }

  // --------------------------------------------- a run that meets the clash

  function NothingOdd(w: World, e: Event): Fate {
    Ok
  }

  lemma FairIsCalm(h: H.Host, c: Codec, p: Plan)
    requires h.Valid() && h.script == ScriptOf(c, p, NothingOdd) && h.start.probes == []
    ensures h.calm && Answers(c, p, h.w.probes)
  {
    hide Fated, Turn, H.Logged, Answers;
    ScriptIsMet(h, c, p, NothingOdd);
    MetSmoothly(h, c, p, NothingOdd, |h.calls|);
    assert h.calls[..|h.calls|] == h.calls;
    MetAnswers(h, c, p, NothingOdd, |h.calls|);
    Ends(h);
  }

  /** The trap would give u what v's snapshot holds. */
  lemma TrapMisleads(c: Codec, p: Plan, vs: Views, w: World, calls: seq<Call>, v: User, u: User)
    requires Steady(p, vs, {}, w) && w.guard && Paced(p, vs, calls, 1, {}) && AllPlanned(c, p)
    requires u in p.ts && v in p.ts && SnapshotHits(p, v, u)
    ensures At(EndGuard(Apply(w, SnapshotOrder(p.ts[v]))), p.ts[u].path) == Mid(p.ts[v])
    ensures Recoverable(p, w) && (Recoverable(p, Apply(w, SnapshotOrder(p.ts[v]))) <==> Mid(p.ts[v]) == p.ts[u].orig)
  {
    hide Steady, Planned, Mid, Adds, Paced, Recoverable, EndGuard, SnapName;
    var name := SnapName(p.ts[v].bak);
    MidHasText(c, p.ops, v, p.ts[v]);
    var text := Mid(p.ts[v]).value;
    ArmedInPhase(p, vs, calls, 1, {}, u);
    SteadyRecovers(p, vs, w);
    TrapOver(p, vs, w, w.backups[name := text], u);
    SnapshotSafeExactly(p, vs, w, name, text, Whole);
    assert Stored(text, Whole) == text && Spoils(p, vs, name, text, u) <==> text != p.ts[u].orig.value;
    OnlyOneSpoils(p, vs, w, name, text, u);
  }

  lemma OnlyOneSpoils(p: Plan, vs: Views, w: World, name: Path, text: Bytes, u: User)
    requires Steady(p, vs, {}, w) && u in p.ts && p.ts[u].bak == name
    ensures vs.Keys == p.ts.Keys && forall x | x in p.ts && Spoils(p, vs, name, text, x) :: x == u
  {
    hide CoreAt, LogGood, AddsProven, BeforeRemovals;
  }

  /** The last order on record was v's snapshot, carried out, with every file at its add-phase content. */
  ghost predicate JustSnapshotted(h: H.Host, p: Plan, v: User)
    reads h
    requires v in p.ts
  {
    && |h.calls| > 0 && |h.trace| > |h.calls| && h.calls[|h.calls| - 1].event == Remote(SnapshotOrder(p.ts[v]))
    && ShowsMid(p, h.trace[|h.calls| - 1].disk) && Recoverable(p, h.trace[|h.calls| - 1])
    && h.w == Apply(h.trace[|h.calls| - 1], SnapshotOrder(p.ts[v]))
  }

  /** Connected and loaded, where nothing goes wrong. */
  method Begin(cfg: Config, site: H.Site, w: World) returns (t: T)
    requires Admissible(cfg, site, w)
    ensures t.cfg == cfg && t.plan == PlanFor(cfg, site, w)
    ensures t.host.start == w && t.host.script == ScriptOf(cfg.codec, t.plan, NothingOdd)
    ensures t.Ready() && t.Through(0, {}) && t.host.w.conn && t.ops == cfg.ops && t.forgotten == {}
    ensures forall op | op in cfg.ops :: op.action == Adding ==> op.key.Some?
    ensures fresh(t) && fresh(t.host) && forall o | o in t.Parts() :: fresh(o)
  {
    hide Separate, Acceptable, AllLoadable, PlanFor, Expected, Peopled, Answers, NoOrders, H.Host.Valid, Fresh, T.Views,
         T.AllGathered, T.Ready, T.Through, T.Parts, Together;
    var host := new H.Host(site, w, ScriptOf(cfg.codec, PlanFor(cfg, site, w), NothingOdd));
    t := new T(cfg, host);
    StartIsEmpty(host, w);
    AdmissibleIsSafe(cfg, site, w);
    var ok := t.Prepare();
    FairIsCalm(host, cfg.codec, PlanFor(cfg, site, w));
    IdleNow(host, w.disk, w.links);
    t.LoadedIsReady();
    t.AcceptedOps();
  }

  lemma StartIsEmpty(h: H.Host, w: World)
    requires h.Valid() && h.trace == [h.w] && h.w == w
    ensures h.start == w
  {
    hide H.Logged, H.AllSmooth;
  }

  lemma IdleNow(h: H.Host, d: Disk, links: set<Path>)
    requires Idle(h, d, links)
    ensures Idle(h, h.w.disk, h.w.links)
  {
    hide NoOrders, Together, H.Host.Valid;
  }

  lemma HeldIsValid(t: T)
    requires t.Held()
    ensures t.host.Valid() && t.Apart()
  {
    hide Core, Sane, T.Views, T.Wired, H.Logged, H.AllSmooth;
  }

  lemma ReadyIsHeld(t: T)
    requires t.Ready()
    ensures t.Apart() && t.host.w.conn == t.host.w.guard
  {
    hide Core, Sane, T.Views, T.Wired, H.Logged, H.AllSmooth;
  }

  /** Steps 1 to 3 where nothing goes wrong. */
  method UpToRemovals(cfg: Config, site: H.Site, w: World) returns (t: T)
    requires Admissible(cfg, site, w)
    ensures t.cfg == cfg && t.plan == PlanFor(cfg, site, w)
    ensures t.host.start == w && t.host.script == ScriptOf(cfg.codec, t.plan, NothingOdd)
    ensures t.Ready() && t.Through(1, {}) && t.host.w.conn && fresh(t) && fresh(t.host)
  {
    hide Separate, Acceptable, AllLoadable, PlanFor, AddsVisible, FinalVisible, AllGone, Peopled, Answers, H.Host.Valid,
         T.Views, T.Ready, T.Through, AddsProven, Fresh, ScriptOf, T.Parts, T.Held, T.InBooks;
    t := Begin(cfg, site, w);
    ReadyIsHeld(t);
    var ok := t.AddAndVerify();
    HeldIsValid(t);
    AdmissibleIsSafe(cfg, site, w);
    FairIsCalm(t.host, cfg.codec, t.plan);
  }

  lemma ReadyIsHealthy(t: T)
    requires t.Ready() && t.Through(1, {})
    ensures t.host.Valid() && Steady(t.plan, t.Views(), {}, t.host.w) && t.host.w.conn == t.host.w.guard
    ensures Paced(t.plan, t.Views(), t.host.calls, 1, {}) && Progress(t.plan, t.Views(), t.host.w, 1, {})
  {
    hide Core, Sane, Paced, Progress, T.Views, T.Wired, H.Logged, H.AllSmooth;
  }

  /** Nothing goes wrong, and after a complete and verified add phase v's snapshot goes where u's backup is:
      from then on a lost connection gives u the content of v's file. */
  method ClashingSnapshot(cfg: Config, site: H.Site, w: World, v: User, u: User) returns (t: T)
    requires Admissible(cfg, site, w)
    requires u in PlanFor(cfg, site, w).ts && v in PlanFor(cfg, site, w).ts
    requires SnapshotHits(PlanFor(cfg, site, w), v, u)
    ensures t.cfg == cfg && t.plan == PlanFor(cfg, site, w)
    ensures t.host.Valid() && t.host.start == w && t.host.calm && JustSnapshotted(t.host, t.plan, v)
    ensures At(EndGuard(t.host.w), t.plan.ts[u].path) == Mid(t.plan.ts[v])
    ensures Recoverable(t.plan, t.host.w) <==> Mid(t.plan.ts[v]) == t.plan.ts[u].orig
  {
    hide PlanFor, Answers, AllPlanned, H.Host.Valid, T.Views, SnapshotHits, Mid, EndGuard, T.Ready, T.Through, Steady,
         Progress, Paced, Perform, Recoverable, ShowsMid, SnapshotOrder, Fated;
    var p := PlanFor(cfg, site, w);
    t := UpToRemovals(cfg, site, w);
    ReadyIsHealthy(t);
    AdmissibleIsSafe(cfg, site, w);
    TrapMisleads(cfg.codec, t.plan, t.Views(), t.host.w, t.host.calls, v, u);
    ProgressShowsMid(t.plan, t.Views(), t.host.w);
    ghost var before := t.host.w;
    Ends(t.host);
    NextIsFair(t.host, cfg.codec, t.plan, Remote(SnapshotOrder(t.plan.ts[v])));
    var _ := t.host.Issue(SnapshotOrder(p.ts[v]));
    FairIsCalm(t.host, cfg.codec, t.plan);
    FairlyPerformed(cfg.codec, t.plan, before, t.plan.ts[v]);
  }

  lemma AdmissibleIsSafe(cfg: Config, site: H.Site, w: World)
    requires Admissible(cfg, site, w)
    ensures AllPlanned(cfg.codec, PlanFor(cfg, site, w)) && w.probes == []
  {
    hide Separate, Acceptable, AllLoadable, Expected, Peopled, AllPlanned;
    PlanIsSafe(cfg, site, w);
  }

  lemma NextIsFair(h: H.Host, c: Codec, p: Plan, e: Event)
    requires h.script == ScriptOf(c, p, NothingOdd)
    ensures h.Next(e) == Fated(c, p, h.w, e, Ok)
  {
    assert NothingOdd(h.w, e) == Ok;
  }

  lemma FairlyPerformed(c: Codec, p: Plan, w: World, t: Target)
    requires w.conn
    ensures Perform(w, SnapshotOrder(t), Fated(c, p, w, Remote(SnapshotOrder(t)), Ok)).0 == Apply(w, SnapshotOrder(t))
  {
    hide Mid, SnapName;
  }
}
