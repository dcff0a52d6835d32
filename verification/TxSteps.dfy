/** Each remote step, whatever its fate, keeps the write-ahead invariant. */
module TxSteps {
  import opened Basics
  import opened AuthKeys
  import opened World
  import opened WritePolicy
  import opened TxState
  import opened TrapLaws
  import Manifest

  lemma {:induction false} PathAfterLog(t: Target, w: World, rs: seq<Manifest.Record>, x: Option<Node>)
    requires NoLinks(t, w) && (RecordOf(t) in rs ==> BackupOk(t, w))
    requires forall r | r in rs :: r.dst == t.path ==> r == RecordOf(t)
    ensures PathAfter(w, rs, t.path, x)
         == if RecordOf(t) !in rs then x
            else if t.orig.Some? then Some(Node(t.orig.value, MetaOf(x))) else None
    decreases |rs|
  {
    hide DirOf;
    if rs != [] {
      var x1 := NodeAfter(w, rs[0], t.path, x);
      assert rs[0] in rs && forall r :: r in rs <==> r == rs[0] || r in rs[1..];
      PathAfterLog(t, w, rs[1..], x1);
    }
  }

  lemma OwnLines(p: Plan, w: World, u: User, r: Manifest.Record)
    requires Distinct(p.ts) && LogGood(p, w) && u in p.ts
    requires r in Log(w) && r.dst == p.ts[u].path
    ensures r == RecordOf(p.ts[u]) && BackupOk(p.ts[u], w)
  {
    var v :| Logs(p, w, r, v);
    assert v == u;
  }

  /** The trap over a good log: originals come back, owner and mode stay. */
  lemma TrapNode(p: Plan, w: World, u: User)
    requires Distinct(p.ts) && LogGood(p, w) && u in p.ts && NoLinks(p.ts[u], w)
    requires !w.commit
    ensures var t := p.ts[u];
            NodeAt(RestoreAll(w).disk, t.path)
            == if RecordOf(t) !in Log(w) then NodeAt(w.disk, t.path)
               else if t.orig.Some? then Some(Node(t.orig.value, NodeMeta(w.disk, t.path))) else None
  {
    hide Manifest.Decode, DirOf, Logs;
    var t := p.ts[u];
    if w.manifest.Some? {
      var rs := Log(w);
      forall r | r in rs && r.dst == t.path
        ensures r == RecordOf(t) && BackupOk(t, w)
      {
        OwnLines(p, w, u, r);
      }
      PathwiseRestore(w, rs, t.path);
      PathAfterLog(t, w, rs, NodeAt(w.disk, t.path));
    }
  }

  lemma RestoreAllFrame(w: World)
    ensures var v := RestoreAll(w);
            v == w.(disk := v.disk, refused := v.refused, restored := v.restored)
  {
    hide RestoreFrom, Manifest.Decode;
    if !w.commit && w.manifest.Some? {
      RestoreFrame(w, Log(w));
    }
  }

  lemma LogStaysGood(p: Plan, w: World, v: World)
    requires LogGood(p, w) && Log(v) == Log(w)
    requires forall u | u in p.ts && RecordOf(p.ts[u]) in Log(w) :: BackupOk(p.ts[u], w) ==> BackupOk(p.ts[u], v)
    ensures LogGood(p, v)
  {
    hide Log, RecordOf, BackupOk;
    forall r | r in Log(v)
      ensures exists u :: Logs(p, v, r, u)
    {
      var u :| Logs(p, w, r, u);
      assert Logs(p, v, r, u);
    }
  }

  lemma TargetRestored(p: Plan, w: World, t: Target, u: User, v: View, forgot: bool)
    requires u in p.ts && t == p.ts[u] && CoreAt(t, u, v, forgot, w) && w.guard
    requires Distinct(p.ts) && LogGood(p, w) && !w.commit
    ensures At(EndGuard(w), t.path) == t.orig && CoreAt(t, u, v, forgot, EndGuard(w))
  {
    hide Manifest.Decode, DirOf, RestoreAll, LogGood, Distinct, Render;
    RestoreAllFrame(w);
    TrapNode(p, w, u);
  }

  /** The guard session may end at any moment: the invariant holds after and every original is back. */
  lemma GuardEnds(p: Plan, vs: Views, forgotten: set<User>, w: World)
    requires Core(p, vs, forgotten, w)
    ensures AllOrig(p, EndGuard(w))
    ensures Core(p, vs, forgotten, EndGuard(w))
  {
    hide Manifest.Decode, RestoreAll, Distinct, AddsProven;
    if w.guard {
      var v := EndGuard(w);
      RestoreAllFrame(w);
      LogStaysGood(p, w, v);
      forall u | u in p.ts
        ensures At(v, p.ts[u].path) == p.ts[u].orig && CoreAt(p.ts[u], u, vs[u], u in forgotten, v)
      {
        hide CoreAt;
        TargetRestored(p, w, p.ts[u], u, vs[u], u in forgotten);
      }
    }
  }

  lemma CoreIsSane(p: Plan, vs: Views, forgotten: set<User>, w: World)
    requires Core(p, vs, forgotten, w)
    ensures Sane(p, w)
  {
    GuardEnds(p, vs, forgotten, w);
  }

  /** Steps that leave files, log, backups and marker alone. */
  lemma Unaffected(p: Plan, vs: Views, forgotten: set<User>, w: World, v: World)
    requires Core(p, vs, forgotten, w)
    requires v.disk == w.disk && v.links == w.links && v.manifest == w.manifest && v.commit == w.commit
    requires v.guard == w.guard && w.probes <= v.probes
    requires forall u | u in p.ts && RecordOf(p.ts[u]) in Log(w) :: BackupOk(p.ts[u], w) ==> BackupOk(p.ts[u], v)
    requires forall u | u in p.ts && vs[u].manifested :: LocalOk(p.ts[u], u, w) ==> LocalOk(p.ts[u], u, v)
    requires forall u | u in v.local :: u in w.local || Copied(p, u)
    ensures Core(p, vs, forgotten, v)
  {
    hide Manifest.Decode, DirOf, Distinct, AddsProven, Render, RecordOf, BackupOk, LocalOk;
    LogStaysGood(p, w, v);
    if AddsProven(p, w.probes) {
      ProofsLast(p, w.probes, v.probes);
    }
  }

  lemma ProofsLast(p: Plan, qs: seq<Probe>, more: seq<Probe>)
    requires AddsProven(p, qs) && qs <= more
    ensures AddsProven(p, more)
  {
    forall op | op in p.ops && op.action == Adding
      ensures exists q | q in more :: AddProven(p, op, q)
    {
      var q :| q in qs && AddProven(p, op, q);
      var i :| 0 <= i < |qs| && qs[i] == q;
      assert more[i] == q;
    }
  }

  lemma HangupKeeps(p: Plan, vs: Views, forgotten: set<User>, w: World)
    requires Core(p, vs, forgotten, w)
    ensures Core(p, vs, forgotten, Hangup(w)) && AllOrig(p, Hangup(w))
  {
    GuardEnds(p, vs, forgotten, w);
    Unaffected(p, vs, forgotten, EndGuard(w), Hangup(w));
  }

  /** A command is harmless if it is, however much of it takes effect. */
  ghost predicate Harmless(p: Plan, vs: Views, forgotten: set<User>, w: World, c: Command) {
    forall part :: Core(p, vs, forgotten, ApplyPart(w, c, part))
  }

  lemma PerformKeeps(p: Plan, vs: Views, forgotten: set<User>, w: World, c: Command, t: Tick)
    requires Core(p, vs, forgotten, w)
    requires w.conn ==> Harmless(p, vs, forgotten, w, c)
    ensures Core(p, vs, forgotten, Perform(w, c, t).0)
  {
    hide Core, Hangup;
    HangupKeeps(p, vs, forgotten, w);
    assert Apply(w, c) == ApplyPart(w, c, Whole);
  }

  lemma InspectHarmless(p: Plan, vs: Views, forgotten: set<User>, w: World)
    requires Core(p, vs, forgotten, w)
    ensures Harmless(p, vs, forgotten, w, Inspect)
  {
    forall part
      ensures Core(p, vs, forgotten, ApplyPart(w, Inspect, part))
    {
      assert ApplyPart(w, Inspect, part) == w;
    }
  }

  lemma BackupFrame(w: World, name: Path, content: Bytes, part: Part)
    ensures var v := ApplyPart(w, SaveBackup(name, content), part);
            && v == w.(backups := v.backups)
            && forall b | b != name && b in w.backups :: b in v.backups && v.backups[b] == w.backups[b]
  {
  }

  lemma SameLocal(t: Target, u: User, w: World, v: World)
    requires w.local == v.local
    ensures LocalOk(t, u, w) == LocalOk(t, u, v)
  {
  }

  /** A backup no manifest line names yet may be written, in whole or in part. */
  lemma BackupHarmless(p: Plan, vs: Views, forgotten: set<User>, w: World, name: Path, content: Bytes)
    requires Core(p, vs, forgotten, w)
    requires forall u | u in p.ts && RecordOf(p.ts[u]) in Log(w) && p.ts[u].orig.Some? :: p.ts[u].bak != name
    ensures Harmless(p, vs, forgotten, w, SaveBackup(name, content))
  {
    hide Manifest.Decode, RecordOf, LocalOk, LogGood, CoreAt, AddsProven, BeforeRemovals, Distinct;
    forall part
      ensures Core(p, vs, forgotten, ApplyPart(w, SaveBackup(name, content), part))
    {
      var v := ApplyPart(w, SaveBackup(name, content), part);
      BackupFrame(w, name, content, part);
      forall u | u in p.ts && vs[u].manifested
        ensures LocalOk(p.ts[u], u, w) ==> LocalOk(p.ts[u], u, v)
      {
        SameLocal(p.ts[u], u, w, v);
      }
      Unaffected(p, vs, forgotten, w, v);
    }
  }

  lemma RecordIsClean(p: Plan, u: User)
    requires Distinct(p.ts) && u in p.ts
    ensures Manifest.CleanRecord(RecordOf(p.ts[u]))
  {
  }

  function PartLength(text: Bytes, part: Part): nat {
    if part.Whole? then |text| else if part.Cut? && part.n <= |text| then part.n else if part.Cut? then |text| else 0
  }

  lemma AppendedText(w: World, text: Bytes, part: Part)
    ensures ApplyPart(w, AppendManifest(text), part)
         == if part.Nothing? then w else w.(manifest := Some(LogText(w) + text[..PartLength(text, part)]))
  {
    assert text[..|text|] == text;
  }

  /** However much of the manifest line lands, the log stays good. */
  lemma AppendPart(p: Plan, w: World, u: User, part: Part)
    requires Distinct(p.ts) && u in p.ts
    requires Manifest.Whole(LogText(w))
    ensures var v := ApplyPart(w, AppendManifest(Manifest.Encode(RecordOf(p.ts[u]))), part);
            && v == w.(manifest := v.manifest)
            && (Log(v) == Log(w) || Log(v) == Log(w) + [RecordOf(p.ts[u])])
            && (part.Whole? ==> Log(v) == Log(w) + [RecordOf(p.ts[u])] && Manifest.Whole(LogText(v)))
  {
    RecordIsClean(p, u);
    var r := RecordOf(p.ts[u]);
    var line := Manifest.Encode(r);
    hide Manifest.Encode, RecordOf, Distinct, Manifest.CleanRecord, Manifest.Whole;
    AppendedText(w, line, part);
    Manifest.PartialAppend(LogText(w), r, PartLength(line, part));
    EmptyLog(w);
  }

  lemma EmptyLog(w: World)
    ensures Log(w) == Manifest.Decode(LogText(w))
  {
  }

  lemma LogGrowsGood(p: Plan, w: World, v: World, u: User)
    requires LogGood(p, w) && u in p.ts && Logs(p, w, RecordOf(p.ts[u]), u)
    requires v == w.(manifest := v.manifest)
    requires Log(v) == Log(w) || Log(v) == Log(w) + [RecordOf(p.ts[u])]
    ensures LogGood(p, v)
  {
    hide Log, RecordOf;
    forall r | r in Log(v)
      ensures exists u' :: Logs(p, v, r, u')
    {
      if r in Log(w) {
        var u' :| Logs(p, w, r, u');
        assert Logs(p, v, r, u');
      } else {
        assert Logs(p, v, r, u);
      }
    }
  }

  lemma LongerLog(t: Target, u: User, v: View, forgot: bool, w: World, w': World)
    requires CoreAt(t, u, v, forgot, w)
    requires w' == w.(manifest := w'.manifest) && Log(w) <= Log(w')
    ensures CoreAt(t, u, v, forgot, w')
  {
    hide Log, RecordOf, DirOf, Render;
    if RecordOf(t) in Log(w) {
      var i :| 0 <= i < |Log(w)| && Log(w)[i] == RecordOf(t);
      assert Log(w')[i] == RecordOf(t);
    }
  }

  lemma AppendHarmless(p: Plan, vs: Views, forgotten: set<User>, w: World, u: User)
    requires Core(p, vs, forgotten, w) && Manifest.Whole(LogText(w))
    requires u in p.ts && BackupOk(p.ts[u], w)
    ensures Harmless(p, vs, forgotten, w, AppendManifest(Manifest.Encode(RecordOf(p.ts[u]))))
  {
    hide Log, RecordOf, Manifest.Encode, ApplyPart, CoreAt, Distinct, AddsProven;
    var c := AppendManifest(Manifest.Encode(RecordOf(p.ts[u])));
    forall part
      ensures Core(p, vs, forgotten, ApplyPart(w, c, part))
    {
      var v := ApplyPart(w, c, part);
      AppendPart(p, w, u, part);
      LogGrowsGood(p, w, v, u);
      forall x | x in p.ts
        ensures CoreAt(p.ts[x], x, vs[x], x in forgotten, v)
      {
        LongerLog(p.ts[x], x, vs[x], x in forgotten, w, v);
      }
    }
  }

  // ------------------------------------------------------------- file writes

  /** A write to u's file of one of its contents, at a moment the trap or the plan allows it. */
  ghost predicate MayWrite(p: Plan, vs: Views, w: World, u: User, content: Bytes) {
    && u in p.ts && u in vs
    && var t, c := p.ts[u], Some(content);
    && (c == t.orig || c == Mid(t) || c == Fin(t))
    && (c == t.orig || (w.guard && vs[u].manifested && vs[u].dirty))
    && (c == t.orig || c == Mid(t) || AddsProven(p, w.probes))
  }

  lemma LogUnmoved(p: Plan, w: World, w': World)
    requires LogGood(p, w) && w' == w.(disk := w'.disk)
    ensures LogGood(p, w')
  {
    LogStaysGood(p, w, w');
  }

  lemma WrittenTarget(t: Target, u: User, v: View, forgot: bool, w: World, w': World, content: Bytes)
    requires CoreAt(t, u, v, forgot, w)
    requires Some(content) == t.orig || Some(content) == Mid(t) || Some(content) == Fin(t)
    requires Some(content) == t.orig || (w.guard && v.manifested && v.dirty)
    requires w' == w.(disk := w.disk[t.path := Node(content, t.stamp)])
    ensures CoreAt(t, u, v, forgot, w') && At(w', t.path) == Some(content)
  {
    hide DirOf, Mid, Fin, Manifest.Decode;
  }

  lemma OtherTarget(t: Target, u: User, v: View, forgot: bool, w: World, w': World)
    requires CoreAt(t, u, v, forgot, w)
    requires w' == w.(disk := w'.disk) && NodeAt(w'.disk, t.path) == NodeAt(w.disk, t.path)
    ensures CoreAt(t, u, v, forgot, w') && At(w', t.path) == At(w, t.path)
  {
    hide DirOf, Mid, Fin, Manifest.Decode;
  }

  /** Writing any of the three contents keeps the invariant. */
  lemma WriteKeeps(p: Plan, vs: Views, forgotten: set<User>, w: World, u: User, content: Bytes)
    requires Core(p, vs, forgotten, w) && MayWrite(p, vs, w, u, content)
    ensures Core(p, vs, forgotten, Apply(w, Swap(p.ts[u].path, content, p.ts[u].stamp)))
  {
    hide CoreAt, AddsProven, Manifest.Decode, Log, RecordOf, BackupOk, LogGood, ContentIn;
    var w' := Apply(w, Swap(p.ts[u].path, content, p.ts[u].stamp));
    LogUnmoved(p, w, w');
    WrittenTarget(p.ts[u], u, vs[u], u in forgotten, w, w', content);
    forall x | x in p.ts && x != u
      ensures CoreAt(p.ts[x], x, vs[x], x in forgotten, w') && At(w', p.ts[x].path) == At(w, p.ts[x].path)
    {
      OtherTarget(p.ts[x], x, vs[x], x in forgotten, w, w');
    }
  }

  lemma WriteHarmless(p: Plan, vs: Views, forgotten: set<User>, w: World, u: User, content: Bytes)
    requires Core(p, vs, forgotten, w) && MayWrite(p, vs, w, u, content)
    ensures Harmless(p, vs, forgotten, w, Swap(p.ts[u].path, content, p.ts[u].stamp))
  {
    var c := Swap(p.ts[u].path, content, p.ts[u].stamp);
    hide Core, MayWrite;
    WriteKeeps(p, vs, forgotten, w, u, content);
    forall part
      ensures Core(p, vs, forgotten, ApplyPart(w, c, part))
    {
      assert ApplyPart(w, c, part) == w || ApplyPart(w, c, part) == Apply(w, c);
    }
  }

  lemma UnlinkedTarget(t: Target, u: User, v: View, forgot: bool, w: World, w': World)
    requires CoreAt(t, u, v, forgot, w) && t.orig.None?
    requires w' == w.(disk := w.disk - {t.path})
    ensures CoreAt(t, u, v, forgot, w') && At(w', t.path) == t.orig
  {
    hide DirOf, Mid, Fin, Manifest.Decode;
  }

  /** Deleting a file that was absent before keeps the invariant. */
  lemma UnlinkKeeps(p: Plan, vs: Views, forgotten: set<User>, w: World, u: User)
    requires Core(p, vs, forgotten, w) && u in p.ts && p.ts[u].orig.None?
    ensures Core(p, vs, forgotten, Apply(w, Unlink(p.ts[u].path)))
  {
    hide CoreAt, AddsProven, Manifest.Decode, Log, RecordOf, BackupOk, LogGood, ContentIn;
    var w' := Apply(w, Unlink(p.ts[u].path));
    LogUnmoved(p, w, w');
    UnlinkedTarget(p.ts[u], u, vs[u], u in forgotten, w, w');
    forall x | x in p.ts && x != u
      ensures CoreAt(p.ts[x], x, vs[x], x in forgotten, w') && At(w', p.ts[x].path) == At(w, p.ts[x].path)
    {
      OtherTarget(p.ts[x], x, vs[x], x in forgotten, w, w');
    }
  }

  lemma UnlinkHarmless(p: Plan, vs: Views, forgotten: set<User>, w: World, u: User)
    requires Core(p, vs, forgotten, w) && u in p.ts && p.ts[u].orig.None?
    ensures Harmless(p, vs, forgotten, w, Unlink(p.ts[u].path))
  {
    hide Core;
    UnlinkKeeps(p, vs, forgotten, w, u);
    var c := Unlink(p.ts[u].path);
    forall part
      ensures Core(p, vs, forgotten, ApplyPart(w, c, part))
    {
      assert ApplyPart(w, c, part) == w || ApplyPart(w, c, part) == Apply(w, c);
    }
  }

  // ------------------------------------------------------- other environments

  lemma AskKeeps(p: Plan, vs: Views, forgotten: set<User>, w: World, u: User, key: Key, full: bool, t: Tick)
    requires Core(p, vs, forgotten, w)
    ensures Core(p, vs, forgotten, Ask(w, u, key, full, t))
  {
    hide Hangup, CoreAt, LogGood, AddsProven, BeforeRemovals, Manifest.Decode, Distinct;
    HangupKeeps(p, vs, forgotten, w);
    var v := if t.dies && w.conn then Hangup(w) else w;
    Unaffected(p, vs, forgotten, v, Ask(w, u, key, full, t));
  }

  lemma CheckKeeps(p: Plan, vs: Views, forgotten: set<User>, w: World, t: Tick)
    requires Core(p, vs, forgotten, w)
    ensures Core(p, vs, forgotten, CheckGuard(w, t).0)
  {
    hide Core, Hangup, EndGuard;
    HangupKeeps(p, vs, forgotten, w);
    GuardEnds(p, vs, forgotten, w);
  }

  lemma SaveLocallyFrame(w: World, u: User, content: Bytes, t: Tick)
    ensures var v := SaveLocally(w, u, content, t).0;
            && v == w.(local := v.local)
            && (SaveLocally(w, u, content, t).1 == Done ==> u in v.local && v.local[u] == content)
            && (Smooth(t) ==> SaveLocally(w, u, content, t).1 == Done)
            && (forall x | x != u && x in w.local :: x in v.local && v.local[x] == w.local[x])
            && forall x | x in v.local :: x in w.local || x == u
  {
    var v := SaveLocally(w, u, content, t).0;
    SaveLocallyEffect(w, u, content, t);
    hide SaveLocally;
  }

  lemma SaveLocallyEffect(w: World, u: User, content: Bytes, t: Tick)
    ensures var (v, r) := SaveLocally(w, u, content, t);
            && v == w.(local := v.local)
            && (v.local == w.local || (u in v.local && v.local == w.local[u := v.local[u]]))
            && (r == Done ==> v == w.(local := w.local[u := content]))
            && (Smooth(t) ==> r == Done)
  {
    hide Clip;
  }

  /** A local backup is only ever written before its file is manifested. */
  lemma SaveLocallyKeeps(p: Plan, vs: Views, forgotten: set<User>, w: World, u: User, content: Bytes, t: Tick)
    requires Core(p, vs, forgotten, w) && u in p.ts && !vs[u].manifested && Copied(p, u)
    ensures Core(p, vs, forgotten, SaveLocally(w, u, content, t).0)
  {
    hide Manifest.Decode, RecordOf, LogGood, CoreAt, AddsProven, BeforeRemovals, Distinct, BackupOk, Log;
    var v := SaveLocally(w, u, content, t).0;
    SaveLocallyFrame(w, u, content, t);
    hide SaveLocally;
    forall x | x in p.ts && RecordOf(p.ts[x]) in Log(w)
      ensures BackupOk(p.ts[x], w) ==> BackupOk(p.ts[x], v)
    {
      SameBackups(p.ts[x], w, v);
    }
    Unaffected(p, vs, forgotten, w, v);
  }

  lemma SameBackups(t: Target, w: World, v: World)
    requires w.backups == v.backups
    ensures BackupOk(t, w) == BackupOk(t, v)
  {
  }

  // ---------------------------------------------------------- client's books

  /** The client changes what it remembers of one file. */
  lemma Remembers(p: Plan, vs: Views, forgotten: set<User>, w: World, u: User, v: View, more: set<User>)
    requires Core(p, vs, forgotten, w) && u in p.ts
    requires more == forgotten || more == forgotten + {u}
    requires CoreAt(p.ts[u], u, v, u in more, w)
    ensures Core(p, vs[u := v], more, w)
  {
    hide CoreAt, AddsProven, LogGood, BeforeRemovals, Distinct;
  }

  // ------------------------------------------------- steps of a healthy run

  /** A step that worked: the connection is up, no target and no verdict changed. */
  predicate Quiet(before: World, after: World) {
    after.conn && after.disk == before.disk && after.probes == before.probes
  }

  /** The invariant and the trace obligation together. */
  ghost predicate Fine(p: Plan, vs: Views, forgotten: set<User>, w: World) {
    Core(p, vs, forgotten, w) && Sane(p, w)
  }

  lemma CoreFine(p: Plan, vs: Views, forgotten: set<User>, w: World)
    requires Core(p, vs, forgotten, w)
    ensures Fine(p, vs, forgotten, w)
  {
    CoreIsSane(p, vs, forgotten, w);
  }

  lemma SteadyIsCore(p: Plan, vs: Views, forgotten: set<User>, w: World)
    requires Steady(p, vs, forgotten, w)
    ensures Core(p, vs, forgotten, w) && forgotten == {} && w.conn == w.guard && (w.guard ==> !w.restored)
    ensures vs.Keys == p.ts.Keys
  {
  }

  lemma SteadyAgain(p: Plan, vs: Views, w: World, v: World)
    requires Steady(p, vs, {}, w) && Core(p, vs, {}, v)
    requires v.conn == v.guard && v.manifest == w.manifest && (v.guard ==> !v.restored)
    ensures Steady(p, vs, {}, v)
  {
    hide Core, RecordOf, Manifest.Decode;
  }

  lemma HangupFrame(w: World)
    ensures var v := Hangup(w);
            && v == w.(disk := v.disk, refused := v.refused, restored := v.restored, guard := false, conn := false)
  {
    RestoreAllFrame(w);
  }

  lemma StepSaveLocal(p: Plan, vs: Views, w: World, u: User, content: Bytes, t: Tick)
    requires Steady(p, vs, {}, w) && u in p.ts && !vs[u].manifested && Copied(p, u)
    ensures var (v, r) := SaveLocally(w, u, content, t);
            && Fine(p, vs, {}, v) && Steady(p, vs, {}, v)
            && v.conn == w.conn && v.disk == w.disk && v.probes == w.probes && v.backups == w.backups
            && (r == Done ==> u in v.local && v.local[u] == content) && (Smooth(t) ==> r == Done)
  {
    hide Core, Steady, SaveLocally;
    SteadyIsCore(p, vs, {}, w);
    SaveLocallyFrame(w, u, content, t);
    SaveLocallyKeeps(p, vs, {}, w, u, content, t);
    CoreFine(p, vs, {}, SaveLocally(w, u, content, t).0);
    SteadyAgain(p, vs, w, SaveLocally(w, u, content, t).0);
  }

  /** A backup name the trap has no use for: no armed file that existed has it. */
  ghost predicate NameFree(p: Plan, vs: Views, name: Path) {
    forall x | x in p.ts && x in vs && vs[x].manifested && p.ts[x].orig.Some? :: p.ts[x].bak != name
  }

  lemma StepBackup(p: Plan, vs: Views, w: World, name: Path, content: Bytes, t: Tick)
    requires Steady(p, vs, {}, w) && NameFree(p, vs, name)
    ensures var (v, r) := Perform(w, SaveBackup(name, content), t);
            && Fine(p, vs, {}, v)
            && (r == Done ==> Steady(p, vs, {}, v) && Quiet(w, v) && v.local == w.local
                              && name in v.backups && v.backups[name] == content)
            && (Smooth(t) && w.conn ==> r == Done)
  {
    hide Core, RecordOf, Manifest.Decode, Hangup;
    SteadyIsCore(p, vs, {}, w);
    BackupHarmless(p, vs, {}, w, name, content);
    PerformKeeps(p, vs, {}, w, SaveBackup(name, content), t);
    var (v, r) := Perform(w, SaveBackup(name, content), t);
    CoreFine(p, vs, {}, v);
    if r == Done {
      SteadyAgain(p, vs, w, v);
    }
  }

  lemma StepSnapshot(p: Plan, vs: Views, w: World, u: User, content: Bytes, t: Tick)
    requires Steady(p, vs, {}, w)
    ensures var (v, r) := SaveSnapshot(w, u, content, t);
            && Fine(p, vs, {}, v) && Steady(p, vs, {}, v)
            && v == w.(snapshots := v.snapshots)
            && (r == Done ==> u in v.snapshots && v.snapshots[u] == content) && (Smooth(t) ==> r == Done)
  {
    var (v, r) := SaveSnapshot(w, u, content, t);
    SteadyIsCore(p, vs, {}, w);
    assert v == w.(snapshots := v.snapshots);
    hide Core, Steady, SaveSnapshot;
    SnapshotKeeps(p, vs, w, v);
    CoreFine(p, vs, {}, v);
    SteadyAgain(p, vs, w, v);
  }

  lemma SnapshotKeeps(p: Plan, vs: Views, w: World, v: World)
    requires Core(p, vs, {}, w) && v == w.(snapshots := v.snapshots)
    ensures Core(p, vs, {}, v)
  {
    hide Manifest.Decode, DirOf, Distinct, AddsProven, Render;
    LogStaysGood(p, w, v);
  }

  lemma AppendCore(p: Plan, vs: Views, w: World, u: User)
    requires Steady(p, vs, {}, w) && u in p.ts && BackupOk(p.ts[u], w)
    ensures Harmless(p, vs, {}, w, AppendManifest(Manifest.Encode(RecordOf(p.ts[u]))))
  {
    hide RecordOf, Manifest.Encode, Manifest.Decode, Harmless, CoreAt, LogGood, Distinct, BeforeRemovals, AddsProven;
    AppendHarmless(p, vs, {}, w, u);
  }

  lemma DistinctRecords(p: Plan, u: User, x: User)
    requires Distinct(p.ts) && u in p.ts && x in p.ts && u != x
    ensures RecordOf(p.ts[u]) != RecordOf(p.ts[x])
  {
    assert p.ts[u].path != p.ts[x].path;
  }

  /** Once its line is in the log the file counts as manifested. */
  lemma NowManifested(p: Plan, vs: Views, w: World, v: World, u: User)
    requires Steady(p, vs, {}, w) && u in p.ts && Core(p, vs, {}, v)
    requires v.conn == v.guard && (v.guard ==> !v.restored) && Manifest.Whole(LogText(v))
    requires Log(v) == Log(w) + [RecordOf(p.ts[u])] && BackupOk(p.ts[u], v) && LocalOk(p.ts[u], u, v)
    ensures Steady(p, vs[u := vs[u].(manifested := true)], {}, v)
  {
    hide Log, RecordOf, BackupOk, LocalOk, LogText, Staged, NoLinks, LogGood, Distinct, BeforeRemovals, AddsProven, At;
    Remembers(p, vs, {}, v, u, vs[u].(manifested := true), {});
    forall x | x in p.ts && x != u && !vs[x].manifested
      ensures RecordOf(p.ts[x]) !in Log(v)
    {
      DistinctRecords(p, u, x);
    }
  }

  lemma AppendDone(p: Plan, w: World, u: User)
    requires Distinct(p.ts) && u in p.ts && Manifest.Whole(LogText(w))
    ensures var v := Apply(w, AppendManifest(Manifest.Encode(RecordOf(p.ts[u]))));
            && v == w.(manifest := v.manifest)
            && Log(v) == Log(w) + [RecordOf(p.ts[u])] && Manifest.Whole(LogText(v))
  {
    AppendPart(p, w, u, Whole);
  }

  lemma StepAppend(p: Plan, vs: Views, w: World, u: User, t: Tick)
    requires Steady(p, vs, {}, w) && u in p.ts && u in vs && BackupOk(p.ts[u], w) && LocalOk(p.ts[u], u, w)
    ensures var (v, r) := Perform(w, AppendManifest(Manifest.Encode(RecordOf(p.ts[u]))), t);
            && Fine(p, vs, {}, v)
            && (r == Done ==> Steady(p, vs[u := vs[u].(manifested := true)], {}, v) && Quiet(w, v))
            && (Smooth(t) && w.conn ==> r == Done)
  {
    var c := AppendManifest(Manifest.Encode(RecordOf(p.ts[u])));
    SteadyIsCore(p, vs, {}, w);
    AppendCore(p, vs, w, u);
    AppendDone(p, w, u);
    hide Core, RecordOf, Manifest.Encode, Manifest.Decode, Hangup, Log, LogText, Manifest.Whole, Harmless;
    PerformKeeps(p, vs, {}, w, c, t);
    var (v, r) := Perform(w, c, t);
    CoreFine(p, vs, {}, v);
    if r == Done {
      NowManifested(p, vs, w, v, u);
    }
  }

  lemma StepRead(p: Plan, vs: Views, w: World, t: Tick)
    requires Steady(p, vs, {}, w)
    ensures var (v, r) := Perform(w, Inspect, t);
            && Fine(p, vs, {}, v)
            && (r == Done ==> v == w && w.conn) && (Smooth(t) && w.conn ==> r == Done)
  {
    hide Core, Hangup;
    SteadyIsCore(p, vs, {}, w);
    InspectHarmless(p, vs, {}, w);
    PerformKeeps(p, vs, {}, w, Inspect, t);
    CoreFine(p, vs, {}, Perform(w, Inspect, t).0);
  }

  lemma StepCheck(p: Plan, vs: Views, w: World, t: Tick)
    requires Steady(p, vs, {}, w)
    ensures var (v, r) := CheckGuard(w, t);
            && Fine(p, vs, {}, v)
            && (r == Done ==> v == w && w.conn && w.guard) && (Smooth(t) && w.conn ==> r == Done)
  {
    hide Core, Hangup, EndGuard;
    SteadyIsCore(p, vs, {}, w);
    CheckKeeps(p, vs, {}, w, t);
    CoreFine(p, vs, {}, CheckGuard(w, t).0);
  }

  lemma StepAsk(p: Plan, vs: Views, w: World, u: User, key: Key, full: bool, t: Tick)
    requires Steady(p, vs, {}, w)
    ensures var v := Ask(w, u, key, full, t);
            && Fine(p, vs, {}, v) && Steady(p, vs, {}, v)
            && v.probes == w.probes + [Probe(u, key, full, t.verdict, v.disk)]
            && (v.guard ==> v.disk == w.disk && w.guard) && (Smooth(t) ==> v.guard == w.guard)
  {
    hide Core, Hangup;
    SteadyIsCore(p, vs, {}, w);
    AskKeeps(p, vs, {}, w, u, key, full, t);
    var v := Ask(w, u, key, full, t);
    HangupFrame(w);
    CoreFine(p, vs, {}, v);
    SteadyAgain(p, vs, w, v);
  }

  // -------------------------------------------------------------- the swap

  /** No link is in the way of a target. */
  lemma TargetAccepts(p: Plan, vs: Views, w: World, u: User, content: Bytes, t: Tick)
    requires Core(p, vs, {}, w) && u in p.ts && Smooth(t) && w.conn
    ensures Perform(w, Swap(p.ts[u].path, content, p.ts[u].stamp), t).1 == Done
  {
  }

  lemma SwapReply(w: World, path: Path, content: Bytes, stamp: Meta, t: Tick)
    ensures var (v, r) := Perform(w, Swap(path, content, stamp), t);
            && (r == Done ==> w.conn && v == w.(disk := w.disk[path := Node(content, stamp)]))
            && (r == Exit ==> v == w)
  {
  }

  /** What a swap's reply means, the file having been marked dirty beforehand. */
  lemma StepSwap(p: Plan, vs: Views, w: World, u: User, content: Bytes, t: Tick)
    requires Steady(p, vs, {}, w) && MayWrite(p, vs, w, u, content)
    ensures var (v, r) := Perform(w, Swap(p.ts[u].path, content, p.ts[u].stamp), t);
            && Fine(p, vs, {}, v)
            && (r == Done ==> Steady(p, vs, {}, v) && w.conn
                              && v == w.(disk := w.disk[p.ts[u].path := Node(content, p.ts[u].stamp)]))
            && (r == Exit ==> v == w) && (Smooth(t) && w.conn ==> r == Done)
  {
    var (v, r) := Perform(w, Swap(p.ts[u].path, content, p.ts[u].stamp), t);
    hide Core, Steady, MayWrite, Perform;
    SteadyIsCore(p, vs, {}, w);
    SwapReply(w, p.ts[u].path, content, p.ts[u].stamp, t);
    SwapEffect(p, vs, w, u, content, t);
    if Smooth(t) && w.conn {
      TargetAccepts(p, vs, w, u, content, t);
    }
    CoreFine(p, vs, {}, v);
    if r == Done {
      SteadyAgain(p, vs, w, v);
    }
  }

  lemma MarkSteady(p: Plan, vs: Views, w: World, u: User)
    requires Steady(p, vs, {}, w) && u in p.ts
    ensures Steady(p, vs[u := vs[u].(dirty := true)], {}, w)
  {
    hide NoLinks, Staged, Log, BackupOk, LocalOk, LogGood, Distinct, BeforeRemovals, AddsProven, At, RecordOf;
    Remembers(p, vs, {}, w, u, vs[u].(dirty := true), {});
  }

  /** The reply never came: the file stays marked and is noted as unconfirmed. */
  lemma NoteUnconfirmed(p: Plan, vs: Views, w: World, u: User)
    requires Core(p, vs, {}, w) && u in p.ts
    ensures Core(p, vs[u := vs[u].(unconfirmed := true)], {}, w)
  {
    hide NoLinks, Staged, Log, BackupOk, LocalOk, LogGood, Distinct, BeforeRemovals, AddsProven, At;
    Remembers(p, vs, {}, w, u, vs[u].(unconfirmed := true), {});
  }

  /** A clean failure: the mark falls back, and what an earlier mark stood for may be forgotten. */
  lemma NoteCleanFailure(p: Plan, vs: Views, w: World, u: User, was: bool, dirty: bool)
    requires Core(p, vs, {}, w) && u in p.ts && (dirty ==> was)
    requires !was ==> At(w, p.ts[u].path) == p.ts[u].orig
    ensures Core(p, vs[u := vs[u].(dirty := dirty)], if was && !dirty then {u} else {}, w)
  {
    hide NoLinks, Staged, Log, BackupOk, LocalOk, LogGood, Distinct, BeforeRemovals, AddsProven, At;
    Remembers(p, vs, {}, w, u, vs[u].(dirty := dirty), if was && !dirty then {u} else {});
  }

  lemma SwapEffect(p: Plan, vs: Views, w: World, u: User, content: Bytes, t: Tick)
    requires Core(p, vs, {}, w) && u in p.ts && MayWrite(p, vs, w, u, content)
    ensures Core(p, vs, {}, Perform(w, Swap(p.ts[u].path, content, p.ts[u].stamp), t).0)
  {
    hide Core, MayWrite;
    WriteHarmless(p, vs, {}, w, u, content);
    PerformKeeps(p, vs, {}, w, Swap(p.ts[u].path, content, p.ts[u].stamp), t);
  }

  // ---------------------------------------------------------------- editing

  /** Editing the working copy touches nothing the invariant speaks of. */
  lemma EditSteady(p: Plan, vs: Views, w: World, u: User, doc: Doc)
    requires Steady(p, vs, {}, w) && u in p.ts && u in vs
    ensures Steady(p, vs[u := vs[u].(doc := doc)], {}, w)
  {
    hide NoLinks, Staged, Log, BackupOk, LocalOk, LogGood, Distinct, BeforeRemovals, AddsProven, At, RecordOf;
    Remembers(p, vs, {}, w, u, vs[u].(doc := doc), {});
  }

  lemma SamePhase(t: Target, v: View, w: World, w': World, k: int)
    requires InPhase(t, v, w, k) && w.guard && At(w', t.path) == At(w, t.path)
    ensures InPhase(t, v, w', k)
  {
  }

  /** One file advanced a phase; everybody else's content is where it was. */
  lemma Advances(p: Plan, vs: Views, w: World, vs': Views, w': World, k: int, done: set<User>, u: User)
    requires Progress(p, vs, w, k, done) && u in p.ts && u !in done
    requires u in vs' && vs' == vs[u := vs'[u]] && InPhase(p.ts[u], vs'[u], w', k + 1)
    requires w.guard
    requires forall x | x in p.ts && x != u :: At(w', p.ts[x].path) == At(w, p.ts[x].path)
    ensures Progress(p, vs', w', k, done + {u})
  {
    hide InPhase, At;
    forall x | x in p.ts
      ensures InPhase(p.ts[x], vs'[x], w', if x in done + {u} then k + 1 else k)
    {
      if x != u {
        SamePhase(p.ts[x], vs[x], w, w', if x in done then k + 1 else k);
      }
    }
  }

  /** A file with nothing to do in a phase is through it already. */
  lemma Skips(p: Plan, vs: Views, w: World, k: int, done: set<User>, u: User)
    requires Progress(p, vs, w, k, done) && u in p.ts
    requires DocAt(p.ts[u], k) == DocAt(p.ts[u], k + 1) && 0 <= k <= 1
    ensures Progress(p, vs, w, k, done + {u})
  {
    hide At;
  }

  lemma NextPhase(p: Plan, vs: Views, w: World, k: int, done: set<User>)
    requires Progress(p, vs, w, k, done) && p.ts.Keys <= done
    ensures Progress(p, vs, w, k + 1, {})
  {
    hide DocAt, ContentAt, TouchedAt, At;
  }

  // --------------------------------------------------------- file by file

  ghost predicate SameElsewhere(path: Path, before: World, after: World) {
    forall x | x != path :: At(after, x) == At(before, x)
  }

  /** Nothing changed in memory: the file is through the phase as it is. */
  lemma PhaseIdle(t: Target, v: View, w: World, v': View, w': World, k: int)
    requires 0 <= k <= 1 && InPhase(t, v, w, k) && w.guard
    requires DocAt(t, k + 1) == DocAt(t, k)
    requires v'.doc == v.doc && v'.dirty == v.dirty && w'.disk == w.disk
    ensures InPhase(t, v', w', k + 1)
  {
  }

  /** The phase's content has been swapped in. */
  lemma PhaseSwapped(t: Target, v': View, w': World, k: int)
    requires 0 <= k <= 1 && DocAt(t, k + 1) != DocAt(t, k)
    requires v'.doc == DocAt(t, k + 1) && v'.dirty && At(w', t.path) == Some(Render(DocAt(t, k + 1)))
    ensures InPhase(t, v', w', k + 1)
  {
  }

  lemma {:induction false} AddAllTidy(c: Codec, d: Doc, gs: seq<Grant>)
    requires Tidy(d)
    ensures Tidy(AddAll(c, d, gs))
    decreases |gs|
  {
    if gs != [] {
      AddAllTidy(c, Add(c, d, gs[0]), gs[1..]);
    }
  }

  lemma PlannedTidy(c: Codec, ops: seq<Op>, u: User, t: Target)
    requires Planned(c, ops, u, t)
    ensures Tidy(t.doc1)
  {
    assert Tidy(t.doc0);
    AddAllTidy(c, t.doc0, Grants(OpsOf(ops, u, Adding)));
  }

  /** The guard session only ever ends: what held while it ran is known by the ones still running. */
  predicate Outlives(before: World, after: World) {
    && before.probes <= after.probes
    && (after.guard ==> before.guard && after.disk == before.disk)
    && (after.guard ==> forall i | |before.probes| <= i < |after.probes| :: after.probes[i].seen == after.disk)
  }

  lemma ProgressOutlives(p: Plan, vs: Views, w: World, v: World, k: int)
    requires Progress(p, vs, w, k, {}) && Outlives(w, v)
    ensures Progress(p, vs, v, k, {})
  {
    hide DocAt, ContentAt, TouchedAt;
  }

  lemma ProgressShowsMid(p: Plan, vs: Views, w: World)
    requires w.guard && Progress(p, vs, w, 1, {})
    ensures ShowsMid(p, w.disk)
  {
    hide Mid, Fin;
    forall u | u in p.ts
      ensures ContentIn(w.disk, p.ts[u].path) == Mid(p.ts[u])
    {
      assert InPhase(p.ts[u], vs[u], w, 1);
    }
  }

  lemma ProgressShowsFin(p: Plan, vs: Views, w: World)
    requires w.guard && Progress(p, vs, w, 2, {})
    ensures AllFin(p, w)
  {
    hide Mid, Fin;
    forall u | u in p.ts
      ensures ContentIn(w.disk, p.ts[u].path) == Fin(p.ts[u])
    {
      assert InPhase(p.ts[u], vs[u], w, 2);
    }
  }

  // ----------------------------------------------------------------- probes

  /** The last n connections asked about one key and brought no verdict. */
  ghost predicate Barren(before: seq<Probe>, after: seq<Probe>, user: User, key: Key, full: bool, n: nat) {
    && before <= after && |after| == |before| + n
    && (forall i | |before| <= i < |after| :: after[i].user == user && after[i].key == key && after[i].full == full)
    && (forall i | |before| <= i < |after| :: after[i].verdict == Inconclusive)
  }

  lemma OneMoreTry(before: seq<Probe>, after: seq<Probe>, q: Probe, n: nat, attempts: int)
    requires Barren(before, after, q.user, q.key, q.full, n)
    requires n < Most(attempts)
    ensures q.verdict == Inconclusive ==> Barren(before, after + [q], q.user, q.key, q.full, n + 1)
    ensures q.verdict != Inconclusive || n + 1 >= attempts
            ==> Tries(before, after + [q], q.user, q.key, q.full, attempts, q.verdict)
  {
  }

  /** The first i operations' additions are proven. */
  ghost predicate ProvenUpTo(p: Plan, i: nat, qs: seq<Probe>)
    requires i <= |p.ops|
  {
    forall j | 0 <= j < i && p.ops[j].action == Adding :: exists q | q in qs :: AddProven(p, p.ops[j], q)
  }

  lemma ProvenNone(p: Plan, qs: seq<Probe>)
    ensures ProvenUpTo(p, 0, qs)
    ensures (forall op | op in p.ops :: op.action != Adding) ==> AddsProven(p, qs)
  {
  }

  lemma ProvenNext(p: Plan, i: nat, qs: seq<Probe>, more: seq<Probe>)
    requires i < |p.ops| && qs <= more && ProvenUpTo(p, i, qs)
    requires p.ops[i].action == Adding ==> exists q | q in more :: AddProven(p, p.ops[i], q)
    ensures ProvenUpTo(p, i + 1, more)
  {
    hide AddProven;
    forall j | 0 <= j < i && p.ops[j].action == Adding
      ensures exists q | q in more :: AddProven(p, p.ops[j], q)
    {
      var q :| q in qs && AddProven(p, p.ops[j], q);
      var n :| 0 <= n < |qs| && qs[n] == q;
      assert more[n] == q;
    }
  }

  lemma ProvenAll(p: Plan, qs: seq<Probe>)
    requires ProvenUpTo(p, |p.ops|, qs)
    ensures AddsProven(p, qs)
  {
    hide AddProven;
    forall op | op in p.ops && op.action == Adding
      ensures exists q | q in qs :: AddProven(p, op, q)
    {
      var j :| 0 <= j < |p.ops| && p.ops[j] == op;
    }
  }

  /** An acceptance while every file held its add-phase content. */
  lemma AcceptanceProves(p: Plan, vs: Views, w: World, op: Op, q: Probe)
    requires Progress(p, vs, w, 1, {}) && w.guard && q in w.probes
    requires op.key.Some? && q == Probe(op.user, op.key.value, op.key.value in p.signers, Accepted, w.disk)
    ensures exists q | q in w.probes :: AddProven(p, op, q)
  {
    hide Progress;
    ProgressShowsMid(p, vs, w);
    assert AddProven(p, op, q);
  }

  /** The first keys on the list were asked about and none was accepted. */
  ghost predicate TurnedAway(before: seq<Probe>, after: seq<Probe>, user: User, keys: seq<Key>, attempts: int,
                             failed: bool) {
    && before <= after && |after| - |before| <= |keys| * Most(attempts)
    && (forall i | |before| <= i < |after| :: after[i].user == user && after[i].key in keys && !after[i].full)
    && (forall i | |before| <= i < |after| :: after[i].verdict != Accepted)
    && (!failed ==> forall k | k in keys :: RejectedIn(before, after, user, k))
    && (failed ==> exists k | k in keys :: Exhausted(before, after, user, k, attempts))
  }

  lemma RejectedStill(before: seq<Probe>, mid: seq<Probe>, after: seq<Probe>, user: User, key: Key)
    requires RejectedIn(before, mid, user, key) && mid <= after
    ensures RejectedIn(before, after, user, key)
  {
    var i :| |before| <= i < |mid| && mid[i].user == user && mid[i].key == key && mid[i].verdict == Rejected;
    assert after[i] == mid[i];
  }

  lemma ExhaustedStill(before: seq<Probe>, mid: seq<Probe>, after: seq<Probe>, user: User, key: Key, attempts: int)
    requires Exhausted(before, mid, user, key, attempts) && mid <= after
    ensures Exhausted(before, after, user, key, attempts)
  {
    hide Tries;
    var a, b :| |before| <= a <= b <= |mid| && Tries(mid[..a], mid[..b], user, key, false, attempts, Inconclusive);
    assert after[..a] == mid[..a] && after[..b] == mid[..b];
  }

  lemma NewlyExhausted(before: seq<Probe>, mid: seq<Probe>, after: seq<Probe>, user: User, key: Key, attempts: int)
    requires before <= mid && Tries(mid, after, user, key, false, attempts, Inconclusive)
    ensures Exhausted(before, after, user, key, attempts)
  {
    assert after[..|mid|] == mid && after[..|after|] == after;
  }

  lemma OneMoreKey(before: seq<Probe>, mid: seq<Probe>, after: seq<Probe>, user: User, keys: seq<Key>, key: Key,
                   attempts: int, failed: bool, v: Verdict)
    requires TurnedAway(before, mid, user, keys, attempts, failed)
    requires Tries(mid, after, user, key, false, attempts, v)
    ensures v != Accepted ==> TurnedAway(before, after, user, keys + [key], attempts, failed || v == Inconclusive)
    ensures v == Accepted ==> AskedAround(before, after, user, keys + [key], attempts, Some(true))
  {
    hide Exhausted, RejectedIn;
    assert |keys + [key]| * Most(attempts) == |keys| * Most(attempts) + Most(attempts);
    assert forall i | |before| <= i < |mid| :: after[i] == mid[i];
    if v != Accepted {
      if failed || v == Inconclusive {
        if failed {
          var k :| k in keys && Exhausted(before, mid, user, k, attempts);
          ExhaustedStill(before, mid, after, user, k, attempts);
          assert k in keys + [key];
        } else {
          NewlyExhausted(before, mid, after, user, key, attempts);
          assert key in keys + [key];
        }
      } else {
        forall k | k in keys
          ensures RejectedIn(before, after, user, k)
        {
          RejectedStill(before, mid, after, user, k);
        }
        LastRejects(before, mid, after, user, key, attempts);
      }
    }
  }

  lemma LastRejects(before: seq<Probe>, mid: seq<Probe>, after: seq<Probe>, user: User, key: Key, attempts: int)
    requires before <= mid && Tries(mid, after, user, key, false, attempts, Rejected)
    ensures RejectedIn(before, after, user, key)
  {
    assert after[|after| - 1].verdict == Rejected;
  }

  lemma MoreKeys(before: seq<Probe>, after: seq<Probe>, user: User, keys: seq<Key>, all: seq<Key>, attempts: int)
    requires AskedAround(before, after, user, keys, attempts, Some(true)) && keys <= all
    ensures AskedAround(before, after, user, all, attempts, Some(true))
  {
    assert forall k | k in keys :: k in all;
    LongerList(|keys|, |all|, Most(attempts));
  }

  lemma LongerList(a: nat, b: nat, n: nat)
    requires a <= b
    ensures a * n <= b * n
  {
  }

  lemma AllTurnedAway(before: seq<Probe>, after: seq<Probe>, user: User, keys: seq<Key>, attempts: int, failed: bool,
                      r: Option<bool>)
    requires TurnedAway(before, after, user, keys[..|keys|], attempts, failed)
    requires r == if failed then None else Some(false)
    ensures AskedAround(before, after, user, keys, attempts, r)
  {
    assert keys[..|keys|] == keys;
  }

  lemma LetInStill(p: Plan, u: User, qs: seq<Probe>, n: nat, more: seq<Probe>, m: nat)
    requires LetIn(p, u, qs, n) && qs <= more && n <= m
    ensures LetIn(p, u, more, m)
  {
    hide ShowsFin;
    var i :| 0 <= i < n && i < |qs|
      && qs[i].user == u && qs[i].verdict == Accepted && qs[i].key in Keys(p.ts[u].doc2.lines)
      && ShowsFin(p, qs[i].seen);
    assert more[i] == qs[i];
  }

  lemma ControlledStill(p: Plan, u: User, qs: seq<Probe>, n: nat, more: seq<Probe>, m: nat)
    requires Controlled(p, u, qs, n) && qs <= more && n <= m
    ensures Controlled(p, u, more, m)
  {
    hide LetIn;
    if Keys(p.ts[u].doc2.lines) != [] {
      LetInStill(p, u, qs, n, more, m);
    }
  }

  lemma RemovalStill(c: Codec, p: Plan, op: Op, qs: seq<Probe>, more: seq<Probe>)
    requires RemovalProven(c, p, op, qs) && qs <= more
    ensures RemovalProven(c, p, op, more)
  {
    hide Controlled, ShowsFin;
    if op.key.Some? {
      var j: nat :| RefusedAt(p, op.user, op.key.value, qs, j);
      ControlledStill(p, op.user, qs, j, more, j);
      assert RefusedAt(p, op.user, op.key.value, more, j);
    }
  }

  /** An acceptance while every file was final. */
  lemma AcceptanceLetsIn(p: Plan, vs: Views, w: World, before: seq<Probe>, u: User, keys: seq<Key>, attempts: int)
    requires Progress(p, vs, w, 2, {}) && w.guard && u in p.ts && keys == Keys(p.ts[u].doc2.lines)
    requires AskedAround(before, w.probes, u, keys, attempts, Some(true))
    requires w.probes[|w.probes| - 1].seen == w.disk
    ensures LetIn(p, u, w.probes, |w.probes|)
  {
    hide Progress, ShowsFin, Exhausted, RejectedIn;
    ProgressShowsFin(p, vs, w);
    var i := |w.probes| - 1;
    assert ShowsFin(p, w.probes[i].seen);
  }

  /** A rejection while every file was final, after the control. */
  lemma RejectionProves(c: Codec, p: Plan, vs: Views, w: World, before: seq<Probe>, op: Op, q: Probe)
    requires Progress(p, vs, w, 2, {}) && w.guard && op.key.Some?
    requires before < w.probes && w.probes[|w.probes| - 1] == q
    requires q.user == op.user && q.key == op.key.value && q.verdict == Rejected && q.seen == w.disk
    requires Controlled(p, op.user, before, |before|)
    ensures RemovalProven(c, p, op, w.probes)
  {
    hide Progress, ShowsFin, Controlled;
    ProgressShowsFin(p, vs, w);
    var j := |w.probes| - 1;
    ControlledStill(p, op.user, before, |before|, w.probes, j);
    ControlledUser(p, op.user, before, |before|);
    assert RefusedAt(p, op.user, op.key.value, w.probes, j);
  }

  lemma ControlledUser(p: Plan, u: User, qs: seq<Probe>, n: nat)
    requires Controlled(p, u, qs, n)
    ensures u in p.ts
  {
  }

  lemma FinalDoc(p: Plan, vs: Views, w: World, u: User)
    requires Progress(p, vs, w, 2, {}) && u in p.ts
    ensures u in vs && vs[u].doc == p.ts[u].doc2 && vs[u].dirty == TouchedAt(p.ts[u], 2)
  {
    hide At, Fin;
    assert InPhase(p.ts[u], vs[u], w, 2);
  }

  // ------------------------------------------------- an sshd that answers

  /** An answer given by the files as they are now. */
  lemma AnsweredBy(c: Codec, p: Plan, qs: seq<Probe>, q: Probe, content: Option<Bytes>)
    requires Answers(c, p, qs) && q in qs && q.user in p.ts && ContentIn(q.seen, p.ts[q.user].path) == content
    ensures q.verdict == if Holds(c, content, q.key) then Accepted else Rejected
  {
    hide Holds;
  }

  /** Asking around for keys the file holds finds one that is accepted. */
  lemma SomebodyIsLetIn(c: Codec, p: Plan, before: seq<Probe>, w: World, u: User, keys: seq<Key>, attempts: int,
                        r: Option<bool>)
    requires AskedAround(before, w.probes, u, keys, attempts, r) && keys != []
    requires Answers(c, p, w.probes) && u in p.ts
    requires forall i | |before| <= i < |w.probes| :: w.probes[i].seen == w.disk
    requires forall k | k in keys :: Holds(c, At(w, p.ts[u].path), k)
    ensures r == Some(true)
  {
    hide Holds;
    var content := At(w, p.ts[u].path);
    if r.Some? && !r.value {
      assert r == Some(false) && RejectedIn(before, w.probes, u, keys[0]);
      var i :| |before| <= i < |w.probes| && w.probes[i].key == keys[0] && w.probes[i].verdict == Rejected;
      AnsweredBy(c, p, w.probes, w.probes[i], content);
    } else if r.None? {
      var k :| k in keys && Exhausted(before, w.probes, u, k, attempts);
      var i := UnansweredAt(before, w.probes, u, k, attempts);
      AnsweredBy(c, p, w.probes, w.probes[i], content);
    }
  }

  lemma UnansweredAt(before: seq<Probe>, after: seq<Probe>, u: User, k: Key, attempts: int) returns (i: nat)
    requires Exhausted(before, after, u, k, attempts)
    ensures |before| <= i < |after| && after[i].user == u && after[i].key == k && after[i].verdict == Inconclusive
  {
    var a, b :| |before| <= a <= b <= |after| && Tries(after[..a], after[..b], u, k, false, attempts, Inconclusive);
    i := b - 1;
    assert after[i] == after[..b][i];
  }
}
