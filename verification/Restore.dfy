/** The break-glass command: local backups back onto the host, one listed file after the other. */
module Restore {
  import opened Basics
  import opened World
  import opened WritePolicy
  import opened TxState
  import opened TxSteps
  import opened TrapLaws
  import opened Host
  import opened Ending
  import opened Records
  import opened Tx

  /** One file of a transaction's meta.json. */
  datatype Listed = Listed(user: User, path: Path, existed: bool, mode: string)

  /** The entry finishMeta writes for a loaded file, whether or not anything was done to it. */
  function ListedOf(u: User, t: Target): Listed {
    Listed(u, t.path, t.orig.Some?, if t.orig.Some? then t.origMeta.mode else "")
  }

  function ListedFiles(ts: map<User, Target>, order: seq<User>): (listed: seq<Listed>)
    requires forall u | u in order :: u in ts
    ensures |listed| == |order| && forall i | 0 <= i < |order| :: listed[i] == ListedOf(order[i], ts[order[i]])
  {
    if order == [] then [] else [ListedOf(order[0], ts[order[0]])] + ListedFiles(ts, order[1..])
  }

  /** The write policy as restore asks it: everything statted live, no entry uid, an absent file as if it had none. */
  function AskedFor(site: Site, guardUser: User, w: World, f: Listed): WriteTarget {
    var live := StatOf(site, w, f.path);
    WriteTarget(site.guard.uid == "0", guardUser, f.user, "", "",
                if live.exists_ then live else FileInfo(true, false, "", "", f.mode),
                StatOf(site, w, DirOf(f.path)))
  }

  function RestoreStamp(site: Site, guardUser: User, w: World, f: Listed): Meta {
    var opts := DecideWriteOpts(AskedFor(site, guardUser, w, f)).(mode := f.mode, mkdirFor := false);
    SwapMeta(opts, site.guard, if f.user in site.accounts then site.accounts[f.user].login else site.guard)
  }

  /** What the backup says the file held. */
  function Wanted(local: map<User, Bytes>, f: Listed): Option<Bytes> {
    if f.existed && f.user in local then Some(local[f.user]) else None
  }

  /** Whoever is to write has an account. */
  predicate HasWriter(site: Site, target: WriteTarget) {
    DecideWriteOpts(target).runAs != "" ==> target.entryUser in site.accounts
  }

  /** No link is in the way, the write policy allows it, and there is somebody to write. */
  predicate Permitted(site: Site, guardUser: User, w: World, f: Listed) {
    && f.path !in w.links && DirOf(f.path) !in w.links
    && CheckWriteTarget(AskedFor(site, guardUser, w, f)) && HasWriter(site, AskedFor(site, guardUser, w, f))
  }

  /** What a restored file looks like: the recorded mode; the owner it has; or, created where others than root may
      write, its user's. */
  ghost predicate Attributed(site: Site, guardUser: User, w: World, f: Listed, m: Meta) {
    var live, dir := StatOf(site, w, f.path), StatOf(site, w, DirOf(f.path));
    && m.mode == (if f.mode == "" then "600" else f.mode)
    && (site.guard.uid != "0" ==> m.uid == site.guard.uid && m.gid == site.guard.gid)
    && (site.guard.uid == "0" && live.exists_ && live.uid != "" ==> m.uid == live.uid && m.gid == live.gid)
    && (site.guard.uid == "0" && !live.exists_ && f.user != "" ==>
          if f.user == guardUser || OnlyRootWrites(dir) then m.uid == site.guard.uid && m.gid == site.guard.gid
          else f.user in site.accounts
               && m.uid == site.accounts[f.user].login.uid && m.gid == site.accounts[f.user].login.gid)
  }

  lemma StampIsAttributed(site: Site, guardUser: User, w: World, f: Listed)
    requires Permitted(site, guardUser, w, f)
    ensures Attributed(site, guardUser, w, f, RestoreStamp(site, guardUser, w, f))
  {
    hide DirOf, OnlyRootWrites, RootManaged;
    RootManagedExactly(StatOf(site, w, DirOf(f.path)));
  }

  /** Nothing about this entry makes restore stop. */
  predicate Restorable(site: Site, guardUser: User, w: World, f: Listed) {
    f.existed ==> f.user in w.local && Permitted(site, guardUser, w, f)
  }

  /** No restored file is another one's, or where another one lives. */
  ghost predicate PathsApart(listed: seq<Listed>) {
    && (forall i, j | 0 <= i < j < |listed| :: listed[i].path != listed[j].path)
    && (forall i, j | 0 <= i < |listed| && 0 <= j < |listed| :: listed[i].path != DirOf(listed[j].path))
  }

  /** A write to one path leaves every other path and everybody's backup alone. */
  ghost predicate OnlyAt(before: World, after: World, path: Path) {
    && after == before.(disk := after.disk, conn := after.conn)
    && forall x | x != path :: NodeAt(after.disk, x) == NodeAt(before.disk, x)
  }

  lemma NoGuardNoTrap(w: World)
    requires !w.guard
    ensures Hangup(w) == w.(conn := false)
  {
  }

  lemma WriteEffect(w: World, c: Command, t: Tick, path: Path)
    requires !w.guard && ((c.Swap? && c.path == path) || (c.Unlink? && c.path == path) || c.Inspect?)
    ensures var (v, r) := Perform(w, c, t);
            && OnlyAt(w, v, path)
            && (c.Inspect? ==> v.disk == w.disk)
            && (r == Done ==> v == Apply(w, c) && v.conn)
            && (Smooth(t) && w.conn && !Refuses(w, c) ==> r == Done)
  {
    NoGuardNoTrap(w);
    hide Hangup, DirOf, Apply, ApplyPart, OnlyAt, Refuses;
    AppliedOnlyAt(w, c, path, Whole);
    if t.fate.Lose? {
      AppliedOnlyAt(w, c, path, t.fate.part);
    }
    NothingAt(w, path);
  }

  lemma AppliedOnlyAt(w: World, c: Command, path: Path, part: Part)
    requires (c.Swap? && c.path == path) || (c.Unlink? && c.path == path) || c.Inspect?
    ensures OnlyAt(w, Apply(w, c), path) && OnlyAt(w, ApplyPart(w, c, part), path) && Apply(w, c).conn == w.conn
    ensures c.Inspect? ==> Apply(w, c) == w == ApplyPart(w, c, part)
  {
  }

  lemma NothingAt(w: World, path: Path)
    ensures OnlyAt(w, w, path) && OnlyAt(w, w.(conn := false), path)
  {
  }

  lemma StaysRestorable(site: Site, guardUser: User, w: World, v: World, path: Path, f: Listed)
    requires OnlyAt(w, v, path) && f.path != path && DirOf(f.path) != path
    ensures Restorable(site, guardUser, v, f) == Restorable(site, guardUser, w, f) && At(v, f.path) == At(w, f.path)
  {
    hide DirOf, CheckWriteTarget;
    assert NodeAt(v.disk, f.path) == NodeAt(w.disk, f.path);
    assert NodeAt(v.disk, DirOf(f.path)) == NodeAt(w.disk, DirOf(f.path));
  }

  /** One command that only looks. */
  method Glance(h: Host, ghost path: Path) returns (ok: bool)
    requires h.Valid() && !h.w.guard
    modifies h
    ensures h.Valid() && OnlyAt(old(h.w), h.w, path) && (ok ==> h.w == old(h.w) && h.w.conn)
    ensures h.calm ==> old(h.calm) && (old(h.w.conn) ==> ok)
  {
    hide Perform, Logged, AllSmooth, OnlyAt;
    WriteEffect(h.w, Inspect, h.Next(Remote(Inspect)), path);
    var r := h.Issue(Inspect);
    return r == Done;
  }

  /** One change to one file. */
  method Change(h: Host, c: Command, ghost path: Path) returns (ok: bool)
    requires h.Valid() && !h.w.guard && ((c.Swap? && c.path == path) || (c.Unlink? && c.path == path))
    modifies h
    ensures h.Valid() && OnlyAt(old(h.w), h.w, path) && (ok ==> h.w == Apply(old(h.w), c) && h.w.conn)
    ensures h.calm ==> old(h.calm) && (old(h.w.conn) && !Refuses(old(h.w), c) ==> ok)
  {
    hide Perform, Logged, AllSmooth, OnlyAt, Apply, Refuses;
    WriteEffect(h.w, c, h.Next(Remote(c)), path);
    var r := h.Issue(c);
    return r == Done;
  }

  /** One file: removed if it did not exist, otherwise written as the policy allows. */
  method RestoreOne(h: Host, f: Listed, guardUser: User) returns (ok: bool)
    requires h.Valid() && !h.w.guard
    modifies h
    ensures h.Valid() && OnlyAt(old(h.w), h.w, f.path)
    ensures ok ==> h.w.conn && At(h.w, f.path) == Wanted(h.w.local, f) && Restorable(h.site, guardUser, old(h.w), f)
    ensures ok && f.existed
            ==> f.path in h.w.disk && Attributed(h.site, guardUser, old(h.w), f, h.w.disk[f.path].meta)
    ensures h.calm ==> old(h.calm) && (old(h.w.conn) && Restorable(h.site, guardUser, old(h.w), f) ==> ok)
  {
    hide CheckWriteTarget, DirOf, DecideWriteOpts, SwapMeta, Logged, AllSmooth, Host.Valid;
    if !f.existed {
      ok := Change(h, Unlink(f.path), f.path);
      return;
    }
    if f.user !in h.w.local {
      return false;
    }
    ok := Glance(h, f.path);
    if ok {
      ok := Glance(h, f.path);
    }
    if !ok {
      return;
    }
    var target := AskedFor(h.site, guardUser, h.w, f);
    if StatOf(h.site, h.w, f.path).isSymlink || target.dir.isSymlink || !CheckWriteTarget(target) {
      return false;
    }
    if DecideWriteOpts(target).runAs != "" && f.user !in h.site.accounts {
      ok := Glance(h, f.path);   // runuser and su fail without having done anything
      return false;
    }
    StampIsAttributed(h.site, guardUser, h.w, f);
    ok := Change(h, Swap(f.path, h.w.local[f.user], RestoreStamp(h.site, guardUser, h.w, f)), f.path);
  }

  /** The entries before n hold what their backups say. */
  ghost predicate RestoredUpTo(listed: seq<Listed>, n: nat, w: World)
    requires n <= |listed|
  {
    forall i | 0 <= i < n :: At(w, listed[i].path) == Wanted(w.local, listed[i])
  }

  /** And look as they should, given the state they were found in. */
  ghost predicate AttributedUpTo(site: Site, guardUser: User, listed: seq<Listed>, n: nat, before: World, w: World)
    requires n <= |listed|
  {
    forall i | 0 <= i < n && listed[i].existed ::
      listed[i].path in w.disk && Attributed(site, guardUser, before, listed[i], w.disk[listed[i].path].meta)
  }

  /** What is asked about the entries from n on has not changed. */
  ghost predicate SameQuestions(site: Site, listed: seq<Listed>, n: nat, before: World, after: World)
    requires n <= |listed|
  {
    forall i | n <= i < |listed| ::
      && StatOf(site, after, listed[i].path) == StatOf(site, before, listed[i].path)
      && StatOf(site, after, DirOf(listed[i].path)) == StatOf(site, before, DirOf(listed[i].path))
  }

  lemma OneMoreAttributed(site: Site, guardUser: User, listed: seq<Listed>, n: nat, w0: World, w: World, v: World)
    requires n < |listed| && PathsApart(listed) && OnlyAt(w, v, listed[n].path)
    requires AttributedUpTo(site, guardUser, listed, n, w0, w) && SameQuestions(site, listed, n, w0, w)
    ensures SameQuestions(site, listed, n + 1, w0, v) && AttributedUpTo(site, guardUser, listed, n, w0, v)
    ensures (listed[n].existed ==>
               listed[n].path in v.disk
               && Attributed(site, guardUser, w, listed[n], v.disk[listed[n].path].meta))
            ==> AttributedUpTo(site, guardUser, listed, n + 1, w0, v)
  {
    hide Attributed, DirOf, OnlyAt;
    forall i | 0 <= i < |listed| && i != n
      ensures NodeAt(v.disk, listed[i].path) == NodeAt(w.disk, listed[i].path)
      ensures StatOf(site, v, listed[i].path) == StatOf(site, w, listed[i].path)
      ensures StatOf(site, v, DirOf(listed[i].path)) == StatOf(site, w, DirOf(listed[i].path))
    {
      SameStats(site, w, v, listed[n].path, listed[i].path);
      SameStats(site, w, v, listed[n].path, DirOf(listed[i].path));
    }
    SameAsked(site, guardUser, w0, w, listed[n], NodeMeta(v.disk, listed[n].path));
  }

  lemma SameStats(site: Site, w: World, v: World, path: Path, other: Path)
    requires OnlyAt(w, v, path) && other != path
    ensures NodeAt(v.disk, other) == NodeAt(w.disk, other) && StatOf(site, v, other) == StatOf(site, w, other)
  {
    assert NodeAt(v.disk, other) == NodeAt(w.disk, other);
  }

  lemma SameAsked(site: Site, guardUser: User, before: World, after: World, f: Listed, m: Meta)
    requires StatOf(site, after, f.path) == StatOf(site, before, f.path)
    requires StatOf(site, after, DirOf(f.path)) == StatOf(site, before, DirOf(f.path))
    ensures Attributed(site, guardUser, after, f, m) == Attributed(site, guardUser, before, f, m)
  {
    hide StatOf, DirOf, OnlyRootWrites;
  }

  /** The entries from n on are as they were. */
  ghost predicate UntouchedFrom(listed: seq<Listed>, n: nat, before: World, after: World)
    requires n <= |listed|
  {
    forall i | n <= i < |listed| :: At(after, listed[i].path) == At(before, listed[i].path)
  }

  ghost predicate AllRestorable(site: Site, guardUser: User, listed: seq<Listed>, n: nat, w: World)
    requires n <= |listed|
  {
    forall i | n <= i < |listed| :: Restorable(site, guardUser, w, listed[i])
  }

  /** Whether an entry from n on can be restored has not changed. */
  ghost predicate SameChances(site: Site, guardUser: User, listed: seq<Listed>, n: nat, before: World, after: World)
    requires n <= |listed|
  {
    forall i | n <= i < |listed| ::
      Restorable(site, guardUser, after, listed[i]) == Restorable(site, guardUser, before, listed[i])
  }

  lemma OneMoreRestored(site: Site, guardUser: User, listed: seq<Listed>, n: nat, w0: World, w: World, v: World)
    requires n < |listed| && PathsApart(listed) && OnlyAt(w, v, listed[n].path)
    requires RestoredUpTo(listed, n, w) && UntouchedFrom(listed, n, w0, w)
    ensures RestoredUpTo(listed, n, v) && UntouchedFrom(listed, n + 1, w0, v)
    ensures SameChances(site, guardUser, listed, n, w0, w) ==> SameChances(site, guardUser, listed, n + 1, w0, v)
  {
    hide At, Wanted, Restorable, OnlyAt;
    assert v.local == w.local by {
      SameLocals(w, v, listed[n].path);
    }
    forall i | 0 <= i < |listed| && i != n
      ensures At(v, listed[i].path) == At(w, listed[i].path)
      ensures Restorable(site, guardUser, v, listed[i]) == Restorable(site, guardUser, w, listed[i])
    {
      StaysRestorable(site, guardUser, w, v, listed[n].path, listed[i]);
    }
  }

  lemma SameLocals(w: World, v: World, path: Path)
    requires OnlyAt(w, v, path)
    ensures v.local == w.local && v.guard == w.guard
  {
  }

  lemma SameAtFirst(site: Site, listed: seq<Listed>, w: World)
    ensures SameQuestions(site, listed, 0, w, w)
  {
  }

  /** Stops at the first file it cannot restore: then those before it are restored and those after it untouched.
      It finishes only if every entry could be restored, and does if nothing goes wrong. */
  method Restore(h: Host, listed: seq<Listed>, guardUser: User) returns (ok: bool, n: nat)
    requires h.Valid() && !h.w.guard && PathsApart(listed)
    modifies h
    ensures n <= |listed| && (ok <==> n == |listed|) && h.w.local == old(h.w.local)
    ensures RestoredUpTo(listed, n, h.w) && AttributedUpTo(h.site, guardUser, listed, n, old(h.w), h.w)
    ensures n < |listed| ==> UntouchedFrom(listed, n + 1, old(h.w), h.w)
    ensures forall i | 0 <= i < n :: Restorable(h.site, guardUser, old(h.w), listed[i])
    ensures h.calm && old(h.w.conn) ==> (ok <==> AllRestorable(h.site, guardUser, listed, 0, old(h.w)))
  {
    hide Restorable, Wanted, At, OnlyAt, PathsApart, Logged, AllSmooth, Attributed, SameQuestions;
    n := 0;
    ghost var w0 := h.w;
    SameAtFirst(h.site, listed, w0);
    while n < |listed|
      invariant n <= |listed| && h.Valid() && !h.w.guard && h.w.local == w0.local
      invariant RestoredUpTo(listed, n, h.w) && UntouchedFrom(listed, n, w0, h.w)
      invariant SameChances(h.site, guardUser, listed, n, w0, h.w)
      invariant AttributedUpTo(h.site, guardUser, listed, n, w0, h.w) && SameQuestions(h.site, listed, n, w0, h.w)
      invariant forall i | 0 <= i < n :: Restorable(h.site, guardUser, w0, listed[i])
      invariant h.calm && w0.conn ==> h.w.conn
    {
      ghost var w := h.w;
      ok := RestoreOne(h, listed[n], guardUser);
      OneMoreRestored(h.site, guardUser, listed, n, w0, w, h.w);
      OneMoreAttributed(h.site, guardUser, listed, n, w0, w, h.w);
      SameLocals(w, h.w, listed[n].path);
      if !ok {
        return;
      }
      n := n + 1;
    }
    return true, n;
  }

  // ------------------------------------------------------------ what it undoes

  lemma WantedOf(p: Plan, order: seq<User>, i: nat, w: World)
    requires (forall u | u in order :: u in p.ts) && i < |order|
    requires At(w, p.ts[order[i]].path) == Wanted(w.local, ListedFiles(p.ts, order)[i])
    requires p.ts[order[i]].orig.Some? ==> order[i] in w.local
    ensures At(w, p.ts[order[i]].path) == p.ts[order[i]].orig <==> LocalOk(p.ts[order[i]], order[i], w)
  {
    hide At;
  }

  /** The list of a run's files, in any order that has them all. */
  ghost predicate ListOf(p: Plan, order: seq<User>, listed: seq<Listed>) {
    (forall u :: u in order <==> u in p.ts) && listed == ListedFiles(p.ts, order)
  }

  /** No write of an original's copy was the last one and cut short. */
  ghost predicate NoneTorn(p: Plan, calls: seq<Call>) {
    forall u | u in p.ts && p.ts[u].orig.Some? && LastKeep(calls, u).Some? :: !CutShort(LastKeep(calls, u).value)
  }

  /** Every copy on the operator's disk is what the last write of it left. */
  ghost predicate Accounted(p: Plan, calls: seq<Call>, w: World) {
    forall u | u in p.ts && p.ts[u].orig.Some? :: CopyAccounted(p.ts[u], u, LastKeep(calls, u), w)
  }

  predicate CopyAccounted(t: Target, u: User, last: Option<Call>, w: World) {
    (u in w.local <==> last.Some?) && (LocalOk(t, u, w) <==> last.Some? && !CutShort(last.value))
  }

  lemma CopiesAreAccounted(h: Host, p: Plan)
    requires h.Valid() && h.start.local == map[] && KeepsOriginal(p, h.calls)
    ensures Accounted(p, h.calls, h.w)
  {
    hide Host.Valid, LocalOk, KeepsOriginal, CutShort;
    forall u | u in p.ts && p.ts[u].orig.Some?
      ensures CopyAccounted(p.ts[u], u, LastKeep(h.calls, u), h.w)
    {
      WholeExactly(h, p, u);
    }
  }

  /** Finished without error on a run's own list, restore has undone it if and only if no copy was cut short. */
  lemma RestoreUndoes(p: Plan, calls: seq<Call>, s: World, order: seq<User>, listed: seq<Listed>, w: World)
    requires Accounted(p, calls, s) && w.local == s.local
    requires ListOf(p, order, listed) && RestoredUpTo(listed, |listed|, w)
    requires forall u | u in p.ts && p.ts[u].orig.Some? :: u in w.local
    ensures AllOrig(p, w) <==> NoneTorn(p, calls)
  {
    hide At, LocalOk, Wanted, CutShort;
    forall u | u in p.ts
      ensures At(w, p.ts[u].path) == p.ts[u].orig <==> LocalOk(p.ts[u], u, w)
      ensures p.ts[u].orig.Some? ==> LastKeep(calls, u).Some?
      ensures p.ts[u].orig.Some? ==> (LocalOk(p.ts[u], u, w) <==> !CutShort(LastKeep(calls, u).value))
      ensures p.ts[u].orig.None? ==> LocalOk(p.ts[u], u, w)
    {
      var i :| 0 <= i < |order| && order[i] == u;
      WantedOf(p, order, i, w);
      SameLocal(p.ts[u], u, w, s);
      if p.ts[u].orig.None? {
        AbsentIsWhole(p.ts[u], u, w);
      }
    }
  }

  lemma AbsentIsWhole(t: Target, u: User, w: World)
    requires t.orig.None?
    ensures LocalOk(t, u, w)
  {
  }

  /** A run keeps copies only of the files its operations concern, and lists every file it loaded. */
  lemma RestorableIsCopied(site: Site, guardUser: User, p: Plan, w: World, u: User)
    requires BackupsConcern(p, w) && u in p.ts && p.ts[u].orig.Some?
    requires Restorable(site, guardUser, w, ListedOf(u, p.ts[u]))
    ensures u in w.local && Concerned(p, u) && Permitted(site, guardUser, w, ListedOf(u, p.ts[u]))
  {
    hide Concerned, Permitted;
  }

  /** Every existing file is one the operations concern, and may be written. */
  ghost predicate AllConcerned(site: Site, guardUser: User, p: Plan, w: World) {
    forall u | u in p.ts && p.ts[u].orig.Some? ::
      Concerned(p, u) && Permitted(site, guardUser, w, ListedOf(u, p.ts[u]))
  }

  lemma RestorableIfConcerned(site: Site, guardUser: User, p: Plan, order: seq<User>, listed: seq<Listed>, w: World)
    requires ListOf(p, order, listed) && BackupsConcern(p, w)
    ensures AllRestorable(site, guardUser, listed, 0, w) ==> AllConcerned(site, guardUser, p, w)
    ensures CopiedExactly(p, w) && AllConcerned(site, guardUser, p, w) ==> AllRestorable(site, guardUser, listed, 0, w)
  {
    hide Concerned, Permitted;
    if AllRestorable(site, guardUser, listed, 0, w) {
      forall u | u in p.ts && p.ts[u].orig.Some?
        ensures Concerned(p, u) && Permitted(site, guardUser, w, ListedOf(u, p.ts[u]))
      {
        var i :| 0 <= i < |order| && order[i] == u;
        assert listed[i] == ListedOf(u, p.ts[u]);
      }
    }
  }

  /** What a run leaves for restore to find. */
  ghost predicate LeftFor(t: T, outcome: Outcome, w: World)
    reads t, t.host, t.Parts(), set u | u in t.files :: t.files[u]
  {
    t.Written(outcome) && t.host.start.local == map[] && w.local == t.host.w.local
  }

  /** A file that is not at its original after the run, and that restore gets to, is put back. */
  ghost predicate PutBack(p: Plan, order: seq<User>, n: nat, before: World, after: World)
    requires n <= |order|
  {
    forall i | 0 <= i < n && order[i] in p.ts && At(before, p.ts[order[i]].path) != p.ts[order[i]].orig ::
      At(after, p.ts[order[i]].path) == p.ts[order[i]].orig
  }

  lemma InsuredIsPutBack(p: Plan, order: seq<User>, listed: seq<Listed>, n: nat, s: World, w: World)
    requires (forall u | u in p.ts :: Insured(p.ts[u], u, s)) && w.local == s.local
    requires ListOf(p, order, listed) && n <= |listed| && RestoredUpTo(listed, n, w)
    requires forall i | 0 <= i < n && p.ts[order[i]].orig.Some? :: order[i] in w.local
    ensures PutBack(p, order, n, s, w)
  {
    hide At, LocalOk, Wanted;
    forall i | 0 <= i < n && At(s, p.ts[order[i]].path) != p.ts[order[i]].orig
      ensures At(w, p.ts[order[i]].path) == p.ts[order[i]].orig
    {
      assert listed[i] == ListedOf(order[i], p.ts[order[i]]) && listed[i].path == p.ts[order[i]].path;
      WantedOf(p, order, i, w);
      SameLocal(p.ts[order[i]], order[i], s, w);
    }
  }

  /** The files got past that existed have the mode they had when the run began. */
  ghost predicate ModesBack(p: Plan, order: seq<User>, n: nat, w: World)
    requires n <= |order|
  {
    forall i | 0 <= i < n && order[i] in p.ts && p.ts[order[i]].orig.Some? && p.ts[order[i]].origMeta.mode != "" ::
      p.ts[order[i]].path in w.disk && w.disk[p.ts[order[i]].path].meta.mode == p.ts[order[i]].origMeta.mode
  }

  lemma AttributedHasMode(site: Site, guardUser: User, p: Plan, order: seq<User>, listed: seq<Listed>, n: nat,
                          w0: World, w: World)
    requires ListOf(p, order, listed) && n <= |listed| && AttributedUpTo(site, guardUser, listed, n, w0, w)
    ensures ModesBack(p, order, n, w)
  {
    hide StatOf, DirOf, OnlyRootWrites;
    forall i | 0 <= i < n && p.ts[order[i]].orig.Some? && p.ts[order[i]].origMeta.mode != ""
      ensures p.ts[order[i]].path in w.disk && w.disk[p.ts[order[i]].path].meta.mode == p.ts[order[i]].origMeta.mode
    {
      assert listed[i] == ListedOf(order[i], p.ts[order[i]]);
    }
  }

  lemma EndIsInsured(t: T, outcome: Outcome)
    requires t.Written(outcome)
    ensures t.host.Valid() && KeepsOriginal(t.plan, t.host.calls) && BackupsConcern(t.plan, t.host.w)
    ensures forall u | u in t.plan.ts :: Insured(t.plan.ts[u], u, t.host.w)
    ensures outcome == Committed ==> CopiedExactly(t.plan, t.host.w)
  {
    hide Staged, Recoverable, BeforeRemovals, AddsProven, AllFin, LeftAt, OrigOrFin, EndGuard, Delivered, TurnedBack,
         Completed, T.Earned, Insured, FinalSince, Logged, AllSmooth;
    assert t.host.w in t.host.trace;
  }

  lemma CommittedIsUntorn(p: Plan, calls: seq<Call>, w: World)
    requires Accounted(p, calls, w) && CopiedExactly(p, w)
    ensures NoneTorn(p, calls)
  {
    hide CutShort, LocalOk, Concerned;
    forall u | u in p.ts && p.ts[u].orig.Some? && LastKeep(calls, u).Some?
      ensures !CutShort(LastKeep(calls, u).value)
    {
      assert CopyAccounted(p.ts[u], u, LastKeep(calls, u), w);
    }
  }

  lemma SameBook(p: Plan, run: World, w: World)
    requires run.local == w.local
    ensures BackupsConcern(p, run) ==> BackupsConcern(p, w)
    ensures CopiedExactly(p, run) ==> CopiedExactly(p, w)
  {
    hide Copied;
  }

  /** What restore did to an entry it got past. */
  lemma PassedIsConcerned(site: Site, guardUser: User, p: Plan, order: seq<User>, listed: seq<Listed>, n: nat, w: World)
    requires ListOf(p, order, listed) && BackupsConcern(p, w) && n <= |listed|
    requires forall i | 0 <= i < n :: Restorable(site, guardUser, w, listed[i])
    ensures forall i | 0 <= i < n && p.ts[order[i]].orig.Some? :: order[i] in w.local && Concerned(p, order[i])
    ensures n == |listed| ==> AllRestorable(site, guardUser, listed, 0, w)
    ensures n == |listed| ==> forall u | u in p.ts && p.ts[u].orig.Some? :: u in w.local
  {
    hide Restorable, Concerned, BackupsConcern;
    forall i | 0 <= i < n && p.ts[order[i]].orig.Some?
      ensures order[i] in w.local && Concerned(p, order[i])
    {
      assert listed[i] == ListedOf(order[i], p.ts[order[i]]);
      RestorableIsCopied(site, guardUser, p, w, order[i]);
    }
    if n == |listed| {
      forall u | u in p.ts && p.ts[u].orig.Some?
        ensures u in w.local
      {
        var i :| 0 <= i < |order| && order[i] == u;
      }
    }
  }

  /** Restoring the list of a run that wrote. Every file left changed is put back when its turn comes. If restore
      finishes, every existing file was one the operations concern, and the run is undone exactly if no copy was cut
      short; after a commit none ever is, and where nothing fails restore then finishes exactly in that case. */
  method RestoreOfRun(ghost t: T, ghost outcome: Outcome, ghost order: seq<User>, listed: seq<Listed>, h: Host,
                      guardUser: User)
    returns (ok: bool, n: nat)
    requires LeftFor(t, outcome, h.w) && ListOf(t.plan, order, listed)
    requires h.Valid() && !h.w.guard && PathsApart(listed)
    modifies h
    ensures n <= |order| && (ok <==> n == |order|) && PutBack(t.plan, order, n, old(t.host.w), h.w)
    ensures ModesBack(t.plan, order, n, h.w)
    ensures forall k | 0 <= k < n && t.plan.ts[order[k]].orig.Some? :: Concerned(t.plan, order[k])
    ensures ok ==> AllConcerned(h.site, guardUser, t.plan, old(h.w))
    ensures ok ==> (AllOrig(t.plan, h.w) <==> NoneTorn(t.plan, old(t.host.calls)))
    ensures ok && outcome == Committed ==> AllOrig(t.plan, h.w)
    ensures outcome == Committed && h.calm && old(h.w.conn)
            ==> (ok <==> AllConcerned(h.site, guardUser, t.plan, old(h.w)))
  {
    hide T.Written, Host.Valid, Restorable, Permitted, Concerned, PathsApart, At, BackupsConcern, CopiedExactly,
         Insured, KeepsOriginal, PutBack, AllOrig, NoneTorn, AllConcerned, Accounted, AllRestorable, RestoredUpTo,
         AttributedUpTo, ModesBack;
    ghost var p, calls, run, w0 := t.plan, t.host.calls, t.host.w, h.w;
    EndIsInsured(t, outcome);
    CopiesAreAccounted(t.host, p);
    SameBook(p, run, w0);
    if outcome == Committed {
      CommittedIsUntorn(p, calls, run);
    }
    RestorableIfConcerned(h.site, guardUser, p, order, listed, w0);
    ok, n := Restore(h, listed, guardUser);
    PassedIsConcerned(h.site, guardUser, p, order, listed, n, w0);
    InsuredIsPutBack(p, order, listed, n, run, h.w);
    AttributedHasMode(h.site, guardUser, p, order, listed, n, w0, h.w);
    if ok {
      RestoreUndoes(p, calls, run, order, listed, h.w);
    }
  }

  /** A local backup cut short by a failing write looks like any other: restore would install the stump. */
  lemma TornBackupIsWanted(w: World, u: User, t: Target, n: nat)
    requires t.orig.Some? && n < |t.orig.value|
    ensures var v := SaveLocally(w, u, t.orig.value, Tick(Fail(Cut(n)), false, false, false, Inconclusive)).0;
            Wanted(v.local, ListedOf(u, t)) == Some(t.orig.value[..n]) && Some(t.orig.value[..n]) != t.orig
  {
    assert |t.orig.value[..n]| == n;
  }

  /** A user's own file in the user's own directory, which a run by root may write, restore refuses. */
  lemma OwnFileIsNotRestorable(site: Site, guardUser: User, w: World, f: Listed)
    requires f.existed && site.guard.uid == "0" && f.user != guardUser
    requires f.path in w.disk && f.path !in w.links && w.disk[f.path].meta.uid != ""
    requires !OnlyRootWrites(StatOf(site, w, DirOf(f.path)))
    ensures !Restorable(site, guardUser, w, f)
  {
    hide DirOf, RootManaged;
    RestoreRefusesExactly(AskedFor(site, guardUser, w, f));
  }
}
