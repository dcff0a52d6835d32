/** The transaction: a client that edits many users' files under a guard connection. */
module Tx {
  import opened Basics
  import opened AuthKeys
  import opened World
  import opened WritePolicy
  import opened TxState
  import opened TxSteps
  import opened Probing
  import opened Ending
  import opened Loading
  import opened Ledger
  import opened Records
  import Manifest
  import H = Host

  class UserFile {
    const user: User
    const path: Path
    const orig: Bytes
    const origExists: bool
    const target: WriteTarget
    const work: File
    var dirty: bool
    var manifested: bool
    var writeUnconfirmed: bool

    ghost function Val(): View
      reads this, work
    {
      View(work.Value(), dirty, manifested, writeUnconfirmed)
    }

    constructor (c: Codec, target: WriteTarget, path: Path, content: Option<Bytes>)
      ensures user == target.entryUser && this.target == target && this.path == path
      ensures content == if origExists then Some(orig) else None
      ensures fresh(work) && Val() == View(Parse(c, OrEmpty(content)), false, false, false)
    {
      var text := OrEmpty(content);
      var doc := new File(c, text);
      user, this.target, this.path := target.entryUser, target, path;
      orig, origExists, work := text, content.Some?, doc;
      dirty, manifested, writeUnconfirmed := false, false, false;
    }

    method ApplyAdds(c: Codec, adds: seq<Op>) returns (changed: bool)
      modifies work
      ensures work.Value() == AddAll(c, old(work.Value()), Grants(adds))
      ensures changed == (work.Value() != old(work.Value()))
    {
      ghost var doc0 := work.Value();
      changed := false;
      for i := 0 to |adds|
        invariant AddAll(c, work.Value(), Grants(adds[i..])) == AddAll(c, doc0, Grants(adds))
        invariant !changed ==> work.Value() == doc0
        invariant changed ==> |work.lines| > |doc0.lines|
      {
        GrantsStep(c, work.Value(), adds[i..]);
        assert adds[i..][1..] == adds[i + 1..];
        AddGrows(c, work.Value(), GrantOf(adds[i]));
        var added := work.AddKey(c, GrantOf(adds[i]));
        if added {
          changed := true;
        }
      }
    }

    /** Also keeps the full key of what a fingerprint matched. */
    method ApplyRemoves(c: Codec, rms: seq<Op>) returns (changed: bool, enriched: seq<Op>)
      requires Tidy(work.Value())
      modifies work
      ensures work.Value() == RemoveAll(c, old(work.Value()), Matchers(rms))
      ensures changed == (work.Value() != old(work.Value()))
      ensures enriched == Enriched(c, old(work.Value()), rms)
    {
      hide RemoveAll, Matchers, Enriched, Remove, Removed, Tidy;
      ghost var doc0 := work.Value();
      changed, enriched := false, [];
      for i := 0 to |rms|
        invariant Tidy(work.Value())
        invariant RemoveAll(c, work.Value(), Matchers(rms[i..])) == RemoveAll(c, doc0, Matchers(rms))
        invariant enriched + Enriched(c, work.Value(), rms[i..]) == Enriched(c, doc0, rms)
        invariant !changed ==> work.Value() == doc0
        invariant changed ==> |work.lines| < |doc0.lines|
      {
        MatchersStep(c, work.Value(), rms[i..]);
        assert rms[i..][1..] == rms[i + 1..];
        RemoveShrinks(c, work.Value(), rms[i].matcher);
        var op := rms[i];
        var removed := work.RemoveMatching(c, op.matcher);
        if |removed| > 0 {
          if op.key.None? && removed[0].key.Some? {
            op := op.(key := removed[0].key);
          }
          changed := true;
        }
        enriched := enriched + [op];
      }
      NoMoreRemovals(c, work.Value(), rms[|rms|..]);
    }
  }

  class T {
    const cfg: Config
    const host: H.Host
    var ops: seq<Op>
    var files: map<User, UserFile>
    var order: seq<User>
    ghost var plan: Plan
    ghost var forgotten: set<User>   // files whose dirty mark a clean failure erased
    ghost var markerLost: bool       // the commit marker landed but its reply was not success
    ghost var turned: nat            // the number of events before the abort, or of all events

    constructor (cfg: Config, host: H.Host)
      ensures this.cfg == cfg && this.host == host && ops == cfg.ops
      ensures files == map[] && order == [] && plan == Plan(cfg.ops, map[], cfg.signers)
      ensures forgotten == {} && !markerLost
    {
      this.cfg, this.host, ops := cfg, host, cfg.ops;
      files, order, plan := map[], [], Plan(cfg.ops, map[], cfg.signers);
      forgotten, markerLost, turned := {}, false, 0;
    }

    ghost function Parts(): set<object>
      reads `files
    {
      (set u | u in files :: files[u] as object) + (set u | u in files :: files[u].work as object)
    }

    ghost function Views(): (vs: map<User, View>)
      reads `files, Parts()
      ensures vs.Keys == files.Keys
    {
      map u | u in files :: files[u].Val()
    }

    ghost predicate Fits(f: UserFile, u: User, t: Target) {
      && f.user == u && f.path == t.path
      && t.orig == (if f.origExists then Some(f.orig) else None)
      && t.stamp == Stamp(f.target, host.site.guard)
      && t.bak == BakName(cfg.txdir, u)
    }

    /** order lists every user once. */
    ghost predicate Ordered()
      reads `files, `order
    {
      && (forall u :: u in order <==> u in files)
      && (forall i, j | 0 <= i < j < |order| :: order[i] != order[j])
    }

    /** No two users share a file object or a working copy. */
    ghost predicate Owned()
      reads `files
    {
      && (forall u | u in files :: files[u].user == u)
      && (forall u, v | u in files && v in files && u != v :: files[u].work != files[v].work)
    }

    ghost predicate Wired()
      reads `files, `order, `plan
    {
      && plan.ts.Keys == files.Keys
      && Ordered() && Owned()
      && (forall u | u in files :: Fits(files[u], u, plan.ts[u]) && Planned(cfg.codec, plan.ops, u, plan.ts[u]))
      && Increasing(order) && plan.ops == cfg.ops && plan.signers == cfg.signers
    }

    /** The host is none of the client's files. */
    ghost predicate Apart()
      reads `files
    {
      host !in Parts() && this !in Parts()
    }

    ghost predicate TraceSane()
      reads `plan, host
    {
      (forall s | s in host.trace :: Sane(plan, s)) && Together(host.calls) && KeepsOriginal(plan, host.calls)
    }

    /** The files, the client's memory and the record are through k phases, some through one more. */
    ghost predicate Through(k: int, done: set<User>)
      reads `files, `plan, host, Parts()
    {
      Progress(plan, Views(), host.w, k, done) && Paced(plan, Views(), host.calls, k, done)
    }

    /** The client's memory is what the orders and replies on record make of it. */
    ghost predicate InBooks()
      reads `files, `plan, `forgotten, host, Parts()
    {
      Booked(plan, cfg.keepDirty, Views(), forgotten, host.calls) && MarksOf(host.calls) == []
    }

    /** That, at the moment an abort may begin. */
    ghost predicate Noted()
      reads `files, `plan, `forgotten, `markerLost, host, Parts()
    {
      OnRecord(plan, cfg.keepDirty, Views(), forgotten, markerLost, host.w, host.calls)
    }

    /** Nothing went wrong before the run turned back. */
    ghost predicate Smoothly()
      reads `turned, host
    {
      turned <= |host.calls| && H.AllSmooth(host.calls[..turned])
    }

    /** Holds in every state without a commit marker, failures included. */
    ghost predicate Held()
      reads `files, `order, `plan, `forgotten, host, Parts()
    {
      && Wired() && Apart() && host.Valid() && TraceSane()
      && Core(plan, Views(), forgotten, host.w)
    }

    /** Holds between the steps of a run in which nothing has failed. */
    ghost predicate Ready()
      reads `files, `order, `plan, `forgotten, host, Parts()
    {
      Held() && Steady(plan, Views(), forgotten, host.w)
    }

    ghost predicate Mine(uf: UserFile)
      reads `files
    {
      uf.user in files && files[uf.user] == uf
    }

    /** What the wiring says about one file. */
    lemma Wiring(uf: UserFile)
      requires Wired() && Mine(uf)
      ensures uf.user in plan.ts && Fits(uf, uf.user, plan.ts[uf.user])
      ensures uf.user in Views() && Views()[uf.user] == uf.Val() && Owned()
      ensures plan.ops == cfg.ops && plan.signers == cfg.signers
      ensures Planned(cfg.codec, plan.ops, uf.user, plan.ts[uf.user])
    {
    }

    /** What a healthy run says about one of its files. */
    lemma Healthy(uf: UserFile)
      requires Ready() && Mine(uf)
      ensures Held() && Wired() && forgotten == {}
      ensures Steady(plan, Views(), {}, host.w) && host.w.conn == host.w.guard
      ensures uf.user in plan.ts && Fits(uf, uf.user, plan.ts[uf.user])
      ensures uf.user in Views() && Views()[uf.user] == uf.Val() && Owned()
      ensures plan.ops == cfg.ops && plan.signers == cfg.signers
      ensures Planned(cfg.codec, plan.ops, uf.user, plan.ts[uf.user])
    {
      hide Core, Sane, Wired, TraceSane, Views, Steady, Planned, Fits, H.Logged, H.AllSmooth;
      SteadyIsCore(plan, Views(), forgotten, host.w);
      Wiring(uf);
    }

    /** Only the client's memory changed. */
    twostate lemma StillReady()
      requires old(Ready()) && Steady(plan, Views(), {}, host.w) && unchanged(host) && forgotten == {}
      requires unchanged(`files) && unchanged(`order) && unchanged(`plan) && unchanged(`forgotten)
      ensures Ready()
    {
      hide Core, Sane, Wired, Views, Steady, H.Logged, H.AllSmooth;
      SteadyIsCore(plan, Views(), {}, host.w);
    }

    /** One more event, after which all is still well with the host. */
    twostate lemma GoesOn(c: Call)
      requires old(Held()) && Fine(plan, old(Views()), forgotten, host.w)
      requires unchanged(`files) && unchanged(`order) && unchanged(`plan) && unchanged(old(Parts()))
      requires host.Valid() && host.trace == old(host.trace) + [host.w] && host.calls == old(host.calls) + [c]
      requires Together([c]) && KeepsOriginal(plan, [c])
      ensures Held() && Views() == old(Views())
      ensures Steady(plan, old(Views()), forgotten, host.w) ==> Ready()
    {
      hide Core, Sane, Wired, Views, Steady, H.Host.Valid;
      Stepped(host.w);
    }

    /** What any run without a marker says about one of its files. */
    lemma HeldFile(uf: UserFile)
      requires Held() && Mine(uf)
      ensures Core(plan, Views(), forgotten, host.w) && Wired() && Owned()
      ensures uf.user in plan.ts && Fits(uf, uf.user, plan.ts[uf.user])
      ensures uf.user in Views() && Views()[uf.user] == uf.Val()
    {
      hide Core, Sane, Wired, TraceSane, Views, Planned, Fits, H.Logged, H.AllSmooth;
      Wiring(uf);
    }

    twostate lemma StillHeld()
      requires old(Held()) && Core(plan, Views(), forgotten, host.w) && unchanged(host)
      requires unchanged(`files) && unchanged(`order) && unchanged(`plan)
      ensures Held()
    {
      hide Core, Sane, Wired, Views, H.Logged, H.AllSmooth;
    }

    /** What a healthy run says of itself. */
    lemma Standing()
      requires Ready()
      ensures Held() && Wired() && Apart() && host.Valid() && forgotten == {}
      ensures Steady(plan, Views(), {}, host.w) && host.w.conn == host.w.guard
      ensures plan.ops == cfg.ops && plan.signers == cfg.signers
    {
      hide Core, Sane, TraceSane, Views, Steady, Planned, Fits, H.Logged, H.AllSmooth;
      SteadyIsCore(plan, Views(), forgotten, host.w);
    }

    lemma HeldIsWired()
      requires Held()
      ensures Wired() && host.Valid()
    {
      hide Core, Sane, Wired, TraceSane, Views, H.Logged, H.AllSmooth;
    }

    /** The environment moved one state on; the client's own objects did not. */
    twostate lemma Stepped(w: World)
      requires old(Apart()) && old(TraceSane()) && unchanged(`files) && unchanged(`plan) && unchanged(old(Parts()))
      requires host.w == w && host.trace == old(host.trace) + [w] && Sane(plan, w)
      requires old(host.calls) < host.calls && |host.calls| == |old(host.calls)| + 1
      requires Together([host.calls[|old(host.calls)|]]) && KeepsOriginal(plan, [host.calls[|old(host.calls)|]])
      ensures TraceSane() && Views() == old(Views()) && Apart()
    {
      hide Sane;
    }

    /** Only the environment moved. */
    twostate lemma Undisturbed()
      requires old(Apart()) && unchanged(`files) && unchanged(old(Parts()))
      ensures Views() == old(Views()) && Apart()
    {
    }

    /** Changing one file object changes one view. */
    twostate lemma OthersKept(uf: UserFile)
      requires old(Owned()) && old(Mine(uf)) && unchanged(`files)
      requires forall u | u in files && u != uf.user :: unchanged(files[u], files[u].work)
      ensures Views() == old(Views())[uf.user := uf.Val()]
    {
    }

    // -------------------------------------------------------------- loading

    /** A file object as loading leaves it. */
    ghost predicate AsLoaded(f: UserFile, u: User, w: World)
      reads f, f.work
    {
      && u in host.site.accounts
      && LoadedFrom(Loaded(f.target, f.path, if f.origExists then Some(f.orig) else None), cfg, host.site, w, u)
      && f.user == u && f.Val() == View(Parse(cfg.codec, OrEmpty(At(w, f.path))), false, false, false)
    }

    /** Every file object so far is as loaded, no two share a working copy, and none is older than the run. */
    ghost predicate Gathered(w: World)
      reads `files, Parts()
    {
      && (forall u | u in files :: AsLoaded(files[u], u, w))
      && (forall u, v | u in files && v in files && u != v :: files[u].work != files[v].work)
    }

    twostate lemma StillGathered(w: World)
      requires old(Gathered(w)) && old(Apart()) && unchanged(`files) && unchanged(old(Parts()))
      ensures Gathered(w) && Apart() && Parts() == old(Parts())
    {
      hide LoadedFrom, Parse;
    }

    /** A new object changes nothing about the ones there are. */
    twostate lemma Joins(u: User)
      requires old(Gathered(host.w)) && old(Apart()) && unchanged(host) && unchanged(old(Parts()))
      requires u !in old(files) && u in files && files == old(files)[u := files[u]]
      requires AsLoaded(files[u], u, host.w) && {files[u] as object, files[u].work} !! old(Parts())
      ensures Gathered(host.w) && Apart() && Parts() <= old(Parts()) + {files[u], files[u].work}
    {
      hide LoadedFrom, Parse;
    }

    lemma LoadedAsIs(uf: UserFile, l: Loaded, w: World, u: User)
      requires LoadedFrom(l, cfg, host.site, w, u)
      requires uf.user == l.target.entryUser && uf.target == l.target && uf.path == l.path
      requires l.content == if uf.origExists then Some(uf.orig) else None
      requires uf.Val() == View(Parse(cfg.codec, OrEmpty(l.content)), false, false, false)
      ensures AsLoaded(uf, u, w)
    {
      hide Parse;
      LoadedUser(l, cfg, host.site, w, u);
    }

    method Admit(l: Loaded, u: User)
      requires Gathered(host.w) && Apart() && u !in files && LoadedFrom(l, cfg, host.site, host.w, u)
      modifies `files, `order
      ensures Gathered(host.w) && Apart() && order == old(order) + [u]
      ensures files.Keys == old(files.Keys) + {u} && forall o | o in Parts() :: o in old(Parts()) || fresh(o)
    {
      hide Fresh, LoadedFrom, Parse, Gathered, AsLoaded;
      var uf := new UserFile(cfg.codec, l.target, l.path, l.content);
      LoadedAsIs(uf, l, host.w, u);
      files := files[u := uf];
      order := order + [u];
      Joins(u);
    }

    method LoadOne(u: User, ghost links: set<Path>) returns (ok: bool)
      requires Idle(host, host.w.disk, links) && Gathered(host.w) && Apart() && u !in files
      modifies host, `files, `order
      ensures Idle(host, old(host.w.disk), links)
      ensures ok ==> host.w == old(host.w) && Gathered(host.w) && Apart() && order == old(order) + [u]
      ensures ok ==> files.Keys == old(files.Keys) + {u} && forall o | o in Parts() :: o in old(Parts()) || fresh(o)
      ensures ok ==> Loadable(cfg, host.site, host.w, u)
      ensures host.calm && old(host.w.conn) && Loadable(cfg, host.site, old(host.w), u) ==> ok
    {
      hide Fresh, LoadedFrom, Parse, Gathered, Idle, AsLoaded, Loadable;
      ghost var w := host.w;
      var l := LoadFile(host, w.disk, links, cfg, u);
      if l.None? {
        return false;
      }
      StillGathered(w);
      Admit(l.value, u);
      return true;
    }

    lemma NotYet(names: seq<User>, i: nat)
      requires i < |names| && forall a, b | 0 <= a < b < |names| :: names[a] != names[b]
      ensures names[i] !in names[..i] && names[..i + 1] == names[..i] + [names[i]]
    {
    }

    /** Step 1, second half: every target file, in the order of the sorted user names. */
    method LoadFiles(ghost links: set<Path>) returns (ok: bool)
      requires Idle(host, host.w.disk, links) && files == map[] && order == []
      modifies host, `files, `order, `plan
      ensures Idle(host, old(host.w.disk), links)
      ensures ok ==> host.w == old(host.w) && plan == PlanFor(cfg, host.site, host.w)
      ensures ok ==> Gathered(host.w) && Apart() && order == SortedUsers(cfg.ops) && files.Keys == set u | u in order
      ensures ok ==> fresh(Parts())
      ensures ok ==> AllLoadable(cfg, host.site, host.w)
      ensures host.calm && old(host.w.conn) && AllLoadable(cfg, host.site, old(host.w)) ==> ok
    {
      hide Idle, Gathered, Apart, PlanFor, SortedUsers, Parts, Loadable;
      var names := SortedUsers(cfg.ops);
      SortedUsersOnce(cfg.ops, names);
      NothingGathered();
      ghost var d := host.w.disk;
      for i := 0 to |names|
        invariant Idle(host, d, links) && host.w == old(host.w) && Gathered(host.w) && Apart()
        invariant order == names[..i] && files.Keys == (set u | u in order) && forall o | o in Parts() :: fresh(o)
        invariant forall a, b | 0 <= a < b < |names| :: names[a] != names[b]
        invariant forall j | 0 <= j < i :: Loadable(cfg, host.site, host.w, names[j])
      {
        NotYet(names, i);
        ok := LoadOne(names[i], links);
        if !ok {
          return;
        }
      }
      plan := PlanFor(cfg, host.site, host.w);
      return true;
    }

    lemma NothingGathered()
      requires files == map[]
      ensures Gathered(host.w) && Apart() && Parts() == {}
    {
    }

    ghost predicate AllGathered()
      reads `files, `order, `plan, host, Parts()
    {
      && Gathered(host.w) && Apart() && order == SortedUsers(cfg.ops) && files.Keys == (set u | u in order)
      && plan == PlanFor(cfg, host.site, host.w)
    }

    lemma LoadedFits(u: User)
      requires AllGathered() && u in files
      ensures u in plan.ts && plan.ts[u] == TargetFor(cfg, host.site, host.w, u)
      ensures Fits(files[u], u, plan.ts[u]) && Planned(cfg.codec, plan.ops, u, plan.ts[u])
      ensures AsFound(plan.ts[u], Views()[u], host.w)
    {
      hide Parse, Expand, H.StatOf, AddAll, RemoveAll, Grants, Matchers, OpsOf, DirOf, SortedUsers, Stamp, BakName,
           CheckWriteTarget;
      var f := files[u];
      assert AsLoaded(f, u, host.w);
      TargetIsAsFound(cfg, host.site, host.w, u,
                        Loaded(f.target, f.path, if f.origExists then Some(f.orig) else None), f.Val());
    }

    lemma LoadedIsWired()
      requires AllGathered()
      ensures Wired() && Views().Keys == plan.ts.Keys
      ensures forall u | u in plan.ts :: AsFound(plan.ts[u], Views()[u], host.w)
    {
      hide Fits, Planned, AsFound, TargetFor, SortedUsers, LoadedFrom, Parse;
      SortedUsersOnce(cfg.ops, order);
      UsersAreSorted(cfg.ops);
      forall u | u in files
        ensures u in plan.ts && Fits(files[u], u, plan.ts[u]) && Planned(cfg.codec, plan.ops, u, plan.ts[u])
        ensures files[u].user == u && AsFound(plan.ts[u], Views()[u], host.w)
      {
        LoadedFits(u);
        assert AsLoaded(files[u], u, host.w);
      }
    }

    /** After loading the run is healthy. */
    lemma LoadedIsReady()
      requires AllGathered() && Separate(cfg, host.site) && forgotten == {}
      requires Idle(host, host.w.disk, host.w.links) && host.w.conn && host.w.guard
      ensures Ready() && Through(0, {})
    {
      hide AsFound, PlanFor, Separate, Fresh, Steady, Core, Sane, Progress, Gathered, Paced, NoOrders, H.Logged,
           H.AllSmooth, Views, Wired;
      LoadedIsWired();
      FreshIsPaced(plan, Views(), host.w, host.calls);
      NothingKept(plan, host.calls);
      PlanIsDistinct(cfg, host.site, host.w);
      FreshIsSteady(plan, Views(), host.w);
      SteadyIsCore(plan, Views(), {}, host.w);
      forall s | s in host.trace
        ensures Sane(plan, s)
      {
        FreshIsSane(plan, Views(), host.w, s);
      }
    }

    // ------------------------------------------------------- copy and swap

    /** The local and the remote copy of the original, before its manifest line. */
    method CopyOriginal(uf: UserFile) returns (ok: bool)
      requires Ready() && Mine(uf) && !uf.manifested && uf.origExists && Concerned(plan, uf.user)
      modifies host
      ensures Held() && SameOrders(old(host.calls), host.calls)
      ensures ok ==> Ready() && Quiet(old(host.w), host.w)
      ensures ok ==> BackupOk(plan.ts[uf.user], host.w) && LocalOk(plan.ts[uf.user], uf.user, host.w)
      ensures host.calm ==> old(host.calm) && (old(host.w.conn) ==> ok)
    {
      hide Held, Ready, Wired, Steady, Fine, SaveLocally, Views, Planned, Stamp, BakName, H.Logged, SameOrders,
           Concerned;
      var u := uf.user;
      Standing();
      Healthy(uf);
      ghost var c0, t1 := host.calls, host.Next(Keep(u, uf.orig));
      StepSaveLocal(plan, Views(), host.w, u, uf.orig, t1);
      label S1:
      var r := host.Save(u, uf.orig);
      GoesOn@S1(Call(Keep(u, uf.orig), t1, r));
      QuietCall(c0, Call(Keep(u, uf.orig), t1, r));
      if r != Done {
        return false;
      }
      ok := CopyRemotely(uf);
      SameOrdersChain(c0, c0 + [Call(Keep(u, uf.orig), t1, r)], host.calls);
    }

    method CopyRemotely(uf: UserFile) returns (ok: bool)
      requires Ready() && Mine(uf) && !uf.manifested && uf.origExists
      requires uf.user in plan.ts && LocalOk(plan.ts[uf.user], uf.user, host.w)
      modifies host
      ensures Held() && SameOrders(old(host.calls), host.calls)
      ensures ok ==> Ready() && Quiet(old(host.w), host.w)
      ensures ok ==> BackupOk(plan.ts[uf.user], host.w) && LocalOk(plan.ts[uf.user], uf.user, host.w)
      ensures host.calm ==> old(host.calm) && (old(host.w.conn) ==> ok)
    {
      hide Held, Ready, Wired, Steady, Fine, Perform, Views, Planned, Stamp, BakName, NameFree, H.Logged, SameOrders;
      var u := uf.user;
      Standing();
      Healthy(uf);
      FreshBackup(plan, Views(), host.w, u);
      var c := SaveBackup(BakName(cfg.txdir, u), uf.orig);
      ghost var c0, t := host.calls, host.Next(Remote(c));
      StepBackup(plan, Views(), host.w, plan.ts[u].bak, uf.orig, t);
      label S2:
      var r := host.Issue(c);
      GoesOn@S2(Call(Remote(c), t, r));
      QuietCall(c0, Call(Remote(c), t, r));
      return r == Done;
    }

    function Entry(uf: UserFile): Manifest.Record {
      if uf.origExists then Manifest.Record("F", BakName(cfg.txdir, uf.user), uf.path)
      else Manifest.Record("A", "-", uf.path)
    }

    lemma EntryIsRecord(uf: UserFile)
      requires Wired() && Mine(uf)
      ensures Entry(uf) == RecordOf(plan.ts[uf.user])
    {
    }

    /** The manifest line that arms the trap for a file. */
    method ArmEntry(uf: UserFile) returns (ok: bool)
      requires Ready() && Mine(uf) && !uf.manifested
      requires BackupOk(plan.ts[uf.user], host.w) && LocalOk(plan.ts[uf.user], uf.user, host.w)
      modifies host, uf`manifested
      ensures Held() && SameOrders(old(host.calls), host.calls)
      ensures ok ==> Ready() && Quiet(old(host.w), host.w)
      ensures uf.manifested == ok
      ensures host.calm ==> old(host.calm) && (old(host.w.conn) ==> ok)
    {
      hide Held, Steady, BackupOk, LocalOk, Quiet, Views, SameOrders, Entry;
      ok := AppendEntry(uf);
      if ok {
        NoteManifested(uf);
      }
    }

    /** How the client remembers a file once its manifest line is confirmed. */
    ghost predicate Armed(uf: UserFile)
      reads `files, `plan, host, Parts(), uf, uf.work
    {
      Steady(plan, Views()[uf.user := uf.Val().(manifested := true)], {}, host.w)
    }

    method AppendEntry(uf: UserFile) returns (ok: bool)
      requires Ready() && Mine(uf) && !uf.manifested
      requires BackupOk(plan.ts[uf.user], host.w) && LocalOk(plan.ts[uf.user], uf.user, host.w)
      modifies host
      ensures Held() && forgotten == {} && SameOrders(old(host.calls), host.calls)
      ensures ok ==> Armed(uf) && Quiet(old(host.w), host.w)
      ensures host.calm ==> old(host.calm) && (old(host.w.conn) ==> ok)
    {
      hide Steady, Core, Sane, Perform, BackupOk, LocalOk, Manifest.Encode, RecordOf, Quiet, Views, Wired, TraceSane,
           Stamp, BakName, SnapName, DirOf, H.Logged, SameOrders, Planned, Entry;
      var u := uf.user;
      ghost var vs := Views();
      Wiring(uf);
      SteadyIsCore(plan, vs, forgotten, host.w);
      EntryIsRecord(uf);
      var c := AppendManifest(Manifest.Encode(Entry(uf)));
      ghost var c0, t := host.calls, host.Next(Remote(c));
      StepAppend(plan, vs, host.w, u, t);
      label S3:
      var r := host.Issue(c);
      Stepped@S3(host.w);
      QuietCall(c0, Call(Remote(c), t, r));
      return r == Done;
    }

    method NoteManifested(uf: UserFile)
      requires Held() && forgotten == {} && Mine(uf) && Armed(uf)
      modifies uf`manifested
      ensures Ready() && uf.manifested
    {
      hide Steady, Core, Sane, Views, Wired, TraceSane, H.Logged;
      Wiring(uf);
      uf.manifested := true;
      OthersKept(uf);
      SteadyIsCore(plan, Views(), forgotten, host.w);
    }

    /** Both snapshots hold what the file holds. */
    ghost predicate Snapped(uf: UserFile)
      reads host
    {
      var name := SnapName(BakName(cfg.txdir, uf.user));
      At(host.w, uf.path).Some? ==>
        && name in host.w.backups && host.w.backups[name] == At(host.w, uf.path).value
        && uf.user in host.w.snapshots && host.w.snapshots[uf.user] == At(host.w, uf.path).value
    }

    /** This file's snapshot goes where no backup is that the trap may need. */
    ghost predicate SnapFree(uf: UserFile)
      reads `files, `plan, set u | u in files :: files[u]
    {
      forall u | u in files && files[u].manifested && u in plan.ts && plan.ts[u].orig.Some? ::
        plan.ts[u].bak != SnapName(BakName(cfg.txdir, uf.user))
    }

    /** If the remove phase takes a snapshot of this file, that is so. */
    ghost predicate SnapshotIsSafe(uf: UserFile)
      reads `files, `plan, uf, set u | u in files :: files[u]
    {
      uf.user in plan.ts && uf.manifested && plan.ts[uf.user].doc2 != plan.ts[uf.user].doc1 ==> SnapFree(uf)
    }

    /** A forensic copy, on the host and on the operator's disk, of what a later phase starts from. */
    method Snapshot(uf: UserFile) returns (ok: bool)
      requires Ready() && Mine(uf) && SnapFree(uf)
      modifies host
      ensures Held() && SameOrders(old(host.calls), host.calls)
      ensures ok ==> Ready() && Quiet(old(host.w), host.w) && Snapped(uf)
      ensures host.calm ==> old(host.calm) && (old(host.w.conn) ==> ok)
    {
      hide Held, Ready, Wired, Steady, Fine, Perform, Views, Fits, Planned, SnapFree, H.Logged, SameOrders;
      Standing();
      Healthy(uf);
      ghost var c0, t := host.calls, host.Next(Remote(Inspect));
      StepRead(plan, Views(), host.w, t);
      label S4:
      var r := host.Issue(Inspect);
      GoesOn@S4(Call(Remote(Inspect), t, r));
      QuietCall(c0, Call(Remote(Inspect), t, r));
      if r != Done {
        return false;
      }
      var content := At(host.w, uf.path);
      if content.Some? {
        ok := CopySnapshot(uf, content.value);
        SameOrdersChain(c0, c0 + [Call(Remote(Inspect), t, r)], host.calls);
        return;
      }
      return true;
    }

    method CopySnapshot(uf: UserFile, content: Bytes) returns (ok: bool)
      requires Ready() && Mine(uf) && SnapFree(uf) && At(host.w, uf.path) == Some(content)
      modifies host
      ensures Held() && SameOrders(old(host.calls), host.calls)
      ensures ok ==> Ready() && Quiet(old(host.w), host.w) && Snapped(uf)
      ensures host.calm ==> old(host.calm) && (old(host.w.conn) ==> ok)
    {
      hide Held, Ready, Views, SnapName, BakName, SameOrders;
      ghost var c0 := host.calls;
      ok := SnapshotRemotely(uf, content);
      if ok {
        ghost var c1 := host.calls;
        ok := SnapshotLocally(uf, content);
        SameOrdersChain(c0, c1, host.calls);
      }
    }

    method SnapshotRemotely(uf: UserFile, content: Bytes) returns (ok: bool)
      requires Ready() && Mine(uf) && SnapFree(uf)
      modifies host
      ensures Held() && SameOrders(old(host.calls), host.calls)
      ensures ok ==> Ready() && Quiet(old(host.w), host.w)
      ensures ok ==> var name := SnapName(BakName(cfg.txdir, uf.user));
                     name in host.w.backups && host.w.backups[name] == content
      ensures host.calm ==> old(host.calm) && (old(host.w.conn) ==> ok)
    {
      hide Held, Ready, Wired, Steady, Fine, Perform, Views, Planned, Stamp, BakName, SnapName, SnapFree, NameFree,
           H.Logged, SameOrders;
      Standing();
      Healthy(uf);
      SnapshotNameFree(uf);
      var c := SaveBackup(SnapName(BakName(cfg.txdir, uf.user)), content);
      ghost var c0, t := host.calls, host.Next(Remote(c));
      StepBackup(plan, Views(), host.w, SnapName(plan.ts[uf.user].bak), content, t);
      label S5:
      var r := host.Issue(c);
      GoesOn@S5(Call(Remote(c), t, r));
      QuietCall(c0, Call(Remote(c), t, r));
      return r == Done;
    }

    lemma SnapshotNameFree(uf: UserFile)
      requires Ready() && Mine(uf) && SnapFree(uf) && uf.user in plan.ts
      ensures NameFree(plan, Views(), SnapName(plan.ts[uf.user].bak))
    {
      hide Core, Steady, Sane, Planned, BakName, SnapName, TraceSane;
      assert Fits(uf, uf.user, plan.ts[uf.user]);
    }

    method SnapshotLocally(uf: UserFile, content: Bytes) returns (ok: bool)
      requires Ready() && Mine(uf) && host.w.conn
      modifies host
      ensures Held() && SameOrders(old(host.calls), host.calls)
      ensures ok ==> Ready() && host.w == old(host.w).(snapshots := host.w.snapshots)
      ensures ok ==> uf.user in host.w.snapshots && host.w.snapshots[uf.user] == content
      ensures host.calm ==> old(host.calm) && ok
    {
      hide Held, Ready, Wired, Steady, Fine, SaveSnapshot, Views, Fits, Planned, H.Logged, SameOrders;
      var u := uf.user;
      Standing();
      Healthy(uf);
      ghost var c0, t := host.calls, host.Next(KeepSnapshot(u, content));
      StepSnapshot(plan, Views(), host.w, u, content, t);
      label S6:
      var r := host.SaveCopy(u, content);
      GoesOn@S6(Call(KeepSnapshot(u, content), t, r));
      QuietCall(c0, Call(KeepSnapshot(u, content), t, r));
      return r == Done;
    }

    /** The copy half of copy-and-swap. */
    method EnsureCAS(uf: UserFile) returns (ok: bool)
      requires Ready() && Mine(uf) && Concerned(plan, uf.user) && (uf.manifested ==> SnapFree(uf))
      modifies host, uf`manifested
      ensures Held() && SameOrders(old(host.calls), host.calls)
      ensures ok ==> Ready() && Quiet(old(host.w), host.w) && uf.manifested && (old(uf.manifested) ==> Snapped(uf))
      ensures host.calm ==> old(host.calm) && (old(host.w.conn) ==> ok)
    {
      hide Steady, Core, Sane, Perform, BackupOk, LocalOk, Views, Wired, TraceSane, Stamp, BakName, SnapName, DirOf,
           H.Logged, SameOrders, Concerned;
      Wiring(uf);
      assert Views() == Views()[uf.user := uf.Val()];
      if uf.manifested {
        ok := Snapshot(uf);
        return;
      }
      ghost var c0 := host.calls;
      SameOrdersStart(c0);
      if uf.origExists {
        ok := CopyOriginal(uf);
        if !ok {
          return;
        }
      } else {
        AbsentNeedsNoCopy(plan.ts[uf.user], uf.user, host.w);
      }
      ghost var c1 := host.calls;
      ok := ArmEntry(uf);
      SameOrdersChain(c0, c1, host.calls);
    }

    /** The working copy is what a phase is about to write, and its moment has come. */
    ghost predicate Due(uf: UserFile)
      requires uf.user in plan.ts
      reads `plan, host, uf.work
    {
      var t, d := plan.ts[uf.user], uf.work.Value();
      && host.w.conn
      && ((d == t.doc1 && t.doc1 != t.doc0) || (d == t.doc2 && t.doc2 != t.doc1 && AddsProven(plan, host.w.probes)))
    }

    /** The mark goes on before the write is issued. */
    method Mark(uf: UserFile)
      requires Ready() && Mine(uf)
      modifies uf`dirty
      ensures Ready() && uf.dirty
    {
      hide Ready, Held, Wired, Steady, Views, Fits, Planned;
      Healthy(uf);
      MarkSteady(plan, Views(), host.w, uf.user);
      uf.dirty := true;
      OthersKept(uf);
      StillReady();
    }

    /** One more order on record, for this file alone. */
    ghost predicate Ordered1(uf: UserFile, before: seq<Call>, r: Reply)
      reads host, uf.work
    {
      && OrdersElsewhere(uf.path, before, host.calls)
      && WritesOf(host.calls, uf.path) == WritesOf(before, uf.path) + [Write(Some(Render(uf.work.Value())), r)]
    }

    /** The rename itself, for a marked file. */
    method WriteOut(uf: UserFile) returns (r: Reply)
      requires Ready() && Mine(uf) && uf.manifested && uf.dirty && uf.user in plan.ts && Due(uf)
      modifies host
      ensures Held()
      ensures r == Done ==> Ready() && Swapped(uf, old(host.w))
      ensures r == Exit ==> host.w == old(host.w)
      ensures Ordered1(uf, old(host.calls), r)
      ensures host.calm ==> old(host.calm) && r == Done
    {
      hide Held, Ready, Wired, Steady, Fine, Perform, Views, Planned, Stamp, MayWrite, Render, H.Logged, WritesOf,
           MarksOf, H.AllSmooth, AddsProven;
      Standing();
      Healthy(uf);
      DueMayWrite(uf);
      var text := uf.work.RenderText();
      var c := Command.Swap(uf.path, text, Stamp(uf.target, host.site.guard));
      ghost var c0, t := host.calls, host.Next(Remote(c));
      StepSwap(plan, Views(), host.w, uf.user, text, t);
      label S:
      r := host.Issue(c);
      GoesOn@S(Call(Remote(c), t, r));
      SwapCall(c0, Call(Remote(c), t, r));
    }

    /** The swap half: marked before it is issued. A lost reply leaves the mark and a note of the doubt;
        a clean failure takes the mark away, and with it what an earlier success stood for. */
    method Swap(uf: UserFile) returns (ok: bool, ghost r: Reply)
      requires Ready() && Mine(uf) && uf.manifested && uf.user in plan.ts && Due(uf)
      modifies host, uf`dirty, uf`writeUnconfirmed, `forgotten
      ensures Held() && Ordered1(uf, old(host.calls), r)
      ensures ok <==> r == Done
      ensures ok ==> Ready() && Swapped(uf, old(host.w))
      ensures uf.dirty == if r == Exit then cfg.keepDirty && old(uf.dirty) else true
      ensures uf.writeUnconfirmed == (old(uf.writeUnconfirmed) || r == Lost)
      ensures forgotten == if r == Exit && old(uf.dirty) && !cfg.keepDirty then {uf.user} else {}
      ensures r == Exit ==> host.w == old(host.w)
      ensures host.calm ==> old(host.calm) && ok
    {
      hide Held, Ready, Wired, Steady, Views, Swapped, At, Ordered1, Fits, Planned, MayWrite;
      var was := uf.dirty;
      Healthy(uf);
      if !was {
        CleanMeansOriginal(uf);
      }
      Mark(uf);
      var reply := WriteOut(uf);
      if reply != Done {
        AfterReply(uf, was, reply);
      }
      return reply == Done, reply;
    }

    /** What a reply other than success tells about the file. */
    method AfterReply(uf: UserFile, was: bool, r: Reply)
      requires Held() && forgotten == {} && Mine(uf) && uf.user in plan.ts && r != Done && uf.dirty
      requires r == Exit && !was ==> At(host.w, plan.ts[uf.user].path) == plan.ts[uf.user].orig
      modifies uf`dirty, uf`writeUnconfirmed, `forgotten
      ensures Held()
      ensures forgotten == if r == Exit && was && !cfg.keepDirty then {uf.user} else {}
      ensures uf.dirty == if r == Exit then cfg.keepDirty && was else true
      ensures uf.writeUnconfirmed == (old(uf.writeUnconfirmed) || r == Lost)
    {
      hide Core, Sane, Views, Wired, TraceSane, At, H.Logged;
      if r == Exit {
        AfterCleanFailure(uf, was);
      } else {
        AfterLostReply(uf);
      }
    }

    /** A definite answer from the remote shell: nothing was renamed. */
    method AfterCleanFailure(uf: UserFile, was: bool)
      requires Held() && forgotten == {} && Mine(uf) && uf.user in plan.ts
      requires !was ==> At(host.w, plan.ts[uf.user].path) == plan.ts[uf.user].orig
      modifies uf`dirty, `forgotten
      ensures Held()
      ensures uf.dirty == (cfg.keepDirty && was)
      ensures forgotten == if was && !cfg.keepDirty then {uf.user} else {}
    {
      hide Held, Wired, Core, Views, Fits, Planned;
      HeldFile(uf);
      NoteCleanFailure(plan, Views(), host.w, uf.user, was, cfg.keepDirty && was);
      uf.dirty := cfg.keepDirty && was;
      forgotten := if was && !cfg.keepDirty then {uf.user} else {};
      OthersKept(uf);
      StillHeld();
    }

    /** No answer: the write may or may not have happened. */
    method AfterLostReply(uf: UserFile)
      requires Held() && forgotten == {} && Mine(uf) && uf.user in plan.ts
      modifies uf`writeUnconfirmed
      ensures Held() && uf.writeUnconfirmed
    {
      hide Core, Sane, Wired, TraceSane, Views, H.Logged;
      Wiring(uf);
      NoteUnconfirmed(plan, Views(), host.w, uf.user);
      uf.writeUnconfirmed := true;
      OthersKept(uf);
    }

    ghost predicate Swapped(uf: UserFile, before: World)
      requires uf.user in plan.ts
      reads `plan, host, uf, uf.work
    {
      && uf.dirty && host.w.conn
      && host.w == before.(disk := before.disk[uf.path := Node(Render(uf.work.Value()), plan.ts[uf.user].stamp)])
    }

    lemma CleanMeansOriginal(uf: UserFile)
      requires Ready() && Mine(uf) && !uf.dirty
      ensures uf.user in plan.ts && At(host.w, plan.ts[uf.user].path) == plan.ts[uf.user].orig
    {
    }

    lemma DueMayWrite(uf: UserFile)
      requires Ready() && Mine(uf) && uf.manifested && uf.dirty && uf.user in plan.ts && Due(uf)
      ensures MayWrite(plan, Views(), host.w, uf.user, Render(uf.work.Value()))
    {
      hide Core, Sane, Render, AddsProven;
      Wiring(uf);
      SteadyIsCore(plan, Views(), forgotten, host.w);
    }

    // ------------------------------------------------------------- editing

    /** All of one user's additions, in memory. */
    method EditAdds(uf: UserFile, adds: seq<Op>) returns (changed: bool)
      requires Ready() && Mine(uf)
      modifies uf.work
      ensures Ready()
      ensures uf.work.Value() == AddAll(cfg.codec, old(uf.work.Value()), Grants(adds))
      ensures changed == (uf.work.Value() != old(uf.work.Value()))
    {
      hide Ready, Held, Wired, Steady, Views, AddAll, Grants, Fits, Planned;
      Healthy(uf);
      EditSteady(plan, Views(), host.w, uf.user, AddAll(cfg.codec, uf.work.Value(), Grants(adds)));
      changed := uf.ApplyAdds(cfg.codec, adds);
      OthersKept(uf);
      StillReady();
    }

    /** All of one user's removals, in memory. */
    method EditRemoves(uf: UserFile, rms: seq<Op>) returns (changed: bool, enriched: seq<Op>)
      requires Ready() && Mine(uf) && Tidy(uf.work.Value())
      modifies uf.work
      ensures Ready()
      ensures uf.work.Value() == RemoveAll(cfg.codec, old(uf.work.Value()), Matchers(rms))
      ensures changed == (uf.work.Value() != old(uf.work.Value()))
      ensures enriched == Enriched(cfg.codec, old(uf.work.Value()), rms)
    {
      hide Ready, Held, Wired, Steady, Views, RemoveAll, Matchers, Enriched, Fits, Planned;
      Healthy(uf);
      EditSteady(plan, Views(), host.w, uf.user, RemoveAll(cfg.codec, uf.work.Value(), Matchers(rms)));
      changed, enriched := uf.ApplyRemoves(cfg.codec, rms);
      OthersKept(uf);
      StillReady();
    }

    // ------------------------------------------------------------- phases

    method CheckHealth() returns (ok: bool)
      requires Ready()
      modifies host
      ensures Held() && SameOrders(old(host.calls), host.calls)
      ensures ok ==> Ready() && host.w == old(host.w) && host.w.conn
      ensures host.calm ==> old(host.calm) && (old(host.w.conn) ==> ok)
      ensures ok <==> Alive(old(host.w), old(host.Next(Health)))
    {
      hide Held, Ready, Wired, Steady, Fine, CheckGuard, Views, H.Logged, SameOrders;
      Standing();
      ghost var c0, t := host.calls, host.Next(Health);
      StepCheck(plan, Views(), host.w, t);
      label S:
      var r := host.Check();
      GoesOn@S(Call(Health, t, r));
      QuietCall(c0, Call(Health, t, r));
      return r == Done;
    }

    /** The health check before a phase; a failed one leaves everything in the books. */
    method CheckBefore(ghost k: int) returns (ok: bool)
      requires Ready() && Through(k, {}) && 0 <= k <= 2
      modifies host
      ensures Held() && forgotten == {} && Strays(plan, Views(), forgotten, host.w) && InBooks()
      ensures ok ==> Ready() && host.w == old(host.w) && host.w.conn && Through(k, {})
      ensures host.calm ==> old(host.calm) && (old(host.w.conn) ==> ok)
      ensures ok <==> Alive(old(host.w), old(host.Next(Health)))
    {
      hide Steady, Core, Sane, CheckGuard, Wired, TraceSane, H.Logged, SameOrders, Progress, Paced, Views, Booked,
           Strays;
      SteadyIsCore(plan, Views(), forgotten, host.w);
      ghost var vs, w, c0 := Views(), host.w, host.calls;
      label L:
      ok := CheckHealth();
      Undisturbed@L();
      PacedIsBooked(plan, cfg.keepDirty, vs, w, c0, k, {});
      BookedSame(plan, cfg.keepDirty, vs, {}, c0, host.calls);
      PacedSame(plan, vs, c0, host.calls, k, {});
      NoStrays(plan, vs, host.w);
    }

    /** One file is through k phases, on disk, in memory and on record. */
    ghost predicate FileAt(uf: UserFile, k: int)
      reads `plan, host, uf, uf.work
    {
      && uf.user in plan.ts
      && InPhase(plan.ts[uf.user], uf.Val(), host.w, k) && PacedAt(plan.ts[uf.user], uf.Val(), host.calls, k)
    }

    /** That, and it is armed exactly if these phases concern it. */
    ghost predicate Stands(uf: UserFile, k: int)
      reads `plan, host, uf, uf.work
    {
      FileAt(uf, k) && ArmedBy(plan, uf.user, uf.Val(), k)
    }

    ghost predicate FileBooked(uf: UserFile)
      reads `plan, `forgotten, host, uf, uf.work
    {
      && uf.user in plan.ts
      && Books(plan.ts[uf.user], cfg.keepDirty, uf.Val(), uf.user in forgotten,
               WritesOf(host.calls, plan.ts[uf.user].path))
    }

    /** The working copy holds the next phase's document, the record and the mark are those of the last. */
    ghost predicate Edited(uf: UserFile, k: int)
      reads `plan, host, uf, uf.work
    {
      && uf.user in plan.ts && 0 <= k <= 1
      && var t := plan.ts[uf.user];
      && uf.work.Value() == DocAt(t, k + 1) && DocAt(t, k + 1) != DocAt(t, k)
      && uf.dirty == TouchedAt(t, k) && PacedAt(t, uf.Val(), host.calls, k)
    }

    /** A phase's swap, with the books for either end. */
    method SwapIn(uf: UserFile, ghost k: int) returns (ok: bool)
      requires Ready() && Mine(uf) && uf.manifested && Edited(uf, k) && host.w.conn
      requires k == 1 ==> AddsProven(plan, host.w.probes)
      modifies host, uf`dirty, uf`writeUnconfirmed, `forgotten
      ensures Held() && OrdersElsewhere(uf.path, old(host.calls), host.calls)
      ensures ok ==> Ready() && host.w.conn && host.w.probes == old(host.w.probes) && FileAt(uf, k + 1)
      ensures ok ==> SameElsewhere(uf.path, old(host.w), host.w)
      ensures !ok ==> FileBooked(uf)
      ensures forgotten != {}
              ==> k == 1 && forgotten == {uf.user} && !uf.dirty && !cfg.keepDirty && host.w == old(host.w)
      ensures host.calm ==> old(host.calm) && ok
    {
      hide Held, Ready, Wired, Steady, Views, Due, Swapped, Ordered1, FileAt, FileBooked, Edited, Fits, Planned,
           AddsProven, SameElsewhere, OrdersElsewhere;
      ghost var v0, c0, w0 := uf.Val(), host.calls, host.w;
      Healthy(uf);
      EditedIsDue(uf, k);
      ghost var r;
      ok, r := Swap(uf);
      if ok {
        Landed(uf, k, v0, c0, w0);
      } else {
        NotLanded(uf, k, v0, c0, r);
      }
    }

    lemma EditedIsDue(uf: UserFile, k: int)
      requires Edited(uf, k) && host.w.conn && (k == 1 ==> AddsProven(plan, host.w.probes))
      ensures uf.user in plan.ts && Due(uf) && 0 <= k <= 1 && PacedAt(plan.ts[uf.user], uf.Val(), host.calls, k)
      ensures DocAt(plan.ts[uf.user], k + 1) == uf.work.Value() != DocAt(plan.ts[uf.user], k)
      ensures uf.dirty == TouchedAt(plan.ts[uf.user], k) && (k == 0 ==> !uf.dirty)
    {
      hide PacedAt, AddsProven;
    }

    /** The phase's swap was carried out. */
    lemma Landed(uf: UserFile, k: int, v0: View, c0: seq<Call>, w0: World)
      requires uf.user in plan.ts && Fits(uf, uf.user, plan.ts[uf.user]) && 0 <= k <= 1
      requires Swapped(uf, w0) && Ordered1(uf, c0, Done) && PacedAt(plan.ts[uf.user], v0, c0, k)
      requires DocAt(plan.ts[uf.user], k + 1) == uf.work.Value() != DocAt(plan.ts[uf.user], k)
      requires uf.writeUnconfirmed == v0.unconfirmed
      ensures FileAt(uf, k + 1) && SameElsewhere(uf.path, w0, host.w) && OrdersElsewhere(uf.path, c0, host.calls)
      ensures host.w.conn && host.w.probes == w0.probes
    {
      hide WritesOf, MarksOf, Render, PacedAt, InPhase;
      var t := plan.ts[uf.user];
      NextContent(t, k);
      PhaseSwapped(t, uf.Val(), host.w, k);
      PacedSwapped(t, v0, c0, uf.Val(), host.calls, k);
    }

    /** It was not, or nobody knows. */
    lemma NotLanded(uf: UserFile, k: int, v0: View, c0: seq<Call>, r: Reply)
      requires uf.user in plan.ts && Fits(uf, uf.user, plan.ts[uf.user]) && 0 <= k <= 1 && r != Done
      requires Ordered1(uf, c0, r) && PacedAt(plan.ts[uf.user], v0, c0, k) && v0.dirty == TouchedAt(plan.ts[uf.user], k)
      requires DocAt(plan.ts[uf.user], k + 1) == uf.work.Value() != DocAt(plan.ts[uf.user], k)
      requires uf.writeUnconfirmed == (v0.unconfirmed || r == Lost)
      requires uf.dirty == if r == Exit then cfg.keepDirty && v0.dirty else true
      requires forgotten == if r == Exit && v0.dirty && !cfg.keepDirty then {uf.user} else {}
      ensures FileBooked(uf) && OrdersElsewhere(uf.path, c0, host.calls)
    {
      hide WritesOf, MarksOf, Render, PacedAt, Books, TouchedAt;
      var t := plan.ts[uf.user];
      NextContent(t, k);
      PacedIsConfirmed(t, v0, c0, k);
      FailedOrder(t, cfg.keepDirty, v0, c0, uf.Val(), WritesOf(host.calls, t.path), k, r);
    }

    /** One file through the add phase. */
    method PhaseAddFile(uf: UserFile, adds: seq<Op>) returns (ok: bool)
      requires Ready() && Mine(uf) && host.w.conn && adds == OpsOf(plan.ops, uf.user, Adding) && adds != []
      requires Stands(uf, 0)
      modifies host, uf, uf.work, `forgotten
      ensures Held() && forgotten == {} && OrdersElsewhere(uf.path, old(host.calls), host.calls)
      ensures ok ==> Ready() && host.w.conn && host.w.probes == old(host.w.probes)
      ensures ok ==> Stands(uf, 1) && SameElsewhere(uf.path, old(host.w), host.w)
      ensures !ok ==> FileBooked(uf)
      ensures host.calm ==> old(host.calm) && ok
    {
      hide Held, Ready, Stands, Views, Wired, OpsOf, FileAt, FileBooked, SameOrders, OrdersElsewhere, SameElsewhere,
           Concerned, Adds, Snapped, Fits, Planned, Steady;
      Healthy(uf);
      StandsUnarmed(uf);
      IsConcerned(uf);
      label L:
      ghost var w0, c0 := host.w, host.calls;
      ok := EnsureCAS(uf);
      StillBooked@L(uf);
      ElsewhereToo(uf.path, c0, host.calls);
      if ok {
        StillFileAt@L(uf);
        Healthy(uf);
        ghost var w1, c1 := host.w, host.calls;
        ok := AddAndSwap(uf, adds);
        if ok {
          StandsArmed(uf, 1);
        }
        FromThere(uf.path, w0, w1, host.w, c0, c1, host.calls);
      }
    }

    /** Before its turn in the add phase a file is not armed. */
    lemma StandsUnarmed(uf: UserFile)
      requires Stands(uf, 0)
      ensures FileAt(uf, 0) && !uf.manifested
    {
      hide InPhase, PacedAt, Adds;
    }

    lemma StandsArmed(uf: UserFile, k: int)
      requires FileAt(uf, k) && uf.manifested
      requires (k == 1 && Adds(plan, uf.user)) || (k == 2 && plan.ts[uf.user].doc2 != plan.ts[uf.user].doc1)
      ensures Stands(uf, k)
    {
      hide InPhase, PacedAt, Adds;
    }

    lemma IsConcerned(uf: UserFile)
      requires uf.user in plan.ts && OpsOf(plan.ops, uf.user, Adding) != []
      ensures Concerned(plan, uf.user) && Adds(plan, uf.user)
    {
    }

    twostate lemma StillBooked(uf: UserFile)
      requires old(FileAt(uf, 0)) && unchanged(uf.work) && unchanged(`plan) && uf.dirty == old(uf.dirty)
      requires uf.writeUnconfirmed == old(uf.writeUnconfirmed) && SameOrders(old(host.calls), host.calls)
      requires forgotten == {}
      ensures FileBooked(uf)
    {
      hide MarksOf, WritesOf, At, InPhase, Books, PacedAt, SameOrders;
      var t := plan.ts[uf.user];
      SameWrites(t, old(host.calls), host.calls);
      UnfinishedBooks(t, cfg.keepDirty, old(uf.Val()), old(host.w), old(host.calls), uf.Val(), host.calls, 0);
    }

    twostate lemma StillFileAt(uf: UserFile)
      requires old(FileAt(uf, 0)) && unchanged(uf.work) && unchanged(`plan) && uf.dirty == old(uf.dirty)
      requires uf.writeUnconfirmed == old(uf.writeUnconfirmed) && SameOrders(old(host.calls), host.calls)
      requires old(host.w.guard) && host.w.disk == old(host.w).disk
      ensures FileAt(uf, 0)
    {
      hide MarksOf, WritesOf, WritesAt, Mid, Fin;
    }

    /** All of one user's additions, then one swap. */
    method AddAndSwap(uf: UserFile, adds: seq<Op>) returns (ok: bool)
      requires Ready() && Mine(uf) && host.w.conn && uf.manifested && adds == OpsOf(plan.ops, uf.user, Adding)
      requires FileAt(uf, 0)
      modifies host, uf, uf.work, `forgotten
      ensures Held() && forgotten == {} && OrdersElsewhere(uf.path, old(host.calls), host.calls)
      ensures ok ==> Ready() && host.w.conn && host.w.probes == old(host.w.probes)
      ensures uf.manifested
      ensures ok ==> FileAt(uf, 1) && SameElsewhere(uf.path, old(host.w), host.w)
      ensures !ok ==> FileBooked(uf)
      ensures host.calm ==> old(host.calm) && ok
    {
      hide Held, Ready, Views, Wired, AddAll, Grants, OpsOf, InPhase, Planned, Fits, PacedAt, FileBooked, Edited,
           Steady, OrdersElsewhere, SameElsewhere;
      ghost var t, v0, w0, c0 := plan.ts[uf.user], uf.Val(), host.w, host.calls;
      Healthy(uf);
      BeforeAdding(cfg.codec, plan, uf.user, t, v0, w0);
      var changed := EditAdds(uf, adds);
      if !changed {
        Healthy(uf);
        PhaseIdle(t, v0, w0, uf.Val(), host.w, 0);
        PacedIdle(t, v0, c0, uf.Val(), host.calls, 0);
        NothingMoved(uf.path, w0, c0);
        return true;
      }
      NowEdited(uf, 0, v0, w0, c0);
      ok := SwapIn(uf, 0);
    }

    /** The users whose turn has passed. */
    ghost function Behind(i: nat): set<User>
      requires i <= |order|
      reads `order
    {
      set u | u in order[..i]
    }

    lemma NextInOrder(i: nat)
      requires Wired() && i < |order|
      ensures order[i] in files && order[i] !in Behind(i) && Behind(i + 1) == Behind(i) + {order[i]}
      ensures files[order[i]].user == order[i]
    {
      hide Fits, Planned;
      assert order[..i + 1] == order[..i] + [order[i]];
      assert order[..|order|] == order;
    }

    lemma EndOfOrder()
      requires Wired()
      ensures Behind(|order|) == plan.ts.Keys && Behind(0) == {}
    {
      assert order[..|order|] == order;
    }

    lemma NoneToAdd()
      requires Wired() && ops == cfg.ops && (forall op | op in ops :: op.action != Adding)
      ensures Through(0, {}) ==> Through(1, {})
    {
      hide Fits, Planned, Progress, Paced, Views, OpsOf;
      forall u | u in plan.ts
        ensures plan.ts[u].doc1 == plan.ts[u].doc0 && !Adds(plan, u)
      {
        assert Planned(cfg.codec, plan.ops, u, plan.ts[u]);
        NoAdditions(cfg.codec, plan.ops, u, plan.ts[u]);
      }
      IdlePhase(plan, Views(), host.w, host.calls, 0);
    }

    lemma FitsPath(uf: UserFile, t: Target)
      requires Fits(uf, uf.user, t)
      ensures uf.path == t.path
    {
    }

    /** One user's turn in the add phase. */
    method AddTurn(i: nat) returns (ok: bool)
      requires Ready() && host.w.conn && ops == cfg.ops && i < |order| && Through(0, Behind(i))
      modifies host, Parts(), `forgotten
      ensures Held() && forgotten == {}
      ensures ok ==> Ready() && host.w.conn && host.w.probes == old(host.w.probes) && Through(0, Behind(i + 1))
      ensures !ok ==> InBooks()
      ensures host.calm ==> old(host.calm) && ok
    {
      hide Held, Ready, Wired, Steady, Views, InPhase, OpsOf, Progress, Paced, PacedAt, Fits, Planned, Booked, ArmedBy,
           Apart, H.Host.Valid;
      Standing();
      NextInOrder(i);
      var u := order[i];
      var uf := files[u];
      var adds := OpsOf(ops, u, Adding);
      Healthy(uf);
      if |adds| == 0 {
        NothingToDo(plan, Views(), host.w, host.calls, 0, Behind(i), u, cfg.codec);
        return true;
      }
      UserPhase(plan, Views(), host.w, host.calls, 0, Behind(i), u);
      ok := AddOf(uf, adds, Behind(i));
    }

    method AddOf(uf: UserFile, adds: seq<Op>, ghost done: set<User>) returns (ok: bool)
      requires Ready() && Mine(uf) && host.w.conn && adds == OpsOf(plan.ops, uf.user, Adding) && adds != []
      requires Stands(uf, 0) && Through(0, done) && uf.user !in done
      modifies host, uf, uf.work, `forgotten
      ensures Held() && forgotten == {}
      ensures ok ==> Ready() && host.w.conn && host.w.probes == old(host.w.probes) && Through(0, done + {uf.user})
      ensures !ok ==> InBooks()
      ensures host.calm ==> old(host.calm) && ok
    {
      hide Held, Ready, Steady, Views, Wired, OpsOf, Progress, Paced, SameElsewhere, Fits, Planned, Booked,
           OrdersElsewhere, Stands, FileBooked;
      Healthy(uf);
      label L:
      ghost var vs, w, c0 := Views(), host.w, host.calls;
      ok := PhaseAddFile(uf, adds);
      OthersKept@L(uf);
      HeldIsWired();
      if ok {
        Moved(vs, w, c0, 0, done, uf);
      } else {
        Stopped(vs, w, c0, 0, done, uf);
      }
    }

    /** One file went through the phase, the others stayed where they were. */
    lemma Moved(vs: Views, w: World, c0: seq<Call>, k: int, done: set<User>, uf: UserFile)
      requires Wired() && Mine(uf) && Views() == vs[uf.user := uf.Val()]
      requires Steady(plan, vs, {}, w) && w.guard && Progress(plan, vs, w, k, done) && uf.user !in done
      requires SameElsewhere(uf.path, w, host.w) && Stands(uf, k + 1)
      requires Paced(plan, vs, c0, k, done) && OrdersElsewhere(uf.path, c0, host.calls)
      ensures Through(k, done + {uf.user})
    {
      hide Steady, Wired, InPhase, Progress, Planned, Paced, PacedAt, OrdersElsewhere, Core;
      Wiring(uf);
      PathsElsewhere(plan, w, host.w, uf.user, vs);
      SteadyIsDistinct(plan, vs, w);
      Advances(plan, vs, w, Views(), host.w, k, done, uf.user);
      PacedAdvances(plan, vs, c0, Views(), host.calls, k, done, uf.user);
    }

    /** One file failed, the others stayed where they were. */
    lemma Stopped(vs: Views, w: World, c0: seq<Call>, k: int, done: set<User>, uf: UserFile)
      requires Wired() && Mine(uf) && Views() == vs[uf.user := uf.Val()] && 0 <= k <= 1 && forgotten <= {uf.user}
      requires Steady(plan, vs, {}, w) && Progress(plan, vs, w, k, done)
      requires Paced(plan, vs, c0, k, done) && OrdersElsewhere(uf.path, c0, host.calls) && FileBooked(uf)
      ensures InBooks()
    {
      hide Steady, Wired, Progress, Planned, Paced, Books, Booked, OrdersElsewhere, Core;
      Wiring(uf);
      SteadyIsDistinct(plan, vs, w);
      PacedIsBooked(plan, cfg.keepDirty, vs, w, c0, k, done);
      BookedOne(plan, cfg.keepDirty, vs, c0, Views(), host.calls, uf.user, forgotten);
    }

    /** Step 2: all additions, one copy and swap per affected file. */
    method PhaseAdd() returns (ok: bool)
      requires Ready() && host.w.conn && ops == cfg.ops && Through(0, {})
      modifies host, Parts(), `forgotten
      ensures Held() && forgotten == {}
      ensures ok ==> Ready() && host.w.conn && host.w.probes == old(host.w.probes) && Through(1, {})
      ensures !ok ==> InBooks()
      ensures host.calm ==> old(host.calm) && ok
      ensures ok && (exists op | op in old(ops) :: op.action == Adding) ==> Alive(old(host.w), old(host.Next(Health)))
    {
      hide Held, Ready, Wired, Apart, Views, Progress, Paced, Booked, Steady, Behind, H.Host.Valid;
      Standing();
      EndOfOrder();
      if forall op | op in ops :: op.action != Adding {
        NoneToAdd();
        return true;
      }
      ok := CheckBefore(0);
      if !ok {
        return;
      }
      Standing();
      for i := 0 to |order|
        invariant Ready() && host.w.conn && host.w.probes == old(host.w.probes) && forgotten == {}
        invariant Through(0, Behind(i)) && (host.calm ==> old(host.calm))
      {
        ok := AddTurn(i);
        if !ok {
          return;
        }
      }
      Standing();
      EndOfOrder();
      NextPhase(plan, Views(), host.w, 0, Behind(|order|));
      PacedNext(plan, Views(), host.calls, 0, Behind(|order|));
      return true;
    }

    // ------------------------------------------------------------ removals

    /** A clean failure of a later swap may make the client forget a file, which then holds its add-phase content. */
    ghost predicate Spared(uf: UserFile)
      reads `plan, `forgotten, host, uf`dirty
    {
      forgotten != {} ==>
        && forgotten == {uf.user} && !uf.dirty && !cfg.keepDirty && host.w.conn == host.w.guard
        && uf.user in plan.ts && At(host.w, plan.ts[uf.user].path) == Mid(plan.ts[uf.user])
    }

    /** Removals changed the working copy, the file on disk is still at its add-phase content. */
    ghost predicate Trimmed(uf: UserFile)
      reads `plan, host, uf.work
    {
      && uf.user in plan.ts
      && uf.work.Value() == plan.ts[uf.user].doc2 && plan.ts[uf.user].doc2 != plan.ts[uf.user].doc1
      && At(host.w, plan.ts[uf.user].path) == Mid(plan.ts[uf.user])
    }

    /** Copy and swap of a file whose removals are done in memory. */
    method SwapRemoved(uf: UserFile) returns (ok: bool)
      requires Ready() && Mine(uf) && host.w.conn && Trimmed(uf) && AddsProven(plan, host.w.probes)
      requires Edited(uf, 1) && Concerned(plan, uf.user) && (uf.manifested ==> SnapFree(uf))
      modifies host, uf, `forgotten
      ensures Held() && OrdersElsewhere(uf.path, old(host.calls), host.calls)
      ensures ok ==> Ready() && host.w.conn && host.w.probes == old(host.w.probes) && FileAt(uf, 2)
      ensures ok ==> uf.manifested && SameElsewhere(uf.path, old(host.w), host.w)
      ensures !ok ==> FileBooked(uf)
      ensures Spared(uf)
      ensures host.calm ==> old(host.calm) && ok
    {
      hide Held, Ready, Views, Wired, AddsProven, Edited, FileAt, FileBooked, Concerned, SameOrders, OrdersElsewhere,
           SameElsewhere, Snapped, SnapFree, Fits, Planned, Steady, Mid;
      Healthy(uf);
      FitsPath(uf, plan.ts[uf.user]);
      label L:
      ghost var w0, c0 := host.w, host.calls;
      ok := EnsureCAS(uf);
      StillEdited@L(uf);
      if ok {
        Healthy(uf);
        QuietAt(w0, host.w, uf.path);
        ghost var w1, c1 := host.w, host.calls;
        ok := SwapIn(uf, 1);
        FromThere(uf.path, w0, w1, host.w, c0, c1, host.calls);
      } else {
        NotOrdered(uf, 1);
        ElsewhereToo(uf.path, c0, host.calls);
      }
    }

    twostate lemma StillEdited(uf: UserFile)
      requires old(Edited(uf, 1)) && unchanged(uf.work) && unchanged(`plan) && uf.dirty == old(uf.dirty)
      requires uf.writeUnconfirmed == old(uf.writeUnconfirmed) && SameOrders(old(host.calls), host.calls)
      ensures Edited(uf, 1)
    {
      hide MarksOf, WritesOf, WritesAt, Mid, Fin;
    }

    /** The phase ended before its order. */
    lemma NotOrdered(uf: UserFile, k: int)
      requires Edited(uf, k) && forgotten == {}
      ensures FileBooked(uf)
    {
      hide MarksOf, WritesOf, Mid, Fin, PacedAt, Books, TouchedAt;
      PacedBooks(plan.ts[uf.user], cfg.keepDirty, uf.Val(), host.w, host.calls, k);
    }

    /** Edited in memory, nothing ordered yet. */
    lemma NowEdited(uf: UserFile, k: int, v0: View, w0: World, c0: seq<Call>)
      requires uf.user in plan.ts && 0 <= k <= 1
      requires InPhase(plan.ts[uf.user], v0, w0, k) && PacedAt(plan.ts[uf.user], v0, c0, k)
      requires uf.dirty == v0.dirty && uf.writeUnconfirmed == v0.unconfirmed && host.calls == c0
      requires DocAt(plan.ts[uf.user], k + 1) == uf.work.Value() != DocAt(plan.ts[uf.user], k)
      ensures Edited(uf, k)
    {
      hide MarksOf, WritesOf, WritesAt, Mid, Fin;
    }

    /** One user's removals; a clean failure of the swap leaves the file at its add-phase content. */
    method PhaseRemoveFile(uf: UserFile, rms: seq<Op>) returns (ok: bool, enriched: seq<Op>)
      requires Ready() && Mine(uf) && host.w.conn && rms == OpsOf(plan.ops, uf.user, Removing)
      requires Stands(uf, 1) && SnapshotIsSafe(uf) && AddsProven(plan, host.w.probes)
      modifies host, uf, uf.work, `forgotten
      ensures Held() && OrdersElsewhere(uf.path, old(host.calls), host.calls)
      ensures enriched == Enriched(cfg.codec, plan.ts[uf.user].doc1, rms)
      ensures ok ==> Ready() && host.w.conn && host.w.probes == old(host.w.probes)
      ensures ok ==> Stands(uf, 2) && SameElsewhere(uf.path, old(host.w), host.w)
      ensures !ok ==> FileBooked(uf)
      ensures Spared(uf)
      ensures host.calm ==> old(host.calm) && ok
    {
      hide Held, Ready, Views, Wired, RemoveAll, Matchers, OpsOf, Enriched, AddsProven, InPhase, Planned, Fits, PacedAt,
           Steady, SnapFree, Edited, FileBooked, OrdersElsewhere, SameElsewhere;
      ghost var t, v0, w0, c0 := plan.ts[uf.user], uf.Val(), host.w, host.calls;
      Healthy(uf);
      BeforeRemoving(cfg.codec, plan, uf.user, t, v0, w0);
      FitsPath(uf, t);
      var changed;
      changed, enriched := EditRemoves(uf, rms);
      Healthy(uf);
      if !changed {
        PhaseIdle(t, v0, w0, uf.Val(), host.w, 1);
        PacedIdle(t, v0, c0, uf.Val(), host.calls, 1);
        StandsAsBefore(uf);
        NothingMoved(uf.path, w0, c0);
        return true, enriched;
      }
      NowEdited(uf, 1, v0, w0, c0);
      ok := SwapRemoved(uf);
      if ok {
        StandsArmed(uf, 2);
      }
    }

    lemma StandsAsBefore(uf: UserFile)
      requires FileAt(uf, 2) && ArmedBy(plan, uf.user, uf.Val(), 1) && plan.ts[uf.user].doc2 == plan.ts[uf.user].doc1
      ensures Stands(uf, 2)
    {
      hide InPhase, PacedAt, Adds;
    }

    /** The removals of the users whose turn has passed, with the keys their fingerprints matched. */
    ghost predicate Filled(removals: map<User, seq<Op>>, done: set<User>)
      reads `plan
    {
      && removals.Keys == done
      && forall u | u in done && u in plan.ts ::
           removals[u] == Enriched(cfg.codec, plan.ts[u].doc1, OpsOf(plan.ops, u, Removing))
    }

    lemma FilledNext(removals: map<User, seq<Op>>, done: set<User>, u: User, copies: seq<Op>)
      requires Filled(removals, done) && u in plan.ts
      requires copies == Enriched(cfg.codec, plan.ts[u].doc1, OpsOf(plan.ops, u, Removing))
      ensures Filled(removals[u := copies], done + {u})
    {
      hide Enriched, OpsOf;
    }

    lemma SparedMeans(uf: UserFile)
      requires Spared(uf)
      ensures forgotten <= {uf.user} && (cfg.keepDirty ==> forgotten == {})
    {
    }

    lemma StraysOf(uf: UserFile)
      requires Wired() && Mine(uf) && uf.user in plan.ts
      requires Spared(uf)
      ensures Strays(plan, Views(), forgotten, host.w)
    {
      hide At, Mid, Fits, Planned;
    }

    /** One user's turn in the remove phase. */
    method RemoveTurn(i: nat, removals: map<User, seq<Op>>) returns (ok: bool, more: map<User, seq<Op>>)
      requires Ready() && host.w.conn && ops == cfg.ops && i < |order| && AddsProven(plan, host.w.probes)
      requires NamesApart(plan) && Through(1, Behind(i)) && Filled(removals, Behind(i))
      modifies host, Parts(), `forgotten
      ensures Held() && Strays(plan, Views(), forgotten, host.w) && (cfg.keepDirty ==> forgotten == {})
      ensures ok ==> Ready() && host.w.conn && host.w.probes == old(host.w.probes)
      ensures ok ==> Through(1, Behind(i + 1)) && Filled(more, Behind(i + 1))
      ensures !ok ==> InBooks()
      ensures host.calm ==> old(host.calm) && ok
    {
      hide Held, Ready, Wired, Steady, Views, InPhase, OpsOf, Progress, Paced, PacedAt, Fits, Planned, Booked, ArmedBy,
           Filled, Enriched, AddsProven, Strays, Apart, H.Host.Valid;
      Standing();
      NextInOrder(i);
      var u := order[i];
      var uf := files[u];
      var rms := OpsOf(ops, u, Removing);
      Healthy(uf);
      if |rms| == 0 {
        NothingToDo(plan, Views(), host.w, host.calls, 1, Behind(i), u, cfg.codec);
        NoCopies(cfg.codec, plan.ts[u].doc1, rms);
        FilledNext(removals, Behind(i), u, rms);
        NoStrays(plan, Views(), host.w);
        return true, removals[u := rms];
      }
      UserPhase(plan, Views(), host.w, host.calls, 1, Behind(i), u);
      SnapshotIsFree(i);
      ghost var done := Behind(i);
      var enriched;
      ok, enriched := RemoveOf(uf, rms, done);
      FilledNext(removals, done, u, enriched);
      more := removals[u := enriched];
    }

    /** The users are processed in byte order, so the one a snapshot's name belongs to comes later. */
    lemma SnapshotIsFree(i: nat)
      requires Wired() && i < |order| && NamesApart(plan) && Through(1, Behind(i))
      ensures order[i] in files && SnapshotIsSafe(files[order[i]])
    {
      hide Progress, Planned, BakName, SnapName, Adds, PacedAt, Stamp, NamesApart;
      NextInOrder(i);
      var v := order[i];
      var done := Behind(i);
      ArmedInPhase(plan, Views(), host.calls, 1, done, v);
      forall u | u in files && files[u].manifested && plan.ts[u].orig.Some? && SnapshotIsDue(v)
        ensures plan.ts[u].bak != SnapName(BakName(cfg.txdir, v))
      {
        assert Fits(files[u], u, plan.ts[u]) && Fits(files[v], v, plan.ts[v]);
        ArmedInPhase(plan, Views(), host.calls, 1, done, u);
        if plan.ts[u].bak == SnapName(BakName(cfg.txdir, v)) {
          LaterName(cfg.txdir, u, v);
          NotBehind(i, u);
          SnapshotWouldHit(plan, v, u);
        }
      }
    }

    ghost predicate SnapshotIsDue(v: User)
      reads `files, `plan, set u | u in files :: files[u]
    {
      v in files && v in plan.ts && files[v].manifested && plan.ts[v].doc2 != plan.ts[v].doc1
    }

    lemma NotBehind(i: nat, u: User)
      requires i < |order| && Increasing(order) && Less(order[i], u)
      ensures u !in Behind(i)
    {
      if u in Behind(i) {
        var j :| 0 <= j < i && order[j] == u;
        LessIsStrict(order[j], order[i]);
      }
    }

    method RemoveOf(uf: UserFile, rms: seq<Op>, ghost done: set<User>) returns (ok: bool, enriched: seq<Op>)
      requires Ready() && Mine(uf) && host.w.conn && rms == OpsOf(plan.ops, uf.user, Removing)
      requires Stands(uf, 1) && SnapshotIsSafe(uf) && AddsProven(plan, host.w.probes)
      requires Through(1, done) && uf.user !in done
      modifies host, uf, uf.work, `forgotten
      ensures Held() && Strays(plan, Views(), forgotten, host.w) && (cfg.keepDirty ==> forgotten == {})
      ensures enriched == Enriched(cfg.codec, plan.ts[uf.user].doc1, rms)
      ensures ok ==> Ready() && host.w.conn && host.w.probes == old(host.w.probes) && Through(1, done + {uf.user})
      ensures !ok ==> InBooks()
      ensures host.calm ==> old(host.calm) && ok
    {
      hide Held, Ready, Steady, Views, Wired, OpsOf, Progress, Paced, SameElsewhere, Fits, Planned, Booked,
           OrdersElsewhere, Stands, FileBooked, Enriched, AddsProven, Strays, Spared, SnapshotIsSafe;
      Healthy(uf);
      label L:
      ghost var vs, w, c0 := Views(), host.w, host.calls;
      ok, enriched := PhaseRemoveFile(uf, rms);
      HeldIsWired();
      SparedMeans(uf);
      StraysOf(uf);
      OthersKept@L(uf);
      if ok {
        Healthy(uf);
        Moved(vs, w, c0, 1, done, uf);
      } else {
        Stopped(vs, w, c0, 1, done, uf);
      }
    }

    /** Stores matched keys back so that the next step can probe for them. */
    method EnrichRemovalKeys(removals: map<User, seq<Op>>)
      modifies `ops
      ensures |ops| == |old(ops)|
      ensures forall i | 0 <= i < |ops| :: ops[i] == WrittenBack(old(ops[i]), removals)
    {
      for i := 0 to |ops|
        invariant |ops| == |old(ops)|
        invariant forall j | 0 <= j < i :: ops[j] == WrittenBack(old(ops[j]), removals)
        invariant forall j | i <= j < |ops| :: ops[j] == old(ops[j])
      {
        var op := ops[i];
        if op.action == Removing && op.key.None? && op.user in removals {
          var copies := removals[op.user];
          for k := 0 to |copies|
            invariant op == WriteBack(ops[i], copies[..k]) == ops[i].(key := op.key)
          {
            assert copies[..k + 1][..k] == copies[..k];
            if copies[k].spec == ops[i].spec && copies[k].key.Some? {
              op := op.(key := copies[k].key);
            }
          }
          assert copies[..|copies|] == copies;
        }
        ops := ops[i := op];
      }
    }

    /** Every user's turn. */
    method RemoveEach() returns (ok: bool, removals: map<User, seq<Op>>)
      requires Ready() && host.w.conn && ops == cfg.ops && AddsProven(plan, host.w.probes)
      requires NamesApart(plan) && Through(1, {})
      modifies host, Parts(), `forgotten
      ensures Held() && Strays(plan, Views(), forgotten, host.w) && (cfg.keepDirty ==> forgotten == {})
      ensures ok ==> Ready() && Through(2, {}) && AddsProven(plan, host.w.probes)
      ensures ok ==> removals == Copies(cfg.codec, plan) && host.w.conn
      ensures !ok ==> InBooks()
      ensures host.calm ==> old(host.calm) && ok
    {
      hide Steady, Core, Sane, Views, Wired, TraceSane, InPhase, OpsOf, Progress, Paced, DocAt, AddsProven, Filled,
           Behind, Strays, Booked, H.Logged;
      EndOfOrder();
      FilledNone();
      SteadyIsCore(plan, Views(), forgotten, host.w);
      removals := map[];
      for i := 0 to |order|
        invariant Ready() && host.w.conn && AddsProven(plan, host.w.probes) && forgotten == {}
        invariant Through(1, Behind(i)) && Filled(removals, Behind(i)) && (host.calm ==> old(host.calm))
      {
        ok, removals := RemoveTurn(i, removals);
        if !ok {
          return;
        }
        SteadyIsCore(plan, Views(), forgotten, host.w);
      }
      EndOfOrder();
      NextPhase(plan, Views(), host.w, 1, Behind(|order|));
      PacedNext(plan, Views(), host.calls, 1, Behind(|order|));
      FilledAll(removals);
      NoStrays(plan, Views(), host.w);
      return true, removals;
    }

    /** Every user's turn, and then the keys they found. */
    method RemoveAndEnrich() returns (ok: bool)
      requires Ready() && host.w.conn && ops == cfg.ops && AddsProven(plan, host.w.probes)
      requires NamesApart(plan) && Through(1, {})
      modifies host, Parts(), `forgotten, `ops
      ensures Held() && Strays(plan, Views(), forgotten, host.w) && (cfg.keepDirty ==> forgotten == {})
      ensures ok ==> Ready() && Through(2, {}) && ops == AfterRemoval(cfg.codec, plan)
      ensures ok ==> AddsProven(plan, host.w.probes) && host.w.conn
      ensures !ok ==> InBooks()
      ensures host.calm ==> old(host.calm) && ok
    {
      hide Held, Ready, Wired, Apart, Views, Progress, Paced, AddsProven, AfterRemoval, Copies, Strays, Booked, Steady,
           WrittenBack, H.Host.Valid;
      Standing();
      var removals;
      ok, removals := RemoveEach();
      if ok {
        Standing();
        EnrichRemovalKeys(removals);
        AllWrittenBack(cfg.codec, plan, ops);
      }
    }

    /** Step 4: all removals, one copy and swap per affected file. */
    method PhaseRemove() returns (ok: bool)
      requires Ready() && ops == cfg.ops && NamesApart(plan) && Through(1, {})
      requires host.w.guard ==> AddsProven(plan, host.w.probes)
      modifies host, Parts(), `forgotten, `ops
      ensures Held() && Strays(plan, Views(), forgotten, host.w) && (cfg.keepDirty ==> forgotten == {})
      ensures ok ==> Ready() && Through(2, {}) && ops == AfterRemoval(cfg.codec, plan)
      ensures ok && host.w.guard ==> AddsProven(plan, host.w.probes)
      ensures !ok ==> InBooks()
      ensures host.calm ==> old(host.calm) && (old(host.w.conn) ==> ok && host.w.conn)
      ensures ok && (exists op | op in old(ops) :: op.action == Removing) ==> Alive(old(host.w), old(host.Next(Health)))
    {
      hide Held, Ready, Wired, Apart, Views, Progress, Paced, AddsProven, AfterRemoval, Strays, Booked, Steady,
           H.Host.Valid;
      Standing();
      if forall op | op in ops :: op.action != Removing {
        NoneToRemove();
        NoStrays(plan, Views(), host.w);
        return true;
      }
      ok := CheckBefore(1);
      if ok {
        Standing();
        ok := RemoveAndEnrich();
      }
    }

    lemma FilledNone()
      ensures Filled(map[], {})
    {
    }

    lemma FilledAll(removals: map<User, seq<Op>>)
      requires Filled(removals, plan.ts.Keys)
      ensures removals == Copies(cfg.codec, plan)
    {
      hide Enriched, OpsOf;
    }

    lemma NoneToRemove()
      requires Wired() && ops == cfg.ops && (forall op | op in ops :: op.action != Removing)
      ensures Through(1, {}) ==> Through(2, {})
      ensures ops == AfterRemoval(cfg.codec, plan)
    {
      hide Fits, Planned, Progress, Paced, Views, OpsOf, AfterRemoval;
      forall u | u in plan.ts
        ensures plan.ts[u].doc2 == plan.ts[u].doc1
      {
        assert Planned(cfg.codec, plan.ops, u, plan.ts[u]);
        NoRemovals(cfg.codec, plan.ops, u, plan.ts[u]);
      }
      NothingWrittenBack(cfg.codec, plan);
      IdlePhase(plan, Views(), host.w, host.calls, 1);
    }

    // ------------------------------------------------ probing on its own

    lemma Opens()
      requires Ready()
      ensures Good(host, plan, Views()) && forgotten == {} && Apart()
      ensures plan.ops == cfg.ops && plan.signers == cfg.signers
    {
      hide Sane, Steady, Core, Views;
      SteadyIsCore(plan, Views(), forgotten, host.w);
    }

    /** Probing moved the environment and nothing of the client's. */
    twostate lemma Returns()
      requires old(Ready()) && Good(host, plan, old(Views())) && forgotten == {}
      requires unchanged(`files) && unchanged(`order) && unchanged(`plan) && unchanged(old(Parts()))
      ensures Ready() && Views() == old(Views())
    {
      hide Sane, Steady, Core;
      Undisturbed();
      SteadyIsCore(plan, Views(), {}, host.w);
      assert Wired();
    }

    /** What the orders and replies say of a phase that is over. */
    lemma ThroughIsBooked(k: int)
      requires Through(k, {}) && 0 <= k <= 2 && forgotten == {}
      ensures InBooks()
    {
      hide Progress, Paced, Views, Booked, MarksOf;
      PacedIsBooked(plan, cfg.keepDirty, Views(), host.w, host.calls, k, {});
    }

    /** Step 3: every added key is accepted. */
    method PhaseVerifyAdded() returns (ok: bool)
      requires Ready() && Through(1, {}) && ops == cfg.ops
      requires forall op | op in ops :: op.action == Adding ==> op.key.Some?
      modifies host
      ensures Held() && forgotten == {} && InBooks()
      ensures ok ==> Ready() && Outlives(old(host.w), host.w) && Through(1, {})
      ensures ok && host.w.guard ==> AddsProven(plan, host.w.probes)
      ensures host.calm ==> old(host.calm)
      ensures host.calm && old(host.w.conn) ==> host.w.conn
      ensures host.calm && old(host.w.conn) && Answers(cfg.codec, plan, host.w.probes) && AddsVisible(cfg.codec, plan)
              ==> ok
      ensures ok && (exists op | op in old(ops) :: op.action == Adding) ==> Alive(old(host.w), old(host.Next(Health)))
    {
      hide Steady, Core, Sane, Views, Wired, TraceSane, Progress, AddsProven, Good, Answers, AddsVisible, AddProven,
           Paced, Booked, SameOrders, MarksOf;
      Opens();
      SteadyIsCore(plan, Views(), forgotten, host.w);
      ProvenNone(plan, host.w.probes);
      if forall op | op in ops :: op.action != Adding {
        ThroughIsBooked(1);
        return true;
      }
      ok := CheckBefore(1);
      if !ok {
        return;
      }
      Opens();
      label L:
      ghost var vs, calls := Views(), host.calls;
      ok := VerifyAdditions(host, cfg.codec, plan, Views(), ops, cfg.signers, cfg.attempts);
      Returns@L();
      PacedSame(plan, vs, calls, host.calls, 1, {});
      ThroughIsBooked(1);
      SteadyIsCore(plan, Views(), forgotten, host.w);
    }

    /** The working copies as values. */
    function Docs(): (docs: map<User, Doc>)
      reads `files, set u | u in files :: files[u].work
      ensures docs.Keys == files.Keys
    {
      map u | u in files :: Doc(files[u].work.lines, files[u].work.noFinalNewline)
    }

    function Dirty(): set<User>
      reads `files, set u | u in files :: files[u]
    {
      set u | u in files && files[u].dirty
    }

    lemma DocsAreCurrent()
      ensures Current(Docs(), Views())
      ensures forall u | u in files :: u in Dirty() <==> Views()[u].dirty
    {
    }

    /** Step 5: every removed key is refused. */
    method PhaseVerifyRemoved() returns (ok: bool)
      requires Ready() && Through(2, {})
      requires forall op | op in ops :: op.user in files
      modifies host
      ensures Held() && forgotten == {} && InBooks()
      ensures ok ==> Ready() && Outlives(old(host.w), host.w) && Through(2, {})
      ensures ok && host.w.guard ==> RemovalsProven(cfg.codec, plan, ops, host.w.probes)
      ensures host.calm ==> old(host.calm)
      ensures host.calm && old(host.w.conn) ==> host.w.conn
      ensures host.calm && old(host.w.conn) && Answers(cfg.codec, plan, host.w.probes)
              && FinalVisible(cfg.codec, plan) && AllGone(cfg.codec, plan, ops)
              ==> ok
      ensures ok && (exists op | op in old(ops) :: op.action == Removing) ==> Alive(old(host.w), old(host.Next(Health)))
    {
      hide Held, Ready, Wired, Apart, Views, Progress, RemovalProven, Good, Docs, Current, Answers, FinalVisible,
           AllGone, Paced, Booked, SameOrders, Steady, H.Host.Valid;
      Standing();
      if forall op | op in ops :: op.action != Removing {
        ThroughIsBooked(2);
        return true;
      }
      ok := CheckBefore(2);
      if !ok {
        return;
      }
      Opens();
      Standing();
      DocsAreCurrent();
      label L:
      ghost var vs, calls := Views(), host.calls;
      ok := VerifyRemovals(host, plan, Views(), cfg.codec, ops, Docs(), cfg.attempts);
      Returns@L();
      Standing();
      PacedSame(plan, vs, calls, host.calls, 2, {});
      ThroughIsBooked(2);
    }

    // ------------------------------------------------------- commit and abort

    /** A state of a healthy run, seen from an abort. */
    lemma HeldFalls()
      requires Held() && Strays(plan, Views(), forgotten, host.w) && InBooks() && !markerLost
      ensures Falling(host, plan, Views(), forgotten, markerLost) && Noted() && BackedUp()
      ensures files.Keys == plan.ts.Keys
    {
      hide Core, Sane, Sound, Strays, Views, Planned, Ordered, Owned, Fits, Apart, Booked, MarksOf, MarkLast, AllFin,
           BackedUp;
      TraceIsSound(host, plan, forgotten, markerLost);
      CoreHasNoMarker(plan, Views(), forgotten, host.w);
      StraysAreFew(plan, Views(), forgotten, host.w);
      NoMarkAtAll(host.calls);
      HeldIsBackedUp();
    }

    lemma ContinuesInOrder(m: H.Moment)
      requires Continues(host, m)
      ensures SameOrders(m.calls, host.calls)
    {
    }

    /** The gate: somebody can still get in to every changed file. */
    method ProveAccess() returns (ok: bool)
      requires Ready() && Through(2, {})
      modifies host
      ensures Ready() && Through(2, {}) && Continues(host, old(host.Now()))
      ensures ok && host.w.guard ==> AccessProven(plan, host.w.probes)
      ensures host.w.guard && Answers(cfg.codec, plan, host.w.probes) && FinalVisible(cfg.codec, plan) && Peopled(plan)
              ==> ok
    {
      hide Steady, Core, Sane, Views, Wired, TraceSane, Progress, Good, Docs, Dirty, Current, AccessProven, Answers,
           FinalVisible, Peopled, Continues, Paced;
      Opens();
      DocsAreCurrent();
      OriginalsAreTargets();
      label L:
      ghost var vs, m := Views(), host.Now();
      ok := Probing.ProveAccess(host, cfg.codec, plan, Views(), order, Dirty(), Docs(), cfg.attempts);
      Returns@L();
      ContinuesInOrder(m);
      PacedSame(plan, vs, m.calls, host.calls, 2, {});
    }

    /** Step 6: access is proven, the trap disarmed, the guard released, the directory removed. */
    method Commit() returns (ok: bool)
      requires Ready() && Through(2, {}) && !markerLost
      requires host.w.guard ==> AddsProven(plan, host.w.probes)
      modifies host, `markerLost, `turned
      ensures forgotten == {} && BackedUp()
      ensures ok ==> Over(host, plan) && !markerLost && AccessProven(plan, host.w.probes) && Completed(plan, host.calls)
      ensures ok ==> FinalSince(host, plan, turned) && CopiedExactly(plan, host.w) && (Smoothly() ==> old(host.calm))
      ensures ok ==> old(host.w.guard) && old(host.w.probes) <= host.w.probes
      ensures !ok ==> Falling(host, plan, Views(), {}, markerLost) && Noted()
      ensures host.calm ==> old(host.calm)
      ensures host.calm && old(host.w.conn) && Answers(cfg.codec, plan, host.w.probes)
              && FinalVisible(cfg.codec, plan) && Peopled(plan)
              ==> ok
      ensures ok ==> Alive(old(host.w), old(host.Next(Health)))
    {
      hide Steady, Core, Sane, Sound, Views, Wired, TraceSane, Progress, AddsProven, AccessProven, Falling, Over,
           Answers, FinalVisible, Peopled, Strays, BackedUp, Paced, Booked, MarksOf, Noted, Completed, SameOrders,
           FinalSince, H.AllSmooth, CopiedExactly;
      ok := CheckBefore(2);
      if !ok {
        HeldFalls();
        return;
      }
      ghost var w := host.w;
      SteadyIsCore(plan, Views(), forgotten, host.w);
      ok := ProveAccess();
      SteadyIsCore(plan, Views(), forgotten, host.w);
      if !ok {
        NoStrays(plan, Views(), host.w);
        ThroughIsBooked(2);
        HeldFalls();
        return;
      }
      if host.w.guard {
        ProofsLast(plan, w.probes, host.w.probes);
      }
      HeldIsBackedUp();
      AllCopied();
      label L:
      ghost var v := host.w;
      ok := Finish();
      StillCopied(plan, v, host.w);
      StillBackedUp@L();
    }

    /** The marker, and behind it the cleanup. */
    method Finish() returns (ok: bool)
      requires Ready() && Through(2, {}) && !markerLost
      requires host.w.guard ==> AddsProven(plan, host.w.probes)
      modifies host, `markerLost, `turned
      ensures forgotten == {} && SameRecords(old(host.w), host.w)
      ensures ok ==> Over(host, plan) && !markerLost && old(host.w.guard) && Completed(plan, host.calls)
      ensures !ok ==> Falling(host, plan, Views(), {}, markerLost) && Noted()
      ensures ok ==> FinalSince(host, plan, turned) && (Smoothly() ==> old(host.calm))
      ensures host.calm ==> old(host.calm) && (old(host.w.conn) ==> ok)
    {
      hide Steady, Core, Sane, Sound, Views, Wired, TraceSane, Progress, Good, AddsProven, AllFin, Falling, Over, Paced,
           Booked, MarksOf, MarkLast, MarkedNow, Completed, SameOrders, AllMarked, FinalSince, H.AllSmooth;
      Opens();
      ThroughMarks(plan, Views(), host.w);
      if host.w.guard {
        ProgressShowsFin(plan, Views(), host.w);
      }
      ThroughIsBooked(2);
      label L:
      ghost var lost, vs, calls := false, Views(), host.calls;
      ok, lost := MarkCommitted(host, plan, Views());
      markerLost := lost;
      if ok {
        MarkCompletes(plan, vs, calls, host.calls);
        ghost var more, calm := host.calls, host.calm;
        turned := |more|;
        OverIsCalm();
        CleanUp(host, plan, turned);
        assert host.calls[..turned] == more;
        StillCompleted(plan, more, host.calls);
      } else {
        Undisturbed@L();
        MarkBooked(plan, cfg.keepDirty, vs, calls, host.calls);
      }
    }

    lemma OverIsCalm()
      requires Over(host, plan)
      ensures host.calm == H.AllSmooth(host.calls)
    {
      hide Sound, Settled, H.AllSmooth;
    }

    /** With every file final the operator's disk holds what the operations concern. */
    lemma AllCopied()
      requires Ready() && Through(2, {})
      ensures CopiedExactly(plan, host.w)
    {
      hide Progress, Sane, Core, Steady, Views, Wired, Paced, CopiedExactly;
      SteadyIsCore(plan, Views(), forgotten, host.w);
      ArmedIsCopied(plan, Views(), forgotten, host.w, host.calls);
    }

    function Originals(): (os: map<User, Original>)
      reads `files
    {
      map u | u in files ::
        Original(files[u].path,
                 if files[u].origExists then Some(files[u].orig) else None,
                 Stamp(files[u].target, host.site.guard))
    }

    lemma OriginalsAreTargets()
      requires Wired()
      ensures Originals().Keys == plan.ts.Keys == Views().Keys
      ensures forall u | u in plan.ts :: Originals()[u] == Original(plan.ts[u].path, plan.ts[u].orig, plan.ts[u].stamp)
      ensures forall u :: u in order <==> u in Views()
    {
      hide Stamp, BakName, Planned;
    }

    /** Reverts every touched file and verifies it; failing that, leaves the rest to the trap. */
    method Abort() returns (outcome: Outcome)
      requires Wired() && Apart() && Falling(host, plan, Views(), forgotten, markerLost) && Noted()
      modifies host, `turned
      ensures Closed(host, plan, forgotten, markerLost, outcome)
      ensures outcome == AbortedReverted || outcome == RevertUnverified
      ensures SameRecords(old(host.w), host.w)
      ensures TurnedBack(plan, cfg.keepDirty, Views(), forgotten, markerLost, outcome, turned, host.trace, host.calls)
      ensures turned <= |host.calls| && Smoothly() == old(host.calm)
    {
      hide Views, Wired, Falling, Closed, OnRecord, BackedOut, H.AllSmooth;
      label L:
      ghost var vs, w0, calls0, trace0 := Views(), host.w, host.calls, host.trace;
      turned := |host.calls|;
      Undisturbed@L();
      FallingIsValid(vs);
      outcome := PutBack();
      Undisturbed@L();
      ClosedIsValid(outcome);
      Recorded(w0, calls0, trace0);
    }

    /** The reverts and what follows them. */
    method PutBack() returns (outcome: Outcome)
      requires Wired() && Falling(host, plan, Views(), forgotten, markerLost)
      modifies host
      ensures Closed(host, plan, forgotten, markerLost, outcome)
      ensures outcome == AbortedReverted || outcome == RevertUnverified
      ensures SameRecords(old(host.w), host.w) && WentOn(old(host.calls), old(host.trace), host)
      ensures old(|host.calls|) < |host.calls|
      ensures BackedOut(plan, old(Views()), outcome, old(|host.calls|), old(host.w.conn), host.w.commit, host.calls)
    {
      hide Views, Wired, Falling, Originals, Dirty, Closed, Reverted, RevertsFrom, DoneFrom, SmoothFrom, AllAttempted,
           BackedOut;
      ghost var vs, n, conn := Views(), |host.calls|, host.w.conn;
      OriginalsAreTargets();
      DocsAreCurrent();
      var failed := RevertAll(host, plan, vs, forgotten, markerLost, order, Dirty(), Originals());
      if failed {
        FinishUnverified(host, plan, vs, forgotten, markerLost, n, conn);
        return RevertUnverified;
      }
      FinishReverted(host, plan, vs, forgotten, markerLost, n, conn);
      return AbortedReverted;
    }

    lemma FallingIsValid(vs: Views)
      requires Falling(host, plan, vs, forgotten, markerLost)
      ensures host.Valid() && Together(host.calls) && |host.trace| == |host.calls| + 1
      ensures host.trace[|host.calls|] == host.w && host.calm == H.AllSmooth(host.calls)
    {
      hide Fallen, Sound, H.AllSmooth;
    }

    lemma ClosedIsValid(o: Outcome)
      requires Closed(host, plan, forgotten, markerLost, o)
      ensures |host.trace| == |host.calls| + 1 && host.trace[|host.calls|] == host.w
    {
      hide Sound, Delivered, H.AllSmooth;
    }

    /** The record of an abort goes on from the record it found. */
    lemma Recorded(w0: World, calls0: seq<Call>, trace0: seq<World>)
      requires turned == |calls0| && |trace0| == turned + 1 && trace0[turned] == w0
      requires calls0 <= host.calls && trace0 <= host.trace
      ensures host.calls[..turned] == calls0 && host.trace[turned] == w0
    {
    }

    // -------------------------------------------------------------- the run

    /** Steps 2 and 3. */
    method AddAndVerify() returns (ok: bool)
      requires Ready() && host.w.conn && ops == cfg.ops && Through(0, {})
      requires forall op | op in ops :: op.action == Adding ==> op.key.Some?
      modifies host, Parts(), `forgotten
      ensures Held() && forgotten == {}
      ensures ok ==> Ready() && Through(1, {})
      ensures ok && host.w.guard ==> AddsProven(plan, host.w.probes)
      ensures !ok ==> InBooks()
      ensures host.calm ==> old(host.calm) && (ok ==> host.w.conn)
      ensures host.calm && Answers(cfg.codec, plan, host.w.probes) && AddsVisible(cfg.codec, plan) ==> ok
    {
      hide Held, Ready, Views, Progress, AddsProven, Outlives, Answers, AddsVisible, Paced, Booked;
      ok := PhaseAdd();
      if ok {
        ReadyForgetsNothing();
        ok := PhaseVerifyAdded();
      }
    }

    lemma ReadyForgetsNothing()
      requires Ready()
      ensures Held() && forgotten == {}
    {
      hide Core, Sane, Views, Wired;
    }

    lemma EnrichedUsers()
      requires Wired() && ops == AfterRemoval(cfg.codec, plan) && forall op | op in cfg.ops :: op.user in files
      ensures forall op | op in ops :: op.user in files
    {
      hide Fits, Planned, Copies, Enriched;
      forall op | op in ops
        ensures op.user in files
      {
        var i :| 0 <= i < |ops| && ops[i] == op;
        SameUser(plan.ops[i], Copies(cfg.codec, plan));
        assert plan.ops[i] in cfg.ops;
      }
    }

    /** Steps 4 and 5. */
    method RemoveAndVerify() returns (ok: bool)
      requires Ready() && ops == cfg.ops && NamesApart(plan) && Through(1, {})
      requires host.w.guard ==> AddsProven(plan, host.w.probes)
      requires forall op | op in ops :: op.user in files
      modifies host, Parts(), `forgotten, `ops
      ensures Held() && Strays(plan, Views(), forgotten, host.w) && (cfg.keepDirty ==> forgotten == {})
      ensures ok ==> Ready() && Through(2, {}) && ops == AfterRemoval(cfg.codec, plan)
      ensures ok && host.w.guard
              ==> AddsProven(plan, host.w.probes) && RemovalsProven(cfg.codec, plan, ops, host.w.probes)
      ensures !ok ==> InBooks()
      ensures host.calm ==> old(host.calm)
      ensures host.calm && old(host.w.conn) && ok ==> host.w.conn
      ensures host.calm && old(host.w.conn) && Answers(cfg.codec, plan, host.w.probes)
              && FinalVisible(cfg.codec, plan) && AllGone(cfg.codec, plan, AfterRemoval(cfg.codec, plan))
              ==> ok
    {
      hide Held, Views, Progress, AddsProven, RemovalsProven, Strays, AfterRemoval, Steady, Wired, Answers,
           FinalVisible, AllGone, Paced, Booked;
      ok := PhaseRemove();
      if !ok {
        return;
      }
      ReadyForgetsNothing();
      ReadyIsWired();
      EnrichedUsers();
      ghost var w := host.w;
      ok := PhaseVerifyRemoved();
      NoStrays(plan, Views(), host.w);
      if ok && host.w.guard {
        ProofsLast(plan, w.probes, host.w.probes);
      }
    }

    lemma ReadyIsWired()
      requires Ready()
      ensures Wired() && Apart() && files.Keys == plan.ts.Keys
    {
      hide Core, Sane, Views, Steady, Planned, Ordered, Owned, Fits;
    }

    /** A swap was issued for exactly the files whose document the operations change. */
    ghost predicate SwappedExactly()
      reads `files, `plan, set u | u in files :: files[u]
    {
      forall u | u in files :: u in plan.ts && (files[u].dirty <==> TouchedAt(plan.ts[u], 2))
    }

    /** Every file that was ever at risk has its original on the operator's disk, and no unconcerned file is there. */
    ghost predicate BackedUp()
      reads `files, `plan, host, set u | u in files :: files[u]
    {
      && (forall u | u in files && files[u].manifested :: u in plan.ts && LocalOk(plan.ts[u], u, host.w))
      && BackupsConcern(plan, host.w)
    }

    twostate lemma StillBackedUp()
      requires old(BackedUp()) && SameRecords(old(host.w), host.w)
      requires unchanged(`files) && unchanged(`plan) && unchanged(old(Parts()))
      ensures BackedUp()
    {
    }

    lemma HeldIsBackedUp()
      requires Held()
      ensures BackedUp()
    {
      hide Sane, AddsProven, LogGood, Distinct, BeforeRemovals, RecordOf, Staged, NoLinks, Fits, Planned;
      forall u | u in files && files[u].manifested
        ensures u in plan.ts && LocalOk(plan.ts[u], u, host.w)
      {
        assert Views()[u].manifested && CoreAt(plan.ts[u], u, Views()[u], u in forgotten, host.w);
      }
    }

    lemma ThroughIsSwapped()
      requires Through(2, {})
      ensures SwappedExactly()
    {
      hide TouchedAt, InPhase;
      forall u | u in files
        ensures u in plan.ts && files[u].dirty == TouchedAt(plan.ts[u], 2)
      {
        FinalDoc(plan, Views(), host.w, u);
      }
    }

    /** What a commit has shown. */
    ghost predicate Earned()
      reads `files, `plan, `forgotten, `markerLost, host, set u | u in files :: files[u]
    {
      && forgotten == {} && !markerLost && SwappedExactly() && Peopled(plan)
      && AccessProven(plan, host.w.probes)
      && RemovalsProven(cfg.codec, plan, AfterRemoval(cfg.codec, plan), host.w.probes)
    }

    /** What every run leaves on record that got as far as writing. */
    ghost predicate Written(outcome: Outcome)
      reads `files, `plan, `forgotten, `markerLost, `turned, host, Parts(), set u | u in files :: files[u]
    {
      && Closed(host, plan, forgotten, markerLost, outcome) && BackedUp()
      && files.Keys == plan.ts.Keys
      && (outcome == Committed ==>
            Earned() && Completed(plan, host.calls) && FinalSince(host, plan, turned) && CopiedExactly(plan, host.w))
      && (outcome != Committed ==>
            TurnedBack(plan, cfg.keepDirty, Views(), forgotten, markerLost, outcome, turned, host.trace, host.calls))
    }

    /** Steps 2 to 6; whatever fails, the abort follows. */
    method Proceed() returns (outcome: Outcome)
      requires Ready() && host.w.conn && ops == cfg.ops && NamesApart(plan) && Through(0, {}) && !markerLost
      requires forall op | op in ops :: op.user in files && (op.action == Adding ==> op.key.Some?)
      modifies host, Parts(), `forgotten, `ops, `markerLost, `turned
      ensures Written(outcome)
      ensures outcome == Committed || outcome == AbortedReverted || outcome == RevertUnverified
      ensures turned <= |host.calls| && (Smoothly() ==> old(host.calm))
      ensures Smoothly() && Answers(cfg.codec, plan, host.w.probes) && Expected(cfg.codec, plan) && Peopled(plan)
              ==> outcome == Committed
    {
      hide Held, Ready, Views, Progress, AddsProven, RemovalsProven, Strays, AfterRemoval, Written, Answers,
           FinalVisible, AllGone, AddsVisible, Peopled, Paced, Booked, H.AllSmooth, InBooks, Smoothly;
      var ok := AddAndVerify();
      NoStrays(plan, Views(), host.w);
      if ok {
        ok := RemoveAndVerify();
      }
      if !ok {
        outcome := GiveUp();
        return;
      }
      outcome := CommitOrAbort();
    }

    /** Step 6, or the abort. */
    method CommitOrAbort() returns (outcome: Outcome)
      requires Ready() && Through(2, {}) && !markerLost && ops == AfterRemoval(cfg.codec, plan)
      requires host.w.guard ==> AddsProven(plan, host.w.probes) && RemovalsProven(cfg.codec, plan, ops, host.w.probes)
      modifies host, `markerLost, `turned
      ensures Written(outcome)
      ensures outcome == Committed || outcome == AbortedReverted || outcome == RevertUnverified
      ensures turned <= |host.calls| && (Smoothly() ==> old(host.calm))
      ensures Smoothly() && old(host.w.conn) && Answers(cfg.codec, plan, host.w.probes)
              && FinalVisible(cfg.codec, plan) && Peopled(plan)
              ==> outcome == Committed
    {
      hide Held, Ready, Views, Progress, AddsProven, RemovalsProven, AccessProven, AfterRemoval, Wired, Falling, Closed,
           Over, Answers, FinalVisible, Peopled, SwappedExactly, BackedUp, Paced, Noted, Completed, TurnedBack,
           SameOrders, H.AllSmooth, FinalSince, CopiedExactly;
      ReadyForgetsNothing();
      ReadyIsWired();
      ThroughIsSwapped();
      ghost var qs := host.w.probes;
      var ok := Commit();
      label L:
      if !ok {
        outcome := Abort();
        StillBackedUp@L();
        return;
      }
      RemovalsLast(cfg.codec, plan, ops, qs, host.w.probes);
      AccessIsPeopled(plan, host.w.probes);
      ghost var calls := host.calls;
      ghost var w := host.w;
      FinalBounds(host, plan, turned);
      CloseCommitted(host, plan, turned);
      StillCompleted(plan, calls, host.calls);
      StillCopied(plan, w, host.w);
      StillBackedUp@L();
      assert host.calls[..turned] == calls[..turned];
      return Committed;
    }

    /** A step failed before there was any marker. */
    method GiveUp() returns (outcome: Outcome)
      requires Held() && Strays(plan, Views(), forgotten, host.w) && InBooks() && !markerLost
      modifies host, `turned
      ensures Written(outcome)
      ensures outcome == AbortedReverted || outcome == RevertUnverified
      ensures SameRecords(old(host.w), host.w)
      ensures turned <= |host.calls| && Smoothly() == old(host.calm)
    {
      hide Core, Sane, Views, Strays, Wired, Falling, Closed, BackedUp, Noted, InBooks, TurnedBack, H.AllSmooth,
           Smoothly;
      HeldFalls();
      label L:
      outcome := Abort();
      StillBackedUp@L();
    }

    ghost predicate Unstarted()
      reads this
    {
      files == map[] && order == [] && ops == cfg.ops && forgotten == {} && !markerLost
    }

    /** A whole transaction. */
    method Run() returns (outcome: Outcome)
      requires Unstarted() && host.Valid() && host.trace == [host.w] && Fresh(host.w, host.w.disk, host.w.links)
      requires Separate(cfg, host.site) && NamesApart(PlanFor(cfg, host.site, host.w))
      modifies this, host
      ensures !Acceptable(cfg.codec, cfg.ops) || !AllLoadable(cfg, host.site, old(host.w)) ==> outcome == NothingChanged
      ensures host.Valid() && turned <= |host.calls| && (outcome == DryRun ==> cfg.dryRun)
      ensures cfg.dryRun ==> outcome == NothingChanged || outcome == DryRun
      ensures outcome == NothingChanged || outcome == DryRun
              ==> NoOrders(host.calls) && forall s | s in host.trace :: Fresh(s, old(host.w).disk, old(host.w).links)
      ensures outcome != NothingChanged && outcome != DryRun
              ==> plan == PlanFor(cfg, host.site, old(host.w)) && Written(outcome) && AllPlanned(cfg.codec, plan)
      ensures outcome == AbortedReverted || outcome == RevertUnverified ==> Fell(host, TheFall(outcome))
      ensures outcome == Committed ==> forall s | s in host.trace :: Atomic(plan, s)
      ensures Smoothly() && old(host.w.conn)
              && Acceptable(cfg.codec, cfg.ops) && AllLoadable(cfg, host.site, old(host.w))
              ==> outcome != NothingChanged
      ensures Smoothly() && Answers(cfg.codec, plan, host.w.probes) && Expected(cfg.codec, plan)
              && outcome != NothingChanged && outcome != DryRun
              ==> (outcome == Committed <==> Peopled(plan))
    {
      hide Separate, Acceptable, PlanFor, Written, Ready, Progress, Views, AllGathered, AllLoadable, Answers, Expected,
           Peopled, Paced, NoOrders, H.AllSmooth, WritesOf, MarksOf;
      var ok := Validate(cfg.codec, cfg.ops);
      if !ok {
        turned := |host.calls|;
        NothingOrdered();
        return NothingChanged;
      }
      ghost var w0 := host.w;
      ok := Prepare();
      if !ok {
        turned := |host.calls|;
        WholeRecord(host.calls);
        return NothingChanged;
      }
      if cfg.dryRun {
        Release(host, w0.disk, w0.links);
        turned := |host.calls|;
        return DryRun;
      }
      LoadedIsReady();
      AcceptedOps();
      outcome := Proceed();
      CommittedIsPeopled(outcome);
      PlanIsSafe(cfg, host.site, w0);
      if outcome == Committed {
        CommittedIsAtomic();
      } else {
        IsFall(outcome);
      }
    }

    lemma CommittedIsAtomic()
      requires Written(Committed)
      ensures forall s | s in host.trace :: Atomic(plan, s)
    {
      hide Atomic, Sound, Delivered, BackedUp;
      CommitIsAtomic(host, plan);
    }

    ghost function TheFall(outcome: Outcome): Fall
      reads `files, `plan, `forgotten, `markerLost, `turned, Parts()
    {
      Fall(plan, cfg.keepDirty, Views(), forgotten, markerLost, outcome, turned)
    }

    lemma IsFall(outcome: Outcome)
      requires Written(outcome) && (outcome == AbortedReverted || outcome == RevertUnverified)
      requires Distinct(plan.ts) && !host.start.commit && forall u | u in plan.ts :: NoLinks(plan.ts[u], host.start)
      ensures Fell(host, TheFall(outcome))
    {
      hide Closed, TurnedBack, BackedUp, Views, Distinct, NoLinks;
    }

    lemma CommittedIsPeopled(outcome: Outcome)
      requires Written(outcome)
      ensures host.Valid() && (outcome == Committed ==> Peopled(plan))
    {
      hide Sound, Delivered, TurnedBack, BackedUp, Peopled;
    }

    lemma NothingOrdered()
      requires host.calls == []
      ensures NoOrders(host.calls)
    {
    }

    lemma AcceptedOps()
      requires Acceptable(cfg.codec, cfg.ops) && AllGathered()
      ensures forall op | op in cfg.ops :: op.user in files && (op.action == Adding ==> op.key.Some?)
    {
      hide Gathered, PlanFor, SelfCancelling;
    }

    /** Step 1: connect and load. Whatever fails, nothing has been written. */
    method Prepare() returns (ok: bool)
      requires Unstarted() && host.Valid() && host.trace == [host.w] && Fresh(host.w, host.w.disk, host.w.links)
      modifies host, `files, `order, `plan
      ensures Idle(host, old(host.w).disk, old(host.w).links)
      ensures ok ==> AllGathered() && host.w.conn && host.w.guard && plan == PlanFor(cfg, host.site, old(host.w))
      ensures ok ==> forall o | o in Parts() :: fresh(o)
      ensures ok ==> AllLoadable(cfg, host.site, old(host.w))
      ensures host.calm && old(host.w.conn) && AllLoadable(cfg, host.site, old(host.w)) ==> ok
    {
      hide Fresh, PlanFor, Gathered, Apart, Parts, AllLoadable, NoOrders;
      ghost var w0 := host.w;
      NothingOrdered();
      ok := Connect(host, w0.disk, w0.links);
      if !ok {
        return;
      }
      ArmedLoadable(cfg, host.site, w0);
      ok := LoadFiles(w0.links);
      if !ok {
        Release(host, w0.disk, w0.links);
        return;
      }
      ArmedPlan(cfg, host.site, w0);
    }
  }

  /** A phase without operations for a user leaves its document as it is. */
  lemma NothingToDo(p: Plan, vs: Views, w: World, calls: seq<Call>, k: int, done: set<User>, u: User, c: Codec)
    requires 0 <= k <= 1 && Progress(p, vs, w, k, done) && Paced(p, vs, calls, k, done)
    requires u in p.ts && Planned(c, p.ops, u, p.ts[u])
    requires OpsOf(p.ops, u, if k == 0 then Adding else Removing) == []
    ensures Progress(p, vs, w, k, done + {u}) && Paced(p, vs, calls, k, done + {u})
  {
    hide InPhase, PacedAt, Parse;
    Skips(p, vs, w, k, done, u);
    PacedSkips(p, vs, calls, k, done, u);
  }

  lemma NoCopies(c: Codec, d: Doc, rms: seq<Op>)
    requires rms == []
    ensures Enriched(c, d, rms) == rms
  {
  }

  lemma NothingWrittenBack(c: Codec, p: Plan)
    requires forall op | op in p.ops :: op.action != Removing
    ensures AfterRemoval(c, p) == p.ops
  {
    hide Copies;
    forall i | 0 <= i < |p.ops|
      ensures WrittenBack(p.ops[i], Copies(c, p)) == p.ops[i]
    {
      assert p.ops[i] in p.ops;
    }
  }

  lemma AllWrittenBack(c: Codec, p: Plan, after: seq<Op>)
    requires |after| == |p.ops| && forall i | 0 <= i < |after| :: after[i] == WrittenBack(p.ops[i], Copies(c, p))
    ensures after == AfterRemoval(c, p)
  {
    hide Copies, WrittenBack;
  }

  lemma NoStrays(p: Plan, vs: Views, w: World)
    ensures Strays(p, vs, {}, w)
  {
  }

  lemma StraysAreFew(p: Plan, vs: Views, forgotten: set<User>, w: World)
    requires Strays(p, vs, forgotten, w)
    ensures forall u, v | u in forgotten && v in forgotten :: u == v
  {
  }

  lemma BeforeAdding(c: Codec, p: Plan, u: User, t: Target, v: View, w: World)
    requires Planned(c, p.ops, u, t) && InPhase(t, v, w, 0)
    ensures v.doc == t.doc0 && !v.dirty && t.doc1 == AddAll(c, t.doc0, Grants(OpsOf(p.ops, u, Adding)))
  {
  }

  lemma BeforeRemoving(c: Codec, p: Plan, u: User, t: Target, v: View, w: World)
    requires Planned(c, p.ops, u, t) && InPhase(t, v, w, 1)
    ensures v.doc == t.doc1 && Tidy(t.doc1) && (w.guard ==> At(w, t.path) == Mid(t))
    ensures t.doc2 == RemoveAll(c, t.doc1, Matchers(OpsOf(p.ops, u, Removing)))
  {
    PlannedTidy(c, p.ops, u, t);
  }

  lemma CoreHasNoMarker(p: Plan, vs: Views, forgotten: set<User>, w: World)
    requires Core(p, vs, forgotten, w)
    ensures !w.commit
  {
  }

  lemma SameUser(op: Op, copies: map<User, seq<Op>>)
    ensures WrittenBack(op, copies).user == op.user
  {
    if op.key.None? && op.user in copies {
      SameUserBack(op, copies[op.user]);
    }
  }

  lemma {:induction false} SameUserBack(op: Op, copies: seq<Op>)
    ensures WriteBack(op, copies).user == op.user
    decreases |copies|
  {
    if copies != [] {
      SameUserBack(op, copies[..|copies| - 1]);
    }
  }

  lemma RemovalsLast(c: Codec, p: Plan, ops: seq<Op>, qs: seq<Probe>, more: seq<Probe>)
    requires RemovalsProven(c, p, ops, qs) && qs <= more
    ensures RemovalsProven(c, p, ops, more)
  {
    hide RemovalProven;
    forall op | op in ops && op.action == Removing
      ensures RemovalProven(c, p, op, more)
    {
      RemovalStill(c, p, op, qs, more);
    }
  }

  /** No link is in any target's way, no two targets share a place, and every target is as planned. */
  lemma PlanIsSafe(cfg: Config, site: H.Site, w: World)
    requires Separate(cfg, site) && AllLoadable(cfg, site, w)
    ensures var p := PlanFor(cfg, site, w);
            Distinct(p.ts) && AllPlanned(cfg.codec, p) && forall u | u in p.ts :: NoLinks(p.ts[u], w)
  {
    hide Separate, Distinct, DirOf, CheckWriteTarget, Planned, SortedUsers, MakeTarget, Expand;
    PlanIsDistinct(cfg, site, w);
    var p := PlanFor(cfg, site, w);
    forall u | u in p.ts
      ensures NoLinks(p.ts[u], w) && Planned(cfg.codec, p.ops, u, p.ts[u])
    {
      PlanIsPlanned(cfg, site, w, u);
      assert Loadable(cfg, site, w, u);
    }
  }

  lemma ArmedLoadable(cfg: Config, site: H.Site, w: World)
    ensures AllLoadable(cfg, site, w.(guard := true)) <==> AllLoadable(cfg, site, w)
  {
    hide CheckWriteTarget, Expand, SortedUsers;
    var v := w.(guard := true);
    forall u
      ensures Loadable(cfg, site, v, u) <==> Loadable(cfg, site, w, u)
    {
    }
  }

  lemma AccessIsPeopled(p: Plan, qs: seq<Probe>)
    requires AccessProven(p, qs)
    ensures Peopled(p)
  {
    hide TouchedAt;
    forall u | u in p.ts && TouchedAt(p.ts[u], 2)
      ensures Keys(p.ts[u].doc2.lines) != []
    {
      assert LetIn(p, u, qs, |qs|);
    }
  }

  /** Arming the guard changes no file, so it changes no plan. */
  lemma ArmedPlan(cfg: Config, site: H.Site, w: World)
    ensures PlanFor(cfg, site, w.(guard := true)) == PlanFor(cfg, site, w)
  {
    hide TargetFor, SortedUsers;
    forall u | u in site.accounts
      ensures TargetFor(cfg, site, w.(guard := true), u) == TargetFor(cfg, site, w, u)
    {
      ArmedTarget(cfg, site, w, u);
    }
  }

  lemma ArmedTarget(cfg: Config, site: H.Site, w: World, u: User)
    requires u in site.accounts
    ensures TargetFor(cfg, site, w.(guard := true), u) == TargetFor(cfg, site, w, u)
  {
    hide MakeTarget, Expand, BakName, Stamp, DirOf;
  }

  lemma NoAdditions(c: Codec, ops: seq<Op>, u: User, t: Target)
    requires Planned(c, ops, u, t) && forall op | op in ops :: op.action != Adding
    ensures t.doc1 == t.doc0 && OpsOf(ops, u, Adding) == []
  {
    hide Parse, Tidy;
    assert OpsOf(ops, u, Adding) == [];
  }

  lemma NoRemovals(c: Codec, ops: seq<Op>, u: User, t: Target)
    requires Planned(c, ops, u, t) && forall op | op in ops :: op.action != Removing
    ensures t.doc2 == t.doc1
  {
    hide Parse, Tidy;
    assert OpsOf(ops, u, Removing) == [];
  }

  /** A phase that changes no document is over at once. */
  lemma IdlePhase(p: Plan, vs: Views, w: World, calls: seq<Call>, k: int)
    requires 0 <= k <= 1 && forall u | u in p.ts :: DocAt(p.ts[u], k + 1) == DocAt(p.ts[u], k)
    requires k == 0 ==> forall u | u in p.ts :: !Adds(p, u)
    ensures Progress(p, vs, w, k, {}) ==> Progress(p, vs, w, k + 1, {})
    ensures Paced(p, vs, calls, k, {}) ==> Paced(p, vs, calls, k + 1, {})
  {
    hide InPhase, PacedAt, ArmedBy, DocAt, NoForeignWrites, MarksOf;
    forall u | u in p.ts && u in vs
      ensures InPhase(p.ts[u], vs[u], w, k) ==> InPhase(p.ts[u], vs[u], w, k + 1)
      ensures PacedAt(p.ts[u], vs[u], calls, k) ==> PacedAt(p.ts[u], vs[u], calls, k + 1)
      ensures ArmedBy(p, u, vs[u], k) ==> ArmedBy(p, u, vs[u], k + 1)
    {
      IdleFile(p, u, vs[u], w, calls, k);
    }
  }

  lemma IdleFile(p: Plan, u: User, v: View, w: World, calls: seq<Call>, k: int)
    requires 0 <= k <= 1 && u in p.ts && DocAt(p.ts[u], k + 1) == DocAt(p.ts[u], k) && (k == 0 ==> !Adds(p, u))
    ensures InPhase(p.ts[u], v, w, k) ==> InPhase(p.ts[u], v, w, k + 1)
    ensures PacedAt(p.ts[u], v, calls, k) ==> PacedAt(p.ts[u], v, calls, k + 1)
    ensures ArmedBy(p, u, v, k) ==> ArmedBy(p, u, v, k + 1)
  {
    hide At, WritesOf, Adds;
  }

  lemma ArmedInPhase(p: Plan, vs: Views, calls: seq<Call>, k: int, done: set<User>, u: User)
    requires Paced(p, vs, calls, k, done) && u in p.ts
    ensures u in vs && ArmedBy(p, u, vs[u], if u in done then k + 1 else k)
  {
    hide PacedAt, ArmedBy;
  }

  /** Through both phases every copy is there and whole. */
  lemma ArmedIsCopied(p: Plan, vs: Views, forgotten: set<User>, w: World, calls: seq<Call>)
    requires Core(p, vs, forgotten, w) && Paced(p, vs, calls, 2, {})
    ensures CopiedExactly(p, w)
  {
    hide Core, Paced, Adds, LocalOk, BackupsConcern;
    ConcernsCore(p, vs, forgotten, w);
    forall u | u in p.ts && Copied(p, u)
      ensures u in w.local && LocalOk(p.ts[u], u, w)
    {
      ArmedInPhase(p, vs, calls, 2, {}, u);
      ArmedHasCopy(p, vs, forgotten, w, u);
    }
    CopiedFrom(p, w);
  }

  lemma ConcernsCore(p: Plan, vs: Views, forgotten: set<User>, w: World)
    requires Core(p, vs, forgotten, w)
    ensures BackupsConcern(p, w)
  {
    hide CoreAt, LogGood, AddsProven, BeforeRemovals, BackupsConcern;
  }

  lemma ArmedHasCopy(p: Plan, vs: Views, forgotten: set<User>, w: World, u: User)
    requires Core(p, vs, forgotten, w) && u in p.ts && u in vs && vs[u].manifested && p.ts[u].orig.Some?
    ensures u in w.local && LocalOk(p.ts[u], u, w)
  {
    hide LogGood, AddsProven, BeforeRemovals, BackupsConcern, Staged, NoLinks, BackupOk, Distinct;
    assert CoreAt(p.ts[u], u, vs[u], u in forgotten, w);
  }

  lemma CopiedFrom(p: Plan, w: World)
    requires BackupsConcern(p, w) && forall u | u in p.ts && Copied(p, u) :: u in w.local && LocalOk(p.ts[u], u, w)
    ensures CopiedExactly(p, w)
  {
    hide Adds, LocalOk;
  }

  lemma SnapshotWouldHit(p: Plan, v: User, u: User)
    requires NamesApart(p) && u in p.ts && v in p.ts
    ensures !SnapshotHits(p, v, u)
  {
  }

  /** A longer name comes after its beginning. */
  lemma {:induction false} LongerIsLater(a: User, more: User)
    requires more != ""
    ensures Less(a, a + more)
  {
    if a != "" {
      assert (a + more)[1..] == a[1..] + more;
      LongerIsLater(a[1..], more);
    }
  }

  lemma LaterName(txdir: Path, u: User, v: User)
    requires BakName(txdir, u) == SnapName(BakName(txdir, v))
    ensures Less(v, u)
  {
    BackupNames(txdir, u, v);
    LongerIsLater(v, ".pre-remove");
  }

  lemma StillCopied(p: Plan, w: World, v: World)
    requires SameRecords(w, v)
    ensures CopiedExactly(p, w) ==> CopiedExactly(p, v)
  {
    hide Copied;
  }

  lemma FinalBounds(h: H.Host, p: Plan, n: nat)
    requires FinalSince(h, p, n)
    ensures n <= |h.calls|
  {
  }

  lemma QuietAt(before: World, after: World, path: Path)
    requires Quiet(before, after)
    ensures At(after, path) == At(before, path)
  {
  }

  /** Quiet first, then a change to one file only. */
  lemma FromThere(path: Path, w0: World, w1: World, w: World, c0: seq<Call>, c1: seq<Call>, c: seq<Call>)
    requires Quiet(w0, w1) && SameOrders(c0, c1) && OrdersElsewhere(path, c1, c)
    ensures OrdersElsewhere(path, c0, c) && (SameElsewhere(path, w1, w) ==> SameElsewhere(path, w0, w))
  {
    hide MarksOf, WritesOf;
    forall x
      ensures At(w1, x) == At(w0, x)
    {
      QuietAt(w0, w1, x);
    }
  }

  lemma NothingMoved(path: Path, w: World, calls: seq<Call>)
    ensures SameElsewhere(path, w, w) && OrdersElsewhere(path, calls, calls)
  {
    hide MarksOf, WritesOf;
  }

  lemma ElsewhereToo(path: Path, c0: seq<Call>, c: seq<Call>)
    requires SameOrders(c0, c)
    ensures OrdersElsewhere(path, c0, c)
  {
    hide MarksOf, WritesOf;
  }

  lemma UserPhase(p: Plan, vs: Views, w: World, calls: seq<Call>, k: int, done: set<User>, u: User)
    requires Progress(p, vs, w, k, done) && Paced(p, vs, calls, k, done) && u in p.ts && u !in done
    ensures u in vs && InPhase(p.ts[u], vs[u], w, k) && PacedAt(p.ts[u], vs[u], calls, k) && ArmedBy(p, u, vs[u], k)
  {
    hide InPhase, PacedAt;
  }

  lemma SteadyIsDistinct(p: Plan, vs: Views, w: World)
    requires Steady(p, vs, {}, w)
    ensures Distinct(p.ts)
  {
  }

  lemma PathsElsewhere(p: Plan, w: World, w': World, u: User, vs: Views)
    requires Steady(p, vs, {}, w) && u in p.ts && SameElsewhere(p.ts[u].path, w, w')
    ensures forall x | x in p.ts && x != u :: At(w', p.ts[x].path) == At(w, p.ts[x].path)
  {
    hide At, CoreAt, LogGood, AddsProven, BeforeRemovals;
  }

  lemma GrantsStep(c: Codec, d: Doc, adds: seq<Op>)
    requires adds != []
    ensures AddAll(c, d, Grants(adds)) == AddAll(c, Add(c, d, GrantOf(adds[0])), Grants(adds[1..]))
  {
  }

  lemma MatchersStep(c: Codec, d: Doc, rms: seq<Op>)
    requires rms != []
    ensures RemoveAll(c, d, Matchers(rms)) == RemoveAll(c, Remove(c, d, rms[0].matcher), Matchers(rms[1..]))
    ensures Enriched(c, d, rms)
         == [Enrich(rms[0], Removed(c, d.lines, rms[0].matcher))] + Enriched(c, Remove(c, d, rms[0].matcher), rms[1..])
  {
  }

  lemma NoMoreRemovals(c: Codec, d: Doc, rms: seq<Op>)
    requires rms == []
    ensures RemoveAll(c, d, Matchers(rms)) == d && Enriched(c, d, rms) == []
  {
  }

  lemma AddGrows(c: Codec, d: Doc, g: Grant)
    ensures Has(d, g.key) ==> Add(c, d, g) == d
    ensures !Has(d, g.key) ==> |Add(c, d, g).lines| == |d.lines| + 1
  {
  }

  lemma RemoveShrinks(c: Codec, d: Doc, m: Matcher)
    requires Tidy(d)
    ensures |Removed(c, d.lines, m)| + |Remove(c, d, m).lines| == |d.lines|
    ensures Removed(c, d.lines, m) == [] ==> Remove(c, d, m) == d
    ensures Tidy(Remove(c, d, m))
  {
    Partition(c, d.lines, m);
  }

  lemma {:induction false} Partition(c: Codec, lines: seq<Line>, m: Matcher)
    ensures |Removed(c, lines, m)| + |Kept(c, lines, m)| == |lines|
    ensures Removed(c, lines, m) == [] ==> Kept(c, lines, m) == lines
  {
    if lines != [] {
      Partition(c, lines[1..], m);
    }
  }

  lemma FreshBackup(p: Plan, vs: Views, w: World, u: User)
    requires Steady(p, vs, {}, w) && u in p.ts && !vs[u].manifested
    ensures NameFree(p, vs, p.ts[u].bak)
  {
  }

  lemma AbsentNeedsNoCopy(t: Target, u: User, w: World)
    requires t.orig.None?
    ensures BackupOk(t, w) && LocalOk(t, u, w)
  {
  }
}
