/** Before anything is written: checking the request, connecting, reading every target. */
module Loading {
  import opened Basics
  import opened AuthKeys
  import opened World
  import opened WritePolicy
  import opened TxState
  import opened TrapLaws
  import opened Host
  import opened Ledger
  import Manifest
  import Shell

  datatype Config = Config(
    codec: Codec, ops: seq<Op>, signers: set<Key>, attempts: int,
    template: Bytes, txdir: Path, guardUser: User, dryRun: bool,
    keepDirty: bool)   // swap's rule after a clean failure: false as written, true keeps the earlier mark

  // ------------------------------------------------------------- the request

  /** This addition and this removal are about the same key of the same user. */
  predicate Cancels(c: Codec, add: Op, rm: Op) {
    add.action == Adding && add.key.Some? && rm.action == Removing && rm.user == add.user
    && MatchesKey(c, rm.matcher, add.key.value)
  }

  ghost predicate SelfCancelling(c: Codec, ops: seq<Op>) {
    exists add, rm | add in ops && rm in ops :: Cancels(c, add, rm)
  }

  method RejectSelfCancellingOps(c: Codec, ops: seq<Op>) returns (ok: bool)
    ensures ok == !SelfCancelling(c, ops)
  {
    for i := 0 to |ops|
      invariant forall a, b | 0 <= a < i && 0 <= b < |ops| :: !Cancels(c, ops[a], ops[b])
    {
      var add := ops[i];
      if add.action == Adding && add.key.Some? {
        for j := 0 to |ops|
          invariant forall b | 0 <= b < j :: !Cancels(c, add, ops[b])
        {
          var rm := ops[j];
          if rm.action == Removing && rm.user == add.user && MatchesKey(c, rm.matcher, add.key.value) {
            assert Cancels(c, add, rm);
            return false;
          }
        }
      }
    }
    return true;
  }

  ghost predicate Acceptable(c: Codec, ops: seq<Op>) {
    && ops != []
    && (forall op | op in ops :: Shell.ValidUsername(op.user) && (op.action == Adding ==> op.key.Some?))
    && !SelfCancelling(c, ops)
  }

  /** Spelled out: an added key and a removal clash only within one user, and there by key or by fingerprint. */
  lemma AcceptableExactly(c: Codec, ops: seq<Op>)
    ensures Acceptable(c, ops)
       <==> && ops != []
            && (forall op | op in ops :: Shell.ValidUsername(op.user) && (op.action == Adding ==> op.key.Some?))
            && forall add, rm | add in ops && rm in ops && add.action == Adding && rm.action == Removing
                                && add.key.Some? && rm.user == add.user ::
                 rm.matcher != ByKey(add.key.value) && rm.matcher != ByFingerprint(c.fingerprint(add.key.value))
  {
    hide Shell.ValidUsername;
    forall add, rm | add in ops && rm in ops
      ensures Cancels(c, add, rm)
         <==> add.action == Adding && rm.action == Removing && add.key.Some? && rm.user == add.user
              && (rm.matcher == ByKey(add.key.value) || rm.matcher == ByFingerprint(c.fingerprint(add.key.value)))
    {
    }
  }

  method Validate(c: Codec, ops: seq<Op>) returns (ok: bool)
    ensures ok == Acceptable(c, ops)
  {
    if |ops| == 0 {
      return false;
    }
    for i := 0 to |ops|
      invariant forall j | 0 <= j < i ::
                  Shell.ValidUsername(ops[j].user) && (ops[j].action == Adding ==> ops[j].key.Some?)
    {
      if !Shell.ValidUsername(ops[i].user) || (ops[i].action == Adding && ops[i].key.None?) {
        assert ops[i] in ops;
        return false;
      }
    }
    ok := RejectSelfCancellingOps(c, ops);
  }

  /** What an accepted request is good for: no added key of a user is matched by a removal of that user. */
  lemma AcceptedIsCompatible(c: Codec, ops: seq<Op>, u: User)
    requires Acceptable(c, ops)
    ensures forall g, m | g in Grants(OpsOf(ops, u, Adding)) && m in Matchers(OpsOf(ops, u, Removing)) ::
              !MatchesKey(c, m, g.key)
  {
    hide MatchesKey;
    forall g, m | g in Grants(OpsOf(ops, u, Adding)) && m in Matchers(OpsOf(ops, u, Removing))
      ensures !MatchesKey(c, m, g.key)
    {
      var add :| add in OpsOf(ops, u, Adding) && GrantOf(add) == g;
      var rm :| rm in OpsOf(ops, u, Removing) && rm.matcher == m;
      assert add in ops && rm in ops && !Cancels(c, add, rm);
    }
  }

  // --------------------------------------------------------- the users, sorted

  predicate Less(a: User, b: User) {
    b != "" && (a == "" || a[0] < b[0] || (a[0] == b[0] && Less(a[1..], b[1..])))
  }

  lemma {:induction false} LessIsStrict(a: User, b: User)
    ensures !(Less(a, b) && Less(b, a)) && !Less(a, a)
    ensures a == b || Less(a, b) || Less(b, a)
  {
    if a != "" {
      LessIsStrict(a[1..], if b == "" then "" else b[1..]);
      if b != "" {
        assert a == [a[0]] + a[1..] && b == [b[0]] + b[1..];
      }
    }
  }

  lemma {:induction false} LessChains(a: User, b: User, c: User)
    requires Less(a, b) && Less(b, c)
    ensures Less(a, c)
  {
    if a != "" && a[0] == b[0] && b[0] == c[0] {
      LessChains(a[1..], b[1..], c[1..]);
    }
  }

  /** The order is by the first byte that differs; a name comes after its own beginnings. */
  lemma {:induction false} LessExactly(common: User, a: User, b: User)
    requires a != "" && b != "" ==> a[0] != b[0]
    ensures Less(common + a, common + b) <==> b != "" && (a == "" || a[0] < b[0])
  {
    if common == "" {
      assert common + a == a && common + b == b;
    } else {
      var x, y := common + a, common + b;
      assert x[0] == y[0] && x[1..] == common[1..] + a && y[1..] == common[1..] + b;
      LessExactly(common[1..], a, b);
    }
  }

  ghost predicate Increasing(names: seq<User>) {
    forall i, j | 0 <= i < j < |names| :: Less(names[i], names[j])
  }

  function Insert(names: seq<User>, u: User): (r: seq<User>)
    ensures forall x :: x in r <==> x in names || x == u
  {
    if names == [] then [u]
    else if u == names[0] then names
    else if Less(u, names[0]) then [u] + names
    else
      assert forall x :: x in names <==> x == names[0] || x in names[1..];
      [names[0]] + Insert(names[1..], u)
  }

  lemma {:induction false} InsertKeepsOrder(names: seq<User>, u: User)
    requires Increasing(names)
    ensures Increasing(Insert(names, u))
  {
    if names != [] && u != names[0] {
      LessIsStrict(u, names[0]);
      if Less(u, names[0]) {
        forall j | 0 < j < |names|
          ensures Less(u, names[j])
        {
          LessChains(u, names[0], names[j]);
        }
      } else {
        InsertKeepsOrder(names[1..], u);
        var r := Insert(names[1..], u);
        forall j | 0 <= j < |r|
          ensures Less(names[0], r[j])
        {
          assert r[j] in r;
          if r[j] != u {
            var k :| 0 <= k < |names[1..]| && names[1..][k] == r[j];
            assert names[k + 1] == r[j];
          }
        }
      }
    }
  }

  /** Every user once, in byte order. */
  function SortedUsers(ops: seq<Op>): (names: seq<User>)
    ensures forall u :: u in names <==> exists op :: op in ops && op.user == u
  {
    if ops == [] then []
    else
      assert forall op :: op in ops <==> op == ops[0] || op in ops[1..];
      Insert(SortedUsers(ops[1..]), ops[0].user)
  }

  lemma {:induction false} UsersAreSorted(ops: seq<Op>)
    ensures Increasing(SortedUsers(ops))
  {
    if ops != [] {
      UsersAreSorted(ops[1..]);
      InsertKeepsOrder(SortedUsers(ops[1..]), ops[0].user);
    }
  }

  lemma SortedUsersOnce(ops: seq<Op>, names: seq<User>)
    requires names == SortedUsers(ops)
    ensures forall i, j | 0 <= i < j < |names| :: names[i] != names[j]
  {
    UsersAreSorted(ops);
    forall i, j | 0 <= i < j < |names|
      ensures names[i] != names[j]
    {
      LessIsStrict(names[i], names[j]);
    }
  }

  // ------------------------------------------------------------- the targets

  /** %u and %h, replaced from left to right. */
  function Expand(template: Bytes, u: User, home: Path): Path {
    if template == "" then ""
    else if |template| >= 2 && template[..2] == "%u" then u + Expand(template[2..], u, home)
    else if |template| >= 2 && template[..2] == "%h" then home + Expand(template[2..], u, home)
    else [template[0]] + Expand(template[1..], u, home)
  }

  /** A template without placeholders gives every user the same file. */
  lemma {:induction false} PlainTemplateIsShared(template: Bytes, u: User, home: Path)
    requires forall i | 0 <= i < |template| - 1 && template[i] == '%' ::
               template[i + 1] != 'u' && template[i + 1] != 'h'
    ensures Expand(template, u, home) == template
  {
    if template != "" {
      assert |template| >= 2 ==> template[..2][0] == template[0] && template[..2][1] == template[1];
      PlainTemplateIsShared(template[1..], u, home);
      assert template == [template[0]] + template[1..];
    }
  }

  lemma {:induction false} ExpandPrefix(a: Bytes, b: Bytes, u: User, home: Path)
    requires '%' !in a
    ensures Expand(a + b, u, home) == a + Expand(b, u, home)
  {
    if a == "" {
      assert a + b == b;
    } else {
      var s := a + b;
      assert s[0] == a[0] && a[0] in a && s[1..] == a[1..] + b;
      assert |s| >= 2 ==> s[..2][0] == a[0];
      ExpandPrefix(a[1..], b, u, home);
      assert a == [a[0]] + a[1..];
    }
  }

  /** %u stands for the user, %h for the home directory, and what they bring in is not looked at again. */
  lemma ExpandsPlaceholder(a: Bytes, b: Bytes, u: User, home: Path)
    requires '%' !in a
    ensures Expand(a + "%u" + b, u, home) == a + u + Expand(b, u, home)
    ensures Expand(a + "%h" + b, u, home) == a + home + Expand(b, u, home)
  {
    ExpandsFirst(b, u, home);
    ExpandPrefix(a, "%u" + b, u, home);
    ExpandPrefix(a, "%h" + b, u, home);
    assert a + "%u" + b == a + ("%u" + b) && a + "%h" + b == a + ("%h" + b);
  }

  lemma ExpandsFirst(b: Bytes, u: User, home: Path)
    ensures Expand("%u" + b, u, home) == u + Expand(b, u, home)
    ensures Expand("%h" + b, u, home) == home + Expand(b, u, home)
  {
    assert ("%u" + b)[..2] == "%u" && ("%u" + b)[2..] == b;
    assert ("%h" + b)[..2] == "%h" && ("%h" + b)[2..] == b;
    assert "%h"[1] != "%u"[1];
  }

  const DEFAULT_TEMPLATE := "%h/.ssh/authorized_keys"

  function TemplateOf(cfg: Config): Bytes {
    if cfg.template == "" then DEFAULT_TEMPLATE else cfg.template
  }

  function PathOf(cfg: Config, site: Site, u: User): Path
    requires u in site.accounts
  {
    Expand(TemplateOf(cfg), u, site.accounts[u].home)
  }

  /** Without a template of one's own, or with that one, the file is below the user's home. */
  lemma DefaultPath(cfg: Config, site: Site, u: User)
    requires u in site.accounts && (cfg.template == "" || cfg.template == "%h/.ssh/authorized_keys")
    ensures PathOf(cfg, site, u) == site.accounts[u].home + "/.ssh/authorized_keys"
  {
    hide Expand;
    var home, rest := site.accounts[u].home, "/.ssh/authorized_keys";
    ExpandsFirst(rest, u, home);
    PlainTail(rest, u, home);
    assert "%h" + rest == "%h/.ssh/authorized_keys";
  }

  lemma PlainTail(rest: Bytes, u: User, home: Path)
    requires '%' !in rest
    ensures Expand(rest, u, home) == rest
  {
    ExpandPrefix(rest, "", u, home);
    assert rest + "" == rest;
  }
  /** What the write policy is asked about one user's file. */
  function AskedOf(cfg: Config, site: Site, w: World, u: User): WriteTarget
    requires u in site.accounts
  {
    var path := PathOf(cfg, site, u);
    var login := site.accounts[u].login;
    WriteTarget(site.guard.uid == "0", cfg.guardUser, u, login.uid, login.gid,
                StatOf(site, w, path), StatOf(site, w, DirOf(path)))
  }

  function TargetFor(cfg: Config, site: Site, w: World, u: User): Target
    requires u in site.accounts
  {
    var path := PathOf(cfg, site, u);
    MakeTarget(cfg.codec, cfg.ops, u, path, BakName(cfg.txdir, u), NodeAt(w.disk, path),
               Stamp(AskedOf(cfg, site, w, u), site.guard))
  }

  /** What a run on this host is about to do. */
  function PlanFor(cfg: Config, site: Site, w: World): Plan {
    Plan(cfg.ops,
         map u | u in SortedUsers(cfg.ops) && u in site.accounts :: TargetFor(cfg, site, w, u),
         cfg.signers)
  }

  /** No two users share a file, and names are clean. */
  ghost predicate Separate(cfg: Config, site: Site) {
    var users := SortedUsers(cfg.ops);
    && (forall u, v | u in users && v in users && u != v && u in site.accounts && v in site.accounts ::
          PathOf(cfg, site, u) != PathOf(cfg, site, v))
    && (forall u | u in users && u in site.accounts ::
          Manifest.CleanField(PathOf(cfg, site, u)) && Manifest.CleanField(BakName(cfg.txdir, u)))
  }

  lemma BackupNames(txdir: Path, u: User, v: User)
    ensures BakName(txdir, u) == BakName(txdir, v) ==> u == v
    ensures BakName(txdir, u) == SnapName(BakName(txdir, v)) ==> u == v + ".pre-remove"
  {
    var head := txdir + "/backup/";
    assert BakName(txdir, u) == head + u && SnapName(BakName(txdir, v)) == head + (v + ".pre-remove");
    SamePrefix(head, u, v);
    SamePrefix(head, u, v + ".pre-remove");
    assert BakName(txdir, v) == head + v;
  }

  lemma SamePrefix(head: Bytes, a: Bytes, b: Bytes)
    ensures head + a == head + b ==> a == b
  {
    assert (head + a)[|head|..] == a && (head + b)[|head|..] == b;
  }

  /** The plan says of each user what the host held and what the operations make of it. */
  lemma PlanIsPlanned(cfg: Config, site: Site, w: World, u: User)
    requires u in SortedUsers(cfg.ops) && u in site.accounts
    ensures var p, path := PlanFor(cfg, site, w), PathOf(cfg, site, u);
            && p.ops == cfg.ops && u in p.ts && Planned(cfg.codec, p.ops, u, p.ts[u])
            && p.ts[u].path == path && p.ts[u].orig == At(w, path)
  {
    hide Parse, Expand, Stamp, StatOf, AddAll, RemoveAll, Grants, Matchers, OpsOf, SortedUsers;
  }

  lemma PlanIsDistinct(cfg: Config, site: Site, w: World)
    requires Separate(cfg, site)
    ensures Distinct(PlanFor(cfg, site, w).ts)
  {
    hide Parse, Manifest.CleanField, Expand, BakName, SnapName, Stamp, StatOf;
    var ts := PlanFor(cfg, site, w).ts;
    forall u, v | u in ts && v in ts
      ensures u != v ==> ts[u].path != ts[v].path && ts[u].bak != ts[v].bak
    {
      BackupNames(cfg.txdir, u, v);
    }
  }

  // ------------------------------------------------------ nothing written yet

  /** The manifest is empty and no marker is set, so no guard's end changes a file. */
  predicate Fresh(s: World, d: Disk, links: set<Path>) {
    && s.disk == d && s.links == links && s.manifest.None? && !s.commit && !s.restored
    && s.local == map[] && s.probes == []
  }

  ghost predicate Idle(h: Host, d: Disk, links: set<Path>)
    reads h
  {
    && h.Valid() && Fresh(h.w, d, links) && NoOrders(h.calls) && (h.w.conn ==> Together(h.calls))
    && forall s | s in h.trace :: Fresh(s, d, links)
  }

  lemma FreshStays(w: World, t: Tick, d: Disk, links: set<Path>)
    requires Fresh(w, d, links)
    ensures Fresh(Hangup(w), d, links) && Fresh(EndGuard(w), d, links) && Fresh(Close(w, t), d, links)
    ensures Fresh(Perform(w, Inspect, t).0, d, links) && Fresh(Perform(w, RemoveTxDir, t).0, d, links)
    ensures Fresh(CheckGuard(w, t).0, d, links) && Fresh(StartGuard(w, t).0, d, links)
  {
  }

  /** A connection that is gone does not come back. */
  lemma ConnectionOnlyEnds(w: World, t: Tick)
    requires w.manifest.None?
    ensures Perform(w, Inspect, t).0.conn || Perform(w, RemoveTxDir, t).0.conn || Close(w, t).conn ==> w.conn
    ensures !Hangup(w).conn
  {
  }

  /** One remote command that only looks. */
  method Look(h: Host, ghost d: Disk, ghost links: set<Path>) returns (ok: bool)
    requires Idle(h, d, links)
    modifies h
    ensures Idle(h, d, links)
    ensures ok ==> h.w == old(h.w)
    ensures h.calm ==> old(h.calm) && (old(h.w.conn) ==> ok)
  {
    hide Hangup, EndGuard, Close, StartGuard, CheckGuard, Logged, NoOrders;
    ghost var calls, t := h.calls, h.Next(Remote(Inspect));
    FreshStays(h.w, t, d, links);
    var r := h.Issue(Inspect);
    StayQuiet(calls, Call(Remote(Inspect), t, r));
    return r == Done;
  }

  lemma StayQuiet(calls: seq<Call>, c: Call)
    requires NoOrders(calls) && !Ordering(c.event) && !c.event.Keep?
    ensures NoOrders(calls + [c])
    ensures Together(calls) && Together([c]) ==> Together(calls + [c])
  {
    hide NoOrders;
    QuietCall(calls, c);
    StillNoOrders(calls, calls + [c]);
  }

  method StatPath(h: Host, ghost d: Disk, ghost links: set<Path>, p: Path) returns (info: Option<FileInfo>)
    requires Idle(h, d, links)
    modifies h
    ensures Idle(h, d, links)
    ensures info.Some? ==> h.w == old(h.w) && info.value == StatOf(h.site, h.w, p)
    ensures h.calm ==> old(h.calm) && (old(h.w.conn) ==> info.Some?)
  {
    var ok := Look(h, d, links);
    return if ok then Some(StatOf(h.site, h.w, p)) else None;
  }

  /** What loading keeps of one user's file. */
  datatype Loaded = Loaded(target: WriteTarget, path: Path, content: Option<Bytes>)

  ghost predicate LoadedFrom(l: Loaded, cfg: Config, site: Site, w: World, u: User) {
    && u in site.accounts
    && l == Loaded(AskedOf(cfg, site, w, u), PathOf(cfg, site, u), At(w, PathOf(cfg, site, u)))
    && l.path !in w.links && DirOf(l.path) !in w.links
    && CheckWriteTarget(l.target)
  }

  lemma LoadedUser(l: Loaded, cfg: Config, site: Site, w: World, u: User)
    requires LoadedFrom(l, cfg, site, w, u)
    ensures l.target.entryUser == u && l.content == At(w, l.path)
  {
  }

  /** The account exists, no link is in the way, and the write policy has an answer. */
  predicate Loadable(cfg: Config, site: Site, w: World, u: User) {
    && u in site.accounts
    && site.accounts[u].home != "" && site.accounts[u].home[0] == '/'
    && PathOf(cfg, site, u) !in w.links && DirOf(PathOf(cfg, site, u)) !in w.links
    && CheckWriteTarget(AskedOf(cfg, site, w, u))
  }

  /** The directory is root's and nobody else may write into it. */
  ghost predicate RootsDirectory(site: Site, d: Path) {
    d in site.dirs && OnlyRootWrites(FileInfo(true, false, site.dirs[d].uid, site.dirs[d].gid, site.dirs[d].mode))
  }

  /** Files are not directories. */
  ghost predicate FilesAreFiles(site: Site, w: World, path: Path) {
    path !in site.dirs && DirOf(path) !in w.disk
  }

  /** Spelled out: whose file loads. The guard's user is the configured one; an owner is asked about only if the guard
      is root, and then anybody's file loads from root's directory, but from elsewhere only the user's own. */
  lemma LoadableExactly(cfg: Config, site: Site, w: World, u: User)
    requires u in site.accounts && FilesAreFiles(site, w, PathOf(cfg, site, u))
    ensures var account, path := site.accounts[u], PathOf(cfg, site, u);
            Loadable(cfg, site, w, u)
            <==> account.home != "" && account.home[0] == '/' && path !in w.links && DirOf(path) !in w.links
                 && (site.guard.uid != "0" || u == cfg.guardUser || path !in w.disk || w.disk[path].meta.uid == ""
                     || w.disk[path].meta.uid == account.login.uid || RootsDirectory(site, DirOf(path)))
  {
    hide PathOf, DirOf, ParseOctal, RootManaged, DecideWriteOpts;
    RootManagedExactly(StatOf(site, w, DirOf(PathOf(cfg, site, u))));
  }

  /** Who writes for a root guard, and what the file looks like afterwards: the guard itself for its configured user's
      own file and where only root writes, everywhere else the user. */
  lemma WriterExactly(cfg: Config, site: Site, w: World, u: User)
    requires u in site.accounts && u != "" && site.accounts[u].login.uid != "" && site.guard.uid == "0"
    requires Loadable(cfg, site, w, u) && FilesAreFiles(site, w, PathOf(cfg, site, u))
    requires var path := PathOf(cfg, site, u);
             path in w.disk ==> w.disk[path].meta.uid != "" && w.disk[path].meta.mode != ""
    ensures var login, path := site.accounts[u].login, PathOf(cfg, site, u);
            var itself := u == cfg.guardUser || RootsDirectory(site, DirOf(path));
            && DecideWriteOpts(AskedOf(cfg, site, w, u)).runAs == (if itself then "" else u)
            && TargetFor(cfg, site, w, u).stamp
               == if path !in w.disk then Meta(login.uid, login.gid, "600")
                  else if itself then w.disk[path].meta
                  else Meta(login.uid, login.gid, w.disk[path].meta.mode)
  {
    hide PathOf, DirOf, ParseOctal, RootManaged, Parse, AddAll, RemoveAll;
    RootManagedExactly(StatOf(site, w, DirOf(PathOf(cfg, site, u))));
  }

  ghost predicate AllLoadable(cfg: Config, site: Site, w: World) {
    forall u | u in SortedUsers(cfg.ops) :: Loadable(cfg, site, w, u)
  }

  /** Account, file, directory, permission, content; a symbolic link is refused at both places. */
  method LoadFile(h: Host, ghost d: Disk, ghost links: set<Path>, cfg: Config, u: User) returns (l: Option<Loaded>)
    requires Idle(h, d, links)
    modifies h
    ensures Idle(h, d, links)
    ensures l.Some? ==> h.w == old(h.w) && LoadedFrom(l.value, cfg, h.site, h.w, u) && Loadable(cfg, h.site, h.w, u)
    ensures h.calm ==> old(h.calm) && (old(h.w.conn) && Loadable(cfg, h.site, old(h.w), u) ==> l.Some?)
  {
    hide Idle, Fresh, CheckWriteTarget, Expand;
    var ok := Look(h, d, links);
    if !ok || u !in h.site.accounts {
      return None;
    }
    var account := h.site.accounts[u];
    if account.home == "" || account.home[0] != '/' {
      return None;
    }
    var path := Expand(TemplateOf(cfg), u, account.home);
    var info := StatPath(h, d, links, path);
    if info.None? || info.value.isSymlink {
      return None;
    }
    var dirInfo := StatPath(h, d, links, DirOf(path));
    if dirInfo.None? || dirInfo.value.isSymlink {
      return None;
    }
    var target := WriteTarget(h.site.guard.uid == "0", cfg.guardUser, u, account.login.uid, account.login.gid,
                              info.value, dirInfo.value);
    if !CheckWriteTarget(target) {
      return None;
    }
    ok := Look(h, d, links);
    if !ok {
      return None;
    }
    return Some(Loaded(target, path, At(h.w, path)));
  }

  method HangUp(h: Host, ghost d: Disk, ghost links: set<Path>)
    requires Idle(h, d, links)
    modifies h
    ensures Idle(h, d, links)
    ensures h.calm ==> old(h.calm)
  {
    hide Hangup, Logged, NoOrders, Together;
    FreshStays(h.w, h.Next(Hang), d, links);
    ConnectionOnlyEnds(h.w, h.Next(Hang));
    StayQuiet(h.calls, Call(Hang, h.Next(Hang), Done));
    h.Disconnect();
  }

  /** The guard session over, its manifest empty, so nothing is restored; then the directory and the connection. */
  method Release(h: Host, ghost d: Disk, ghost links: set<Path>)
    requires Idle(h, d, links)
    modifies h
    ensures Idle(h, d, links)
    ensures |h.calls| == old(|h.calls|) + 3 && h.calls[|h.calls| - 3].event == Leave
    ensures h.calls[|h.calls| - 2].event == Remote(RemoveTxDir) && h.calls[|h.calls| - 1].event == Hang
    ensures h.calm ==> old(h.calm)
  {
    hide Hangup, EndGuard, StartGuard, CheckGuard, Close, Perform, Logged, NoOrders, Together;
    FreshStays(h.w, h.Next(Leave), d, links);
    StayQuiet(h.calls, Call(Leave, h.Next(Leave), Done));
    h.CloseGuard();
    ghost var calls, t := h.calls, h.Next(Remote(RemoveTxDir));
    FreshStays(h.w, t, d, links);
    var r := h.Issue(RemoveTxDir);
    StayQuiet(calls, Call(Remote(RemoveTxDir), t, r));
    FreshStays(h.w, h.Next(Hang), d, links);
    ConnectionOnlyEnds(h.w, h.Next(Hang));
    StayQuiet(h.calls, Call(Hang, h.Next(Hang), Done));
    h.Disconnect();
  }

  /** The trap armed and found alive. */
  method Hold(h: Host, ghost d: Disk, ghost links: set<Path>) returns (ok: bool)
    requires Idle(h, d, links)
    modifies h
    ensures Idle(h, d, links)
    ensures ok ==> h.w.conn && h.w.guard && h.w == old(h.w).(guard := true)
    ensures h.calm ==> old(h.calm) && (old(h.w.conn) ==> ok)
  {
    hide Hangup, EndGuard, Close, Logged, NoOrders, Perform;
    ghost var calls, t := h.calls, h.Next(Start);
    FreshStays(h.w, t, d, links);
    var r := h.Arm();
    StayQuiet(calls, Call(Start, t, r));
    if r == Done {
      ghost var calls1, t1 := h.calls, h.Next(Health);
      FreshStays(h.w, t1, d, links);
      r := h.Check();
      StayQuiet(calls1, Call(Health, t1, r));
    }
    return r == Done;
  }

  /** Step 1: dial, see who we are, make the transaction directory, arm the trap, check it. */
  method Connect(h: Host, ghost d: Disk, ghost links: set<Path>) returns (ok: bool)
    requires Idle(h, d, links)
    modifies h
    ensures Idle(h, d, links)
    ensures ok ==> h.w.conn && h.w.guard && h.w == old(h.w).(guard := true)
    ensures h.calm ==> old(h.calm) && (old(h.w.conn) ==> ok)
  {
    hide Fresh, Logged;
    ok := Look(h, d, links);
    if ok {
      ok := Look(h, d, links);
    }
    if !ok {
      HangUp(h, d, links);
      return;
    }
    ok := Hold(h, d, links);
    if !ok {
      Release(h, d, links);
    }
  }

  // ---------------------------------------------------- the first sane state

  /** A target as loading found it, nothing written, nothing logged. */
  ghost predicate AsFound(t: Target, v: View, s: World) {
    && NoLinks(t, s) && At(s, t.path) == t.orig
    && (t.path in s.disk ==> s.disk[t.path].meta == t.origMeta)
    && v == View(t.doc0, false, false, false)
  }

  lemma TargetIsAsFound(cfg: Config, site: Site, w: World, u: User, l: Loaded, v: View)
    requires LoadedFrom(l, cfg, site, w, u) && v == View(Parse(cfg.codec, OrEmpty(l.content)), false, false, false)
    ensures AsFound(TargetFor(cfg, site, w, u), v, w)
  {
    hide Parse, Expand, Stamp, StatOf, AddAll, RemoveAll, DirOf;
  }

  lemma FoundIsStaged(t: Target, v: View, s: World)
    requires AsFound(t, v, s)
    ensures Staged(t, s)
  {
    hide Mid, Fin, DirOf;
  }

  lemma StillAsFound(t: Target, v: View, w: World, s: World)
    requires AsFound(t, v, w) && s.disk == w.disk && s.links == w.links
    ensures AsFound(t, v, s)
  {
    hide DirOf;
  }

  lemma FreshIsSane(p: Plan, vs: Views, w: World, s: World)
    requires vs.Keys == p.ts.Keys && forall u | u in p.ts :: AsFound(p.ts[u], vs[u], w)
    requires Fresh(s, w.disk, w.links)
    ensures Sane(p, s)
  {
    hide Staged, NoLinks;
    forall u | u in p.ts
      ensures Staged(p.ts[u], s) && Staged(p.ts[u], EndGuard(s)) && At(s, p.ts[u].path) == p.ts[u].orig
    {
      StillAsFound(p.ts[u], vs[u], w, s);
      FoundIsStaged(p.ts[u], vs[u], s);
      StillAsFound(p.ts[u], vs[u], w, EndGuard(s));
      FoundIsStaged(p.ts[u], vs[u], EndGuard(s));
    }
  }

  lemma FreshIsPaced(p: Plan, vs: Views, w: World, calls: seq<Call>)
    requires vs.Keys == p.ts.Keys && (forall u | u in p.ts :: AsFound(p.ts[u], vs[u], w)) && NoOrders(calls)
    ensures Paced(p, vs, calls, 0, {})
  {
    hide NoLinks, MarksOf, WritesOf, Mid, Fin;
  }

  lemma NothingKept(p: Plan, calls: seq<Call>)
    requires NoOrders(calls)
    ensures KeepsOriginal(p, calls)
  {
    hide MarksOf, WritesOf;
  }

  lemma FreshIsSteady(p: Plan, vs: Views, w: World)
    requires vs.Keys == p.ts.Keys && Distinct(p.ts) && (forall u | u in p.ts :: AsFound(p.ts[u], vs[u], w))
    requires Fresh(w, w.disk, w.links) && w.conn && w.guard
    ensures Steady(p, vs, {}, w) && Progress(p, vs, w, 0, {})
  {
    hide NoLinks, Staged, Mid, Fin, Distinct;
    forall u | u in p.ts
      ensures CoreAt(p.ts[u], u, vs[u], false, w) && InPhase(p.ts[u], vs[u], w, 0)
    {
      FoundIsStaged(p.ts[u], vs[u], w);
    }
  }
}
