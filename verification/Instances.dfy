/** Hosts on which all this happens: for every list of user names, one that lets a transaction through. */
module Instances {
  import opened Basics
  import opened AuthKeys
  import opened World
  import opened WritePolicy
  import opened TxState
  import opened Loading
  import opened Pitfalls
  import opened TxLaws
  import Manifest
  import Shell
  import L = AuthKeysLaws
  import H = Host

  /** A line is a key, and its own fingerprint. */
  const PLAIN := Codec((raw: Bytes) => Some(KeyText(raw, "", [])), (k: Key) => k, (k: Key) => k)

  /** Everybody's old key goes and a new one comes. */
  function Order(u: User, a: Action): Op {
    var k := if a == Adding then "new" else "old";
    Op(u, a, k, ByKey(k), Some(k), "", [])
  }

  function OrdersFor(users: seq<User>): (ops: seq<Op>)
    ensures forall op :: op in ops <==> exists u, a | u in users :: op == Order(u, a)
  {
    if users == [] then []
    else
      var rest := OrdersFor(users[1..]);
      assert forall u :: u in users <==> u == users[0] || u in users[1..];
      [Order(users[0], Adding), Order(users[0], Removing)] + rest
  }

  function ConfigFor(users: seq<User>): Config {
    Config(PLAIN, OrdersFor(users), {}, 1, "/%u", "/t", "root", false, false)
  }

  function HomePath(u: User): Path {
    "/" + u
  }

  function SiteFor(users: seq<User>): H.Site {
    H.Site(map u | u in users :: H.Account(Login("1", "1"), "/"), map[], Login("1", "1"))
  }

  function PathsFor(users: seq<User>): (paths: set<Path>)
    ensures forall u | u in users :: HomePath(u) in paths
  {
    set u | u in users :: HomePath(u)
  }

  function WorldFor(users: seq<User>): World {
    World(map p | p in PathsFor(users) :: Node("old\n", Meta("1", "1", "600")),
          {}, map[], None, false, false, [], false, true, map[], map[], [])
  }

  ghost predicate GoodNames(users: seq<User>) {
    && users != [] && (forall u | u in users :: Shell.ValidUsername(u))
    && forall i, j | 0 <= i < j < |users| :: users[i] != users[j]
  }

  lemma {:induction false} OrdersOf(users: seq<User>, u: User, a: Action)
    requires forall i, j | 0 <= i < j < |users| :: users[i] != users[j]
    ensures OpsOf(OrdersFor(users), u, a) == if u in users then [Order(u, a)] else []
  {
    if users != [] {
      OrdersOf(users[1..], u, a);
      var first, rest := [Order(users[0], Adding), Order(users[0], Removing)], OrdersFor(users[1..]);
      assert OrdersFor(users) == first + rest && (first + rest)[1..] == [first[1]] + rest;
      assert ([first[1]] + rest)[1..] == rest;
    }
  }

  lemma HomePathOf(users: seq<User>, u: User)
    requires u in users
    ensures PathOf(ConfigFor(users), SiteFor(users), u) == HomePath(u)
  {
    var t := "/%u";
    assert t[..2] != "%u" && t[..2] != "%h" by {
      assert t[..2][0] == '/';
    }
    assert t[1..] == "%u" && t[1..][..2] == "%u" && t[1..][2..] == "";
    assert Expand("%u", u, "/") == u + "";
  }

  lemma OrdersAreAcceptable(users: seq<User>)
    requires GoodNames(users)
    ensures Acceptable(PLAIN, OrdersFor(users)) && WellSpelled(OrdersFor(users))
  {
    hide Shell.ValidUsername;
    var ops := OrdersFor(users);
    forall op | op in ops
      ensures Shell.ValidUsername(op.user) && op.key.Some?
      ensures op.action == Adding ==> op.key == Some("new")
      ensures op.action == Removing ==> op.matcher == ByKey("old")
    {
      var u, a :| u in users && op == Order(u, a);
    }
    assert Order(users[0], Adding) in ops;
  }

  lemma OrdersAreFaithful(users: seq<User>)
    ensures FaithfulOps(PLAIN, OrdersFor(users))
  {
    hide L.Faithful;
    forall op | op in OrdersFor(users) && op.action == Adding
      ensures L.Faithful(PLAIN, GrantOf(op))
    {
      var u, a :| u in users && op == Order(u, a);
      NewIsFaithful();
    }
  }

  lemma NewIsFaithful()
    ensures L.Faithful(PLAIN, Grant("new", "", []))
  {
    assert GrantText(PLAIN, Grant("new", "", [])) == "new";
  }

  lemma UsersOfOrders(users: seq<User>)
    ensures forall u :: u in SortedUsers(OrdersFor(users)) <==> u in users
  {
    forall u
      ensures u in SortedUsers(OrdersFor(users)) <==> u in users
    {
      if u in users {
        assert Order(u, Adding) in OrdersFor(users);
      }
    }
  }

  lemma NamesAreSeparate(users: seq<User>)
    requires GoodNames(users)
    ensures Separate(ConfigFor(users), SiteFor(users))
  {
    hide PathOf, BakName;
    UsersOfOrders(users);
    forall u | u in users
      ensures PathOf(ConfigFor(users), SiteFor(users), u) == HomePath(u)
      ensures Manifest.CleanField(HomePath(u)) && Manifest.CleanField(BakName("/t", u))
    {
      HomePathOf(users, u);
      NamesAreClean(u);
    }
    forall u, v | u in users && v in users && u != v
      ensures HomePath(u) != HomePath(v)
    {
      SamePrefix("/", u, v);
    }
  }

  lemma NamesAreClean(u: User)
    requires Shell.ValidUsername(u)
    ensures Manifest.CleanField(HomePath(u)) && Manifest.CleanField(BakName("/t", u))
  {
    forall c | c in u
      ensures c != '\t' && c != '\n'
    {
      var i :| 0 <= i < |u| && u[i] == c;
    }
    assert BakName("/t", u) == "/t/backup/" + u;
  }

  lemma EverybodyLoads(users: seq<User>)
    ensures AllLoadable(ConfigFor(users), SiteFor(users), WorldFor(users))
  {
    hide PathOf, DirOf, H.StatOf;
    UsersOfOrders(users);
  }

  /** The old key's file gains a line and then loses one. */
  lemma TwiceChanged(ops: seq<Op>, u: User, t: Target)
    requires Planned(PLAIN, ops, u, t) && t.orig == Some("old\n")
    requires OpsOf(ops, u, Adding) == [Order(u, Adding)] && OpsOf(ops, u, Removing) == [Order(u, Removing)]
    ensures t.doc1 != t.doc0 && t.doc2 != t.doc1 && Keys(t.doc2.lines) != []
  {
    hide Parse, AddAll, RemoveAll, Add, Remove, OpsOf;
    OldFile();
    Single(Order(u, Adding), Order(u, Removing), t.doc0, t.doc1);
    NewFile();
    OnlyNew();
  }

  const OLD_LINE := Line("old", Some("old"), "", [])
  const NEW_LINE := Line("new", Some("new"), "", [])

  lemma Single(add: Op, rm: Op, d: Doc, e: Doc)
    ensures AddAll(PLAIN, d, Grants([add])) == Add(PLAIN, d, GrantOf(add))
    ensures RemoveAll(PLAIN, e, Matchers([rm])) == Remove(PLAIN, e, rm.matcher)
  {
    hide Add, Remove;
    assert [add][1..] == [] && Grants([add]) == [GrantOf(add)] && [GrantOf(add)][1..] == [];
    assert [rm][1..] == [] && Matchers([rm]) == [rm.matcher] && [rm.matcher][1..] == [];
  }

  lemma NewFile()
    ensures Add(PLAIN, Doc([OLD_LINE], false), Grant("new", "", [])) == Doc([OLD_LINE, NEW_LINE], false)
  {
    assert GrantLine(PLAIN, Grant("new", "", [])) == NEW_LINE;
    assert [OLD_LINE] + [NEW_LINE] == [OLD_LINE, NEW_LINE];
  }

  lemma OneKept(l: Line, m: Matcher)
    requires !Matches(PLAIN, m, l)
    ensures Kept(PLAIN, [l], m) == [l]
  {
    assert [l][1..] == [] && Select(PLAIN, [], m, false) == [];
    assert Select(PLAIN, [l], m, false) == [l] + Select(PLAIN, [l][1..], m, false);
  }

  lemma OnlyNew()
    ensures Remove(PLAIN, Doc([OLD_LINE, NEW_LINE], false), ByKey("old")) == Doc([NEW_LINE], false)
    ensures Keys([NEW_LINE]) != []
  {
    assert [OLD_LINE, NEW_LINE][1..] == [NEW_LINE] && "new"[0] != "old"[0];
    OneKept(NEW_LINE, ByKey("old"));
    assert NEW_LINE in [NEW_LINE];
  }

  lemma OldFile()
    ensures Parse(PLAIN, "old\n") == Doc([OLD_LINE], false)
  {
    assert "old\n"[..3] == "old";
    IndexAfter("old", '\n', "");
    assert IndexOf("old", '\n') == 3;
    assert Split("old") == ["old"];
    assert RawLines("old\n") == ["old"];
    assert ParseLine(PLAIN, "old") == OLD_LINE;
  }

  predicate TouchedTwice(t: Target) {
    t.doc1 != t.doc0 && t.doc2 != t.doc1 && Keys(t.doc2.lines) != []
  }

  /** What such a run is about to do to one user. */
  lemma PlanOfUser(users: seq<User>, u: User)
    requires GoodNames(users) && u in users
    ensures var p := PlanFor(ConfigFor(users), SiteFor(users), WorldFor(users));
            && u in p.ts && p.ts[u].bak == BakName("/t", u) && p.ts[u].orig.Some? && Adds(p, u)
            && TouchedTwice(p.ts[u])
  {
    hide OrdersFor, Parse, Expand, Stamp, H.StatOf, AddAll, RemoveAll, Grants, Matchers, OpsOf, SortedUsers, Planned;
    UsersOfOrders(users);
    HomePathOf(users, u);
    PlanIsPlanned(ConfigFor(users), SiteFor(users), WorldFor(users), u);
    OrdersOf(users, u, Adding);
    OrdersOf(users, u, Removing);
    TwiceChanged(OrdersFor(users), u, PlanFor(ConfigFor(users), SiteFor(users), WorldFor(users)).ts[u]);
  }

  lemma HitsExactly(users: seq<User>, v: User, u: User)
    requires GoodNames(users) && u in users && v in users
    ensures var p := PlanFor(ConfigFor(users), SiteFor(users), WorldFor(users));
            u in p.ts && v in p.ts && (SnapshotHits(p, v, u) <==> u == v + ".pre-remove")
  {
    hide PlanFor, Adds, BakName, SnapName;
    PlanOfUser(users, u);
    PlanOfUser(users, v);
    BackupNames("/t", u, v);
    SnapshotOf("/t", v);
  }

  lemma SnapshotOf(txdir: Path, v: User)
    ensures SnapName(BakName(txdir, v)) == BakName(txdir, v + ".pre-remove")
  {
  }

  lemma EverybodyIsPlanned(users: seq<User>)
    requires GoodNames(users)
    ensures PlanFor(ConfigFor(users), SiteFor(users), WorldFor(users)).ts.Keys == (set u | u in users)
  {
    hide TargetFor, OrdersFor, SortedUsers;
    UsersOfOrders(users);
  }

  /** Every user of the plan is one of them, with both changes. */
  ghost predicate AllTwice(users: seq<User>, p: Plan) {
    p.ts.Keys == (set u | u in users) && forall u | u in users :: TouchedTwice(p.ts[u])
  }

  lemma AllPlannedTwice(users: seq<User>)
    requires GoodNames(users)
    ensures var p := PlanFor(ConfigFor(users), SiteFor(users), WorldFor(users)); AllTwice(users, p) && Peopled(p)
  {
    hide PlanFor, TouchedAt;
    EverybodyIsPlanned(users);
    forall u | u in users
      ensures TouchedTwice(PlanFor(ConfigFor(users), SiteFor(users), WorldFor(users)).ts[u])
    {
      PlanOfUser(users, u);
    }
  }

  lemma ApartExactly(users: seq<User>)
    requires GoodNames(users)
    ensures NamesApart(PlanFor(ConfigFor(users), SiteFor(users), WorldFor(users)))
       <==> forall u, v | u in users && v in users :: u != v + ".pre-remove"
  {
    hide PlanFor, SnapshotHits;
    EverybodyIsPlanned(users);
    forall u, v | u in users && v in users
      ensures SnapshotHits(PlanFor(ConfigFor(users), SiteFor(users), WorldFor(users)), v, u) <==> u == v + ".pre-remove"
    {
      HitsExactly(users, v, u);
    }
  }

  /** Whatever the users are called, some host admits a transaction that changes each of their files twice,
      and lets it through if and only if no name is another one with the snapshots' ending. */
  lemma SomeHostAdmits(users: seq<User>)
    requires GoodNames(users)
    ensures var cfg, site, w := ConfigFor(users), SiteFor(users), WorldFor(users);
            && Admissible(cfg, site, w) && AllTwice(users, PlanFor(cfg, site, w))
            && (Welcome(cfg, site, w) <==> forall u, v | u in users && v in users :: u != v + ".pre-remove")
  {
    hide Acceptable, WellSpelled, FaithfulOps, Separate, AllLoadable, Expected, Peopled, NamesApart, OrdersFor, PlanFor,
         AllTwice, PathsFor;
    OrdersAreAcceptable(users);
    OrdersAreFaithful(users);
    NamesAreSeparate(users);
    EverybodyLoads(users);
    CalmRunIsExpected(ConfigFor(users), SiteFor(users), WorldFor(users));
    AllPlannedTwice(users);
    ApartExactly(users);
  }
}
