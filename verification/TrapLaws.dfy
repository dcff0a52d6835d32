/** The dead-man trap: idempotent, resumable, and right whenever the write-ahead log is. */
module TrapLaws {
  import opened Basics
  import opened WritePolicy
  import opened World
  import Manifest

  lemma RecordFrame(w: World, r: Manifest.Record)
    ensures var v := RestoreRecord(w, r);
            v == w.(disk := v.disk, refused := v.refused) && w.refused <= v.refused
  {
    hide RestoredDisk, TrapRefuses;
  }

  /** The trap never touches what it reads. */
  lemma {:induction false} RestoreFrame(w: World, rs: seq<Manifest.Record>)
    ensures var v := RestoreFrom(w, rs);
            v == w.(disk := v.disk, refused := v.refused) && w.refused <= v.refused
    decreases |rs|
  {
    hide RestoreRecord;
    if rs != [] {
      RecordFrame(w, rs[0]);
      RestoreFrame(RestoreRecord(w, rs[0]), rs[1..]);
    }
  }

  lemma {:induction false} RestoreSplits(w: World, a: seq<Manifest.Record>, b: seq<Manifest.Record>)
    ensures RestoreFrom(w, a + b) == RestoreFrom(RestoreFrom(w, a), b)
    decreases |a|
  {
    if a == [] {
      assert a + b == b;
    } else {
      assert (a + b)[1..] == a[1..] + b;
      RestoreSplits(RestoreRecord(w, a[0]), a[1..], b);
    }
  }

  // ------------------------------------------------- one path at a time

  function NodeAt(d: Disk, p: Path): Option<Node> {
    if p in d then Some(d[p]) else None
  }

  function MetaOf(x: Option<Node>): Meta {
    if x.Some? then x.value.meta else TRAP_META
  }

  predicate Deletes(w: World, r: Manifest.Record, p: Path) {
    r.dst == p && r.typ == "A" && p !in w.links
  }

  predicate Rewrites(w: World, r: Manifest.Record, p: Path) {
    r.dst == p && r.typ == "F" && p !in w.links && DirOf(p) !in w.links && r.bak in w.backups
  }

  /** What one record does to one path, given what is there. */
  function NodeAfter(w: World, r: Manifest.Record, p: Path, x: Option<Node>): Option<Node> {
    if Deletes(w, r, p) then None
    else if Rewrites(w, r, p) then Some(Node(w.backups[r.bak], MetaOf(x)))
    else x
  }

  function PathAfter(w: World, rs: seq<Manifest.Record>, p: Path, x: Option<Node>): Option<Node>
    decreases |rs|
  {
    if rs == [] then x else PathAfter(w, rs[1..], p, NodeAfter(w, rs[0], p, x))
  }

  lemma RecordNode(w: World, r: Manifest.Record, p: Path)
    ensures NodeAt(RestoreRecord(w, r).disk, p) == NodeAfter(w, r, p, NodeAt(w.disk, p))
  {
    hide DirOf;
  }

  lemma {:induction false} PathwiseRestore(w: World, rs: seq<Manifest.Record>, p: Path)
    ensures NodeAt(RestoreFrom(w, rs).disk, p) == PathAfter(w, rs, p, NodeAt(w.disk, p))
    decreases |rs|
  {
    hide RestoreRecord, NodeAfter, NodeAt;
    if rs != [] {
      var v := RestoreRecord(w, rs[0]);
      RecordFrame(w, rs[0]);
      RecordNode(w, rs[0], p);
      PathwiseRestore(v, rs[1..], p);
      SameSources(v, w, rs[1..], p, NodeAt(v.disk, p));
    }
  }

  lemma {:induction false} SameSources(v: World, w: World, rs: seq<Manifest.Record>, p: Path, x: Option<Node>)
    requires v.links == w.links && v.backups == w.backups
    ensures PathAfter(v, rs, p, x) == PathAfter(w, rs, p, x)
    decreases |rs|
  {
    if rs != [] {
      SameSources(v, w, rs[1..], p, NodeAfter(w, rs[0], p, x));
    }
  }

  lemma {:induction false} PathAfterSplits(w: World, a: seq<Manifest.Record>, b: seq<Manifest.Record>, p: Path,
                                           x: Option<Node>)
    ensures PathAfter(w, a + b, p, x) == PathAfter(w, b, p, PathAfter(w, a, p, x))
    decreases |a|
  {
    if a == [] {
      assert a + b == b;
    } else {
      assert (a + b)[1..] == a[1..] + b;
      PathAfterSplits(w, a[1..], b, p, NodeAfter(w, a[0], p, x));
    }
  }

  ghost predicate Untouched(w: World, rs: seq<Manifest.Record>, p: Path) {
    forall r | r in rs :: !Deletes(w, r, p) && !Rewrites(w, r, p)
  }

  lemma {:induction false} UntouchedPath(w: World, rs: seq<Manifest.Record>, p: Path, x: Option<Node>)
    requires Untouched(w, rs, p)
    ensures PathAfter(w, rs, p, x) == x
    decreases |rs|
  {
    if rs != [] {
      assert rs[0] in rs;
      UntouchedPath(w, rs[1..], p, x);
    }
  }

  /** Without a deletion the node keeps its owner and mode. */
  lemma {:induction false} MetaKept(w: World, rs: seq<Manifest.Record>, p: Path, x: Option<Node>)
    requires forall r | r in rs :: !Deletes(w, r, p)
    ensures MetaOf(PathAfter(w, rs, p, x)) == MetaOf(x)
    decreases |rs|
  {
    if rs != [] {
      assert rs[0] in rs;
      MetaKept(w, rs[1..], p, NodeAfter(w, rs[0], p, x));
    }
  }

  lemma OnlyFirst(w: World, rs: seq<Manifest.Record>, p: Path)
    requires rs != []
    ensures Untouched(w, rs, p) <==> !Deletes(w, rs[0], p) && !Rewrites(w, rs[0], p) && Untouched(w, rs[1..], p)
  {
    assert forall r :: r in rs <==> r == rs[0] || r in rs[1..];
  }

  /** Once a record touches the path, only owner and mode of what was there can matter. */
  lemma {:induction false} Converges(w: World, rs: seq<Manifest.Record>, p: Path, x: Option<Node>, y: Option<Node>)
    requires !Untouched(w, rs, p)
    requires MetaOf(x) == MetaOf(y) || exists r | r in rs :: Deletes(w, r, p)
    ensures PathAfter(w, rs, p, x) == PathAfter(w, rs, p, y)
    decreases |rs|
  {
    var x1, y1 := NodeAfter(w, rs[0], p, x), NodeAfter(w, rs[0], p, y);
    if x1 != y1 {
      assert forall r :: r in rs <==> r == rs[0] || r in rs[1..];
      OnlyFirst(w, rs, p);
      Converges(w, rs[1..], p, x1, y1);
    }
  }

  /** Stopping after any number of lines and starting again ends where one full run ends. */
  lemma Resumable(w: World, rs: seq<Manifest.Record>, k: nat)
    requires k <= |rs|
    ensures RestoreFrom(RestoreFrom(w, rs[..k]), rs).disk == RestoreFrom(w, rs).disk
  {
    var v := RestoreFrom(w, rs[..k]);
    RestoreFrame(w, rs[..k]);
    forall p
      ensures NodeAt(RestoreFrom(v, rs).disk, p) == NodeAt(RestoreFrom(w, rs).disk, p)
    {
      var x := NodeAt(w.disk, p);
      var y := PathAfter(w, rs[..k], p, x);
      PathwiseRestore(w, rs[..k], p);
      PathwiseRestore(v, rs, p);
      PathwiseRestore(w, rs, p);
      SameSources(v, w, rs, p, y);
      assert forall r | r in rs[..k] :: r in rs;
      if Untouched(w, rs, p) {
        UntouchedPath(w, rs[..k], p, x);
      } else {
        if !exists r | r in rs :: Deletes(w, r, p) {
          MetaKept(w, rs[..k], p, x);
        }
        Converges(w, rs, p, x, y);
      }
    }
    SameNodes(RestoreFrom(v, rs).disk, RestoreFrom(w, rs).disk);
  }

  lemma SameNodes(a: Disk, b: Disk)
    requires forall p :: NodeAt(a, p) == NodeAt(b, p)
    ensures a == b
  {
    forall p
      ensures p in a <==> p in b
      ensures p in a ==> a[p] == b[p]
    {
      assert NodeAt(a, p) == NodeAt(b, p);
    }
  }

  /** Running the trap a second time changes no file. */
  lemma Idempotent(w: World)
    ensures RestoreAll(RestoreAll(w)).disk == RestoreAll(w).disk
  {
    if !w.commit && w.manifest.Some? {
      var rs := Manifest.Decode(w.manifest.value);
      var v := RestoreFrom(w, rs);
      RestoreFrame(w, rs);
      assert rs[..|rs|] == rs;
      Resumable(w, rs, |rs|);
      RestoredFlagIrrelevant(v, rs, true);
    }
  }

  lemma RecordFlag(w: World, r: Manifest.Record, flag: bool)
    ensures RestoreRecord(w.(restored := flag), r) == RestoreRecord(w, r).(restored := flag)
  {
    hide RestoreFrom;
  }

  lemma {:induction false} RestoredFlagIrrelevant(w: World, rs: seq<Manifest.Record>, flag: bool)
    ensures RestoreFrom(w.(restored := flag), rs) == RestoreFrom(w, rs).(restored := flag)
    decreases |rs|
  {
    hide RestoreRecord;
    if rs != [] {
      RecordFlag(w, rs[0], flag);
      RestoredFlagIrrelevant(RestoreRecord(w, rs[0]), rs[1..], flag);
    }
  }

  // --------------------------------------------------------------- links

  /** The refusals on record are those of the records, and nothing else. */
  lemma {:induction false} RefusedExactly(w: World, rs: seq<Manifest.Record>, p: Path)
    ensures p in RestoreFrom(w, rs).refused
        <==> p in w.refused
             || exists r | r in rs :: r.dst == p
                  && ((r.typ == "F" && (p in w.links || DirOf(p) in w.links)) || (r.typ == "A" && p in w.links))
    decreases |rs|
  {
    hide DirOf, RestoredDisk;
    if rs != [] {
      var v := RestoreRecord(w, rs[0]);
      RecordFrame(w, rs[0]);
      RefusedExactly(v, rs[1..], p);
      assert forall r :: r in rs <==> r == rs[0] || r in rs[1..];
    }
  }

  /** Nothing is written through a link, and no link is removed. */
  lemma LinkedTargetKept(w: World, rs: seq<Manifest.Record>, p: Path)
    requires p in w.links
    ensures NodeAt(RestoreFrom(w, rs).disk, p) == NodeAt(w.disk, p)
  {
    PathwiseRestore(w, rs, p);
    UntouchedPath(w, rs, p, NodeAt(w.disk, p));
  }

  /** In a linked directory no content is written, but a record of an absent file still deletes. */
  lemma {:induction false} LinkedDirectoryExactly(w: World, rs: seq<Manifest.Record>, p: Path)
    requires p !in w.links && DirOf(p) in w.links
    ensures NodeAt(RestoreFrom(w, rs).disk, p)
         == if exists r | r in rs :: r.dst == p && r.typ == "A" then None else NodeAt(w.disk, p)
  {
    hide DirOf;
    PathwiseRestore(w, rs, p);
    DeletedThere(w, rs, p, NodeAt(w.disk, p));
  }

  lemma {:induction false} DeletedThere(w: World, rs: seq<Manifest.Record>, p: Path, x: Option<Node>)
    requires p !in w.links && DirOf(p) in w.links
    ensures PathAfter(w, rs, p, x) == if exists r | r in rs :: r.dst == p && r.typ == "A" then None else x
    decreases |rs|
  {
    hide DirOf;
    if rs != [] {
      DeletedThere(w, rs[1..], p, NodeAfter(w, rs[0], p, x));
      assert forall r :: r in rs <==> r == rs[0] || r in rs[1..];
    }
  }

  // ------------------------------------------------------- the shell loop

  /** restore_all as the shell runs it: one manifest line at a time. */
  class TrapShell {
    var w: World

    constructor (w: World)
      ensures this.w == w
    {
      this.w := w;
    }

    method RestoreAllLoop()
      modifies this
      ensures w == RestoreAll(old(w))
    {
      if w.commit {
        return;
      }
      if w.manifest.Some? {
        var text := w.manifest.value;
        ghost var rs := Manifest.Decode(text);
        var i := IndexOf(text, '\n');
        while i < |text|
          invariant i == IndexOf(text, '\n')
          invariant RestoreFrom(w, Manifest.Decode(text)) == RestoreFrom(old(w), rs)
          decreases |text|
        {
          var r := Manifest.ReadFields(text[..i]);
          ghost var rest := Manifest.Decode(text[i + 1..]);
          assert Manifest.Decode(text) == [r] + rest;
          if r.typ == "F" {
            if r.dst in w.links || DirOf(r.dst) in w.links {
              w := w.(refused := w.refused + [r.dst]);
            } else if r.bak in w.backups {
              w := w.(disk := w.disk[r.dst := Node(w.backups[r.bak], NodeMeta(w.disk, r.dst))]);
            }
          } else if r.typ == "A" {
            if r.dst in w.links {
              w := w.(refused := w.refused + [r.dst]);
            } else {
              w := w.(disk := w.disk - {r.dst});
            }
          }
          assert ([r] + rest)[1..] == rest;
          text := text[i + 1..];
          i := IndexOf(text, '\n');
        }
        w := w.(restored := true);
      }
    }
  }
}
