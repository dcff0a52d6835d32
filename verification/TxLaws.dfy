/** What a run means: for keys, for sshd, for owners, for the next run. */
module TxLaws {
  import opened Basics
  import opened AuthKeys
  import opened World
  import opened WritePolicy
  import opened TxState
  import opened Ending
  import opened Loading
  import opened Ledger
  import opened Records
  import opened Tx
  import L = AuthKeysLaws
  import Text = AuthKeysText
  import H = Host
  import Shell

  // -------------------------------------------------------------- the keys

  ghost predicate FaithfulOps(c: Codec, ops: seq<Op>) {
    forall op | op in ops && op.action == Adding :: L.Faithful(c, GrantOf(op))
  }

  lemma FaithfulGrants(c: Codec, ops: seq<Op>, u: User)
    requires FaithfulOps(c, ops)
    ensures forall g | g in Grants(OpsOf(ops, u, Adding)) :: L.Faithful(c, g)
  {
    hide L.Faithful;
    forall g | g in Grants(OpsOf(ops, u, Adding))
      ensures L.Faithful(c, g)
    {
      var op :| op in OpsOf(ops, u, Adding) && GrantOf(op) == g;
      assert op in ops;
    }
  }

  lemma DocsAreCanonical(c: Codec, ops: seq<Op>, u: User, t: Target)
    requires Planned(c, ops, u, t) && FaithfulOps(c, ops)
    ensures L.Canonical(c, t.doc0) && L.Canonical(c, t.doc1) && L.Canonical(c, t.doc2)
  {
    hide L.Canonical, L.Faithful, Parse, AddAll, RemoveAll;
    FaithfulGrants(c, ops, u);
    L.CanonicalParse(c, OrEmpty(t.orig));
    L.CanonicalAddAll(c, t.doc0, Grants(OpsOf(ops, u, Adding)));
    L.CanonicalRemoveAll(c, t.doc1, Matchers(OpsOf(ops, u, Removing)));
  }

  lemma RenderedHolds(c: Codec, d: Doc, k: Key)
    requires L.Canonical(c, d)
    ensures Holds(c, Some(Render(d)), k) <==> Has(d, k)
  {
    hide L.Canonical, Parse, Render;
    L.DiskAgrees(c, d);
    L.KeysAreHad(d, k);
    L.KeysAreHad(Parse(c, Render(d)), k);
  }

  /** In each of its three states the file on disk has exactly the keys of the document. */
  lemma DiskHolds(c: Codec, ops: seq<Op>, u: User, t: Target, k: Key)
    requires Planned(c, ops, u, t) && FaithfulOps(c, ops)
    ensures Holds(c, t.orig, k) <==> Has(t.doc0, k)
    ensures Holds(c, Mid(t), k) <==> Has(t.doc1, k)
    ensures Holds(c, Fin(t), k) <==> Has(t.doc2, k)
  {
    hide L.Canonical, Parse, Render, AddAll, RemoveAll, Has;
    DocsAreCanonical(c, ops, u, t);
    RenderedHolds(c, t.doc1, k);
    RenderedHolds(c, t.doc2, k);
  }

  /** A user's operations of one kind, in the order of the request. */
  lemma {:induction false} OpsOfSplits(a: seq<Op>, b: seq<Op>, u: User, x: Action)
    ensures OpsOf(a + b, u, x) == OpsOf(a, u, x) + OpsOf(b, u, x)
  {
    if a == [] {
      assert a + b == b;
    } else {
      assert (a + b)[1..] == a[1..] + b;
      OpsOfSplits(a[1..], b, u, x);
    }
  }

  lemma OpsOfOne(op: Op, u: User, x: Action)
    ensures OpsOf([op], u, x) == if op.user == u && op.action == x then [op] else []
  {
    assert [op][1..] == [];
  }

  /** Each addition brings its key, comment and options, each removal its matcher, in that order. */
  lemma {:induction false} OpsInOrder(ops: seq<Op>, i: nat)
    requires i < |ops|
    ensures ops[i].key.Some? ==> Grants(ops)[i] == Grant(ops[i].key.value, ops[i].comment, ops[i].options)
    ensures Matchers(ops)[i] == ops[i].matcher
  {
    if i > 0 {
      OpsInOrder(ops[1..], i - 1);
    }
  }

  /** Which keys the operations take from a user, and which they give. */
  ghost predicate Revoked(c: Codec, ops: seq<Op>, u: User, k: Key) {
    exists op | op in ops && op.user == u && op.action == Removing :: MatchesKey(c, op.matcher, k)
  }

  ghost predicate Granted(ops: seq<Op>, u: User, k: Key) {
    exists op | op in ops && op.user == u && op.action == Adding :: op.key == Some(k)
  }

  lemma MatchersRevoke(c: Codec, ops: seq<Op>, u: User, k: Key)
    ensures (exists m | m in Matchers(OpsOf(ops, u, Removing)) :: MatchesKey(c, m, k)) <==> Revoked(c, ops, u, k)
  {
    hide MatchesKey;
    if exists m | m in Matchers(OpsOf(ops, u, Removing)) :: MatchesKey(c, m, k) {
      var m :| m in Matchers(OpsOf(ops, u, Removing)) && MatchesKey(c, m, k);
      var op :| op in OpsOf(ops, u, Removing) && op.matcher == m;
      assert op in ops;
    }
    if Revoked(c, ops, u, k) {
      var op :| op in ops && op.user == u && op.action == Removing && MatchesKey(c, op.matcher, k);
      assert op in OpsOf(ops, u, Removing);
      assert op.matcher in Matchers(OpsOf(ops, u, Removing));
    }
  }

  lemma GrantsGrant(c: Codec, ops: seq<Op>, u: User, k: Key)
    requires Acceptable(c, ops)
    ensures (exists g | g in Grants(OpsOf(ops, u, Adding)) :: g.key == k) <==> Granted(ops, u, k)
  {
    hide SelfCancelling, Shell.ValidUsername;
    if exists g | g in Grants(OpsOf(ops, u, Adding)) :: g.key == k {
      var g :| g in Grants(OpsOf(ops, u, Adding)) && g.key == k;
      var op :| op in OpsOf(ops, u, Adding) && GrantOf(op) == g;
      assert op in ops;
    }
    if Granted(ops, u, k) {
      var op :| op in ops && op.user == u && op.action == Adding && op.key == Some(k);
      assert op in OpsOf(ops, u, Adding);
      assert GrantOf(op) in Grants(OpsOf(ops, u, Adding));
    }
  }

  /** The documents' key sets, in terms of the request alone. */
  lemma DocKeys(c: Codec, ops: seq<Op>, u: User, t: Target, k: Key)
    requires Planned(c, ops, u, t) && Acceptable(c, ops)
    ensures Has(t.doc1, k) <==> Has(t.doc0, k) || Granted(ops, u, k)
    ensures Has(t.doc2, k) <==> (Has(t.doc0, k) && !Revoked(c, ops, u, k)) || Granted(ops, u, k)
  {
    hide Acceptable, Parse, AddAll, RemoveAll, Has, Granted, Revoked, MatchesKey;
    var gs, ms := Grants(OpsOf(ops, u, Adding)), Matchers(OpsOf(ops, u, Removing));
    AcceptedIsCompatible(c, ops, u);
    assert L.Compatible(c, gs, ms);
    L.AddAllKeys(c, t.doc0, gs);
    L.FinalKeys(c, t.doc0, gs, ms, k);
    MatchersRevoke(c, ops, u, k);
    GrantsGrant(c, ops, u, k);
  }

  /** The keys in a file after a commit, by the request's own words: what it had and no removal names, by key or by
      fingerprint, and what was added. */
  lemma CommittedKeys(c: Codec, p: Plan, w: World, u: User, k: Key)
    requires AllFin(p, w) && u in p.ts && Planned(c, p.ops, u, p.ts[u])
    requires Acceptable(c, p.ops) && FaithfulOps(c, p.ops)
    ensures Holds(c, At(w, p.ts[u].path), k)
       <==> || (exists op | op in p.ops && op.user == u && op.action == Adding :: op.key == Some(k))
            || (Holds(c, p.ts[u].orig, k)
                && forall op | op in p.ops && op.user == u && op.action == Removing ::
                     op.matcher != ByKey(k) && op.matcher != ByFingerprint(c.fingerprint(k)))
  {
    hide Acceptable, FaithfulOps, Holds, Has, Fin, Mid, Planned;
    DiskHolds(c, p.ops, u, p.ts[u], k);
    DocKeys(c, p.ops, u, p.ts[u], k);
    assert At(w, p.ts[u].path) == Fin(p.ts[u]);
    forall op | op in p.ops
      ensures MatchesKey(c, op.matcher, k) <==> op.matcher == ByKey(k) || op.matcher == ByFingerprint(c.fingerprint(k))
    {
      Text.MatchesExactly(c, op.matcher, k);
    }
  }

  /** The text a file has between the phases: the original and the new keys' lines. */
  lemma MidText(c: Codec, ops: seq<Op>, u: User, t: Target)
    requires Planned(c, ops, u, t)
    ensures var more := Text.AddedText(c, (set k | k in Keys(t.doc0.lines)), Grants(OpsOf(ops, u, Adding)));
            OrEmpty(Mid(t))
            == if more == "" then OrEmpty(t.orig) else OrEmpty(t.orig) + Text.Separator(OrEmpty(t.orig)) + more
  {
    hide Parse, AddAll, RemoveAll, Render, OpsOf, Grants, Matchers, Text.Separator, Text.AddedText, Keys;
    L.RoundTrip(c, OrEmpty(t.orig));
    Text.AdditionsText(c, OrEmpty(t.orig), Grants(OpsOf(ops, u, Adding)));
  }

  /** The text a file has in the end: the lines no removal names, and the new keys' lines. */
  lemma FinText(c: Codec, ops: seq<Op>, u: User, t: Target)
    requires Planned(c, ops, u, t) && Acceptable(c, ops)
    ensures var ms := Matchers(OpsOf(ops, u, Removing));
            var kept := Text.TextWithout(c, t.doc0.lines, ms);
            var left := set k | k in Keys(t.doc0.lines) && ByKey(k) !in ms && ByFingerprint(c.fingerprint(k)) !in ms;
            var more := Text.AddedText(c, left, Grants(OpsOf(ops, u, Adding)));
            OrEmpty(Fin(t))
            == if more != "" then kept + more
               else if kept != "" && t.doc0.noFinalNewline then kept[..|kept| - 1] else kept
  {
    hide Parse, AddAll, RemoveAll, Render, OpsOf, Grants, Matchers, Text.TextWithout, Text.AddedText, Keys, Acceptable;
    FinIsRendered(c, ops, u, t);
    EitherOrder(c, ops, u, t);
    Tidied(c, OrEmpty(t.orig));
    Text.EditedText(c, t.doc0, Grants(OpsOf(ops, u, Adding)), Matchers(OpsOf(ops, u, Removing)));
  }

  lemma Tidied(c: Codec, content: Bytes)
    ensures Tidy(Parse(c, content))
  {
    hide ParseLines, ParseLine, TrimNewline;
  }

  /** The order of the phases does not matter to the end state. */
  lemma EitherOrder(c: Codec, ops: seq<Op>, u: User, t: Target)
    requires Planned(c, ops, u, t) && Acceptable(c, ops)
    ensures t.doc2 == AddAll(c, RemoveAll(c, t.doc0, Matchers(OpsOf(ops, u, Removing))), Grants(OpsOf(ops, u, Adding)))
  {
    hide Acceptable, AddAll, RemoveAll, MatchesKey;
    AcceptedIsCompatible(c, ops, u);
    L.PhaseOrderIrrelevant(c, t.doc0, Grants(OpsOf(ops, u, Adding)), Matchers(OpsOf(ops, u, Removing)));
  }

  /** No lockout window: the keys on disk in any state of any run.
      Until every addition is proven no original key is missing; what is never revoked is never missing. */
  lemma KeysInEveryState(c: Codec, p: Plan, forgotten: set<User>, lost: bool, s: World, u: User, k: Key)
    requires Sound(p, forgotten, lost, s) && u in p.ts && Planned(c, p.ops, u, p.ts[u])
    requires Acceptable(c, p.ops) && FaithfulOps(c, p.ops)
    ensures var before, now := Holds(c, p.ts[u].orig, k), Holds(c, At(s, p.ts[u].path), k);
            && (before && (!AddsProven(p, s.probes) || !Revoked(c, p.ops, u, k)) ==> now)
            && (now ==> before || Granted(p.ops, u, k))
            && (At(s, p.ts[u].path) == Fin(p.ts[u])
                ==> (now <==> (before && !Revoked(c, p.ops, u, k)) || Granted(p.ops, u, k)))
  {
    hide Acceptable, FaithfulOps, Holds, Has, Mid, Fin, Planned, At, Recoverable, AddsProven, AllFin, LeftAt, OrigOrFin,
         Granted, Revoked;
    var t := p.ts[u];
    DiskHolds(c, p.ops, u, t, k);
    DocKeys(c, p.ops, u, t, k);
    assert Staged(t, s);
    if At(s, t.path) != t.orig && At(s, t.path) != Mid(t) {
      assert AddsProven(p, s.probes);
    }
  }

  /** A user with an addition and at least one key to begin with never has a keyless file. */
  lemma NeverKeyless(c: Codec, p: Plan, forgotten: set<User>, lost: bool, s: World, u: User, own: Key, new_: Key)
    requires Sound(p, forgotten, lost, s) && u in p.ts && Planned(c, p.ops, u, p.ts[u])
    requires Acceptable(c, p.ops) && FaithfulOps(c, p.ops)
    requires Holds(c, p.ts[u].orig, own) && Granted(p.ops, u, new_)
    ensures Holds(c, At(s, p.ts[u].path), own) || Holds(c, At(s, p.ts[u].path), new_)
  {
    hide Acceptable, FaithfulOps, Holds, Has, Mid, Fin, Planned, At, Recoverable, AddsProven, AllFin, LeftAt, OrigOrFin,
         Granted, Revoked;
    var t := p.ts[u];
    assert Staged(t, s);
    DiskHolds(c, p.ops, u, t, own);
    DocKeys(c, p.ops, u, t, own);
    DiskHolds(c, p.ops, u, t, new_);
    DocKeys(c, p.ops, u, t, new_);
  }

  /** Once every addition is proven, and until the trap goes off or the run turns back, each granted key is on disk. */
  lemma GrantedSinceProof(c: Codec, h: H.Host, p: Plan, n: nat, i: nat, u: User, k: Key)
    requires ForwardUntil(h, p, n) && i <= n && i < |h.trace| && AllPlanned(c, p)
    requires !h.trace[i].restored && AddsProven(p, h.trace[i].probes)
    requires Acceptable(c, p.ops) && FaithfulOps(c, p.ops) && u in p.ts && Granted(p.ops, u, k)
    ensures Holds(c, At(h.trace[i], p.ts[u].path), k)
  {
    hide ForwardUntil, Acceptable, FaithfulOps, Holds, Has, Mid, Fin, Planned, At, AddsProven, Revoked;
    var a :| a in p.ops && a.user == u && a.action == Adding && a.key == Some(k);
    ProvenIsMidOrFin(h, p, n, i, a);
    DiskHolds(c, p.ops, u, p.ts[u], k);
    DocKeys(c, p.ops, u, p.ts[u], k);
  }

  /** In a run that turned back: until it did. */
  lemma GrantedUntilTurned(c: Codec, h: H.Host, f: Fall, i: nat, u: User, k: Key)
    requires Fell(h, f) && h.start.probes == [] && i <= f.n && i < |h.trace| && AllPlanned(c, f.p)
    requires !h.trace[i].restored && AddsProven(f.p, h.trace[i].probes)
    requires Acceptable(c, f.p.ops) && FaithfulOps(c, f.p.ops) && u in f.p.ts && Granted(f.p.ops, u, k)
    ensures Holds(c, At(h.trace[i], f.p.ts[u].path), k)
  {
    hide Fell, AllPlanned, ForwardUntil, Acceptable, FaithfulOps, Holds, AddsProven, Granted;
    FallGoesForward(h, f);
    GrantedSinceProof(c, h, f.p, f.n, i, u, k);
  }

  /** In a run that committed: for good, from its marker on whatever becomes of the guard. */
  lemma GrantedForGood(c: Codec, h: H.Host, p: Plan, n: nat, i: nat, u: User, k: Key)
    requires h.Valid() && h.start.probes == [] && Completed(p, h.calls) && FinalSince(h, p, n) && AllPlanned(c, p)
    requires i < |h.trace| && (i < n ==> !h.trace[i].restored && AddsProven(p, h.trace[i].probes))
    requires Acceptable(c, p.ops) && FaithfulOps(c, p.ops) && u in p.ts && Granted(p.ops, u, k)
    ensures Holds(c, At(h.trace[i], p.ts[u].path), k)
  {
    hide H.Host.Valid, ForwardUntil, Acceptable, FaithfulOps, Holds, Has, Planned, Completed, AddsProven, Granted, Mid,
         Fin, Revoked;
    if i < n {
      CommitGoesForward(h, p, n);
      GrantedSinceProof(c, h, p, n, i, u, k);
    } else {
      assert At(h.trace[i], p.ts[u].path) == Fin(p.ts[u]);
      DiskHolds(c, p.ops, u, p.ts[u], k);
      DocKeys(c, p.ops, u, p.ts[u], k);
    }
  }

  // ------------------------------------------------------ removals are probed

  lemma {:induction false} FirstRemoved(c: Codec, lines: seq<Line>, m: Matcher, j: nat)
    requires j < |lines| && Matches(c, m, lines[j]) && forall i | 0 <= i < j :: !Matches(c, m, lines[i])
    ensures Removed(c, lines, m) != [] && Removed(c, lines, m)[0] == lines[j]
  {
    hide Matches;
    if j > 0 {
      FirstRemoved(c, lines[1..], m, j - 1);
    }
  }

  lemma {:induction false} NoneRemoved(c: Codec, lines: seq<Line>, m: Matcher)
    requires forall i | 0 <= i < |lines| :: !Matches(c, m, lines[i])
    ensures Removed(c, lines, m) == []
  {
    hide Matches;
    if lines != [] {
      NoneRemoved(c, lines[1..], m);
    }
  }

  /** A removal without a key gets that of the first line it deletes; one that has a key, or deletes nothing, keeps
      what it has. */
  lemma FirstLineGivesKey(c: Codec, d: Doc, rm: Op, rest: seq<Op>, j: nat)
    requires j <= |d.lines|
    requires forall i | 0 <= i < j && d.lines[i].key.Some? ::
               var k := d.lines[i].key.value; rm.matcher != ByKey(k) && rm.matcher != ByFingerprint(c.fingerprint(k))
    requires j == |d.lines|
             || (d.lines[j].key.Some?
                 && rm.matcher in {ByKey(d.lines[j].key.value), ByFingerprint(c.fingerprint(d.lines[j].key.value))})
    ensures Enriched(c, d, [rm] + rest)[0]
         == if rm.key.Some? || j == |d.lines| then rm else rm.(key := d.lines[j].key)
  {
    hide Removed, Remove;
    forall i | 0 <= i < |d.lines| && d.lines[i].key.Some?
      ensures Matches(c, rm.matcher, d.lines[i])
         <==> rm.matcher in {ByKey(d.lines[i].key.value), ByFingerprint(c.fingerprint(d.lines[i].key.value))}
    {
      Text.MatchesExactly(c, rm.matcher, d.lines[i].key.value);
    }
    if j < |d.lines| {
      FirstRemoved(c, d.lines, rm.matcher, j);
    } else {
      NoneRemoved(c, d.lines, rm.matcher);
    }
  }

  /** Of the copies with the removal's spec and a key, the last one gives its key. */
  lemma {:induction false} LastCopyWins(op: Op, copies: seq<Op>, i: nat)
    requires op.action == Removing && i < |copies| && copies[i].spec == op.spec && copies[i].key.Some?
    requires forall j | i < j < |copies| :: copies[j].spec != op.spec || copies[j].key.None?
    ensures WriteBack(op, copies) == op.(key := copies[i].key)
    decreases |copies|
  {
    if i < |copies| - 1 {
      LastCopyWins(op, copies[..|copies| - 1], i);
    }
  }

  /** How the command line fills an operation: a full key is its own matcher, a fingerprint brings no key. */
  predicate Spelled(op: Op) {
    match op.matcher
    case ByKey(k) => op.key == Some(k)
    case ByFingerprint(_) => op.action == Removing ==> op.key == None
  }

  ghost predicate WellSpelled(ops: seq<Op>) {
    forall op | op in ops :: Spelled(op)
  }

  /** One user's equal specs say the same. */
  ghost predicate SpecsAgree(ops: seq<Op>) {
    forall a, b | a in ops && b in ops && a.user == b.user && a.spec == b.spec :: a.matcher == b.matcher
  }

  /** No two keys of the document share a fingerprint. */
  ghost predicate NoCollision(c: Codec, d: Doc) {
    forall a, b | Has(d, a) && Has(d, b) :: c.fingerprint(a) == c.fingerprint(b) ==> a == b
  }

  /** What an enriched copy's key can be: its own, or one its matcher deleted from the document. */
  ghost predicate CopyOf(c: Codec, d: Doc, rm: Op, copy: Op) {
    && copy == rm.(key := copy.key)
    && (copy.key == rm.key
        || (rm.key.None? && copy.key.Some? && Has(d, copy.key.value) && MatchesKey(c, rm.matcher, copy.key.value)))
  }

  lemma CopyIsOf(c: Codec, d: Doc, rm: Op)
    ensures CopyOf(c, d, rm, Enrich(rm, Removed(c, d.lines, rm.matcher)))
  {
    var removed := Removed(c, d.lines, rm.matcher);
    if removed != [] {
      SelectMembers(c, d.lines, rm.matcher, true);
      assert removed[0] in removed;
    }
  }

  lemma CopyOfSmaller(c: Codec, d: Doc, m: Matcher, rm: Op, copy: Op)
    requires CopyOf(c, Remove(c, d, m), rm, copy)
    ensures CopyOf(c, d, rm, copy)
  {
    SelectMembers(c, d.lines, m, false);
  }

  lemma {:induction false} CopiesAreOf(c: Codec, d: Doc, rms: seq<Op>, i: nat)
    requires i < |rms|
    ensures CopyOf(c, d, rms[i], Enriched(c, d, rms)[i])
    decreases |rms|
  {
    hide CopyOf, Enrich, Remove, Removed;
    CopyIsOf(c, d, rms[0]);
    if i > 0 {
      CopiesAreOf(c, Remove(c, d, rms[0].matcher), rms[1..], i - 1);
      CopyOfSmaller(c, d, rms[0].matcher, rms[i], Enriched(c, d, rms)[i]);
    }
  }

  /** A key the removals delete is deleted by a first one, whose copy then carries a key. */
  lemma {:induction false} FirstDeleter(c: Codec, d: Doc, rms: seq<Op>, k: Key) returns (i: nat)
    requires Has(d, k) && !Has(RemoveAll(c, d, Matchers(rms)), k)
    ensures i < |rms| && MatchesKey(c, rms[i].matcher, k) && Enriched(c, d, rms)[i].key.Some?
    decreases |rms|
  {
    hide Has, MatchesKey, Matches;
    if MatchesKey(c, rms[0].matcher, k) {
      i := 0;
      DeletedLine(c, d, rms[0], k);
    } else {
      L.RemoveKeepsOther(c, d, rms[0].matcher, k);
      i := FirstDeleter(c, Remove(c, d, rms[0].matcher), rms[1..], k);
      i := i + 1;
    }
  }

  lemma DeletedLine(c: Codec, d: Doc, rm: Op, k: Key)
    requires Has(d, k) && MatchesKey(c, rm.matcher, k)
    ensures Enrich(rm, Removed(c, d.lines, rm.matcher)).key.Some?
  {
    var l :| l in d.lines && l.key == Some(k);
    SelectMembers(c, d.lines, rm.matcher, true);
    assert l in Removed(c, d.lines, rm.matcher);
    assert Removed(c, d.lines, rm.matcher)[0] in Removed(c, d.lines, rm.matcher);
  }

  /** The write-back gives an operation the key of a copy with its spec, if one has a key. */
  lemma {:induction false} WriteBackKey(op: Op, copies: seq<Op>)
    ensures var r := WriteBack(op, copies);
            && r == op.(key := r.key)
            && (r.key == op.key || exists i | 0 <= i < |copies| :: copies[i].spec == op.spec && copies[i].key == r.key)
    ensures op.action == Removing && (exists i | 0 <= i < |copies| :: copies[i].spec == op.spec && copies[i].key.Some?)
            ==> exists i | 0 <= i < |copies| :: copies[i].spec == op.spec && copies[i].key == WriteBack(op, copies).key
                                                 && copies[i].key.Some?
    decreases |copies|
  {
    if op.action == Removing && copies != [] {
      var n := |copies| - 1;
      WriteBackKey(op, copies[..n]);
      if !(copies[n].spec == op.spec && copies[n].key.Some?) {
        var front := copies[..n];
        if i :| 0 <= i < |copies| && copies[i].spec == op.spec && copies[i].key.Some? {
          assert front[i] == copies[i];
          var j :| 0 <= j < |front| && front[j].spec == op.spec && front[j].key == WriteBack(op, front).key
                   && front[j].key.Some?;
          assert copies[j] == front[j];
        }
        var r := WriteBack(op, front);
        if r.key != op.key {
          var j :| 0 <= j < |front| && front[j].spec == op.spec && front[j].key == r.key;
          assert copies[j] == front[j];
        }
      }
    }
  }

  lemma RemovedMatcher(c: Codec, ops: seq<Op>, u: User, t: Target, rm: Op, k: Key)
    requires Planned(c, ops, u, t) && rm in OpsOf(ops, u, Removing) && MatchesKey(c, rm.matcher, k)
    ensures !Has(t.doc2, k)
  {
    hide MatchesKey, Has, Parse, AddAll, RemoveAll;
    L.RemoveAllKeys(c, t.doc1, Matchers(OpsOf(ops, u, Removing)));
    assert rm.matcher in Matchers(OpsOf(ops, u, Removing));
  }

  /** The key a copy carries is one that some removal of the same user matches. */
  lemma CopyKeyIsMatched(c: Codec, d: Doc, rms: seq<Op>, i: nat, k: Key)
    requires i < |rms| && WellSpelled(rms) && rms[i].action == Removing && Enriched(c, d, rms)[i].key == Some(k)
    ensures MatchesKey(c, rms[i].matcher, k)
  {
    hide Enriched, Has;
    CopiesAreOf(c, d, rms, i);
    assert Spelled(rms[i]);
  }

  /** A deletion by fingerprint: every copy with the removal's spec carries the same key. */
  lemma SameSpecSameKey(c: Codec, d: Doc, rms: seq<Op>, i: nat, j: nat, k: Key)
    requires i < |rms| && j < |rms| && WellSpelled(rms) && SpecsAgree(rms) && NoCollision(c, d)
    requires forall op | op in rms :: op.action == Removing && op.user == rms[i].user
    requires Has(d, k) && MatchesKey(c, rms[i].matcher, k) && rms[i].key.None?
    requires Enriched(c, d, rms)[j].spec == rms[i].spec && Enriched(c, d, rms)[j].key.Some?
    ensures Enriched(c, d, rms)[j].key == Some(k)
  {
    hide Enriched, Has;
    CopiesAreOf(c, d, rms, j);
    assert Spelled(rms[i]) && Spelled(rms[j]);
    assert rms[i] in rms && rms[j] in rms;
  }

  lemma SpelledPart(ops: seq<Op>, u: User)
    requires WellSpelled(ops) && SpecsAgree(ops)
    ensures WellSpelled(OpsOf(ops, u, Removing)) && SpecsAgree(OpsOf(ops, u, Removing))
  {
  }

  /** What the write-back leaves in an operation whose removal deleted k first. */
  lemma CarriesKey(c: Codec, d: Doc, rms: seq<Op>, i: nat, k: Key)
    requires i < |rms| && WellSpelled(rms) && SpecsAgree(rms) && NoCollision(c, d)
    requires forall op | op in rms :: op.action == Removing && op.user == rms[i].user
    requires Has(d, k) && MatchesKey(c, rms[i].matcher, k) && Enriched(c, d, rms)[i].key.Some?
    ensures rms[i].key == Some(k) || (rms[i].key.None? && WriteBack(rms[i], Enriched(c, d, rms)).key == Some(k))
  {
    hide Enriched, Has, WriteBack;
    assert Spelled(rms[i]);
    if rms[i].key.None? {
      var copies := Enriched(c, d, rms);
      CopiesAreOf(c, d, rms, i);
      WriteBackKey(rms[i], copies);
      var j :| 0 <= j < |copies| && copies[j].spec == rms[i].spec && copies[j].key == WriteBack(rms[i], copies).key
               && copies[j].key.Some?;
      SameSpecSameKey(c, d, rms, i, j, k);
    }
  }

  /** Every key the remove phase deletes ends up in an operation, there to be probed. */
  lemma DeletedKeyIsCarried(c: Codec, p: Plan, u: User, k: Key) returns (op: Op)
    requires u in p.ts && Planned(c, p.ops, u, p.ts[u]) && Has(p.ts[u].doc1, k) && !Has(p.ts[u].doc2, k)
    requires WellSpelled(p.ops) && SpecsAgree(p.ops) && NoCollision(c, p.ts[u].doc1)
    ensures op in AfterRemoval(c, p) && op.user == u && op.action == Removing && op.key == Some(k)
  {
    hide Enriched, Has, WriteBack, Parse, AddAll, RemoveAll, MatchesKey, NoCollision, WellSpelled, SpecsAgree;
    var rms := OpsOf(p.ops, u, Removing);
    SpelledPart(p.ops, u);
    var i := FirstDeleter(c, p.ts[u].doc1, rms, k);
    assert rms[i] in rms;
    CarriesKey(c, p.ts[u].doc1, rms, i, k);
    WriteBackKey(rms[i], Enriched(c, p.ts[u].doc1, rms));
    var n :| 0 <= n < |p.ops| && p.ops[n] == rms[i];
    op := AfterRemoval(c, p)[n];
  }

  /** So a committed run has seen every deleted key refused, after its user's control. */
  lemma EveryDeletionIsRefused(c: Codec, p: Plan, qs: seq<Probe>, u: User, k: Key)
    requires u in p.ts && Planned(c, p.ops, u, p.ts[u]) && Has(p.ts[u].doc1, k) && !Has(p.ts[u].doc2, k)
    requires WellSpelled(p.ops) && SpecsAgree(p.ops) && NoCollision(c, p.ts[u].doc1)
    requires RemovalsProven(c, p, AfterRemoval(c, p), qs)
    ensures exists j: nat :: RefusedAt(p, u, k, qs, j)
  {
    hide Planned, Has, NoCollision, WellSpelled, SpecsAgree, AfterRemoval, RefusedAt;
    var op := DeletedKeyIsCarried(c, p, u, k);
    assert RemovalProven(c, p, op, qs);
  }

  // ----------------------------------------------- what an honest sshd says

  lemma AddsAreVisible(c: Codec, p: Plan)
    requires Acceptable(c, p.ops) && FaithfulOps(c, p.ops)
    requires forall op | op in p.ops :: op.user in p.ts
    requires forall u | u in p.ts :: Planned(c, p.ops, u, p.ts[u])
    ensures AddsVisible(c, p)
  {
    hide Planned, Holds, Has, Mid, Fin, FaithfulOps, SelfCancelling, Shell.ValidUsername;
    forall op | op in p.ops && op.action == Adding
      ensures op.key.Some? && Holds(c, Mid(p.ts[op.user]), op.key.value)
    {
      DiskHolds(c, p.ops, op.user, p.ts[op.user], op.key.value);
      DocKeys(c, p.ops, op.user, p.ts[op.user], op.key.value);
    }
  }

  lemma FinalKeysAreVisible(c: Codec, p: Plan)
    requires FaithfulOps(c, p.ops) && forall u | u in p.ts :: Planned(c, p.ops, u, p.ts[u])
    ensures FinalVisible(c, p)
  {
    hide Planned, Holds, Has, Mid, Fin, FaithfulOps;
    forall u, k | u in p.ts && k in Keys(p.ts[u].doc2.lines)
      ensures Holds(c, Fin(p.ts[u]), k)
    {
      DiskHolds(c, p.ops, u, p.ts[u], k);
      L.KeysAreHad(p.ts[u].doc2, k);
    }
  }

  lemma OneIsGone(c: Codec, p: Plan, op: Op)
    requires op in p.ops && op.action == Removing && op.user in p.ts
    requires FaithfulOps(c, p.ops) && WellSpelled(p.ops) && Planned(c, p.ops, op.user, p.ts[op.user])
    ensures Gone(c, p, WrittenBack(op, Copies(c, p)))
  {
    hide Planned, Holds, Has, Mid, Fin, FaithfulOps, MatchesKey, Enriched, WriteBack;
    var u, t, rms := op.user, p.ts[op.user], OpsOf(p.ops, op.user, Removing);
    var copies := Enriched(c, t.doc1, rms);
    var r := WrittenBack(op, Copies(c, p));
    assert op in rms;
    WriteBackKey(op, copies);
    match r.key
    case Some(k) =>
      DiskHolds(c, p.ops, u, t, k);
      if r.key == op.key {
        assert MatchesKey(c, op.matcher, k) by {
          OwnKeyMatches(c, p.ops, op, k);
        }
        RemovedMatcher(c, p.ops, u, t, op, k);
      } else {
        var i :| 0 <= i < |copies| && copies[i].key == r.key;
        assert WellSpelled(rms);
        CopyKeyIsMatched(c, t.doc1, rms, i, k);
        RemovedMatcher(c, p.ops, u, t, rms[i], k);
      }
    case None =>
      NoMatchLeft(c, p.ops, u, t, op);
  }

  lemma OwnKeyMatches(c: Codec, ops: seq<Op>, op: Op, k: Key)
    requires op in ops && WellSpelled(ops) && op.action == Removing && op.key == Some(k)
    ensures MatchesKey(c, op.matcher, k)
  {
    assert Spelled(op);
  }

  lemma NoMatchLeft(c: Codec, ops: seq<Op>, u: User, t: Target, op: Op)
    requires Planned(c, ops, u, t) && op in OpsOf(ops, u, Removing)
    ensures forall l | l in t.doc2.lines :: !Matches(c, op.matcher, l)
  {
    hide Planned, MatchesKey;
    forall l | l in t.doc2.lines
      ensures !Matches(c, op.matcher, l)
    {
      if l.key.Some? {
        assert Has(t.doc2, l.key.value);
        if MatchesKey(c, op.matcher, l.key.value) {
          RemovedMatcher(c, ops, u, t, op, l.key.value);
        }
      }
    }
  }

  /** The expectations behind a smooth run are consequences of the request, not further assumptions. */
  lemma RequestIsExpected(c: Codec, p: Plan)
    requires Acceptable(c, p.ops) && FaithfulOps(c, p.ops) && WellSpelled(p.ops)
    requires forall op | op in p.ops :: op.user in p.ts
    requires forall u | u in p.ts :: Planned(c, p.ops, u, p.ts[u])
    ensures Expected(c, p)
  {
    hide Acceptable, FaithfulOps, WellSpelled, Planned, AddsVisible, FinalVisible, Gone, Copies, WrittenBack;
    AddsAreVisible(c, p);
    FinalKeysAreVisible(c, p);
    forall r | r in AfterRemoval(c, p) && r.action == Removing
      ensures Gone(c, p, r)
    {
      var i :| 0 <= i < |p.ops| && r == WrittenBack(p.ops[i], Copies(c, p));
      SameAction(p.ops[i], Copies(c, p));
      assert p.ops[i] in p.ops;
      OneIsGone(c, p, p.ops[i]);
    }
  }

  lemma SameAction(op: Op, copies: map<User, seq<Op>>)
    ensures WrittenBack(op, copies) == op.(key := WrittenBack(op, copies).key)
  {
    hide WriteBack;
    if op.key.None? && op.user in copies {
      WriteBackKey(op, copies[op.user]);
    }
  }

  // -------------------------------------------------------- a fixed policy

  /** Every verdict follows sshd's rule on the file that was on disk. */
  ghost predicate Obeys(c: Codec, denied: set<User>, p: Plan, qs: seq<Probe>) {
    forall q | q in qs && q.user in p.ts && q.verdict != Inconclusive ::
      q.verdict == Accepted <==> Authorizes(c, denied, q.seen, p.ts[q.user].path, q.user, q.key)
  }

  lemma SameContentSameRule(c: Codec, denied: set<User>, a: Disk, b: Disk, path: Path, u: User, k: Key)
    requires ContentIn(a, path) == ContentIn(b, path)
    ensures Authorizes(c, denied, a, path, u, k) == Authorizes(c, denied, b, path, u, k)
  {
    hide Parse, Has;
  }

  /** After a commit every user whose file changed can log in. */
  lemma StillWelcome(c: Codec, denied: set<User>, p: Plan, w: World, u: User)
    requires AccessProven(p, w.probes) && AllFin(p, w) && Obeys(c, denied, p, w.probes)
    requires u in p.ts && TouchedAt(p.ts[u], 2)
    ensures exists k :: k in Keys(p.ts[u].doc2.lines) && Authorizes(c, denied, w.disk, p.ts[u].path, u, k)
  {
    hide TouchedAt, Fin, Authorizes, ContentIn;
    assert LetIn(p, u, w.probes, |w.probes|);
    var i :| 0 <= i < |w.probes|
      && w.probes[i].user == u && w.probes[i].verdict == Accepted && w.probes[i].key in Keys(p.ts[u].doc2.lines)
      && ShowsFin(p, w.probes[i].seen);
    SameContentSameRule(c, denied, w.probes[i].seen, w.disk, p.ts[u].path, u, w.probes[i].key);
    assert w.probes[i] in w.probes;
  }

  /** A refusal after a control is about the key: it is not in the final file. */
  lemma RefusalIsAboutTheKey(c: Codec, denied: set<User>, p: Plan, qs: seq<Probe>, u: User, k: Key, j: nat)
    requires RefusedAt(p, u, k, qs, j) && Obeys(c, denied, p, qs) && Keys(p.ts[u].doc2.lines) != []
    ensures u !in denied && !Holds(c, Fin(p.ts[u]), k)
  {
    hide Fin, Keys, Parse, Has;
    assert LetIn(p, u, qs, j);
    var i :| 0 <= i < j && i < |qs|
      && qs[i].user == u && qs[i].verdict == Accepted && ShowsFin(p, qs[i].seen);
    assert qs[i] in qs && qs[j] in qs;
    FinalShown(p, qs[i].seen, u);
    FinalShown(p, qs[j].seen, u);
  }

  lemma FinalShown(p: Plan, seen: Disk, u: User)
    requires ShowsFin(p, seen) && u in p.ts
    ensures ContentIn(seen, p.ts[u].path) == Fin(p.ts[u])
  {
  }

  // ------------------------------------------------------------- ownership

  /** The file, if it is there, has the owner and the mode it had. */
  predicate SameOwner(w: World, s: World, path: Path) {
    path in w.disk && path in s.disk ==>
      s.disk[path].meta.uid == w.disk[path].meta.uid && s.disk[path].meta.mode == w.disk[path].meta.mode
  }

  lemma OwnerStaged(cfg: Config, site: H.Site, w: World, u: User, s: World)
    requires u in site.accounts && Staged(TargetFor(cfg, site, w, u), s) && Loadable(cfg, site, w, u)
    requires site.guard.uid == "0" && Measured(AskedOf(cfg, site, w, u)) && PathOf(cfg, site, u) in w.disk
    ensures SameOwner(w, s, PathOf(cfg, site, u))
  {
    hide Parse, AddAll, RemoveAll, Mid, Fin, Expand, DecideWriteOpts, SwapMeta;
    OwnershipConserved(AskedOf(cfg, site, w, u), site.guard);
  }

  /** In every state of every run by a root guard an existing file keeps its owner and mode,
      and so it does if the client dies in that state and the trap goes off. */
  lemma OwnerInEveryState(cfg: Config, site: H.Site, w: World, forgotten: set<User>, lost: bool, s: World, u: User)
    requires Ending.Sound(PlanFor(cfg, site, w), forgotten, lost, s) && u in PlanFor(cfg, site, w).ts
    requires Loadable(cfg, site, w, u) && site.guard.uid == "0" && Measured(AskedOf(cfg, site, w, u))
    requires PathOf(cfg, site, u) in w.disk
    ensures SameOwner(w, s, PathOf(cfg, site, u)) && SameOwner(w, EndGuard(s), PathOf(cfg, site, u))
  {
    hide TargetFor, Staged, Recoverable, EndGuard, AddsProven, LeftAt, OrigOrFin, AllFin, AskedOf, PathOf, SortedUsers;
    OwnerStaged(cfg, site, w, u, s);
    OwnerStaged(cfg, site, w, u, EndGuard(s));
  }

  /** The file, if it is there, belongs to this login, readable by nobody else. */
  predicate OwnedBy(s: World, path: Path, login: Login) {
    path in s.disk ==> s.disk[path].meta == Meta(login.uid, login.gid, "600")
  }

  lemma CreatedStaged(cfg: Config, site: H.Site, w: World, u: User, s: World)
    requires u in site.accounts && Staged(TargetFor(cfg, site, w, u), s) && Loadable(cfg, site, w, u)
    requires site.guard.uid == "0" && Measured(AskedOf(cfg, site, w, u))
    requires PathOf(cfg, site, u) !in w.disk && !AskedOf(cfg, site, w, u).file.exists_
    ensures OwnedBy(s, PathOf(cfg, site, u), site.accounts[u].login)
  {
    hide Parse, AddAll, RemoveAll, Mid, Fin, Expand, DecideWriteOpts, SwapMeta;
    CreatedBelongsToEntryUser(AskedOf(cfg, site, w, u), site.guard);
  }

  /** And a file a run creates belongs to its user for as long as it is there, a crash and the trap included. */
  lemma CreatedInEveryState(cfg: Config, site: H.Site, w: World, forgotten: set<User>, lost: bool, s: World, u: User)
    requires Ending.Sound(PlanFor(cfg, site, w), forgotten, lost, s) && u in PlanFor(cfg, site, w).ts
    requires Loadable(cfg, site, w, u) && site.guard.uid == "0" && Measured(AskedOf(cfg, site, w, u))
    requires PathOf(cfg, site, u) !in w.disk && !AskedOf(cfg, site, w, u).file.exists_
    ensures OwnedBy(s, PathOf(cfg, site, u), site.accounts[u].login)
    ensures OwnedBy(EndGuard(s), PathOf(cfg, site, u), site.accounts[u].login)
  {
    hide TargetFor, Staged, Recoverable, EndGuard, AddsProven, LeftAt, OrigOrFin, AllFin, AskedOf, PathOf, SortedUsers;
    CreatedStaged(cfg, site, w, u, s);
    CreatedStaged(cfg, site, w, u, EndGuard(s));
  }

  // ---------------------------------------------------------- running again

  /** Planned on its own result, a transaction has nothing left to do for any user. */
  lemma NothingLeftToDo(c: Codec, ops: seq<Op>, u: User, t: Target, again: Target)
    requires Acceptable(c, ops) && FaithfulOps(c, ops)
    requires Planned(c, ops, u, t) && Planned(c, ops, u, again) && again.orig == Fin(t)
    ensures again.doc0 == again.doc1 == again.doc2 && !TouchedAt(again, 2)
  {
    var gs, ms := Grants(OpsOf(ops, u, Adding)), Matchers(OpsOf(ops, u, Removing));
    hide Acceptable, AddAll, RemoveAll, Parse, Render;
    AcceptedIsCompatible(c, ops, u);
    FaithfulGrants(c, ops, u);
    assert L.Compatible(c, gs, ms);
    FinIsRendered(c, ops, u, t);
    L.RerunIsNoOp(c, OrEmpty(t.orig), gs, ms);
  }

  lemma FinIsRendered(c: Codec, ops: seq<Op>, u: User, t: Target)
    requires Planned(c, ops, u, t)
    ensures OrEmpty(Fin(t)) == Render(t.doc2)
  {
    hide Parse, AddAll, RemoveAll, Render;
    L.RoundTrip(c, OrEmpty(t.orig));
  }

  /** The host holds what a first run with this request makes of it. */
  ghost predicate AlreadyDone(cfg: Config, site: H.Site, w: World, w2: World) {
    var p := PlanFor(cfg, site, w);
    forall u | u in p.ts :: At(w2, p.ts[u].path) == Fin(p.ts[u])
  }

  lemma AgainIsIdle(cfg: Config, site: H.Site, w: World, w2: World, u: User)
    requires Acceptable(cfg.codec, cfg.ops) && FaithfulOps(cfg.codec, cfg.ops) && AlreadyDone(cfg, site, w, w2)
    requires u in PlanFor(cfg, site, w2).ts
    ensures var t := PlanFor(cfg, site, w2).ts[u];
            !TouchedAt(t, 2) && Mid(t) == t.orig == Fin(t) && t.orig == At(w2, t.path) && t.path == PathOf(cfg, site, u)
    ensures u in SortedUsers(cfg.ops) && u in site.accounts
  {
    hide Acceptable, FaithfulOps, Planned, At, Render, PathOf, SortedUsers, Fin, Mid, TargetFor;
    PlanIsPlanned(cfg, site, w, u);
    PlanIsPlanned(cfg, site, w2, u);
    var again := PlanFor(cfg, site, w2);
    NothingLeftToDo(cfg.codec, cfg.ops, u, PlanFor(cfg, site, w).ts[u], again.ts[u]);
    IdleTarget(again.ts[u]);
  }

  /** What a second run does not do: order any change, or show any target in another state,
      a crash and the trap included. */
  ghost predicate Unchanging(h: H.Host, p: Plan, w2: World)
    reads h
  {
    && NoWrites(h.calls)
    && forall s, u | s in h.trace && u in p.ts ::
         At(s, p.ts[u].path) == At(w2, p.ts[u].path) == At(EndGuard(s), p.ts[u].path)
  }

  /** The operations change nothing in this target. */
  predicate StaysPut(t: Target) {
    !TouchedAt(t, 2) && Mid(t) == t.orig == Fin(t)
  }

  lemma SoundStaysPut(p: Plan, forgotten: set<User>, lost: bool, s: World, u: User)
    requires Ending.Sound(p, forgotten, lost, s) && u in p.ts && StaysPut(p.ts[u])
    ensures At(s, p.ts[u].path) == p.ts[u].orig == At(EndGuard(s), p.ts[u].path)
  {
    hide Recoverable, AddsProven, LeftAt, OrigOrFin, AllFin, Mid, Fin, TouchedAt, EndGuard;
    assert Staged(p.ts[u], s) && Staged(p.ts[u], EndGuard(s));
  }

  lemma FreshStaysPut(s: World, d: Disk, links: set<Path>, path: Path)
    requires Fresh(s, d, links)
    ensures At(s, path) == ContentIn(d, path) == At(EndGuard(s), path)
  {
  }

  ghost predicate AllStayPut(p: Plan, w2: World) {
    forall u | u in p.ts :: StaysPut(p.ts[u]) && p.ts[u].orig == At(w2, p.ts[u].path)
  }

  lemma ClosedIsUnchanging(h: H.Host, p: Plan, forgotten: set<User>, lost: bool, o: Outcome, w2: World)
    requires Closed(h, p, forgotten, lost, o) && NoWrites(h.calls) && AllStayPut(p, w2)
    ensures Unchanging(h, p, w2)
  {
    hide H.Host.Valid, Delivered, Ending.Sound, NoWrites, At, StaysPut;
    forall s, u | s in h.trace && u in p.ts
      ensures At(s, p.ts[u].path) == At(w2, p.ts[u].path) == At(EndGuard(s), p.ts[u].path)
    {
      SoundStaysPut(p, forgotten, lost, s, u);
    }
  }

  lemma NothingHappened(h: H.Host, p: Plan, w2: World)
    requires NoOrders(h.calls) && forall s | s in h.trace :: Fresh(s, w2.disk, w2.links)
    ensures Unchanging(h, p, w2)
  {
    hide NoOrders, NoWrites, Fresh;
    NoOrdersNoWrites(h.calls);
    forall s, u | s in h.trace && u in p.ts
      ensures At(s, p.ts[u].path) == At(w2, p.ts[u].path) == At(EndGuard(s), p.ts[u].path)
    {
      FreshStaysPut(s, w2.disk, w2.links, p.ts[u].path);
    }
  }

  lemma AgainAllStayPut(cfg: Config, site: H.Site, w: World, w2: World)
    requires Acceptable(cfg.codec, cfg.ops) && FaithfulOps(cfg.codec, cfg.ops) && AlreadyDone(cfg, site, w, w2)
    ensures AllStayPut(PlanFor(cfg, site, w2), w2)
    ensures forall u | u in PlanFor(cfg, site, w2).ts :: !TouchedAt(PlanFor(cfg, site, w2).ts[u], 2)
  {
    hide Acceptable, FaithfulOps, AlreadyDone, PlanFor, At, Mid, Fin, TouchedAt;
    var p := PlanFor(cfg, site, w2);
    forall u | u in p.ts
      ensures StaysPut(p.ts[u]) && p.ts[u].orig == At(w2, p.ts[u].path)
    {
      AgainIsIdle(cfg, site, w, w2, u);
    }
  }

  /** A plan that changes nothing takes no snapshots. */
  lemma IdleNamesApart(p: Plan)
    requires forall u | u in p.ts :: !TouchedAt(p.ts[u], 2)
    ensures NamesApart(p)
  {
    hide Adds;
    forall u, v | u in p.ts && v in p.ts
      ensures !SnapshotHits(p, v, u)
    {
      assert !TouchedAt(p.ts[v], 2);
    }
  }

  lemma FallIsUnchanging(h: H.Host, f: Fall, w2: World)
    requires Fell(h, f) && AllStayPut(f.p, w2) && forall u | u in f.p.ts :: !TouchedAt(f.p.ts[u], 2)
    ensures Unchanging(h, f.p, w2)
  {
    hide Closed, TurnedBack, AllStayPut, Distinct, NoLinks, NoWrites, Unchanging, TouchedAt;
    IdleFallWritesNothing(h, f);
    ClosedIsUnchanging(h, f.p, f.forgotten, f.lost, f.o, w2);
  }

  /** Whatever the environment does, a second run with the same request orders no change and changes no target. */
  method SecondRun(cfg: Config, site: H.Site, w: World, w2: World, script: (nat, World, Event) -> Tick)
    returns (t: T, outcome: Outcome)
    requires Fresh(w2, w2.disk, w2.links) && Separate(cfg, site)
    requires Acceptable(cfg.codec, cfg.ops) && FaithfulOps(cfg.codec, cfg.ops) && AlreadyDone(cfg, site, w, w2)
    ensures t.cfg == cfg && t.host.start == w2 && t.host.script == script
    ensures Unchanging(t.host, PlanFor(cfg, site, w2), w2)
  {
    hide Separate, FaithfulOps, AlreadyDone, PlanFor, Fell, Closed, Completed, TurnedBack, NoOrders, NoWrites,
         Unchanging, T.Views, T.Earned, T.BackedUp, H.Host.Valid, AllStayPut, TouchedAt, Acceptable, Fresh;
    var host := new H.Host(site, w2, script);
    StartIsNow(host);
    t := new T(cfg, host);
    AgainAllStayPut(cfg, site, w, w2);
    IdleNamesApart(PlanFor(cfg, site, w2));
    outcome := t.Run();
    if outcome == NothingChanged || outcome == DryRun {
      NothingHappened(host, PlanFor(cfg, site, w2), w2);
    } else if outcome == Committed {
      IdleCommitWritesNothing(t.plan, host.calls);
      ClosedIsUnchanging(host, t.plan, t.forgotten, t.markerLost, outcome, w2);
    } else {
      FallIsUnchanging(host, t.TheFall(outcome), w2);
    }
  }

  lemma StartIsNow(h: H.Host)
    requires h.Valid() && h.trace == [h.w]
    ensures h.start == h.w
  {
    hide H.Logged, H.AllSmooth;
  }

  lemma IdleTarget(t: Target)
    requires t.doc0 == t.doc1 == t.doc2
    ensures Mid(t) == t.orig == Fin(t)
  {
  }

  /** A calm run's expectations follow from an accepted, well-spelled request on a loadable host. */
  lemma CalmRunIsExpected(cfg: Config, site: H.Site, w: World)
    requires Acceptable(cfg.codec, cfg.ops) && AllLoadable(cfg, site, w)
    requires FaithfulOps(cfg.codec, cfg.ops) && WellSpelled(cfg.ops)
    ensures Expected(cfg.codec, PlanFor(cfg, site, w))
  {
    hide Acceptable, FaithfulOps, WellSpelled, Planned, Expected, PathOf, TargetFor, CheckWriteTarget;
    var p := PlanFor(cfg, site, w);
    forall u | u in p.ts
      ensures Planned(cfg.codec, p.ops, u, p.ts[u])
    {
      PlanIsPlanned(cfg, site, w, u);
    }
    forall op | op in p.ops
      ensures op.user in p.ts
    {
      assert op.user in SortedUsers(cfg.ops);
      assert Loadable(cfg, site, w, op.user);
    }
    RequestIsExpected(cfg.codec, p);
  }
}
