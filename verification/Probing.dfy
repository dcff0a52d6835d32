/** Fresh connections that ask sshd about keys, retried while no verdict comes. */
module Probing {
  import opened Basics
  import opened AuthKeys
  import opened World
  import opened TxState
  import opened TxSteps
  import opened Host
  import opened Ledger

  /** The host between the steps of a healthy run, for a client that remembers `vs`. */
  ghost predicate Good(h: Host, p: Plan, vs: Views)
    reads h
  {
    && h.Valid() && (forall s | s in h.trace :: Sane(p, s)) && Steady(p, vs, {}, h.w)
    && Together(h.calls) && KeepsOriginal(p, h.calls)
  }

  /** From one moment to the next nothing is ordered; the guard may be lost, but not when nothing goes wrong. */
  ghost predicate Carried(m: Moment, after: Moment) {
    && Outlives(m.w, after.w) && SameOrders(m.calls, after.calls)
    && (after.calm ==> m.calm && after.w.guard == m.w.guard)
  }

  ghost predicate Continues(h: Host, m: Moment)
    reads h
  {
    Carried(m, h.Now())
  }

  lemma CarriedOn(a: Moment, b: Moment, c: Moment)
    requires Carried(a, b) && Carried(b, c)
    ensures Carried(a, c)
  {
    hide MarksOf, WritesOf;
  }

  lemma CarriedStart(m: Moment)
    ensures Carried(m, m)
  {
  }

  /** One fresh connection. */
  method ProbeOnce(h: Host, ghost p: Plan, ghost vs: Views, user: User, key: Key, full: bool) returns (v: Verdict)
    requires Good(h, p, vs)
    modifies h
    ensures Good(h, p, vs) && Continues(h, old(h.Now()))
    ensures h.w.probes == old(h.w.probes) + [Probe(user, key, full, v, h.w.disk)]
  {
    hide Steady, Core, Sane, Ask, Logged, SameOrders;
    var e := Question(user, key, full);
    StepAsk(p, vs, h.w, user, key, full, h.Next(e));
    QuietCall(h.calls, Call(e, h.Next(e), Done));
    v := h.Query(user, key, full);
  }

  lemma NoTryYet(qs: seq<Probe>, user: User, key: Key, full: bool)
    ensures Barren(qs, qs, user, key, full, 0)
  {
  }

  lemma SameOrdersStart(calls: seq<Call>)
    ensures SameOrders(calls, calls)
  {
  }

  lemma BarrenLength(before: seq<Probe>, after: seq<Probe>, user: User, key: Key, full: bool, n: nat)
    requires Barren(before, after, user, key, full, n)
    ensures |after| == |before| + n
  {
  }

  /** Probes one key until sshd gives a verdict or the attempts run out. */
  method ProbeVerdict(h: Host, ghost p: Plan, ghost vs: Views, attempts: int, user: User, key: Key, full: bool)
    returns (v: Verdict)
    requires Good(h, p, vs)
    modifies h
    ensures Good(h, p, vs) && Continues(h, old(h.Now()))
    ensures Tries(old(h.w.probes), h.w.probes, user, key, full, attempts, v)
    ensures h.w.probes[|h.w.probes| - 1] == Probe(user, key, full, v, h.w.disk)
    ensures var n, most := |h.w.probes| - old(|h.w.probes|), if attempts < 1 then 1 else attempts;
            1 <= n <= most && (v == Inconclusive ==> n == most)
  {
    hide Good, Tries, Barren, Carried;
    ghost var m0 := h.Now();
    var attempt := 1;
    NoTryYet(m0.w.probes, user, key, full);
    CarriedStart(m0);
    while true
      invariant Good(h, p, vs) && Continues(h, m0) && 1 <= attempt <= Most(attempts)
      invariant Barren(m0.w.probes, h.w.probes, user, key, full, attempt - 1)
      decreases attempts - attempt
    {
      ghost var m := h.Now();
      v := ProbeOnce(h, p, vs, user, key, full);
      CarriedOn(m0, m, h.Now());
      OneMoreTry(m0.w.probes, m.w.probes, h.w.probes[|m.w.probes|], attempt - 1, attempts);
      BarrenLength(m0.w.probes, m.w.probes, user, key, full, attempt - 1);
      if v != Inconclusive || attempt >= attempts {
        return;
      }
      attempt := attempt + 1;
    }
  }

  // ---------------------------------------------------- verifying additions

  /** An added key has to be accepted on a fresh connection; signed for if its private half is at hand. */
  method VerifyAddition(h: Host, ghost c: Codec, ghost p: Plan, ghost vs: Views, op: Op, signers: set<Key>,
                        attempts: int)
    returns (ok: bool)
    requires Good(h, p, vs) && Progress(p, vs, h.w, 1, {}) && op.key.Some? && signers == p.signers
    modifies h
    ensures Good(h, p, vs) && Continues(h, old(h.Now())) && Progress(p, vs, h.w, 1, {})
    ensures ok && h.w.guard ==> exists q | q in h.w.probes :: AddProven(p, op, q)
    ensures h.w.guard && Answers(c, p, h.w.probes) && op.user in p.ts && Holds(c, Mid(p.ts[op.user]), op.key.value)
            ==> ok
  {
    hide Good, Progress, AddProven, Answers, Holds, Mid;
    ghost var w := h.w;
    var full := op.key.value in signers;
    var v := ProbeVerdict(h, p, vs, attempts, op.user, op.key.value, full);
    ProgressOutlives(p, vs, w, h.w, 1);
    ok := v == Accepted;
    ghost var q := h.w.probes[|h.w.probes| - 1];
    if ok && h.w.guard {
      AcceptanceProves(p, vs, h.w, op, q);
    }
    if h.w.guard && Answers(c, p, h.w.probes) && op.user in p.ts {
      ProgressShowsMid(p, vs, h.w);
      AnsweredBy(c, p, h.w.probes, q, Mid(p.ts[op.user]));
    }
  }

  method VerifyAdditions(h: Host, ghost c: Codec, ghost p: Plan, ghost vs: Views, ops: seq<Op>, signers: set<Key>,
                         attempts: int)
    returns (ok: bool)
    requires Good(h, p, vs) && Progress(p, vs, h.w, 1, {}) && ops == p.ops && signers == p.signers
    requires forall op | op in ops :: op.action == Adding ==> op.key.Some?
    modifies h
    ensures Good(h, p, vs) && Continues(h, old(h.Now())) && Progress(p, vs, h.w, 1, {})
    ensures ok && h.w.guard ==> AddsProven(p, h.w.probes)
    ensures h.w.guard && Answers(c, p, h.w.probes) && AddsVisible(c, p) ==> ok
  {
    hide Good, Progress, AddProven, ProvenUpTo, AddsProven, Answers, Holds, Mid;
    ProvenNone(p, h.w.probes);
    ghost var m0 := h.Now();
    for i := 0 to |ops|
      invariant Good(h, p, vs) && Continues(h, m0) && Progress(p, vs, h.w, 1, {})
      invariant h.w.guard ==> ProvenUpTo(p, i, h.w.probes)
    {
      var op := ops[i];
      ghost var w := h.w;
      if op.action == Adding {
        ok := VerifyAddition(h, c, p, vs, op, signers, attempts);
        if !ok {
          return;
        }
      }
      if h.w.guard {
        ProvenNext(p, i, w.probes, h.w.probes);
      }
    }
    if h.w.guard {
      ProvenAll(p, h.w.probes);
    }
    return true;
  }

  // ------------------------------------------------- is anybody let in at all

  lemma NobodyAsked(qs: seq<Probe>, user: User, attempts: int)
    ensures TurnedAway(qs, qs, user, [], attempts, false)
  {
  }

  /** The next key on the list. */
  method AskNext(h: Host, ghost p: Plan, ghost vs: Views, attempts: int, user: User, keys: seq<Key>, i: nat,
                 ghost m0: Moment, ghost failed: bool)
    returns (v: Verdict)
    requires Good(h, p, vs) && Continues(h, m0) && i < |keys|
    requires TurnedAway(m0.w.probes, h.w.probes, user, keys[..i], attempts, failed)
    modifies h
    ensures Good(h, p, vs) && Continues(h, m0)
    ensures v != Accepted
            ==> TurnedAway(m0.w.probes, h.w.probes, user, keys[..i + 1], attempts, failed || v == Inconclusive)
    ensures v == Accepted ==> AskedAround(m0.w.probes, h.w.probes, user, keys, attempts, Some(true))
    ensures |h.w.probes| > 0 && h.w.probes[|h.w.probes| - 1].seen == h.w.disk
  {
    hide Good, TurnedAway, Carried, AskedAround;
    ghost var m := h.Now();
    v := ProbeVerdict(h, p, vs, attempts, user, keys[i], false);
    hide Tries;
    CarriedOn(m0, m, h.Now());
    OneMoreKey(m0.w.probes, m.w.probes, h.w.probes, user, keys[..i], keys[i], attempts, failed, v);
    assert keys[..i] + [keys[i]] == keys[..i + 1];
    if v == Accepted {
      MoreKeys(m0.w.probes, h.w.probes, user, keys[..i + 1], keys, attempts);
    }
  }

  lemma StartsThere(h: Host)
    ensures Continues(h, h.Now())
  {
    hide Carried;
    CarriedStart(h.Now());
  }

  /** Asks about one key after the other until one is accepted; a missing verdict is remembered. */
  method AskInTurn(h: Host, ghost p: Plan, ghost vs: Views, attempts: int, user: User, keys: seq<Key>, ghost m0: Moment)
    returns (accepted: bool, failed: bool)
    requires Good(h, p, vs) && m0 == h.Now()
    modifies h
    ensures Good(h, p, vs) && Continues(h, m0)
    ensures if accepted then AskedAround(m0.w.probes, h.w.probes, user, keys, attempts, Some(true))
                             && |h.w.probes| > 0 && h.w.probes[|h.w.probes| - 1].seen == h.w.disk
            else TurnedAway(m0.w.probes, h.w.probes, user, keys[..|keys|], attempts, failed)
  {
    hide Good, TurnedAway, Continues, AskedAround;
    NobodyAsked(h.w.probes, user, attempts);
    StartsThere(h);
    accepted, failed := false, false;
    for i := 0 to |keys|
      invariant Good(h, p, vs) && Continues(h, m0) && !accepted
      invariant TurnedAway(m0.w.probes, h.w.probes, user, keys[..i], attempts, failed)
    {
      var v := AskNext(h, p, vs, attempts, user, keys, i, m0, failed);
      if v == Accepted {
        return true, failed;
      }
      failed := failed || v == Inconclusive;
    }
  }

  /** One of the keys was asked about that many times in a row, each time without a verdict. */
  ghost predicate GivenUp(qs: seq<Probe>, from_: nat, user: User, keys: seq<Key>, times: nat) {
    exists k, a: nat :: k in keys && from_ <= a && NoVerdicts(qs, a, times, user, k)
  }

  ghost predicate NoVerdicts(qs: seq<Probe>, a: nat, times: nat, user: User, k: Key) {
    && a + times <= |qs|
    && forall i | a <= i < a + times :: qs[i].user == user && qs[i].key == k && qs[i].verdict == Inconclusive
  }

  lemma AskedSoOften(before: seq<Probe>, after: seq<Probe>, user: User, keys: seq<Key>, attempts: int, r: Option<bool>)
    requires AskedAround(before, after, user, keys, attempts, r)
    ensures |after| - |before| <= |keys| * if attempts < 1 then 1 else attempts
    ensures r == None ==> GivenUp(after, |before|, user, keys, if attempts < 1 then 1 else attempts)
  {
    hide RejectedIn, Exhausted, GivenUp;
    if r == None {
      var k :| k in keys && Exhausted(before, after, user, k, attempts);
      ExhaustedIsGivenUp(before, after, user, keys, k, attempts);
    }
  }

  lemma ExhaustedIsGivenUp(before: seq<Probe>, after: seq<Probe>, user: User, keys: seq<Key>, k: Key, attempts: int)
    requires k in keys && Exhausted(before, after, user, k, attempts)
    ensures GivenUp(after, |before|, user, keys, if attempts < 1 then 1 else attempts)
  {
    hide Tries, NoVerdicts;
    var a, b :| |before| <= a <= b <= |after|
      && Tries(after[..a], after[..b], user, k, false, attempts, Inconclusive);
    TriesHadNoVerdict(after, a, b, user, k, attempts);
    assert NoVerdicts(after, a, if attempts < 1 then 1 else attempts, user, k);
  }

  lemma TriesHadNoVerdict(qs: seq<Probe>, a: nat, b: nat, user: User, k: Key, attempts: int)
    requires a <= b <= |qs| && Tries(qs[..a], qs[..b], user, k, false, attempts, Inconclusive)
    ensures NoVerdicts(qs, a, if attempts < 1 then 1 else attempts, user, k)
  {
    forall i | a <= i < b
      ensures qs[i].user == user && qs[i].key == k && qs[i].verdict == Inconclusive
    {
      assert qs[..b][i] == qs[i];
    }
  }

  /** True if some key is accepted, false if all are refused, no answer if a verdict is missing. */
  method SomeKeyAccepted(h: Host, ghost p: Plan, ghost vs: Views, attempts: int, user: User, keys: seq<Key>)
    returns (r: Option<bool>)
    requires Good(h, p, vs)
    modifies h
    ensures Good(h, p, vs) && Continues(h, old(h.Now()))
    ensures AskedAround(old(h.w.probes), h.w.probes, user, keys, attempts, r)
    ensures r == Some(true) ==> h.w.probes[|h.w.probes| - 1].seen == h.w.disk
    ensures |h.w.probes| - old(|h.w.probes|) <= |keys| * if attempts < 1 then 1 else attempts
    ensures r == None ==> GivenUp(h.w.probes, old(|h.w.probes|), user, keys, if attempts < 1 then 1 else attempts)
  {
    hide Good, TurnedAway, Continues, AskedAround, GivenUp;
    ghost var m0 := h.Now();
    var accepted, failed := AskInTurn(h, p, vs, attempts, user, keys, m0);
    if accepted {
      AskedSoOften(m0.w.probes, h.w.probes, user, keys, attempts, Some(true));
      return Some(true);
    }
    r := if failed then None else Some(false);
    AllTurnedAway(m0.w.probes, h.w.probes, user, keys, attempts, failed, r);
    AskedSoOften(m0.w.probes, h.w.probes, user, keys, attempts, r);
  }

  // ---------------------------------------------------- verifying removals

  /** The working copies, read once the editing is over. */
  ghost predicate Current(docs: map<User, Doc>, vs: Views) {
    docs.Keys == vs.Keys && forall u | u in docs :: docs[u] == vs[u].doc
  }

  /** Before a rejection means anything: an acceptance for the same user. */
  method Control(h: Host, ghost c: Codec, ghost p: Plan, ghost vs: Views, user: User, docs: map<User, Doc>,
                 attempts: int)
    returns (ok: bool)
    requires Good(h, p, vs) && Progress(p, vs, h.w, 2, {}) && Current(docs, vs) && user in docs
    modifies h
    ensures Good(h, p, vs) && Continues(h, old(h.Now())) && Progress(p, vs, h.w, 2, {})
    ensures ok && h.w.guard ==> Controlled(p, user, h.w.probes, |h.w.probes|)
    ensures h.w.guard && Answers(c, p, h.w.probes) && FinalVisible(c, p) ==> ok
  {
    hide Good, Progress, LetIn, AskedAround, Answers, Holds, Fin;
    ghost var w := h.w;
    WorkingCopyIsFinal(p, vs, w, user, docs);
    var remaining := Keys(docs[user].lines);
    if |remaining| == 0 {
      return true;
    }
    var r := SomeKeyAccepted(h, p, vs, attempts, user, remaining);
    ProgressOutlives(p, vs, w, h.w, 2);
    if r == Some(true) && h.w.guard {
      AcceptanceLetsIn(p, vs, h.w, w.probes, user, remaining, attempts);
    }
    if h.w.guard && Answers(c, p, h.w.probes) && FinalVisible(c, p) {
      ProgressShowsFin(p, vs, h.w);
      SomebodyIsLetIn(c, p, w.probes, h.w, user, remaining, attempts, r);
    }
    return r == Some(true);
  }

  lemma WorkingCopyIsFinal(p: Plan, vs: Views, w: World, u: User, docs: map<User, Doc>)
    requires Progress(p, vs, w, 2, {}) && Current(docs, vs) && u in docs
    ensures u in p.ts && docs[u] == p.ts[u].doc2
  {
    hide InPhase;
    FinalDoc(p, vs, w, u);
  }

  ghost predicate AllControlled(p: Plan, users: set<User>, qs: seq<Probe>) {
    forall u | u in users :: Controlled(p, u, qs, |qs|)
  }

  lemma OneMoreControlled(p: Plan, users: set<User>, qs: seq<Probe>, u: User, more: seq<Probe>)
    requires AllControlled(p, users, qs) && qs <= more && Controlled(p, u, more, |more|)
    ensures AllControlled(p, users + {u}, more)
  {
    hide Controlled;
    forall x | x in users
      ensures Controlled(p, x, more, |more|)
    {
      ControlledStill(p, x, qs, |qs|, more, |more|);
    }
  }

  lemma StillControlled(p: Plan, users: set<User>, qs: seq<Probe>, more: seq<Probe>)
    requires AllControlled(p, users, qs) && qs <= more
    ensures AllControlled(p, users, more)
  {
    hide Controlled;
    forall x | x in users
      ensures Controlled(p, x, more, |more|)
    {
      ControlledStill(p, x, qs, |qs|, more, |more|);
    }
  }

  /** One positive control for every user who loses a key. */
  method ControlAll(h: Host, ghost c: Codec, ghost p: Plan, ghost vs: Views, ops: seq<Op>, docs: map<User, Doc>,
                    attempts: int)
    returns (ok: bool, controlled: set<User>)
    requires Good(h, p, vs) && Progress(p, vs, h.w, 2, {}) && Current(docs, vs)
    requires forall op | op in ops :: op.user in docs
    modifies h
    ensures Good(h, p, vs) && Continues(h, old(h.Now())) && Progress(p, vs, h.w, 2, {})
    ensures ok ==> forall op | op in ops && op.action == Removing :: op.user in controlled
    ensures ok && h.w.guard ==> AllControlled(p, controlled, h.w.probes)
    ensures h.w.guard && Answers(c, p, h.w.probes) && FinalVisible(c, p) ==> ok
  {
    hide Good, Progress, Controlled, Answers, FinalVisible;
    ghost var m0 := h.Now();
    controlled := {};
    for i := 0 to |ops|
      invariant Good(h, p, vs) && Continues(h, m0) && Progress(p, vs, h.w, 2, {})
      invariant forall j | 0 <= j < i && ops[j].action == Removing :: ops[j].user in controlled
      invariant h.w.guard ==> AllControlled(p, controlled, h.w.probes)
    {
      var op := ops[i];
      if op.action == Removing && op.user !in controlled {
        ghost var qs := h.w.probes;
        ok := Control(h, c, p, vs, op.user, docs, attempts);
        if !ok {
          return;
        }
        if h.w.guard {
          OneMoreControlled(p, controlled, qs, op.user, h.w.probes);
        }
        controlled := controlled + {op.user};
      }
    }
    return true, controlled;
  }

  /** A removed key must be refused; without key material its absence is all there is to check. */
  method VerifyRemoval(h: Host, ghost p: Plan, ghost vs: Views, c: Codec, op: Op, docs: map<User, Doc>, attempts: int)
    returns (ok: bool)
    requires Good(h, p, vs) && Progress(p, vs, h.w, 2, {}) && Current(docs, vs) && op.user in docs
    requires h.w.guard ==> Controlled(p, op.user, h.w.probes, |h.w.probes|)
    modifies h
    ensures Good(h, p, vs) && Continues(h, old(h.Now())) && Progress(p, vs, h.w, 2, {})
    ensures ok && h.w.guard ==> RemovalProven(c, p, op, h.w.probes)
    ensures h.w.guard && Answers(c, p, h.w.probes) && Gone(c, p, op) ==> ok
  {
    hide Good, Progress, Controlled, RefusedAt, Answers, Holds, Fin;
    ghost var w := h.w;
    WorkingCopyIsFinal(p, vs, w, op.user, docs);
    if op.key.None? {
      return Find(c, docs[op.user].lines, op.matcher) == [];
    }
    var v := ProbeVerdict(h, p, vs, attempts, op.user, op.key.value, false);
    ProgressOutlives(p, vs, w, h.w, 2);
    if v == Rejected && h.w.guard {
      RejectionProves(c, p, vs, h.w, w.probes, op, h.w.probes[|h.w.probes| - 1]);
    }
    if h.w.guard && Answers(c, p, h.w.probes) {
      ProgressShowsFin(p, vs, h.w);
      AnsweredBy(c, p, h.w.probes, h.w.probes[|h.w.probes| - 1], Fin(p.ts[op.user]));
    }
    return v == Rejected;
  }

  ghost predicate RemovalsUpTo(c: Codec, p: Plan, ops: seq<Op>, i: nat, qs: seq<Probe>)
    requires i <= |ops|
  {
    forall j | 0 <= j < i && ops[j].action == Removing :: RemovalProven(c, p, ops[j], qs)
  }

  lemma RemovalsNext(c: Codec, p: Plan, ops: seq<Op>, i: nat, qs: seq<Probe>, more: seq<Probe>)
    requires i < |ops| && RemovalsUpTo(c, p, ops, i, qs) && qs <= more
    requires ops[i].action == Removing ==> RemovalProven(c, p, ops[i], more)
    ensures RemovalsUpTo(c, p, ops, i + 1, more)
  {
    hide RemovalProven;
    forall j | 0 <= j < i && ops[j].action == Removing
      ensures RemovalProven(c, p, ops[j], more)
    {
      RemovalStill(c, p, ops[j], qs, more);
    }
  }

  /** Controls first, then every removal. */
  method VerifyRemovals(h: Host, ghost p: Plan, ghost vs: Views, c: Codec, ops: seq<Op>, docs: map<User, Doc>,
                        attempts: int)
    returns (ok: bool)
    requires Good(h, p, vs) && Progress(p, vs, h.w, 2, {}) && Current(docs, vs)
    requires forall op | op in ops :: op.user in docs
    modifies h
    ensures Good(h, p, vs) && Continues(h, old(h.Now())) && Progress(p, vs, h.w, 2, {})
    ensures ok && h.w.guard ==> RemovalsProven(c, p, ops, h.w.probes)
    ensures h.w.guard && Answers(c, p, h.w.probes) && FinalVisible(c, p) && AllGone(c, p, ops) ==> ok
  {
    hide Good, Progress, Controlled, RemovalProven, Answers, FinalVisible, Gone;
    ghost var m0 := h.Now();
    var controlled;
    ok, controlled := ControlAll(h, c, p, vs, ops, docs, attempts);
    if !ok {
      return;
    }
    for i := 0 to |ops|
      invariant Good(h, p, vs) && Continues(h, m0) && Progress(p, vs, h.w, 2, {})
      invariant h.w.guard ==> AllControlled(p, controlled, h.w.probes) && RemovalsUpTo(c, p, ops, i, h.w.probes)
    {
      var op := ops[i];
      ghost var w := h.w;
      if op.action == Removing {
        ok := VerifyRemoval(h, p, vs, c, op, docs, attempts);
        if !ok {
          return;
        }
      }
      if h.w.guard {
        StillControlled(p, controlled, w.probes, h.w.probes);
        RemovalsNext(c, p, ops, i, w.probes, h.w.probes);
      }
    }
    return true;
  }

  // ------------------------------------------------------- proving access

  /** A changed file must let its user in with a key it holds. */
  method ProveAccessOf(h: Host, ghost c: Codec, ghost p: Plan, ghost vs: Views, user: User, docs: map<User, Doc>,
                       attempts: int)
    returns (ok: bool)
    requires Good(h, p, vs) && Progress(p, vs, h.w, 2, {}) && Current(docs, vs) && user in docs
    modifies h
    ensures Good(h, p, vs) && Continues(h, old(h.Now())) && Progress(p, vs, h.w, 2, {})
    ensures ok && h.w.guard ==> LetIn(p, user, h.w.probes, |h.w.probes|)
    ensures h.w.guard && Answers(c, p, h.w.probes) && FinalVisible(c, p) && Keys(vs[user].doc.lines) != [] ==> ok
  {
    hide Good, Progress, LetIn, AskedAround, Answers, Holds, Fin;
    ghost var w := h.w;
    WorkingCopyIsFinal(p, vs, w, user, docs);
    var keys := Keys(docs[user].lines);
    if |keys| == 0 {
      return false;
    }
    var r := SomeKeyAccepted(h, p, vs, attempts, user, keys);
    ProgressOutlives(p, vs, w, h.w, 2);
    if r == Some(true) && h.w.guard {
      AcceptanceLetsIn(p, vs, h.w, w.probes, user, keys, attempts);
    }
    if h.w.guard && Answers(c, p, h.w.probes) && FinalVisible(c, p) {
      ProgressShowsFin(p, vs, h.w);
      SomebodyIsLetIn(c, p, w.probes, h.w, user, keys, attempts, r);
    }
    return r == Some(true);
  }

  ghost predicate AccessUpTo(p: Plan, order: seq<User>, i: nat, qs: seq<Probe>)
    requires i <= |order|
  {
    forall j | 0 <= j < i && order[j] in p.ts && TouchedAt(p.ts[order[j]], 2) :: LetIn(p, order[j], qs, |qs|)
  }

  lemma AccessNext(p: Plan, order: seq<User>, i: nat, qs: seq<Probe>, more: seq<Probe>)
    requires i < |order| && AccessUpTo(p, order, i, qs) && qs <= more
    requires order[i] in p.ts && TouchedAt(p.ts[order[i]], 2) ==> LetIn(p, order[i], more, |more|)
    ensures AccessUpTo(p, order, i + 1, more)
  {
    hide LetIn, TouchedAt;
    forall j | 0 <= j < i && order[j] in p.ts && TouchedAt(p.ts[order[j]], 2)
      ensures LetIn(p, order[j], more, |more|)
    {
      LetInStill(p, order[j], qs, |qs|, more, |more|);
    }
  }

  /** The gate before the trap is disarmed. */
  method ProveAccess(h: Host, ghost c: Codec, ghost p: Plan, ghost vs: Views, order: seq<User>, dirty: set<User>,
                     docs: map<User, Doc>,
                     attempts: int)
    returns (ok: bool)
    requires Good(h, p, vs) && Progress(p, vs, h.w, 2, {}) && Current(docs, vs)
    requires forall u :: u in order <==> u in docs
    requires forall u | u in docs :: u in dirty <==> vs[u].dirty
    modifies h
    ensures Good(h, p, vs) && Continues(h, old(h.Now())) && Progress(p, vs, h.w, 2, {})
    ensures ok && h.w.guard ==> AccessProven(p, h.w.probes)
    ensures h.w.guard && Answers(c, p, h.w.probes) && FinalVisible(c, p) && Peopled(p) ==> ok
  {
    hide Good, Progress, LetIn, TouchedAt, Answers, FinalVisible;
    ghost var m0 := h.Now();
    for i := 0 to |order|
      invariant Good(h, p, vs) && Continues(h, m0) && Progress(p, vs, h.w, 2, {})
      invariant h.w.guard ==> AccessUpTo(p, order, i, h.w.probes)
    {
      var u := order[i];
      ghost var w := h.w;
      WorkingCopyIsFinal(p, vs, w, u, docs);
      FinalDoc(p, vs, w, u);
      if u in dirty {
        ok := ProveAccessOf(h, c, p, vs, u, docs, attempts);
        if !ok {
          return;
        }
      }
      if h.w.guard {
        AccessNext(p, order, i, w.probes, h.w.probes);
      }
    }
    if h.w.guard {
      AccessEverywhere(p, vs, h.w, order);
    }
    return true;
  }

  lemma AccessEverywhere(p: Plan, vs: Views, w: World, order: seq<User>)
    requires AccessUpTo(p, order, |order|, w.probes) && Progress(p, vs, w, 2, {})
    requires forall u | u in vs :: u in order
    ensures AccessProven(p, w.probes)
  {
    hide LetIn, TouchedAt, InPhase;
    forall u | u in p.ts && TouchedAt(p.ts[u], 2)
      ensures LetIn(p, u, w.probes, |w.probes|)
    {
      var j :| 0 <= j < |order| && order[j] == u;
    }
  }
}
