/** The orders to write, file by file: what they are through the phases and what a failure makes of them. */
module Ledger {
  import opened Basics
  import opened AuthKeys
  import opened World
  import opened TxState
  import Manifest

  lemma WritesGrow(calls: seq<Call>, c: Call, path: Path)
    ensures WritesOf(calls + [c], path) == WritesOf(calls, path) + WriteTo(c, path)
  {
    assert (calls + [c])[..|calls|] == calls;
  }

  lemma MarksGrow(calls: seq<Call>, c: Call)
    ensures MarksOf(calls + [c]) == MarksOf(calls) + if Marking(c) then [c.reply] else []
  {
    assert (calls + [c])[..|calls|] == calls;
  }

  /** Orders a change to a file or to the marker. */
  predicate Ordering(e: Event) {
    e.Remote? && (e.command.Swap? || e.command.Unlink? || e.command.MarkCommit?)
  }

  /** An event that orders no change leaves every file's orders as they are. */
  lemma QuietCall(calls: seq<Call>, c: Call)
    requires !Ordering(c.event)
    ensures SameOrders(calls, calls + [c])
  {
    MarksGrow(calls, c);
    forall x
      ensures WritesOf(calls + [c], x) == WritesOf(calls, x)
    {
      WritesGrow(calls, c, x);
    }
  }

  lemma SwapCall(calls: seq<Call>, c: Call)
    requires c.event.Remote? && c.event.command.Swap?
    ensures OrdersElsewhere(c.event.command.path, calls, calls + [c])
    ensures WritesOf(calls + [c], c.event.command.path)
         == WritesOf(calls, c.event.command.path) + [Write(Some(c.event.command.content), c.reply)]
  {
    MarksGrow(calls, c);
    WritesGrow(calls, c, c.event.command.path);
    forall x | x != c.event.command.path
      ensures WritesOf(calls + [c], x) == WritesOf(calls, x)
    {
      WritesGrow(calls, c, x);
    }
  }

  lemma MarkCall(calls: seq<Call>, c: Call)
    requires Marking(c)
    ensures MarksOf(calls + [c]) == MarksOf(calls) + [c.reply]
    ensures forall x :: WritesOf(calls + [c], x) == WritesOf(calls, x)
  {
    MarksGrow(calls, c);
    forall x
      ensures WritesOf(calls + [c], x) == WritesOf(calls, x)
    {
      WritesGrow(calls, c, x);
    }
  }

  /** The last event was the order to set the marker. */
  ghost predicate MarkedNow(before: seq<Call>, after: seq<Call>, ok: bool) {
    && |after| == |before| + 1 && after[..|before|] == before
    && Marking(after[|before|]) && ok == (after[|before|].reply == Done)
  }

  /** The last event was the end of the connection. */
  ghost predicate HungUp(before: seq<Call>, after: seq<Call>) {
    |after| == |before| + 1 && after[..|before|] == before && after[|before|].event == Hang
  }

  /** Nothing has been ordered or kept at all. */
  ghost predicate NoOrders(calls: seq<Call>) {
    MarksOf(calls) == [] && (forall x :: WritesOf(calls, x) == []) && forall c | c in calls :: !c.event.Keep?
  }

  lemma StillNoOrders(calls: seq<Call>, more: seq<Call>)
    requires NoOrders(calls) && SameOrders(calls, more) && forall c | c in more :: c in calls || !c.event.Keep?
    ensures NoOrders(more)
  {
    hide WritesOf, MarksOf;
  }

  /** Without an entry there was no order. */
  lemma {:induction false} MarksFound(calls: seq<Call>, i: nat)
    requires i < |calls| && Marking(calls[i])
    ensures calls[i].reply in MarksOf(calls)
  {
    var n := |calls| - 1;
    if i < n {
      MarksFound(calls[..n], i);
    }
  }

  /** If the marker was ordered at all, then last, and the reply was not success. */
  ghost predicate MarkLast(calls: seq<Call>) {
    forall i | 0 <= i < |calls| && Marking(calls[i]) :: i == |calls| - 1 && calls[i].reply != Done
  }

  lemma NoMarkAtAll(calls: seq<Call>)
    requires MarksOf(calls) == []
    ensures MarkLast(calls)
  {
    forall i | 0 <= i < |calls| && Marking(calls[i])
      ensures false
    {
      MarksFound(calls, i);
    }
  }

  lemma OneMarkLast(calls: seq<Call>, c: Call)
    requires MarksOf(calls) == [] && Marking(c) && c.reply != Done
    ensures MarkLast(calls + [c])
  {
    hide MarksOf;
    forall i | 0 <= i < |calls| && Marking((calls + [c])[i])
      ensures false
    {
      MarksFound(calls, i);
    }
  }

  /** An entry is somebody's order. */
  lemma {:induction false} MarkBehind(calls: seq<Call>, r: Reply) returns (i: nat)
    requires r in MarksOf(calls)
    ensures i < |calls| && Marking(calls[i]) && calls[i].reply == r
  {
    i := |calls| - 1;
    if !(Marking(calls[i]) && calls[i].reply == r) {
      i := MarkBehind(calls[..i], r);
    }
  }

  lemma SameOrdersChain(a: seq<Call>, b: seq<Call>, c: seq<Call>)
    requires SameOrders(a, b) && SameOrders(b, c)
    ensures SameOrders(a, c)
  {
  }

  // -------------------------------------------------------------- a phase

  lemma SameWrites(t: Target, a: seq<Call>, b: seq<Call>)
    requires SameOrders(a, b)
    ensures WritesOf(b, t.path) == WritesOf(a, t.path)
  {
  }

  lemma PacedSame(p: Plan, vs: Views, a: seq<Call>, b: seq<Call>, k: int, done: set<User>)
    requires Paced(p, vs, a, k, done) && SameOrders(a, b)
    ensures Paced(p, vs, b, k, done)
  {
    hide MarksOf, WritesOf, WritesAt;
  }

  lemma PacedSkips(p: Plan, vs: Views, calls: seq<Call>, k: int, done: set<User>, u: User)
    requires Paced(p, vs, calls, k, done) && u in p.ts
    requires DocAt(p.ts[u], k) == DocAt(p.ts[u], k + 1) && 0 <= k <= 1 && (k == 0 ==> !Adds(p, u))
    ensures Paced(p, vs, calls, k, done + {u})
  {
    hide MarksOf, WritesOf, Mid, Fin, Adds;
  }

  lemma PacedNext(p: Plan, vs: Views, calls: seq<Call>, k: int, done: set<User>)
    requires Paced(p, vs, calls, k, done) && p.ts.Keys <= done
    ensures Paced(p, vs, calls, k + 1, {})
  {
    hide MarksOf, WritesOf, WritesAt;
  }

  lemma PacedAdvances(p: Plan, vs: Views, calls: seq<Call>, vs': Views, calls': seq<Call>, k: int, done: set<User>,
                      u: User)
    requires Paced(p, vs, calls, k, done) && Distinct(p.ts) && u in p.ts && u !in done
    requires u in vs' && vs' == vs[u := vs'[u]] && PacedAt(p.ts[u], vs'[u], calls', k + 1)
    requires OrdersElsewhere(p.ts[u].path, calls, calls') && ArmedBy(p, u, vs'[u], k + 1)
    ensures Paced(p, vs', calls', k, done + {u})
  {
    hide MarksOf, WritesOf, WritesAt, Manifest.CleanField, Adds;
  }

  /** A phase that changes nothing in a file orders nothing. */
  lemma PacedIdle(t: Target, v: View, calls: seq<Call>, v': View, calls': seq<Call>, k: int)
    requires 0 <= k <= 1 && PacedAt(t, v, calls, k) && DocAt(t, k + 1) == DocAt(t, k)
    requires v'.unconfirmed == v.unconfirmed && WritesOf(calls', t.path) == WritesOf(calls, t.path)
    ensures PacedAt(t, v', calls', k + 1)
  {
    hide MarksOf, WritesOf, Mid, Fin;
  }

  /** The phase's order was carried out. */
  lemma PacedSwapped(t: Target, v: View, calls: seq<Call>, v': View, calls': seq<Call>, k: int)
    requires 0 <= k <= 1 && PacedAt(t, v, calls, k) && DocAt(t, k + 1) != DocAt(t, k)
    requires v'.unconfirmed == v.unconfirmed
    requires WritesOf(calls', t.path) == WritesOf(calls, t.path) + [Write(ContentAt(t, k + 1), Done)]
    ensures PacedAt(t, v', calls', k + 1)
  {
    hide MarksOf, WritesOf;
  }

  /** The phase's next content is what the working copy renders to. */
  lemma NextContent(t: Target, k: int)
    requires 0 <= k <= 1 && DocAt(t, k + 1) != DocAt(t, k)
    ensures ContentAt(t, k + 1) == Some(Render(DocAt(t, k + 1)))
  {
  }

  lemma PacedIsConfirmed(t: Target, v: View, calls: seq<Call>, k: int)
    requires PacedAt(t, v, calls, k)
    ensures !v.unconfirmed
  {
  }

  lemma PacedOn(t: Target, v: View, calls: seq<Call>, v': View, calls': seq<Call>, k: int)
    requires PacedAt(t, v, calls, k) && v'.unconfirmed == v.unconfirmed
    requires WritesOf(calls', t.path) == WritesOf(calls, t.path)
    ensures PacedAt(t, v', calls', k)
  {
  }

  // -------------------------------------------------------------- a failure

  /** A phase that fails before its order. */
  lemma UnfinishedBooks(t: Target, keepDirty: bool, v: View, w: World, calls: seq<Call>, v': View, calls': seq<Call>,
                        k: int)
    requires 0 <= k <= 2 && InPhase(t, v, w, k) && PacedAt(t, v, calls, k)
    requires v'.unconfirmed == v.unconfirmed && v'.dirty == v.dirty
    requires WritesOf(calls', t.path) == WritesOf(calls, t.path)
    ensures Books(t, keepDirty, v', false, WritesOf(calls', t.path))
  {
    hide WritesOf, At;
    PacedOn(t, v, calls, v', calls', k);
    PacedBooks(t, keepDirty, v', w, calls', k);
  }

  lemma PacedBooks(t: Target, keepDirty: bool, v: View, w: World, calls: seq<Call>, k: int)
    requires 0 <= k <= 2 && PacedAt(t, v, calls, k) && v.dirty == TouchedAt(t, k)
    ensures Books(t, keepDirty, v, false, WritesOf(calls, t.path))
  {
    hide MarksOf, WritesOf, Mid;
  }

  lemma PacedIsBooked(p: Plan, keepDirty: bool, vs: Views, w: World, calls: seq<Call>, k: int, done: set<User>)
    requires Paced(p, vs, calls, k, done) && Progress(p, vs, w, k, done)
    requires 0 <= k && (k <= 1 || (k == 2 && done == {}))
    ensures Booked(p, keepDirty, vs, {}, calls) && MarksOf(calls) == []
  {
    hide MarksOf, WritesOf, Books, DocAt, ContentAt, TouchedAt;
    forall u | u in p.ts
      ensures Books(p.ts[u], keepDirty, vs[u], false, WritesOf(calls, p.ts[u].path))
    {
      PacedBooks(p.ts[u], keepDirty, vs[u], w, calls, if u in done then k + 1 else k);
    }
  }

  /** One file's failure, everybody else as booked. */
  lemma BookedOne(p: Plan, keepDirty: bool, vs: Views, calls: seq<Call>, vs': Views, calls': seq<Call>,
                  u: User, forgotten: set<User>)
    requires Booked(p, keepDirty, vs, {}, calls) && Distinct(p.ts) && u in p.ts
    requires u in vs' && vs' == vs[u := vs'[u]] && OrdersElsewhere(p.ts[u].path, calls, calls')
    requires forgotten <= {u} && Books(p.ts[u], keepDirty, vs'[u], u in forgotten, WritesOf(calls', p.ts[u].path))
    ensures Booked(p, keepDirty, vs', forgotten, calls') && MarksOf(calls') == MarksOf(calls)
  {
    hide MarksOf, WritesOf, Books, Distinct;
    forall x | x in p.ts && x != u
      ensures Books(p.ts[x], keepDirty, vs'[x], x in forgotten, WritesOf(calls', p.ts[x].path))
    {
      PathsDiffer(p, u, x);
    }
  }

  lemma PathsDiffer(p: Plan, u: User, x: User)
    requires Distinct(p.ts) && u in p.ts && x in p.ts && x != u
    ensures p.ts[x].path != p.ts[u].path
  {
  }

  lemma BookedSame(p: Plan, keepDirty: bool, vs: Views, forgotten: set<User>, a: seq<Call>, b: seq<Call>)
    requires Booked(p, keepDirty, vs, forgotten, a) && SameOrders(a, b)
    ensures Booked(p, keepDirty, vs, forgotten, b) && MarksOf(b) == MarksOf(a)
  {
    hide MarksOf, WritesOf, Books;
  }

  /** The marker ordered, and no success heard. */
  lemma MarkBooked(p: Plan, keepDirty: bool, vs: Views, calls: seq<Call>, more: seq<Call>)
    requires Booked(p, keepDirty, vs, {}, calls) && MarksOf(calls) == [] && MarkedNow(calls, more, false)
    ensures Booked(p, keepDirty, vs, {}, more) && MarkLast(more)
  {
    hide MarksOf, WritesOf, Books;
    assert more == calls + [more[|calls|]];
    MarkCall(calls, more[|calls|]);
    OneMarkLast(calls, more[|calls|]);
  }

  /** The marker ordered and heard of. */
  lemma MarkCompletes(p: Plan, vs: Views, calls: seq<Call>, more: seq<Call>)
    requires Paced(p, vs, calls, 2, {}) && MarkedNow(calls, more, true)
    ensures Completed(p, more)
  {
    hide MarksOf, WritesOf, WritesAt;
    assert more == calls + [more[|calls|]];
    MarkCall(calls, more[|calls|]);
  }

  lemma StillCompleted(p: Plan, calls: seq<Call>, more: seq<Call>)
    requires Completed(p, calls) && SameOrders(calls, more)
    ensures Completed(p, more)
  {
    hide MarksOf, WritesOf, WritesAt;
  }

  /** A reply other than success to the next order: what the books must say then. */
  lemma FailedOrder(t: Target, keepDirty: bool, v: View, calls: seq<Call>, v': View, ws: seq<Write>, k: int, r: Reply)
    requires 0 <= k <= 1 && PacedAt(t, v, calls, k) && v.dirty == TouchedAt(t, k) && DocAt(t, k + 1) != DocAt(t, k)
    requires r != Done && ws == WritesOf(calls, t.path) + [Write(ContentAt(t, k + 1), r)]
    requires v'.unconfirmed == (r == Lost)
    requires v'.dirty == (if r == Exit then keepDirty && v.dirty else true)
    ensures Books(t, keepDirty, v', r == Exit && v.dirty && !keepDirty, ws)
  {
    hide MarksOf, WritesOf;
  }

  // ------------------------------------------------ what the books say

  lemma ForgottenMeansDropped(t: Target, keepDirty: bool, v: View, forgot: bool, ws: seq<Write>)
    requires Books(t, keepDirty, v, forgot, ws)
    ensures forgot <==> !keepDirty && Dropped(ws)
  {
    hide Mid, Fin;
    if |ws| == 2 && ws[1].reply == Exit {
      assert ws[0].reply == Done;
    }
  }

  /** A file is forgotten if and only if its first order was carried out, a later one refused,
      and the rule is the written one. */
  lemma ForgottenExactly(p: Plan, keepDirty: bool, vs: Views, forgotten: set<User>, calls: seq<Call>, u: User)
    requires Booked(p, keepDirty, vs, forgotten, calls) && u in p.ts
    ensures u in forgotten <==> !keepDirty && Dropped(WritesOf(calls, p.ts[u].path))
  {
    hide Books, WritesOf, Dropped;
    ForgottenMeansDropped(p.ts[u], keepDirty, vs[u], u in forgotten, WritesOf(calls, p.ts[u].path));
  }

  /** Nothing is ever ordered of a file whose document the operations leave alone. */
  lemma IdleFileIsLeftAlone(p: Plan, keepDirty: bool, vs: Views, forgotten: set<User>, calls: seq<Call>, u: User)
    requires Booked(p, keepDirty, vs, forgotten, calls) && u in p.ts && !TouchedAt(p.ts[u], 2)
    ensures WritesOf(calls, p.ts[u].path) == [] && u in vs && !vs[u].dirty
  {
    hide MarksOf, WritesOf;
    assert Books(p.ts[u], keepDirty, vs[u], u in forgotten, WritesOf(calls, p.ts[u].path));
  }

  lemma ForgottenIsTouched(p: Plan, keepDirty: bool, vs: Views, forgotten: set<User>, calls: seq<Call>, u: User)
    requires Booked(p, keepDirty, vs, forgotten, calls) && u in forgotten
    ensures u in p.ts && p.ts[u].doc1 != p.ts[u].doc0 && p.ts[u].doc2 != p.ts[u].doc1
  {
    hide MarksOf, WritesOf;
    assert Books(p.ts[u], keepDirty, vs[u], u in forgotten, WritesOf(calls, p.ts[u].path));
  }
}
