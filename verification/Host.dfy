/** The remote side as the client meets it: every call has a fate from an arbitrary script. */
module Host {
  import opened Basics
  import opened World
  import opened WritePolicy
  import AuthKeys

  datatype Account = Account(login: Login, home: Path)

  /** What never changes during a transaction: accounts, directories, the guard's login. */
  datatype Site = Site(accounts: map<User, Account>, dirs: map<Path, Meta>, guard: Login)

  /** stat without following links. */
  function StatOf(site: Site, w: World, p: Path): FileInfo {
    if p in w.links then FileInfo(true, true, "", "", "")
    else if p in w.disk then FileInfo(true, false, w.disk[p].meta.uid, w.disk[p].meta.gid, w.disk[p].meta.mode)
    else if p in site.dirs then FileInfo(true, false, site.dirs[p].uid, site.dirs[p].gid, site.dirs[p].mode)
    else FileInfo(false, false, "", "", "")
  }

  /** The record: what each event met and what it did, from the first state to the last. */
  ghost predicate Logged(script: (nat, World, Event) -> Tick, trace: seq<World>, calls: seq<Call>) {
    && |trace| == |calls| + 1
    && forall i | 0 <= i < |calls| ::
         && calls[i].tick == script(i, trace[i], calls[i].event)
         && (trace[i + 1], calls[i].reply) == Turn(trace[i], calls[i].event, calls[i].tick)
  }

  ghost predicate AllSmooth(calls: seq<Call>) {
    forall c | c in calls :: Smooth(c.tick)
  }

  /** A moment of a host: where it stands and what is on record. */
  datatype Moment = Moment(w: World, calls: seq<Call>, calm: bool)

  class Host {
    const site: Site
    const script: (nat, World, Event) -> Tick   // the environment's answer to every event, at any time, in any state
    ghost const start: World      // the state it all began in
    var w: World
    var clock: nat
    ghost var trace: seq<World>   // every state so far, the last one current
    ghost var calls: seq<Call>    // every event so far
    ghost var calm: bool          // nothing has gone wrong yet

    ghost predicate Valid()
      reads this
    {
      && |trace| > 0 && trace[0] == start && trace[|trace| - 1] == w && clock == |calls|
      && calm == AllSmooth(calls)
      && Logged(script, trace, calls)
    }

    constructor (site: Site, w: World, script: (nat, World, Event) -> Tick)
      ensures Valid() && this.site == site && this.w == w && this.script == script
      ensures trace == [w] && calls == [] && calm
    {
      this.site, this.script, start, this.w, clock := site, script, w, w, 0;
      trace, calls, calm := [w], [], true;
    }

    ghost function Now(): Moment
      reads this
    {
      Moment(w, calls, calm)
    }

    /** What the environment has in store for this event now. */
    function Next(e: Event): Tick
      reads this
    {
      script(clock, w, e)
    }

    /** One event happened: the record is one longer. */
    ghost predicate Moved(before: World, trace0: seq<World>, calls0: seq<Call>, calm0: bool, e: Event, t: Tick,
                          r: Reply)
      reads this
    {
      && trace == trace0 + [w] && calls == calls0 + [Call(e, t, r)] && calm == (calm0 && Smooth(t))
      && (w, r) == Turn(before, e, t)
    }

    /** The event meets the environment. */
    method Play(e: Event) returns (r: Reply)
      requires Valid()
      modifies this
      ensures Valid() && Moved(old(w), old(trace), old(calls), old(calm), e, old(Next(e)), r)
    {
      var t := Next(e);
      var after := Turn(w, e, t);
      Grows(after.0, Call(e, t, after.1));
      w, r, clock := after.0, after.1, clock + 1;
      trace, calls, calm := trace + [after.0], calls + [Call(e, t, after.1)], calm && Smooth(t);
    }

    lemma Grows(after: World, c: Call)
      requires Valid() && c.tick == Next(c.event) && (after, c.reply) == Turn(w, c.event, c.tick)
      ensures Logged(script, trace + [after], calls + [c])
      ensures AllSmooth(calls + [c]) == (calm && Smooth(c.tick))
    {
      hide Turn;
      assert AllSmooth(calls + [c]) ==> AllSmooth(calls) && Smooth(c.tick) by {
        assert forall x | x in calls :: x in calls + [c];
        assert c in calls + [c];
      }
    }

    /** One remote command over the guard connection. */
    method Issue(c: Command) returns (r: Reply)
      requires Valid()
      modifies this
      ensures Valid() && Moved(old(w), old(trace), old(calls), old(calm), Remote(c), old(Next(Remote(c))), r)
      ensures (w, r) == Perform(old(w), c, old(Next(Remote(c))))
    {
      hide Perform;
      r := Play(Remote(c));
    }

    /** The remote half of checkHealth. */
    method Check() returns (r: Reply)
      requires Valid()
      modifies this
      ensures Valid() && Moved(old(w), old(trace), old(calls), old(calm), Health, old(Next(Health)), r)
      ensures (w, r) == CheckGuard(old(w), old(Next(Health)))
    {
      hide CheckGuard;
      r := Play(Health);
    }

    /** One fresh connection asking about one key. */
    method Query(user: User, key: AuthKeys.Key, full: bool) returns (v: Verdict)
      requires Valid()
      modifies this
      ensures Valid()
      ensures Moved(old(w), old(trace), old(calls), old(calm), Question(user, key, full),
                    old(Next(Question(user, key, full))), Done)
      ensures w == Ask(old(w), user, key, full, old(Next(Question(user, key, full))))
      ensures v == old(Next(Question(user, key, full))).verdict
    {
      hide Ask;
      v := Next(Question(user, key, full)).verdict;
      var _ := Play(Question(user, key, full));
    }

    /** A backup on the operator's own disk. */
    method Save(user: User, content: Bytes) returns (r: Reply)
      requires Valid()
      modifies this
      ensures Valid()
      ensures Moved(old(w), old(trace), old(calls), old(calm), Keep(user, content), old(Next(Keep(user, content))), r)
      ensures (w, r) == SaveLocally(old(w), user, content, old(Next(Keep(user, content))))
    {
      hide SaveLocally;
      r := Play(Keep(user, content));
    }

    /** A snapshot on the operator's own disk. */
    method SaveCopy(user: User, content: Bytes) returns (r: Reply)
      requires Valid()
      modifies this
      ensures Valid()
      ensures Moved(old(w), old(trace), old(calls), old(calm), KeepSnapshot(user, content),
                    old(Next(KeepSnapshot(user, content))), r)
      ensures (w, r) == SaveSnapshot(old(w), user, content, old(Next(KeepSnapshot(user, content))))
    {
      hide SaveSnapshot;
      r := Play(KeepSnapshot(user, content));
    }

    /** Closing the guard's stdin and waiting. */
    method CloseGuard()
      requires Valid()
      modifies this
      ensures Valid() && Moved(old(w), old(trace), old(calls), old(calm), Leave, old(Next(Leave)), Done)
      ensures w == Close(old(w), old(Next(Leave)))
    {
      hide Close;
      var _ := Play(Leave);
    }

    /** Starting the guard session. */
    method Arm() returns (r: Reply)
      requires Valid()
      modifies this
      ensures Valid() && Moved(old(w), old(trace), old(calls), old(calm), Start, old(Next(Start)), r)
      ensures (w, r) == StartGuard(old(w), old(Next(Start)))
    {
      hide StartGuard;
      r := Play(Start);
    }

    /** The client closes the connection, or it is gone already; the guard session ends with it. */
    method Disconnect()
      requires Valid()
      modifies this
      ensures Valid() && Moved(old(w), old(trace), old(calls), old(calm), Hang, old(Next(Hang)), Done)
      ensures w == Hangup(old(w))
    {
      hide Hangup;
      var _ := Play(Hang);
    }
  }
}
