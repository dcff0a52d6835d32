/** What the editor promises: nothing but the requested keys changes, and the disk agrees. */
module AuthKeysLaws {
  import opened Basics
  import opened AuthKeys

  /** The lines say what re-reading them would say. */
  ghost predicate Canonical(c: Codec, d: Doc) {
    && (forall l | l in d.lines :: OneLine(l.raw) && ParseLine(c, l.raw).key == l.key)
    && Tidy(d)
  }

  /** The one thing asked of the SSH library: a granted key's text is one line that reads back. */
  ghost predicate Faithful(c: Codec, g: Grant) {
    OneLine(GrantText(c, g)) && ParseLine(c, GrantText(c, g)).key == Some(g.key)
  }

  datatype Edit = Granting(g: Grant) | Revoking(m: Matcher)

  function ApplyEdits(c: Codec, d: Doc, edits: seq<Edit>): Doc
    decreases |edits|
  {
    if edits == [] then d
    else match edits[0]
      case Granting(g) => ApplyEdits(c, Add(c, d, g), edits[1..])
      case Revoking(m) => ApplyEdits(c, Remove(c, d, m), edits[1..])
  }

  // ---------------------------------------------------------------- bytes

  lemma JoinedCons(c: Codec, raw: Bytes, rest: seq<Bytes>)
    ensures Joined(ParseLines(c, [raw] + rest)) == raw + "\n" + Joined(ParseLines(c, rest))
  {
    assert ([raw] + rest)[1..] == rest;
  }

  lemma JoinedSplitStep(c: Codec, s: Bytes, i: nat)
    requires i == IndexOf(s, '\n') < |s|
    requires Joined(ParseLines(c, Split(s[i + 1..]))) == s[i + 1..] + "\n"
    ensures Joined(ParseLines(c, Split(s))) == s + "\n"
  {
    hide Joined, ParseLines, IndexOf;
    JoinedCons(c, s[..i], Split(s[i + 1..]));
    assert s == s[..i] + "\n" + s[i + 1..];
  }

  lemma {:induction false} JoinedSplit(c: Codec, s: Bytes)
    ensures Joined(ParseLines(c, Split(s))) == s + "\n"
    decreases |s|
  {
    hide Joined, ParseLines, IndexOf;
    var i := IndexOf(s, '\n');
    if i == |s| {
      assert s[..i] == s;
      assert Split(s) == [s] + [];
      JoinedCons(c, s, []);
      NoLines(c);
    } else {
      JoinedSplit(c, s[i + 1..]);
      JoinedSplitStep(c, s, i);
    }
  }

  lemma NoLines(c: Codec)
    ensures Joined(ParseLines(c, [])) == ""
  {
  }

  /** Rendering what was parsed gives back every byte. */
  lemma RoundTrip(c: Codec, content: Bytes)
    ensures Render(Parse(c, content)) == content
  {
    if content != "" {
      JoinedSplit(c, TrimNewline(content));
      if EndsWithNewline(content) {
        assert content == content[..|content| - 1] + "\n";
      } else {
        assert (content + "\n")[..|content|] == content;
      }
    }
  }

  function Raws(lines: seq<Line>): seq<Bytes> {
    if lines == [] then [] else [lines[0].raw] + Raws(lines[1..])
  }

  lemma {:induction false} SplitJoined(lines: seq<Line>)
    requires lines != [] && forall l | l in lines :: OneLine(l.raw)
    ensures Split(TrimNewline(Joined(lines))) == Raws(lines)
  {
    var raw, rest := lines[0].raw, Joined(lines[1..]);
    var s := TrimNewline(Joined(lines));
    if |lines| == 1 {
      assert s == raw;
      assert IndexOf(s, '\n') == |s|;
    } else {
      assert s == raw + ['\n'] + TrimNewline(rest);
      IndexAfter(raw, '\n', TrimNewline(rest));
      assert s[..|raw|] == raw && s[|raw| + 1..] == TrimNewline(rest);
      SplitJoined(lines[1..]);
    }
  }

  /** What survives a write: a blank last line without its newline does not. */
  function Visible(d: Doc): seq<Line> {
    if d.noFinalNewline && d.lines != [] && d.lines[|d.lines| - 1].raw == ""
    then d.lines[..|d.lines| - 1] else d.lines
  }

  lemma {:induction false} JoinedSplits(a: seq<Line>, b: seq<Line>)
    ensures Joined(a + b) == Joined(a) + Joined(b)
  {
    if a == [] {
      assert a + b == b;
    } else {
      assert (a + b)[1..] == a[1..] + b;
      JoinedSplits(a[1..], b);
    }
  }

  lemma RereadLines(c: Codec, d: Doc)
    requires Canonical(c, d)
    ensures RawLines(Render(d)) == Raws(Visible(d))
  {
    var lines := d.lines;
    if lines == [] {
      return;
    }
    var front, last := lines[..|lines| - 1], lines[|lines| - 1];
    var text := Joined(lines);
    assert lines == front + [last];
    JoinedSplits(front, [last]);
    assert Joined([last]) == last.raw + "\n";
    if !d.noFinalNewline {
      SplitJoined(lines);
    } else {
      assert Render(d) == Joined(front) + last.raw;
      if last.raw != "" {
        assert Render(d)[|Render(d)| - 1] == last.raw[|last.raw| - 1];
        assert last.raw[|last.raw| - 1] != '\n';
        SplitJoined(lines);
      } else if front != [] {
        SplitJoined(front);
      }
    }
  }

  lemma {:induction false} KeysOfRaws(c: Codec, lines: seq<Line>)
    requires forall l | l in lines :: ParseLine(c, l.raw).key == l.key
    ensures Keys(ParseLines(c, Raws(lines))) == Keys(lines)
  {
    if lines != [] {
      KeysOfRaws(c, lines[1..]);
      assert ParseLines(c, Raws(lines))[1..] == ParseLines(c, Raws(lines[1..]));
    }
  }

  lemma {:induction false} KeysSplit(a: seq<Line>, b: seq<Line>)
    ensures Keys(a + b) == Keys(a) + Keys(b)
  {
    if a == [] {
      assert a + b == b;
    } else {
      assert (a + b)[1..] == a[1..] + b;
      KeysSplit(a[1..], b);
    }
  }

  /** The file on disk has exactly the working copy's keys, in order. */
  lemma DiskAgrees(c: Codec, d: Doc)
    requires Canonical(c, d)
    ensures Keys(Parse(c, Render(d)).lines) == Keys(d.lines)
    ensures Raws(Parse(c, Render(d)).lines) == Raws(Visible(d))
  {
    RereadLines(c, d);
    var seen := Visible(d);
    RawsOfParsed(c, Raws(seen));
    KeysOfRaws(c, seen);
    if seen != d.lines {
      var last := d.lines[|d.lines| - 1];
      assert d.lines == seen + [last];
      assert last in d.lines;
      KeysSplit(seen, [last]);
      assert Keys([last]) == [];
    }
  }

  lemma {:induction false} RawsOfParsed(c: Codec, raws: seq<Bytes>)
    ensures Raws(ParseLines(c, raws)) == raws
  {
    if raws != [] {
      RawsOfParsed(c, raws[1..]);
    }
  }

  // ------------------------------------------------- edits keep canonical

  lemma CanonicalParse(c: Codec, content: Bytes)
    ensures Canonical(c, Parse(c, content))
  {
    var raws := RawLines(content);
    forall l | l in Parse(c, content).lines
      ensures OneLine(l.raw) && ParseLine(c, l.raw).key == l.key
    {
      var i :| 0 <= i < |raws| && l == ParseLine(c, raws[i]);
      assert raws[i] in raws;
    }
  }

  lemma CanonicalAdd(c: Codec, d: Doc, g: Grant)
    requires Canonical(c, d) && Faithful(c, g)
    ensures Canonical(c, Add(c, d, g))
  {
  }

  lemma CanonicalRemove(c: Codec, d: Doc, m: Matcher)
    requires Canonical(c, d)
    ensures Canonical(c, Remove(c, d, m))
  {
    SelectMembers(c, d.lines, m, false);
  }

  lemma {:induction false} CanonicalEdits(c: Codec, d: Doc, edits: seq<Edit>)
    requires Canonical(c, d)
    requires forall e | e in edits && e.Granting? :: Faithful(c, e.g)
    ensures Canonical(c, ApplyEdits(c, d, edits))
    decreases |edits|
  {
    if edits != [] {
      match edits[0]
      case Granting(g) =>
        CanonicalAdd(c, d, g);
        CanonicalEdits(c, Add(c, d, g), edits[1..]);
      case Revoking(m) =>
        CanonicalRemove(c, d, m);
        CanonicalEdits(c, Remove(c, d, m), edits[1..]);
    }
  }

  /** Whatever the content and the edits, the disk and the working copy hold the same keys. */
  lemma DiskAgreesAfterEdits(c: Codec, content: Bytes, edits: seq<Edit>)
    requires forall e | e in edits && e.Granting? :: Faithful(c, e.g)
    ensures var d := ApplyEdits(c, Parse(c, content), edits);
            Keys(Parse(c, Render(d)).lines) == Keys(d.lines)
  {
    CanonicalParse(c, content);
    CanonicalEdits(c, Parse(c, content), edits);
    DiskAgrees(c, ApplyEdits(c, Parse(c, content), edits));
  }

  lemma {:induction false} CanonicalAddAll(c: Codec, d: Doc, gs: seq<Grant>)
    requires Canonical(c, d) && forall g | g in gs :: Faithful(c, g)
    ensures Canonical(c, AddAll(c, d, gs))
    decreases |gs|
  {
    if gs != [] {
      CanonicalAdd(c, d, gs[0]);
      CanonicalAddAll(c, Add(c, d, gs[0]), gs[1..]);
    }
  }

  lemma {:induction false} CanonicalRemoveAll(c: Codec, d: Doc, ms: seq<Matcher>)
    requires Canonical(c, d)
    ensures Canonical(c, RemoveAll(c, d, ms))
    decreases |ms|
  {
    if ms != [] {
      CanonicalRemove(c, d, ms[0]);
      CanonicalRemoveAll(c, Remove(c, d, ms[0]), ms[1..]);
    }
  }

  // ---------------------------------------------------------- phase order

  /** No removal takes back an addition: what rejectSelfCancellingOps lets through. */
  ghost predicate Compatible(c: Codec, gs: seq<Grant>, ms: seq<Matcher>) {
    forall g, m | g in gs && m in ms :: !MatchesKey(c, m, g.key)
  }

  lemma RemoveKeepsOther(c: Codec, d: Doc, m: Matcher, key: Key)
    requires !MatchesKey(c, m, key)
    ensures Has(Remove(c, d, m), key) == Has(d, key)
  {
    SelectMembers(c, d.lines, m, false);
    if Has(d, key) {
      var l :| l in d.lines && l.key == Some(key);
      assert l in Remove(c, d, m).lines;
    }
  }

  lemma AddRemoveCommute(c: Codec, d: Doc, g: Grant, m: Matcher)
    requires !MatchesKey(c, m, g.key)
    requires Tidy(d)
    ensures Remove(c, Add(c, d, g), m) == Add(c, Remove(c, d, m), g)
  {
    RemoveKeepsOther(c, d, m, g.key);
    if !Has(d, g.key) {
      SelectSplits(c, d.lines, [GrantLine(c, g)], m, false);
    }
  }

  lemma {:induction false} AddPastRemovals(c: Codec, d: Doc, g: Grant, ms: seq<Matcher>)
    requires forall m | m in ms :: !MatchesKey(c, m, g.key)
    requires Tidy(d)
    ensures RemoveAll(c, Add(c, d, g), ms) == Add(c, RemoveAll(c, d, ms), g)
    decreases |ms|
  {
    if ms != [] {
      assert ms[0] in ms;
      AddRemoveCommute(c, d, g, ms[0]);
      AddPastRemovals(c, Remove(c, d, ms[0]), g, ms[1..]);
    }
  }

  /** Adding first or removing first ends in the same lines and the same final-newline flag. */
  lemma {:induction false} PhaseOrderIrrelevant(c: Codec, d: Doc, gs: seq<Grant>, ms: seq<Matcher>)
    requires Compatible(c, gs, ms)
    requires Tidy(d)
    ensures RemoveAll(c, AddAll(c, d, gs), ms) == AddAll(c, RemoveAll(c, d, ms), gs)
    decreases |gs|
  {
    if gs != [] {
      assert gs[0] in gs;
      PhaseOrderIrrelevant(c, Add(c, d, gs[0]), gs[1..], ms);
      AddPastRemovals(c, d, gs[0], ms);
    }
  }

  /** The lines no matcher selects, in order. */
  function Survivors(c: Codec, lines: seq<Line>, ms: seq<Matcher>): seq<Line> {
    if lines == [] then []
    else (if exists m | m in ms :: Matches(c, m, lines[0]) then [] else [lines[0]])
         + Survivors(c, lines[1..], ms)
  }

  /** The lines the additions really append, in op order. */
  function Fresh(c: Codec, known: set<Key>, gs: seq<Grant>): seq<Line>
    decreases |gs|
  {
    if gs == [] then []
    else if gs[0].key in known then Fresh(c, known, gs[1..])
    else [GrantLine(c, gs[0])] + Fresh(c, known + {gs[0].key}, gs[1..])
  }

  function KeySet(d: Doc): set<Key> {
    set k | k in Keys(d.lines)
  }

  lemma {:induction false} SurvivorsStep(c: Codec, lines: seq<Line>, ms: seq<Matcher>)
    requires ms != []
    ensures Survivors(c, lines, ms) == Survivors(c, Kept(c, lines, ms[0]), ms[1..])
  {
    if lines != [] {
      SurvivorsStep(c, lines[1..], ms);
      assert (exists m | m in ms :: Matches(c, m, lines[0]))
          == (Matches(c, ms[0], lines[0]) || exists m | m in ms[1..] :: Matches(c, m, lines[0])) by {
        assert forall m :: m in ms <==> m == ms[0] || m in ms[1..];
      }
      var kept := Kept(c, lines[1..], ms[0]);
      if !Matches(c, ms[0], lines[0]) {
        assert Kept(c, lines, ms[0]) == [lines[0]] + kept;
        assert ([lines[0]] + kept)[1..] == kept;
      } else {
        assert Kept(c, lines, ms[0]) == kept;
      }
    }
  }

  lemma {:induction false} SurvivorsOfNone(c: Codec, lines: seq<Line>)
    ensures Survivors(c, lines, []) == lines
  {
    if lines != [] {
      SurvivorsOfNone(c, lines[1..]);
    }
  }

  lemma {:induction false} RemoveAllLines(c: Codec, d: Doc, ms: seq<Matcher>)
    ensures RemoveAll(c, d, ms).lines == Survivors(c, d.lines, ms)
    decreases |ms|
  {
    if ms == [] {
      SurvivorsOfNone(c, d.lines);
    } else {
      RemoveAllLines(c, Remove(c, d, ms[0]), ms[1..]);
      SurvivorsStep(c, d.lines, ms);
    }
  }

  lemma AddKeySet(c: Codec, d: Doc, g: Grant)
    ensures Has(d, g.key) <==> g.key in KeySet(d)
    ensures !Has(d, g.key) ==> KeySet(Add(c, d, g)) == KeySet(d) + {g.key}
  {
    KeysSplit(d.lines, [GrantLine(c, g)]);
  }

  lemma {:induction false} AddAllLines(c: Codec, d: Doc, gs: seq<Grant>)
    ensures AddAll(c, d, gs).lines == d.lines + Fresh(c, KeySet(d), gs)
    ensures Fresh(c, KeySet(d), gs) == [] ==> AddAll(c, d, gs) == d
    ensures Fresh(c, KeySet(d), gs) != [] ==> !AddAll(c, d, gs).noFinalNewline
    decreases |gs|
  {
    hide GrantLine, Has, KeySet;
    if gs != [] {
      AddAllLines(c, Add(c, d, gs[0]), gs[1..]);
      AddKeySet(c, d, gs[0]);
    }
  }

  /** The end state in closed form: untouched original lines, then the new ones. */
  lemma FinalLines(c: Codec, d: Doc, gs: seq<Grant>, ms: seq<Matcher>)
    requires Compatible(c, gs, ms)
    requires Tidy(d)
    ensures RemoveAll(c, AddAll(c, d, gs), ms).lines
         == Survivors(c, d.lines, ms) + Fresh(c, KeySet(RemoveAll(c, d, ms)), gs)
  {
    PhaseOrderIrrelevant(c, d, gs, ms);
    RemoveAllLines(c, d, ms);
    AddAllLines(c, RemoveAll(c, d, ms), gs);
  }

  // ------------------------------------------------------------ key sets

  lemma {:induction false} AddAllKeys(c: Codec, d: Doc, gs: seq<Grant>)
    ensures forall k :: Has(AddAll(c, d, gs), k) <==> Has(d, k) || exists g | g in gs :: g.key == k
    decreases |gs|
  {
    if gs != [] {
      var d1 := Add(c, d, gs[0]);
      AddAllKeys(c, d1, gs[1..]);
      forall k
        ensures Has(AddAll(c, d, gs), k) <==> Has(d, k) || exists g | g in gs :: g.key == k
      {
        AddKeys(c, d, gs[0], k);
        assert forall g :: g in gs <==> g == gs[0] || g in gs[1..];
      }
    }
  }

  lemma AddKeys(c: Codec, d: Doc, g: Grant, k: Key)
    ensures Has(Add(c, d, g), k) <==> Has(d, k) || g.key == k
  {
    if !Has(d, g.key) {
      var line := GrantLine(c, g);
      assert Add(c, d, g).lines == d.lines + [line];
      assert line in Add(c, d, g).lines;
      if Has(d, k) {
        var l :| l in d.lines && l.key == Some(k);
        assert l in Add(c, d, g).lines;
      }
    }
  }

  lemma {:induction false} RemoveAllKeys(c: Codec, d: Doc, ms: seq<Matcher>)
    ensures forall k :: Has(RemoveAll(c, d, ms), k)
                   <==> Has(d, k) && !exists m | m in ms :: MatchesKey(c, m, k)
    decreases |ms|
  {
    if ms != [] {
      var d1 := Remove(c, d, ms[0]);
      RemoveAllKeys(c, d1, ms[1..]);
      forall k
        ensures Has(RemoveAll(c, d, ms), k)
           <==> Has(d, k) && !exists m | m in ms :: MatchesKey(c, m, k)
      {
        assert forall m :: m in ms <==> m == ms[0] || m in ms[1..];
        SelectMembers(c, d.lines, ms[0], false);
        if !MatchesKey(c, ms[0], k) {
          RemoveKeepsOther(c, d, ms[0], k);
        }
      }
    }
  }

  /** The end state's keys: (original minus removed) plus added, so additions survive. */
  lemma FinalKeys(c: Codec, d: Doc, gs: seq<Grant>, ms: seq<Matcher>, k: Key)
    requires Compatible(c, gs, ms)
    ensures Has(RemoveAll(c, AddAll(c, d, gs), ms), k)
       <==> (Has(d, k) && !exists m | m in ms :: MatchesKey(c, m, k)) || exists g | g in gs :: g.key == k
  {
    AddAllKeys(c, d, gs);
    RemoveAllKeys(c, AddAll(c, d, gs), ms);
  }

  // ------------------------------------------------- prefix and re-running

  /** The original bytes with the final newline an appended line needs. */
  function Completed(content: Bytes): Bytes {
    if content == "" || EndsWithNewline(content) then content else content + "\n"
  }

  lemma CompletedIsJoined(c: Codec, content: Bytes)
    ensures Completed(content) == Joined(Parse(c, content).lines)
  {
    if content != "" {
      JoinedSplit(c, TrimNewline(content));
      if EndsWithNewline(content) {
        assert content == content[..|content| - 1] + "\n";
      }
    }
  }

  /** The add phase only appends: the original text is a prefix of the new one. */
  lemma AddPhaseAppends(c: Codec, content: Bytes, gs: seq<Grant>)
    ensures var d := Parse(c, content);
            var d1 := AddAll(c, d, gs);
            if Fresh(c, KeySet(d), gs) == [] then Render(d1) == content
            else Completed(content) + Joined(Fresh(c, KeySet(d), gs)) == Render(d1)
  {
    var d := Parse(c, content);
    RoundTrip(c, content);
    AddAllLines(c, d, gs);
    CompletedIsJoined(c, content);
    JoinedSplits(d.lines, Fresh(c, KeySet(d), gs));
  }

  /** Nothing to add and nothing to remove: the document stays as it is. */
  lemma {:induction false} NothingToAdd(c: Codec, d: Doc, gs: seq<Grant>)
    requires forall g | g in gs :: Has(d, g.key)
    ensures AddAll(c, d, gs) == d
    decreases |gs|
  {
    if gs != [] {
      NothingToAdd(c, d, gs[1..]);
    }
  }

  lemma {:induction false} KeepsAll(c: Codec, lines: seq<Line>, m: Matcher)
    requires forall l | l in lines :: !Matches(c, m, l)
    ensures Kept(c, lines, m) == lines
  {
    if lines != [] {
      KeepsAll(c, lines[1..], m);
    }
  }

  lemma {:induction false} NothingToRemove(c: Codec, d: Doc, ms: seq<Matcher>)
    requires Tidy(d)
    requires forall l, m | l in d.lines && m in ms :: !Matches(c, m, l)
    ensures RemoveAll(c, d, ms) == d
    decreases |ms|
  {
    if ms != [] {
      KeepsAll(c, d.lines, ms[0]);
      NothingToRemove(c, d, ms[1..]);
    }
  }

  lemma KeysAreHad(d: Doc, k: Key)
    ensures k in Keys(d.lines) <==> Has(d, k)
  {
  }

  /** A committed result, read back, has nothing left to add or to remove. */
  lemma RerunIsNoOp(c: Codec, content: Bytes, gs: seq<Grant>, ms: seq<Matcher>)
    requires Compatible(c, gs, ms) && forall g | g in gs :: Faithful(c, g)
    ensures var d2 := RemoveAll(c, AddAll(c, Parse(c, content), gs), ms);
            var again := Parse(c, Render(d2));
            AddAll(c, again, gs) == again && RemoveAll(c, again, ms) == again
  {
    var d := Parse(c, content);
    var d2 := RemoveAll(c, AddAll(c, d, gs), ms);
    CanonicalParse(c, content);
    CanonicalAddAll(c, d, gs);
    CanonicalRemoveAll(c, AddAll(c, d, gs), ms);
    DiskAgrees(c, d2);
    var again := Parse(c, Render(d2));
    forall k
      ensures Has(again, k) == Has(d2, k)
    {
      KeysAreHad(again, k);
      KeysAreHad(d2, k);
    }
    forall g | g in gs
      ensures Has(again, g.key)
    {
      FinalKeys(c, d, gs, ms, g.key);
    }
    NothingToAdd(c, again, gs);
    RemoveAllKeys(c, AddAll(c, d, gs), ms);
    forall l, m | l in again.lines && m in ms
      ensures !Matches(c, m, l)
    {
      if l.key.Some? {
        assert Has(again, l.key.value);
      }
    }
    CanonicalParse(c, Render(d2));
    NothingToRemove(c, again, ms);
  }

  // -------------------------------------------- an edit that changes is seen

  /** An added line makes the file longer, the newline it supplies included. */
  lemma AddLengthens(c: Codec, d: Doc, g: Grant)
    requires !Has(d, g.key)
    ensures |Render(Add(c, d, g))| > |Render(d)| && !Add(c, d, g).noFinalNewline
  {
    JoinedSplits(d.lines, [GrantLine(c, g)]);
    assert Joined([GrantLine(c, g)]) != "";
  }

  /** Additions that change the document change the file. */
  lemma {:induction false} AddAllLengthens(c: Codec, d: Doc, gs: seq<Grant>)
    ensures AddAll(c, d, gs) != d
            ==> |Render(AddAll(c, d, gs))| > |Render(d)| && !AddAll(c, d, gs).noFinalNewline
    decreases |gs|
  {
    hide Render, Has;
    if gs != [] {
      AddAllLengthens(c, Add(c, d, gs[0]), gs[1..]);
      if !Has(d, gs[0].key) {
        AddLengthens(c, d, gs[0]);
      }
    }
  }

  lemma {:induction false} KeptIsShorter(c: Codec, lines: seq<Line>, m: Matcher)
    ensures Kept(c, lines, m) == lines || |Joined(Kept(c, lines, m))| < |Joined(lines)|
  {
    hide Matches;
    if lines != [] {
      KeptIsShorter(c, lines[1..], m);
      var rest := Kept(c, lines[1..], m);
      if Matches(c, m, lines[0]) {
        assert Kept(c, lines, m) == rest;
      } else {
        assert Kept(c, lines, m) == [lines[0]] + rest && ([lines[0]] + rest)[1..] == rest;
        assert lines == [lines[0]] + lines[1..];
      }
    }
  }

  /** Removals that change a document ending in a newline change the file. */
  lemma {:induction false} RemoveAllShortens(c: Codec, d: Doc, ms: seq<Matcher>)
    requires !d.noFinalNewline
    ensures RemoveAll(c, d, ms) == d || |Render(RemoveAll(c, d, ms))| < |Render(d)|
    decreases |ms|
  {
    hide Kept;
    if ms != [] {
      KeptIsShorter(c, d.lines, ms[0]);
      RemoveAllShortens(c, Remove(c, d, ms[0]), ms[1..]);
    }
  }
}
