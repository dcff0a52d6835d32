/** The trap's manifest: what the client appends and what the shell's read loop sees. */
module Manifest {
  import opened Basics

  datatype Record = Record(typ: Bytes, bak: Bytes, dst: Bytes)

  function Encode(r: Record): Bytes {
    r.typ + "\t" + r.bak + "\t" + r.dst + "\n"
  }

  function EncodeAll(rs: seq<Record>): Bytes {
    if rs == [] then "" else Encode(rs[0]) + EncodeAll(rs[1..])
  }

  /** The lines `read` accepts: a last line without its newline is never delivered. */
  function CompleteLines(m: Bytes): seq<Bytes>
    decreases |m|
  {
    var i := IndexOf(m, '\n');
    if i == |m| then [] else [m[..i]] + CompleteLines(m[i + 1..])
  }

  function SkipTabs(s: Bytes): Bytes {
    if s != "" && s[0] == '\t' then SkipTabs(s[1..]) else s
  }

  function TrimTabs(s: Bytes): Bytes {
    if s != "" && s[|s| - 1] == '\t' then TrimTabs(s[..|s| - 1]) else s
  }

  /** The next tab-separated field and what follows its separators. */
  function NextField(s: Bytes): (Bytes, Bytes) {
    var t := SkipTabs(s);
    var i := IndexOf(t, '\t');
    (t[..i], SkipTabs(t[i..]))
  }

  /** `IFS=<tab> read -r typ bak dst`: tab is IFS white space, the last name takes the rest. */
  function ReadFields(line: Bytes): Record {
    var (typ, rest) := NextField(line);
    var (bak, dst) := NextField(rest);
    Record(typ, bak, TrimTabs(dst))
  }

  function DecodeLines(lines: seq<Bytes>): (rs: seq<Record>)
    ensures |rs| == |lines|
  {
    if lines == [] then [] else [ReadFields(lines[0])] + DecodeLines(lines[1..])
  }

  function Decode(m: Bytes): seq<Record> {
    DecodeLines(CompleteLines(m))
  }

  /** A field the format can carry. */
  predicate CleanField(s: Bytes) {
    s != "" && '\t' !in s && '\n' !in s
  }

  predicate CleanRecord(r: Record) {
    CleanField(r.typ) && CleanField(r.bak) && CleanField(r.dst)
  }

  /** Nothing is pending: the next append starts a line. */
  predicate Whole(m: Bytes) {
    m == "" || m[|m| - 1] == '\n'
  }

  lemma FieldEnds(f: Bytes, rest: Bytes)
    requires CleanField(f) && rest != "" && rest[0] != '\t'
    ensures NextField(f + "\t" + rest) == (f, rest)
  {
    var s := f + "\t" + rest;
    assert s[0] == f[0];
    assert f[0] in f;
    IndexAfter(f, '\t', rest);
    assert s == f + ['\t'] + rest;
    assert s[..|f|] == f && s[|f|..] == "\t" + rest;
    var tail := "\t" + rest;
    assert tail[1..] == rest;
    assert SkipTabs(rest) == rest;
    assert SkipTabs(tail) == rest;
    assert SkipTabs(s) == s;
  }

  lemma ReadsBack(r: Record)
    requires CleanRecord(r)
    ensures ReadFields(r.typ + "\t" + r.bak + "\t" + r.dst) == r
  {
    var tail := r.bak + "\t" + r.dst;
    assert r.bak[0] in r.bak && r.dst[0] in r.dst && r.dst[|r.dst| - 1] in r.dst;
    assert r.typ + "\t" + r.bak + "\t" + r.dst == r.typ + "\t" + tail;
    FieldEnds(r.typ, tail);
    FieldEnds(r.bak, r.dst);
  }

  lemma FirstLine(line: Bytes, rest: Bytes)
    requires '\n' !in line
    ensures CompleteLines(line + ['\n'] + rest) == [line] + CompleteLines(rest)
  {
    var m := line + ['\n'] + rest;
    IndexAfter(line, '\n', rest);
    assert m[..|line|] == line && m[|line| + 1..] == rest;
  }

  lemma EncodeIsLine(r: Record, rest: Bytes)
    requires CleanRecord(r)
    ensures Decode(Encode(r) + rest) == [r] + Decode(rest)
  {
    var line := r.typ + "\t" + r.bak + "\t" + r.dst;
    assert Encode(r) + rest == line + ['\n'] + rest;
    FirstLine(line, rest);
    ReadsBack(r);
  }

  /** The shell reads back exactly the records the client wrote. */
  lemma {:induction false} RoundTrip(rs: seq<Record>)
    requires forall r | r in rs :: CleanRecord(r)
    ensures Decode(EncodeAll(rs)) == rs
  {
    if rs != [] {
      RoundTrip(rs[1..]);
      EncodeIsLine(rs[0], EncodeAll(rs[1..]));
    }
  }

  lemma TornLine(r: Record, k: nat)
    requires CleanRecord(r) && k < |Encode(r)|
    ensures Decode(Encode(r)[..k]) == []
  {
    var part := Encode(r)[..k];
    var i := IndexOf(part, '\n');
    if i < |part| {
      assert part[i] == Encode(r)[i];
    }
  }

  /** Cutting the manifest anywhere loses whole records from the end and invents none. */
  lemma {:induction false} PrefixDecodesToPrefix(rs: seq<Record>, k: nat)
    requires forall r | r in rs :: CleanRecord(r)
    requires k <= |EncodeAll(rs)|
    ensures Decode(EncodeAll(rs)[..k]) <= rs
  {
    hide Decode, Encode;
    if rs == [] {
      NothingDecodes();
    } else {
      var line, rest := Encode(rs[0]), EncodeAll(rs[1..]);
      if k < |line| {
        assert EncodeAll(rs)[..k] == line[..k];
        TornLine(rs[0], k);
      } else {
        var part := rest[..k - |line|];
        PrefixDecodesToPrefix(rs[1..], k - |line|);
        CutLater(line, rest, k);
        EncodeIsLine(rs[0], part);
        assert rs == [rs[0]] + rs[1..];
      }
    }
  }

  lemma NothingDecodes()
    ensures Decode("") == []
  {
  }

  lemma CutLater(line: Bytes, rest: Bytes, k: nat)
    requires |line| <= k <= |line + rest|
    ensures (line + rest)[..k] == line + rest[..k - |line|]
  {
  }

  lemma CutLine(m: Bytes) returns (line: Bytes, rest: Bytes)
    requires Whole(m) && m != ""
    ensures m == line + ['\n'] + rest && '\n' !in line && Whole(rest)
  {
    var i := IndexOf(m, '\n');
    assert m[..|m|] == m && m[|m| - 1] in m;
    assert i < |m|;
    line, rest := m[..i], m[i + 1..];
  }

  lemma {:induction false} LinesAppend(m: Bytes, more: Bytes)
    requires Whole(m)
    ensures CompleteLines(m + more) == CompleteLines(m) + CompleteLines(more)
    decreases |m|
  {
    if m == "" {
      assert m + more == more;
    } else {
      var line, rest := CutLine(m);
      LinesAppend(rest, more);
      LineStep(line, rest, more);
    }
  }

  lemma LineStep(line: Bytes, rest: Bytes, more: Bytes)
    requires '\n' !in line
    requires CompleteLines(rest + more) == CompleteLines(rest) + CompleteLines(more)
    ensures var m := line + ['\n'] + rest;
            CompleteLines(m + more) == CompleteLines(m) + CompleteLines(more)
  {
    hide CompleteLines;
    FirstLine(line, rest);
    FirstLine(line, rest + more);
    assert line + ['\n'] + rest + more == line + ['\n'] + (rest + more);
  }

  lemma {:induction false} DecodeLinesAppend(a: seq<Bytes>, b: seq<Bytes>)
    ensures DecodeLines(a + b) == DecodeLines(a) + DecodeLines(b)
  {
    if a == [] {
      assert a + b == b;
    } else {
      assert (a + b)[1..] == a[1..] + b;
      DecodeLinesAppend(a[1..], b);
    }
  }

  /** Appending to a whole manifest leaves the earlier records alone. */
  lemma AppendDecodes(m: Bytes, more: Bytes)
    requires Whole(m)
    ensures Decode(m + more) == Decode(m) + Decode(more)
  {
    LinesAppend(m, more);
    DecodeLinesAppend(CompleteLines(m), CompleteLines(more));
  }

  /** An append that lands in part adds its record only if it landed entirely. */
  lemma PartialAppend(m: Bytes, r: Record, k: nat)
    requires Whole(m) && CleanRecord(r) && k <= |Encode(r)|
    ensures Decode(m + Encode(r)[..k]) == Decode(m) + if k == |Encode(r)| then [r] else []
    ensures k == |Encode(r)| ==> Whole(m + Encode(r)[..k])
  {
    AppendDecodes(m, Encode(r)[..k]);
    if k == |Encode(r)| {
      assert Encode(r)[..k] == Encode(r) + "";
      EncodeIsLine(r, "");
      assert [r] + Decode("") == [r];
    } else {
      TornLine(r, k);
    }
  }
}
