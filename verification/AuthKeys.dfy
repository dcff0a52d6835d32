/** authorized_keys content: parsing, rendering and the two edits a transaction makes. */
module AuthKeys {
  import opened Basics

  /** A public key is its wire encoding, which is what the editor compares. */
  type Key = Bytes

  datatype Line = Line(raw: Bytes, key: Option<Key>, comment: Bytes, options: seq<Bytes>)
  datatype Doc = Doc(lines: seq<Line>, noFinalNewline: bool)
  datatype Matcher = ByKey(key: Key) | ByFingerprint(fingerprint: string)
  datatype Grant = Grant(key: Key, comment: Bytes, options: seq<Bytes>)
  datatype KeyText = KeyText(key: Key, comment: Bytes, options: seq<Bytes>)

  /** What the SSH library does with key text. Every theorem is for all such functions. */
  datatype Codec = Codec(
    parse: Bytes -> Option<KeyText>,
    authLine: Key -> Bytes,
    fingerprint: Key -> string)

  predicate IsSpace(c: char) {
    c == ' ' || c == '\t' || c == '\n' || c == '\r' || c as int == 11 || c as int == 12
  }

  /** Blank lines and comments are never offered to the key parser. */
  predicate Ignorable(raw: Bytes) {
    raw == "" || raw[0] == '#' || (IsSpace(raw[0]) && Ignorable(raw[1..]))
  }

  function ParseLine(c: Codec, raw: Bytes): Line {
    var plain := Line(raw, None, "", []);
    if Ignorable(raw) then plain
    else match c.parse(raw)
      case None => plain
      case Some(k) => Line(raw, Some(k.key), k.comment, k.options)
  }

  /** strings.Split on newline: one piece more than there are newlines. */
  function Split(s: Bytes): (pieces: seq<Bytes>)
    ensures |pieces| > 0
    ensures forall p | p in pieces :: OneLine(p)
    decreases |s|
  {
    var i := IndexOf(s, '\n');
    if i == |s| then
      assert s[..i] == s;
      [s]
    else
      [s[..i]] + Split(s[i + 1..])
  }

  predicate EndsWithNewline(s: Bytes) {
    s != "" && s[|s| - 1] == '\n'
  }

  function TrimNewline(s: Bytes): Bytes {
    if EndsWithNewline(s) then s[..|s| - 1] else s
  }

  function RawLines(content: Bytes): seq<Bytes> {
    if content == "" then [] else Split(TrimNewline(content))
  }

  function ParseLines(c: Codec, raws: seq<Bytes>): (lines: seq<Line>)
    ensures |lines| == |raws|
    ensures forall i | 0 <= i < |raws| :: lines[i] == ParseLine(c, raws[i])
  {
    if raws == [] then [] else [ParseLine(c, raws[0])] + ParseLines(c, raws[1..])
  }

  /** An empty document has no last line to lack a newline. */
  predicate Tidy(d: Doc) {
    d.lines == [] ==> !d.noFinalNewline
  }

  function Parse(c: Codec, content: Bytes): Doc {
    Doc(ParseLines(c, RawLines(content)), content != "" && !EndsWithNewline(content))
  }

  /** Every line followed by a newline. */
  function Joined(lines: seq<Line>): (s: Bytes)
    ensures lines != [] ==> EndsWithNewline(s)
    ensures lines == [] ==> s == ""
  {
    if lines == [] then "" else lines[0].raw + "\n" + Joined(lines[1..])
  }

  function Render(d: Doc): Bytes {
    if d.noFinalNewline then TrimNewline(Joined(d.lines)) else Joined(d.lines)
  }

  predicate MatchesKey(c: Codec, m: Matcher, key: Key) {
    match m
    case ByKey(k) => key == k
    case ByFingerprint(f) => c.fingerprint(key) == f
  }

  predicate Matches(c: Codec, m: Matcher, l: Line) {
    l.key.Some? && MatchesKey(c, m, l.key.value)
  }

  function Find(c: Codec, lines: seq<Line>, m: Matcher): (found: seq<Key>)
    ensures found != [] <==> exists l | l in lines :: Matches(c, m, l)
    ensures found == Keys(Removed(c, lines, m))
  {
    if lines == [] then []
    else
      var rest := Find(c, lines[1..], m);
      if Matches(c, m, lines[0]) then
        assert ([lines[0]] + Removed(c, lines[1..], m))[1..] == Removed(c, lines[1..], m);
        [lines[0].key.value] + rest
      else
        assert Removed(c, lines, m) == Removed(c, lines[1..], m);
        rest
  }

  function Select(c: Codec, lines: seq<Line>, m: Matcher, matched: bool): seq<Line> {
    if lines == [] then []
    else (if Matches(c, m, lines[0]) == matched then [lines[0]] else []) + Select(c, lines[1..], m, matched)
  }

  /** Selection cuts in two wherever the lines do. */
  lemma {:induction false} SelectSplits(c: Codec, a: seq<Line>, b: seq<Line>, m: Matcher, matched: bool)
    ensures Select(c, a + b, m, matched) == Select(c, a, m, matched) + Select(c, b, m, matched)
  {
    if a == [] {
      assert a + b == b;
    } else {
      assert (a + b)[1..] == a[1..] + b;
      SelectSplits(c, a[1..], b, m, matched);
    }
  }

  lemma {:induction false} SelectMembers(c: Codec, lines: seq<Line>, m: Matcher, matched: bool)
    ensures forall l :: l in Select(c, lines, m, matched) <==> l in lines && Matches(c, m, l) == matched
  {
    if lines != [] {
      SelectMembers(c, lines[1..], m, matched);
      assert forall l :: l in lines <==> l == lines[0] || l in lines[1..];
    }
  }

  function Kept(c: Codec, lines: seq<Line>, m: Matcher): seq<Line> {
    Select(c, lines, m, false)
  }

  function Removed(c: Codec, lines: seq<Line>, m: Matcher): seq<Line> {
    Select(c, lines, m, true)
  }

  function Remove(c: Codec, d: Doc, m: Matcher): Doc {
    var kept := Kept(c, d.lines, m);
    Doc(kept, kept != [] && d.noFinalNewline)
  }

  predicate Has(d: Doc, key: Key) {
    exists l | l in d.lines :: l.key == Some(key)
  }

  function Commas(options: seq<Bytes>): Bytes {
    if options == [] then "" else if |options| == 1 then options[0] else options[0] + "," + Commas(options[1..])
  }

  /** The text of a newly granted key: options, key, comment. */
  function GrantText(c: Codec, g: Grant): Bytes {
    (if g.options == [] then "" else Commas(g.options) + " ") + c.authLine(g.key)
    + (if g.comment == "" then "" else " " + g.comment)
  }

  function GrantLine(c: Codec, g: Grant): Line {
    Line(GrantText(c, g), Some(g.key), g.comment, g.options)
  }

  function Add(c: Codec, d: Doc, g: Grant): Doc {
    if Has(d, g.key) then d else Doc(d.lines + [GrantLine(c, g)], false)
  }

  function AddAll(c: Codec, d: Doc, gs: seq<Grant>): Doc
    decreases |gs|
  {
    if gs == [] then d else AddAll(c, Add(c, d, gs[0]), gs[1..])
  }

  function RemoveAll(c: Codec, d: Doc, ms: seq<Matcher>): Doc
    decreases |ms|
  {
    if ms == [] then d else RemoveAll(c, Remove(c, d, ms[0]), ms[1..])
  }

  function Keys(lines: seq<Line>): (ks: seq<Key>)
    ensures forall k :: k in ks <==> exists l | l in lines :: l.key == Some(k)
  {
    if lines == [] then []
    else
      var rest := Keys(lines[1..]);
      var ks := (if lines[0].key.Some? then [lines[0].key.value] else []) + rest;
      assert forall l :: l in lines <==> l == lines[0] || l in lines[1..];
      ks
  }

  lemma ParsedAs(c: Codec, content: Bytes, lines: seq<Line>)
    requires |lines| == |RawLines(content)|
    requires forall i | 0 <= i < |lines| :: lines[i] == ParseLine(c, RawLines(content)[i])
    ensures Parse(c, content) == Doc(lines, content != "" && !EndsWithNewline(content))
  {
    hide ParseLine, RawLines;
  }

  /** A file being edited in memory. */
  class File {
    var lines: seq<Line>
    var noFinalNewline: bool

    ghost function Value(): Doc
      reads this
    {
      Doc(lines, noFinalNewline)
    }

    constructor (c: Codec, content: Bytes)
      ensures Value() == Parse(c, content)
    {
      lines := [];
      noFinalNewline := false;
      new;
      hide ParseLine, ParseLines, Split, TrimNewline, EndsWithNewline;
      if |content| == 0 {
        ParsedAs(c, content, []);
        return;
      }
      if !EndsWithNewline(content) {
        noFinalNewline := true;
      }
      var raws := Split(TrimNewline(content));
      for i := 0 to |raws|
        invariant |lines| == i && forall j | 0 <= j < i :: lines[j] == ParseLine(c, raws[j])
        invariant noFinalNewline == !EndsWithNewline(content)
      {
        lines := lines + [ParseLine(c, raws[i])];
      }
      ParsedAs(c, content, lines);
    }

    method RenderText() returns (out: Bytes)
      ensures out == Render(Value())
    {
      if |lines| == 0 {
        return "";
      }
      out := "";
      for i := 0 to |lines|
        invariant out + Joined(lines[i..]) == Joined(lines)
      {
        assert lines[i..][1..] == lines[i + 1..];
        assert Joined(lines[i..]) == lines[i].raw + "\n" + Joined(lines[i + 1..]);
        out := out + lines[i].raw;
        out := out + "\n";
      }
      assert out == Joined(lines);
      if noFinalNewline {
        out := TrimNewline(out);
      }
    }

    /** Deletes every matching line and returns the deleted ones in order. */
    method RemoveMatching(c: Codec, m: Matcher) returns (removed: seq<Line>)
      modifies this
      ensures Value() == Remove(c, old(Value()), m)
      ensures removed == Removed(c, old(lines), m)
      ensures forall l | l in old(lines) ::
                if l.key.Some? && (m == ByKey(l.key.value) || m == ByFingerprint(c.fingerprint(l.key.value)))
                then l in removed && l !in lines
                else l in lines && l !in removed
    {
      var kept := [];
      removed := [];
      var all := lines;
      for i := 0 to |all|
        invariant noFinalNewline == old(noFinalNewline)
        invariant kept == Kept(c, all[..i], m)
        invariant removed == Removed(c, all[..i], m)
      {
        var l := all[i];
        assert all[..i + 1] == all[..i] + [l];
        SelectSplits(c, all[..i], [l], m, false);
        SelectSplits(c, all[..i], [l], m, true);
        if Matches(c, m, l) {
          removed := removed + [l];
        } else {
          kept := kept + [l];
        }
      }
      assert all[..|all|] == all;
      SelectMembers(c, all, m, false);
      SelectMembers(c, all, m, true);
      lines := kept;
      if |lines| == 0 {
        noFinalNewline := false;
      }
    }

    /** Appends the key unless it is already present. */
    method AddKey(c: Codec, g: Grant) returns (added: bool)
      modifies this
      ensures Value() == Add(c, old(Value()), g)
      ensures added == !Has(old(Value()), g.key)
      ensures added <==> forall l | l in old(lines) :: l.key != Some(g.key)
    {
      var found := Find(c, lines, ByKey(g.key));
      assert found != [] <==> Has(Value(), g.key) by {
        if Has(Value(), g.key) {
          var l :| l in lines && l.key == Some(g.key);
          assert Matches(c, ByKey(g.key), l);
        }
      }
      if |found| > 0 {
        return false;
      }
      noFinalNewline := false;
      lines := lines + [GrantLine(c, g)];
      return true;
    }
  }
}
