/** The edits in plain text: which lines go, which bytes come, and what a parser makes of them. */
module AuthKeysText {
  import opened Basics
  import opened AuthKeys
  import opened AuthKeysLaws

  // ------------------------------------------------------------- what goes

  /** A matcher is about one key: by its encoding, or by its fingerprint. */
  lemma MatchesExactly(c: Codec, m: Matcher, k: Key)
    ensures MatchesKey(c, m, k) <==> m == ByKey(k) || m == ByFingerprint(c.fingerprint(k))
  {
  }

  /** A removal takes exactly the lines whose key is the matcher's or has the matcher's fingerprint. */
  lemma RemovedExactly(c: Codec, lines: seq<Line>, m: Matcher)
    ensures forall l :: l in Removed(c, lines, m)
                   <==> l in lines && l.key.Some?
                        && (m == ByKey(l.key.value) || m == ByFingerprint(c.fingerprint(l.key.value)))
    ensures forall l :: l in Kept(c, lines, m)
                   <==> l in lines
                        && (l.key.None?
                            || (m != ByKey(l.key.value) && m != ByFingerprint(c.fingerprint(l.key.value))))
  {
    SelectMembers(c, lines, m, true);
    SelectMembers(c, lines, m, false);
  }

  /** So does a sequence of removals, and every other line stays. */
  lemma {:induction false} RemovalsExactly(c: Codec, d: Doc, ms: seq<Matcher>)
    ensures forall l :: l in RemoveAll(c, d, ms).lines
                   <==> l in d.lines
                        && (l.key.None?
                            || (ByKey(l.key.value) !in ms && ByFingerprint(c.fingerprint(l.key.value)) !in ms))
    decreases |ms|
  {
    hide Kept;
    if ms != [] {
      RemovedExactly(c, d.lines, ms[0]);
      RemovalsExactly(c, Remove(c, d, ms[0]), ms[1..]);
      assert forall m :: m in ms <==> m == ms[0] || m in ms[1..];
    }
  }

  /** The lines that stay, each with its newline. */
  function TextWithout(c: Codec, lines: seq<Line>, ms: seq<Matcher>): Bytes {
    if lines == [] then ""
    else
      var l := lines[0];
      (if l.key.Some? && (ByKey(l.key.value) in ms || ByFingerprint(c.fingerprint(l.key.value)) in ms) then ""
       else l.raw + "\n")
      + TextWithout(c, lines[1..], ms)
  }

  lemma SomeMatcher(c: Codec, l: Line, ms: seq<Matcher>)
    ensures (exists m | m in ms :: Matches(c, m, l))
       <==> l.key.Some? && (ByKey(l.key.value) in ms || ByFingerprint(c.fingerprint(l.key.value)) in ms)
  {
    if l.key.Some? {
      var k := l.key.value;
      if ByKey(k) in ms {
        assert Matches(c, ByKey(k), l);
      }
      if ByFingerprint(c.fingerprint(k)) in ms {
        assert Matches(c, ByFingerprint(c.fingerprint(k)), l);
      }
    }
  }

  lemma {:induction false} SurvivingText(c: Codec, lines: seq<Line>, ms: seq<Matcher>)
    ensures Joined(Survivors(c, lines, ms)) == TextWithout(c, lines, ms)
  {
    if lines != [] {
      SurvivingText(c, lines[1..], ms);
      var l, rest := lines[0], Survivors(c, lines[1..], ms);
      SomeMatcher(c, l, ms);
      assert ([l] + rest)[1..] == rest && [] + rest == rest;
    }
  }

  lemma {:induction false} FlagStays(c: Codec, d: Doc, ms: seq<Matcher>)
    requires Tidy(d)
    ensures RemoveAll(c, d, ms).noFinalNewline <==> d.noFinalNewline && RemoveAll(c, d, ms).lines != []
    decreases |ms|
  {
    hide Kept;
    if ms != [] {
      FlagStays(c, Remove(c, d, ms[0]), ms[1..]);
      if Kept(c, d.lines, ms[0]) == [] {
        RemovalsExactly(c, Remove(c, d, ms[0]), ms[1..]);
        if RemoveAll(c, d, ms).lines != [] {
          assert RemoveAll(c, d, ms).lines[0] in RemoveAll(c, d, ms).lines;
        }
      }
    }
  }

  /** After removals the file is its old text without the lines that went; where it lacked its last newline it still
      does. */
  lemma RemovalText(c: Codec, content: Bytes, ms: seq<Matcher>)
    ensures var d := Parse(c, content);
            var text := TextWithout(c, d.lines, ms);
            && Render(RemoveAll(c, d, ms))
               == (if text != "" && content[|content| - 1] != '\n' then text[..|text| - 1] else text)
            && TextWithout(c, d.lines, [])
               == content + (if content == "" || content[|content| - 1] == '\n' then "" else "\n")
  {
    var d := Parse(c, content);
    FlagStays(c, d, ms);
    RemoveAllLines(c, d, ms);
    SurvivingText(c, d.lines, ms);
    SurvivingText(c, d.lines, []);
    SurvivorsOfNone(c, d.lines);
    CompletedIsJoined(c, content);
  }

  // ----------------------------------------------------------- what comes

  /** The options in order, a comma between any two. */
  function OptionList(options: seq<Bytes>): Bytes {
    if options == [] then ""
    else if |options| == 1 then options[0]
    else OptionList(options[..|options| - 1]) + "," + options[|options| - 1]
  }

  lemma {:induction false} CommasAtTheEnd(options: seq<Bytes>, last: Bytes)
    requires options != []
    ensures Commas(options + [last]) == Commas(options) + "," + last
  {
    assert (options + [last])[1..] == options[1..] + [last];
    if |options| == 1 {
      assert options[1..] + [last] == [last];
    } else {
      CommasAtTheEnd(options[1..], last);
    }
  }

  lemma {:induction false} CommasAreList(options: seq<Bytes>)
    ensures Commas(options) == OptionList(options)
  {
    if |options| >= 2 {
      var n := |options| - 1;
      CommasAreList(options[..n]);
      CommasAtTheEnd(options[..n], options[n]);
      assert options[..n] + [options[n]] == options;
    }
  }

  /** What a grant puts on its line: options, key, comment. */
  function GrantedText(c: Codec, g: Grant): Bytes {
    (if g.options == [] then c.authLine(g.key) else OptionList(g.options) + " " + c.authLine(g.key))
    + (if g.comment == "" then "" else " " + g.comment)
  }

  lemma GrantTextExactly(c: Codec, g: Grant)
    ensures GrantText(c, g) == GrantedText(c, g)
  {
    CommasAreList(g.options);
    assert "" + c.authLine(g.key) == c.authLine(g.key);
  }

  /** The lines of the grants whose key is not known, each with its newline, in order. */
  function AddedText(c: Codec, known: set<Key>, gs: seq<Grant>): Bytes
    decreases |gs|
  {
    if gs == [] then ""
    else if gs[0].key in known then AddedText(c, known, gs[1..])
    else GrantedText(c, gs[0]) + "\n" + AddedText(c, known + {gs[0].key}, gs[1..])
  }

  lemma {:induction false} FreshText(c: Codec, known: set<Key>, gs: seq<Grant>)
    ensures Joined(Fresh(c, known, gs)) == AddedText(c, known, gs)
    decreases |gs|
  {
    hide GrantText, GrantedText;
    if gs != [] {
      if gs[0].key in known {
        FreshText(c, known, gs[1..]);
      } else {
        var l, rest := GrantLine(c, gs[0]), Fresh(c, known + {gs[0].key}, gs[1..]);
        GrantTextExactly(c, gs[0]);
        FreshText(c, known + {gs[0].key}, gs[1..]);
        assert ([l] + rest)[1..] == rest;
      }
    }
  }

  /** The newline an appended line needs before it. */
  function Separator(content: Bytes): Bytes {
    if content == "" || content[|content| - 1] == '\n' then "" else "\n"
  }

  /** Additions leave the old bytes alone and append the new keys' lines, options and comments included. */
  lemma AdditionsText(c: Codec, content: Bytes, gs: seq<Grant>)
    ensures var d := Parse(c, content);
            var more := AddedText(c, (set k | k in Keys(d.lines)), gs);
            Render(AddAll(c, d, gs)) == if more == "" then content else content + Separator(content) + more
  {
    var d := Parse(c, content);
    AddPhaseAppends(c, content, gs);
    FreshText(c, KeySet(d), gs);
    if content == "" || EndsWithNewline(content) {
      assert content + "" == content;
    }
  }

  /** One key that was not there: its options in order, the key, its comment. */
  lemma AdditionText(c: Codec, content: Bytes, g: Grant)
    requires forall l | l in Parse(c, content).lines :: l.key != Some(g.key)
    ensures Render(Add(c, Parse(c, content), g))
         == content + (if content == "" || content[|content| - 1] == '\n' then "" else "\n")
            + (if g.options == [] then "" else OptionList(g.options) + " ") + c.authLine(g.key)
            + (if g.comment == "" then "" else " " + g.comment) + "\n"
  {
    hide Parse, Render, Add, AddAll, AddedText, OptionList, Separator, Keys;
    var d := Parse(c, content);
    AdditionsText(c, content, [g]);
    var known := set k | k in Keys(d.lines);
    NotAmong(d, g.key);
    OnlyAddition(c, d, known, g);
    OneText(content, if g.options == [] then "" else OptionList(g.options) + " ", c.authLine(g.key),
            if g.comment == "" then "" else " " + g.comment);
  }

  /** In memory too the new line has all of it. */
  lemma AddedLine(c: Codec, d: Doc, g: Grant)
    requires forall l | l in d.lines :: l.key != Some(g.key)
    ensures Add(c, d, g) == Doc(d.lines + [Line(GrantedText(c, g), Some(g.key), g.comment, g.options)], false)
  {
    GrantTextExactly(c, g);
    hide GrantedText, GrantText;
  }

  lemma NotAmong(d: Doc, k: Key)
    requires forall l | l in d.lines :: l.key != Some(k)
    ensures k !in (set x | x in Keys(d.lines))
  {
    assert k in Keys(d.lines) <==> exists l | l in d.lines :: l.key == Some(k);
  }

  lemma OnlyAddition(c: Codec, d: Doc, known: set<Key>, g: Grant)
    requires g.key !in known
    ensures AddAll(c, d, [g]) == Add(c, d, g) && AddedText(c, known, [g]) == GrantedText(c, g) + "\n"
  {
    hide Add, GrantedText;
    assert [g][1..] == [];
    assert AddedText(c, known + {g.key}, []) == "";
    assert GrantedText(c, g) + "\n" + "" == GrantedText(c, g) + "\n";
  }

  lemma OneText(content: Bytes, options: Bytes, key: Bytes, comment: Bytes)
    ensures content + Separator(content) + (options + key + comment + "\n")
         == content + (if content == "" || content[|content| - 1] == '\n' then "" else "\n")
            + options + key + comment + "\n"
  {
  }

  lemma {:induction false} KeysOfLeft(c: Codec, d: Doc, ms: seq<Matcher>)
    ensures KeySet(RemoveAll(c, d, ms))
         == set k | k in Keys(d.lines) && ByKey(k) !in ms && ByFingerprint(c.fingerprint(k)) !in ms
  {
    RemovalsExactly(c, d, ms);
    forall k
      ensures k in Keys(RemoveAll(c, d, ms).lines)
         <==> k in Keys(d.lines) && ByKey(k) !in ms && ByFingerprint(c.fingerprint(k)) !in ms
    {
    }
  }

  /** A document's text after removals and additions. */
  lemma EditedText(c: Codec, d: Doc, gs: seq<Grant>, ms: seq<Matcher>)
    requires Tidy(d)
    ensures var kept := TextWithout(c, d.lines, ms);
            var left := set k | k in Keys(d.lines) && ByKey(k) !in ms && ByFingerprint(c.fingerprint(k)) !in ms;
            var more := AddedText(c, left, gs);
            Render(AddAll(c, RemoveAll(c, d, ms), gs))
            == if more != "" then kept + more
               else if kept != "" && d.noFinalNewline then kept[..|kept| - 1] else kept
  {
    hide Keys, RemoveAll, AddAll, TextWithout, AddedText, GrantLine, KeySet;
    var e := RemoveAll(c, d, ms);
    FlagStays(c, d, ms);
    RemoveAllLines(c, d, ms);
    SurvivingText(c, d.lines, ms);
    KeysOfLeft(c, d, ms);
    AddAllLines(c, e, gs);
    FreshText(c, KeySet(e), gs);
    JoinedSplits(e.lines, Fresh(c, KeySet(e), gs));
  }

  // ----------------------------------------------------- what is read back

  /** Space is blank, tab, newline, return, vertical tab or form feed. */
  ghost predicate AllSpace(s: Bytes) {
    forall x | x in s :: x as int in {9, 10, 11, 12, 13, 32}
  }

  /** Which lines are offered to the key parser, as they stand: not the blank ones, and not those whose first
      other character starts a comment. */
  lemma {:induction false} KeyLinesExactly(c: Codec, indent: Bytes, rest: Bytes)
    requires AllSpace(indent) && (rest != "" ==> rest[0] as int !in {9, 10, 11, 12, 13, 32})
    ensures var raw := indent + rest;
            ParseLine(c, raw)
            == if rest == "" || rest[0] == '#' || c.parse(raw).None? then Line(raw, None, "", [])
               else Line(raw, Some(c.parse(raw).value.key), c.parse(raw).value.comment, c.parse(raw).value.options)
  {
    Indented(indent, rest);
  }

  lemma {:induction false} Indented(indent: Bytes, rest: Bytes)
    requires AllSpace(indent) && (rest != "" ==> rest[0] as int !in {9, 10, 11, 12, 13, 32})
    ensures Ignorable(indent + rest) <==> rest == "" || rest[0] == '#'
  {
    if indent == "" {
      assert indent + rest == rest;
      if rest != "" {
        assert !IsSpace(rest[0]) by {
          assert ' ' as int == 32 && '\t' as int == 9 && '\n' as int == 10 && '\r' as int == 13;
        }
      }
    } else {
      assert (indent + rest)[1..] == indent[1..] + rest;
      assert indent[0] in indent && IsSpace(indent[0]);
      assert forall x | x in indent[1..] :: x in indent;
      Indented(indent[1..], rest);
    }
  }

  /** Every line is of that form. */
  lemma {:induction false} Indentation(raw: Bytes) returns (indent: Bytes, rest: Bytes)
    ensures raw == indent + rest && AllSpace(indent) && (rest != "" ==> rest[0] as int !in {9, 10, 11, 12, 13, 32})
  {
    if raw == "" || raw[0] as int !in {9, 10, 11, 12, 13, 32} {
      indent, rest := "", raw;
    } else {
      indent, rest := Indentation(raw[1..]);
      indent := [raw[0]] + indent;
    }
  }

  /** The file's lines, as they stand in it. */
  lemma LinesReread(c: Codec, content: Bytes, l: Line)
    requires OneLine(l.raw) && ParseLine(c, l.raw) == l
    ensures Parse(c, Joined(Parse(c, content).lines + [l])).lines == Parse(c, content).lines + [l]
  {
    hide ParseLine, Ignorable, Split, TrimNewline;
    var d := Doc(Parse(c, content).lines + [l], false);
    CanonicalParse(c, content);
    RereadLines(c, d);
    assert Render(d) == Joined(d.lines) && Visible(d) == d.lines;
    forall i | 0 <= i < |d.lines|
      ensures ParseLine(c, d.lines[i].raw) == d.lines[i]
    {
      if i < |d.lines| - 1 {
        ParsedLine(c, RawLines(content)[i]);
      }
    }
    SameLines(c, d.lines);
  }

  lemma ParsedLine(c: Codec, raw: Bytes)
    ensures ParseLine(c, raw).raw == raw
  {
  }

  lemma {:induction false} SameLines(c: Codec, lines: seq<Line>)
    requires forall i | 0 <= i < |lines| :: ParseLine(c, lines[i].raw) == lines[i]
    ensures ParseLines(c, Raws(lines)) == lines
  {
    hide ParseLine;
    if lines != [] {
      SameLines(c, lines[1..]);
      assert Raws(lines)[1..] == Raws(lines[1..]);
    }
  }

  /** If the parser reads such a line as what it says, the file then holds that key with those options and that
      comment. */
  lemma AdditionReadsBack(c: Codec, content: Bytes, g: Grant)
    requires forall l | l in Parse(c, content).lines :: l.key != Some(g.key)
    requires var text := GrantedText(c, g);
             && OneLine(text) && text != "" && text[0] != '#' && text[0] as int !in {9, 10, 11, 12, 13, 32}
             && c.parse(text) == Some(KeyText(g.key, g.comment, g.options))
    ensures var d := Parse(c, content);
            Parse(c, Render(Add(c, d, g))).lines
            == d.lines + [Line(GrantedText(c, g), Some(g.key), g.comment, g.options)]
  {
    hide Parse, ParseLine, GrantedText, GrantText;
    var d, text := Parse(c, content), GrantedText(c, g);
    GrantTextExactly(c, g);
    KeyLinesExactly(c, "", text);
    assert "" + text == text;
    LinesReread(c, content, Line(text, Some(g.key), g.comment, g.options));
    assert !Has(d, g.key);
  }
}
