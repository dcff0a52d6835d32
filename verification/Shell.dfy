/** Shell quoting: what remote.Quote writes, the shell reads back as one word. */
module Shell {
  import opened Basics

  // -------------------------------------------------- what the program writes

  /** Each quote becomes quote, backslash, quote, quote. */
  function Escape(s: string): string {
    if s == "" then ""
    else (if s[0] == '\'' then "'\\''" else [s[0]]) + Escape(s[1..])
  }

  function Quote(s: string): string {
    "'" + Escape(s) + "'"
  }

  /** The command line every remote call sends. */
  function RunCommand(script: string): string {
    "sh -c " + Quote(script)
  }

  function Silence(rest: string): string {
    ">/dev/null 2>&1; " + rest
  }

  function IfRunuser(rest: string): string {
    "if command -v runuser " + Silence(rest)
  }

  /** Runs the script as the user, by runuser where the host has it and by su elsewhere. */
  function DropPrivileges(script: string, user: string): string {
    if user == "" then script
    else
      IfRunuser("then exec runuser -u " + user + " -- /bin/sh -c " + Quote(script) + "; "
                + ("else exec su " + user + " -s /bin/sh -c " + Quote(script) + "; fi"))
  }

  predicate UserChar(c: char, first: bool) {
    'a' <= c <= 'z' || 'A' <= c <= 'Z' || '0' <= c <= '9' || c == '.' || c == '_' || (!first && c == '-')
  }

  predicate ValidUsername(name: string) {
    && name != ""
    && UserChar(name[0], true)
    && forall i | 1 <= i < |name| :: UserChar(name[i], false)
  }

  /** Letters, digits, dot and underscore, and the hyphen anywhere but in front; by their codes. */
  lemma UsernameExactly(name: string)
    ensures ValidUsername(name)
       <==> name != "" && name[0] != '-'
            && forall i | 0 <= i < |name| ::
                 var x := name[i] as int;
                 97 <= x <= 122 || 65 <= x <= 90 || 48 <= x <= 57 || x in {45, 46, 95}
  {
    forall c: char, first: bool
      ensures var x := c as int;
              UserChar(c, first) <==> (97 <= x <= 122 || 65 <= x <= 90 || 48 <= x <= 57 || x in {45, 46, 95})
                                      && (first ==> c != '-')
    {
      CharCodes();
    }
  }

  lemma CharCodes()
    ensures 'a' as int == 97 && 'z' as int == 122 && 'A' as int == 65 && 'Z' as int == 90
    ensures '0' as int == 48 && '9' as int == 57 && '-' as int == 45 && '.' as int == 46 && '_' as int == 95
  {
  }

  // ------------------------------------------------------- how a shell reads

  datatype Token = Word(text: string) | Operator(op: char)
  datatype Lexed = Lexed(text: string, rest: string) | Unterminated

  predicate IsBlank(c: char) { c == ' ' || c == '\t' }
  predicate IsOperator(c: char) {
    c == '\n' || c == ';' || c == '&' || c == '|' || c == '<' || c == '>' || c == '(' || c == ')'
  }

  /** True where an unquoted word ends. */
  predicate Delimited(s: string) {
    s == "" || IsBlank(s[0]) || IsOperator(s[0])
  }

  function Prepend(c: char, l: Lexed): Lexed {
    if l.Lexed? then Lexed([c] + l.text, l.rest) else l
  }

  /** The rest of a word, outside quotes. Expansions are left as they are written. */
  function LexWord(s: string): (l: Lexed)
    ensures l.Lexed? ==> |l.rest| <= |s|
    ensures l.Lexed? && !Delimited(s) ==> |l.rest| < |s|
    decreases |s|
  {
    if Delimited(s) then Lexed("", s)
    else if s[0] == '\'' then LexSingle(s[1..])
    else if s[0] == '"' then LexDouble(s[1..])
    else if s[0] == '\\' then
      if |s| == 1 then Unterminated
      else if s[1] == '\n' then LexWord(s[2..])
      else Prepend(s[1], LexWord(s[2..]))
    else Prepend(s[0], LexWord(s[1..]))
  }

  /** Inside single quotes everything is literal up to the next single quote. */
  function LexSingle(s: string): (l: Lexed)
    ensures l.Lexed? ==> |l.rest| < |s|
    decreases |s|
  {
    if s == "" then Unterminated
    else if s[0] == '\'' then LexWord(s[1..])
    else Prepend(s[0], LexSingle(s[1..]))
  }

  /** Inside double quotes a backslash escapes only five characters. */
  function LexDouble(s: string): (l: Lexed)
    ensures l.Lexed? ==> |l.rest| < |s|
    decreases |s|
  {
    if s == "" then Unterminated
    else if s[0] == '"' then LexWord(s[1..])
    else if s[0] == '\\' && |s| > 1 && s[1] in "$`\"\\" then Prepend(s[1], LexDouble(s[2..]))
    else if s[0] == '\\' && |s| > 1 && s[1] == '\n' then LexDouble(s[2..])
    else Prepend(s[0], LexDouble(s[1..]))
  }

  function Before(t: Token, ts: Option<seq<Token>>): Option<seq<Token>> {
    if ts.Some? then Some([t] + ts.value) else None
  }

  /** Token recognition; None for an open quote or a comment. */
  function Tokens(s: string): Option<seq<Token>>
    decreases |s|
  {
    if s == "" then Some([])
    else if IsBlank(s[0]) then Tokens(s[1..])
    else if IsOperator(s[0]) then Before(Operator(s[0]), Tokens(s[1..]))
    else if s[0] == '#' then None
    else match LexWord(s)
      case Unterminated => None
      case Lexed(text, rest) => Before(Word(text), Tokens(rest))
  }

  // ------------------------------------------------------------ the theorems

  lemma EscapedQuote(tail: string)
    ensures LexSingle("'\\''" + tail) == Prepend('\'', LexSingle(tail))
  {
    var text := "'\\''" + tail;
    var escaped := "\\''" + tail;
    assert text[1..] == escaped;
    assert escaped[0] == '\\' && escaped[1] == '\'' && escaped[2..] == "'" + tail;
    assert ("'" + tail)[1..] == tail;
    assert LexWord("'" + tail) == LexSingle(tail);
    assert LexWord(escaped) == Prepend('\'', LexWord("'" + tail));
  }

  lemma EscapeStep(s: string, tail: string, rest: string)
    requires s != "" && tail == Escape(s[1..]) + "'" + rest
    ensures LexSingle(Escape(s) + "'" + rest) == Prepend(s[0], LexSingle(tail))
  {
    if s[0] == '\'' {
      EscapedQuote(tail);
      hide LexSingle;
      assert Escape(s) + "'" + rest == "'\\''" + tail;
    } else {
      assert (Escape(s) + "'" + rest)[1..] == tail;
    }
  }

  lemma {:induction false} LexEscaped(s: string, rest: string)
    requires Delimited(rest)
    ensures LexSingle(Escape(s) + "'" + rest) == Lexed(s, rest)
    decreases |s|
  {
    if s == "" {
      assert (Escape(s) + "'" + rest)[1..] == rest;
    } else {
      LexEscaped(s[1..], rest);
      EscapeStep(s, Escape(s[1..]) + "'" + rest, rest);
    }
  }

  /** Any string, quoted and followed by a delimiter, is one word; what follows is untouched. */
  lemma QuoteIsOneWord(s: string, rest: string)
    requires Delimited(rest)
    ensures LexWord(Quote(s) + rest) == Lexed(s, rest)
  {
    LexEscaped(s, rest);
    assert (Quote(s) + rest)[1..] == Escape(s) + "'" + rest;
  }

  /** The text is read as exactly these tokens. */
  ghost predicate Reads(s: string, ts: seq<Token>) {
    Tokens(s) == Some(ts)
  }

  lemma QuoteIsOneToken(s: string, rest: string, ts: seq<Token>)
    requires Delimited(rest) && Reads(rest, ts)
    ensures Reads(Quote(s) + rest, [Word(s)] + ts)
  {
    QuoteIsOneWord(s, rest);
    assert (Quote(s) + rest)[0] == '\'';
  }

  /** Distinct strings stay distinct on the wire. */
  lemma QuoteInjective(a: string, b: string)
    requires Quote(a) == Quote(b)
    ensures a == b
  {
    QuoteIsOneWord(a, "");
    QuoteIsOneWord(b, "");
    assert Quote(a) + "" == Quote(b) + "";
  }

  predicate PlainChar(c: char) {
    !IsBlank(c) && !IsOperator(c) && c != '\'' && c != '"' && c != '\\' && c != '#'
  }

  lemma {:induction false} LexPlain(w: string, rest: string)
    requires forall c | c in w :: PlainChar(c)
    requires Delimited(rest)
    ensures LexWord(w + rest) == Lexed(w, rest)
  {
    if w == "" {
      assert w + rest == rest;
    } else {
      assert w[0] in w;
      assert (w + rest)[1..] == w[1..] + rest;
      LexPlain(w[1..], rest);
    }
  }

  ghost predicate Plain(w: string) {
    w != "" && forall c | c in w :: PlainChar(c)
  }

  lemma PlainToken(w: string, rest: string, ts: seq<Token>)
    requires Plain(w) && Delimited(rest) && Reads(rest, ts)
    ensures Reads(w + rest, [Word(w)] + ts)
  {
    LexPlain(w, rest);
    assert w[0] in w;
  }

  /** A plain word and a blank are consumed as that word. */
  lemma SpacedToken(w: string, rest: string, ts: seq<Token>)
    requires Plain(w) && Reads(rest, ts)
    ensures Reads(w + (" " + rest), [Word(w)] + ts)
  {
    assert (" " + rest)[1..] == rest;
    PlainToken(w, " " + rest, ts);
  }

  lemma BlankToken(rest: string, ts: seq<Token>)
    requires Reads(rest, ts)
    ensures Reads(" " + rest, ts)
  {
    assert (" " + rest)[1..] == rest;
  }

  lemma OperatorToken(c: char, rest: string, ts: seq<Token>)
    requires IsOperator(c) && Reads(rest, ts)
    ensures Reads([c] + rest, [Operator(c)] + ts)
  {
    assert ([c] + rest)[1..] == rest;
  }

  /** Lexing a word does not look past its delimiter. */
  lemma {:induction false} LexWordLocal(s: string, more: string, mode: int)
    requires Delimited(more) && more != ""
    requires 0 <= mode <= 2
    ensures var l, lm := LexIn(s, mode), LexIn(s + more, mode);
            l.Lexed? ==> lm == Lexed(l.text, l.rest + more)
    decreases |s|
  {
    var t := s + more;
    if mode == 0 {
      if s == "" {
        assert t == more;
      } else if !Delimited(s) {
        assert t[0] == s[0] && t[1..] == s[1..] + more;
        if s[0] == '\'' {
          LexWordLocal(s[1..], more, 1);
        } else if s[0] == '"' {
          LexWordLocal(s[1..], more, 2);
        } else if s[0] == '\\' {
          if |s| > 1 {
            assert t[1] == s[1] && t[2..] == s[2..] + more;
            LexWordLocal(s[2..], more, 0);
          }
        } else {
          LexWordLocal(s[1..], more, 0);
        }
      }
    } else if s != "" {
      assert t[0] == s[0] && t[1..] == s[1..] + more;
      if mode == 1 {
        LexWordLocal(s[1..], more, if s[0] == '\'' then 0 else 1);
      } else if s[0] == '"' {
        LexWordLocal(s[1..], more, 0);
      } else {
        LexWordLocal(s[1..], more, 2);
        if |s| > 1 {
          assert t[1] == s[1] && t[2..] == s[2..] + more;
          LexWordLocal(s[2..], more, 2);
        } else if s[0] == '\\' {
          assert s[1..] == "";
        }
      }
    }
  }

  function LexIn(s: string, mode: int): Lexed {
    if mode == 0 then LexWord(s) else if mode == 1 then LexSingle(s) else LexDouble(s)
  }

  function After(ts: seq<Token>, more: Option<seq<Token>>): Option<seq<Token>> {
    if more.Some? then Some(ts + more.value) else None
  }

  /** Complete text, a blank, more text: the tokens of the first, then whatever the second is read as. */
  lemma {:induction false} TokensGoOn(a: string, b: string, ta: seq<Token>)
    requires Reads(a, ta)
    ensures Tokens(a + " " + b) == After(ta, Tokens(b))
    decreases |a|
  {
    var s, more := a + " " + b, " " + b;
    assert s == a + more;
    if a == "" {
      assert s == more && more[1..] == b;
      if Tokens(b).Some? {
        assert ta + Tokens(b).value == Tokens(b).value;
      }
    } else if IsBlank(a[0]) {
      assert s[1..] == a[1..] + " " + b;
      TokensGoOn(a[1..], b, ta);
    } else if IsOperator(a[0]) {
      assert s[1..] == a[1..] + " " + b;
      TokensGoOn(a[1..], b, ta[1..]);
      OneByOne(ta, Tokens(b));
    } else {
      LexWordLocal(a, more, 0);
      var l := LexWord(a);
      assert l.rest + more == l.rest + " " + b;
      TokensGoOn(l.rest, b, ta[1..]);
      OneByOne(ta, Tokens(b));
    }
  }

  lemma OneByOne(ts: seq<Token>, more: Option<seq<Token>>)
    requires ts != []
    ensures After(ts, more) == Before(ts[0], After(ts[1..], more))
  {
    if more.Some? {
      assert ts + more.value == [ts[0]] + (ts[1..] + more.value);
    }
  }

  /** Complete text, a blank, complete text: the tokens are the two token lists. */
  lemma TokensCompose(a: string, b: string, ta: seq<Token>, tb: seq<Token>)
    requires Reads(a, ta) && Reads(b, tb)
    ensures Reads(a + " " + b, ta + tb)
  {
    TokensGoOn(a, b, ta);
  }

  /** The server's shell receives the script as the argument of sh -c. */
  lemma RunCommandTokens(script: string)
    ensures Reads(RunCommand(script), [Word("sh"), Word("-c"), Word(script)])
  {
    hide LexWord;
    var quoted := Quote(script) + "";
    assert Reads("", []);
    QuoteIsOneToken(script, "", []);
    assert [Word(script)] + [] == [Word(script)];
    SpacedToken("-c", quoted, [Word(script)]);
    assert [Word("-c")] + [Word(script)] == [Word("-c"), Word(script)];
    SpacedToken("sh", "-c" + (" " + quoted), [Word("-c"), Word(script)]);
    assert [Word("sh")] + [Word("-c"), Word(script)] == [Word("sh"), Word("-c"), Word(script)];
    assert RunCommand(script) == "sh" + (" " + ("-c" + (" " + quoted)));
  }

  /** The command both branches of the privilege drop execute, up to its semicolon. */
  function UserShell(flag: string, script: string): seq<Token> {
    [Word(flag), Word("/bin/sh"), Word("-c"), Word(script), Operator(';')]
  }

  lemma UserShellReads(flag: string, script: string, rest: string, ts: seq<Token>)
    requires Plain(flag) && Reads(rest, ts)
    ensures Reads(flag + (" " + ("/bin/sh" + (" " + ("-c" + (" " + (Quote(script) + (";" + (" " + rest)))))))),
                  UserShell(flag, script) + ts)
  {
    hide Tokens, LexWord;
    BlankToken(rest, ts);
    OperatorToken(';', " " + rest, ts);
    var t0 := [Operator(';')] + ts;
    QuoteIsOneToken(script, ";" + (" " + rest), t0);
    var t1 := [Word(script)] + t0;
    var s1 := Quote(script) + (";" + (" " + rest));
    SpacedToken("-c", s1, t1);
    SpacedToken("/bin/sh", "-c" + (" " + s1), [Word("-c")] + t1);
    SpacedToken(flag, "/bin/sh" + (" " + ("-c" + (" " + s1))), [Word("/bin/sh")] + ([Word("-c")] + t1));
    assert [Word(flag)] + ([Word("/bin/sh")] + ([Word("-c")] + t1)) == UserShell(flag, script) + ts;
  }

  const SILENCED := [
    Operator('>'), Word("/dev/null"), Word("2"), Operator('>'), Operator('&'), Word("1"), Operator(';')]

  lemma SilencedText(rest: string)
    ensures Silence(rest) == ">" + ("/dev/null" + (" " + ("2" + (">" + ("&" + ("1" + (";" + (" " + rest))))))))
  {
  }

  lemma SilencedReads(rest: string, ts: seq<Token>)
    requires Reads(rest, ts)
    ensures Reads(Silence(rest), SILENCED + ts)
  {
    hide Reads, Silence;
    SilencedText(rest);
    var s6 := ";" + (" " + rest);
    var s5 := "1" + s6;
    var s4 := "&" + s5;
    var s3 := ">" + s4;
    var s2 := "2" + s3;
    BlankToken(rest, ts);
    OperatorToken(';', " " + rest, ts);
    var t6 := [Operator(';')] + ts;
    PlainToken("1", s6, t6);
    var t5 := [Word("1")] + t6;
    OperatorToken('&', s5, t5);
    var t4 := [Operator('&')] + t5;
    OperatorToken('>', s4, t4);
    var t3 := [Operator('>')] + t4;
    PlainToken("2", s3, t3);
    OpenSilenced(s2, [Word("2")] + t3);
    assert [Operator('>'), Word("/dev/null")] + ([Word("2")] + t3) == SILENCED + ts;
  }

  lemma DevNullIsPlain()
    ensures Plain("/dev/null")
  {
  }

  lemma OpenSilenced(rest: string, ts: seq<Token>)
    requires Reads(rest, ts)
    ensures Reads(">" + ("/dev/null" + (" " + rest)), [Operator('>'), Word("/dev/null")] + ts)
  {
    hide Reads, Plain;
    assert Plain("/dev/null") by { DevNullIsPlain(); }
    SpacedToken("/dev/null", rest, ts);
    OperatorToken('>', "/dev/null" + (" " + rest), [Word("/dev/null")] + ts);
    assert [Operator('>')] + ([Word("/dev/null")] + ts) == [Operator('>'), Word("/dev/null")] + ts;
  }

  lemma ProbeText(rest: string)
    ensures IfRunuser(rest)
         == "if" + (" " + ("command" + (" " + ("-v" + (" " + ("runuser" + (" " + Silence(rest))))))))
  {
    hide Silence;
  }

  lemma FourWords(a: string, b: string, c: string, d: string, rest: string, ts: seq<Token>)
    requires Plain(a) && Plain(b) && Plain(c) && Plain(d) && Reads(rest, ts)
    ensures Reads(a + (" " + (b + (" " + (c + (" " + (d + (" " + rest))))))), [Word(a), Word(b), Word(c), Word(d)] + ts)
  {
    hide Reads, Plain;
    SpacedToken(d, rest, ts);
    SpacedToken(c, d + (" " + rest), [Word(d)] + ts);
    var s2, t2 := c + (" " + (d + (" " + rest))), [Word(c)] + ([Word(d)] + ts);
    SpacedToken(b, s2, t2);
    SpacedToken(a, b + (" " + s2), [Word(b)] + t2);
    assert [Word(a)] + ([Word(b)] + t2) == [Word(a), Word(b), Word(c), Word(d)] + ts;
  }

  const PROBE := [Word("if"), Word("command"), Word("-v"), Word("runuser")]

  lemma ProbeWordsArePlain()
    ensures Plain("if") && Plain("command") && Plain("-v") && Plain("runuser")
  {
  }

  lemma ProbeReads(rest: string, ts: seq<Token>)
    requires Reads(rest, ts)
    ensures Reads(IfRunuser(rest), PROBE + (SILENCED + ts))
  {
    hide Reads, Silence, IfRunuser, Plain, SILENCED;
    SilencedReads(rest, ts);
    ProbeWordsArePlain();
    FourWords("if", "command", "-v", "runuser", Silence(rest), SILENCED + ts);
    ProbeText(rest);
  }

  lemma ThenText(user: string, rest: string)
    ensures "then exec runuser -u " + user + " " + rest
         == "then" + (" " + ("exec" + (" " + ("runuser" + (" " + ("-u" + (" " + (user + (" " + rest)))))))))
  {
  }

  /** then exec runuser -u USER -- ... */
  lemma RunuserReads(user: string, rest: string, ts: seq<Token>)
    requires Plain(user) && Reads(rest, ts)
    ensures Reads("then exec runuser -u " + user + " " + rest,
                  [Word("then"), Word("exec"), Word("runuser"), Word("-u"), Word(user)] + ts)
  {
    hide Reads;
    SpacedToken(user, rest, ts);
    FourWords("then", "exec", "runuser", "-u", user + (" " + rest), [Word(user)] + ts);
    ThenText(user, rest);
    assert [Word("then"), Word("exec"), Word("runuser"), Word("-u")] + ([Word(user)] + ts)
        == [Word("then"), Word("exec"), Word("runuser"), Word("-u"), Word(user)] + ts;
  }

  lemma ElseText(user: string, rest: string)
    ensures "else exec su " + user + " " + rest
         == "else" + (" " + ("exec" + (" " + ("su" + (" " + (user + (" " + rest)))))))
  {
  }

  /** else exec su USER -s ... */
  lemma SuReads(user: string, rest: string, ts: seq<Token>)
    requires Plain(user) && Reads(rest, ts)
    ensures Reads("else exec su " + user + " " + rest,
                  [Word("else"), Word("exec"), Word("su"), Word(user)] + ts)
  {
    hide Reads;
    FourWords("else", "exec", "su", user, rest, ts);
    ElseText(user, rest);
  }

  lemma UsernameIsPlain(user: string)
    requires ValidUsername(user)
    ensures Plain(user)
  {
    forall c | c in user
      ensures PlainChar(c)
    {
      var i :| 0 <= i < |user| && user[i] == c;
      assert UserChar(c, i == 0);
    }
  }

  function DroppedTokens(script: string, user: string): seq<Token> {
    PROBE + (SILENCED
    + ([Word("then"), Word("exec"), Word("runuser"), Word("-u"), Word(user)] + (UserShell("--", script)
    + ([Word("else"), Word("exec"), Word("su"), Word(user)] + (UserShell("-s", script) + [Word("fi")])))))
  }

  /** Both branches of the privilege drop hand the whole script to the user's shell as one word. */
  lemma DropPrivilegesTokens(script: string, user: string)
    requires ValidUsername(user)
    ensures Reads(DropPrivileges(script, user), DroppedTokens(script, user))
  {
    hide LexWord, Escape, Quote, Silence, IfRunuser;
    UsernameIsPlain(user);
    assert Reads("", []);
    PlainToken("fi", "", []);
    assert "fi" + "" == "fi";
    var t0 := [Word("fi")];
    assert [Word("fi")] + [] == t0;
    UserShellReads("-s", script, "fi", t0);
    var s1 := "-s" + (" " + ("/bin/sh" + (" " + ("-c" + (" " + (Quote(script) + (";" + (" " + "fi"))))))));
    var t1 := UserShell("-s", script) + t0;
    SuReads(user, s1, t1);
    var s2 := "else exec su " + user + " " + s1;
    var t2 := [Word("else"), Word("exec"), Word("su"), Word(user)] + t1;
    UserShellReads("--", script, s2, t2);
    var s3 := "--" + (" " + ("/bin/sh" + (" " + ("-c" + (" " + (Quote(script) + (";" + (" " + s2))))))));
    RunuserReads(user, s3, UserShell("--", script) + t2);
    ProbeReads("then exec runuser -u " + user + " " + s3,
               [Word("then"), Word("exec"), Word("runuser"), Word("-u"), Word(user)] + (UserShell("--", script) + t2));
    SuText(user, Quote(script));
    RunuserText(user, Quote(script), s2);
  }

  lemma SuText(user: string, q: string)
    ensures "else exec su " + user + " -s /bin/sh -c " + q + "; fi"
         == "else exec su " + user + " "
            + ("-s" + (" " + ("/bin/sh" + (" " + ("-c" + (" " + (q + (";" + (" " + "fi")))))))))
  {
    assert " -s /bin/sh -c " + q + "; fi"
        == " " + ("-s" + (" " + ("/bin/sh" + (" " + ("-c" + (" " + (q + (";" + (" " + "fi")))))))));
  }

  lemma RunuserText(user: string, q: string, rest: string)
    ensures "then exec runuser -u " + user + " -- /bin/sh -c " + q + "; " + rest
         == "then exec runuser -u " + user + " "
            + ("--" + (" " + ("/bin/sh" + (" " + ("-c" + (" " + (q + (";" + (" " + rest)))))))))
  {
    assert " -- /bin/sh -c " + q + "; " + rest
        == " " + ("--" + (" " + ("/bin/sh" + (" " + ("-c" + (" " + (q + (";" + (" " + rest)))))))));
  }
}
