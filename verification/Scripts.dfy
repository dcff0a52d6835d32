/** The scripts the client sends, and how the shells on the way read them. */
module Scripts {
  import opened Basics
  import opened Shell
  import opened WritePolicy
  import opened World

  // ------------------------------------------------------- pieces of a script

  /** A piece of a script between two blanks, and what it is meant to be read as. */
  datatype Piece = Piece(text: string, tokens: seq<Token>)

  function Plainly(w: string): Piece {
    Piece(w, [Word(w)])
  }

  /** A word right before an operator. */
  function Closed(w: string, op: char): Piece {
    Piece(w + [op], [Word(w), Operator(op)])
  }

  function Quoted(s: string): Piece {
    Piece(Quote(s), [Word(s)])
  }

  function Twice(op: char): Piece {
    Piece([op, op], [Operator(op), Operator(op)])
  }

  /** The pieces, a blank between any two. */
  function Line(ps: seq<Piece>): string {
    if ps == [] then "" else if |ps| == 1 then ps[0].text else ps[0].text + " " + Line(ps[1..])
  }

  function Meant(ps: seq<Piece>): seq<Token> {
    if ps == [] then [] else ps[0].tokens + Meant(ps[1..])
  }

  /** This piece by itself is read as it is meant. */
  ghost predicate Sound(p: Piece) {
    Reads(p.text, p.tokens)
  }

  ghost predicate AllSound(ps: seq<Piece>) {
    forall p | p in ps :: Sound(p)
  }

  lemma {:induction false} LineReads(ps: seq<Piece>)
    requires AllSound(ps)
    ensures Reads(Line(ps), Meant(ps))
  {
    hide Tokens;
    if ps == [] {
      NothingReads();
    } else if |ps| == 1 {
      assert ps[0] in ps && Meant(ps) == ps[0].tokens;
    } else {
      assert ps[0] in ps;
      LineReads(ps[1..]);
      TokensCompose(ps[0].text, Line(ps[1..]), ps[0].tokens, Meant(ps[1..]));
    }
  }

  lemma NothingReads()
    ensures Reads("", [])
  {
  }

  /** Sound pieces in front do not change how the rest is read. */
  lemma {:induction false} LineGoesOn(ps: seq<Piece>, more: seq<Piece>)
    requires AllSound(ps) && more != []
    ensures Tokens(Line(ps + more)) == After(Meant(ps), Tokens(Line(more)))
    ensures Meant(ps + more) == Meant(ps) + Meant(more)
  {
    hide Tokens;
    if ps == [] {
      assert ps + more == more && Meant(ps) == [];
      AfterNothing(Tokens(Line(more)));
    } else {
      var all := ps + more;
      assert all[0] == ps[0] && ps[0] in ps && all[1..] == ps[1..] + more;
      LineGoesOn(ps[1..], more);
      TokensGoOn(ps[0].text, Line(all[1..]), ps[0].tokens);
      AfterBoth(ps[0].tokens, Meant(ps[1..]), Tokens(Line(more)));
      assert ps[0].tokens + (Meant(ps[1..]) + Meant(more)) == Meant(ps) + Meant(more);
    }
  }

  lemma AfterNothing(more: Option<seq<Token>>)
    ensures After([], more) == more
  {
    if more.Some? {
      assert [] + more.value == more.value;
    }
  }

  lemma AfterBoth(a: seq<Token>, b: seq<Token>, more: Option<seq<Token>>)
    ensures After(a, After(b, more)) == After(a + b, more)
  {
    if more.Some? {
      assert a + (b + more.value) == a + b + more.value;
    }
  }

  // -------------------------------------------------------- sound pieces

  lemma PlainlySound(w: string)
    requires Plain(w)
    ensures Sound(Plainly(w))
  {
    hide LexWord;
    NothingReads();
    PlainToken(w, "", []);
    assert w + "" == w && [Word(w)] + [] == [Word(w)];
  }

  lemma ClosedSound(w: string, op: char)
    requires Plain(w) && IsOperator(op)
    ensures Sound(Closed(w, op))
  {
    hide LexWord;
    NothingReads();
    OperatorToken(op, "", []);
    assert [op] + "" == [op] && [Operator(op)] + [] == [Operator(op)];
    PlainToken(w, [op], [Operator(op)]);
    assert [Word(w)] + [Operator(op)] == [Word(w), Operator(op)];
  }

  lemma QuotedSound(s: string)
    ensures Sound(Quoted(s))
  {
    hide LexWord;
    NothingReads();
    QuoteIsOneToken(s, "", []);
    assert Quote(s) + "" == Quote(s) && [Word(s)] + [] == [Word(s)];
  }

  lemma TwiceSound(op: char)
    requires IsOperator(op)
    ensures Sound(Twice(op))
  {
    hide LexWord;
    NothingReads();
    OperatorToken(op, "", []);
    assert [op] + "" == [op] && [Operator(op)] + [] == [Operator(op)];
    OperatorToken(op, [op], [Operator(op)]);
    assert [op] + [op] == [op, op] && [Operator(op)] + [Operator(op)] == [Operator(op), Operator(op)];
  }

  function Prefixed(text: string, l: Lexed): Lexed {
    if l.Lexed? then Lexed(text + l.text, l.rest) else l
  }

  /** A quoted string may go on as the same word. */
  lemma {:induction false} LexEscapedOn(s: string, rest: string)
    ensures LexSingle(Escape(s) + "'" + rest) == Prefixed(s, LexWord(rest))
    decreases |s|
  {
    if s == "" {
      assert (Escape(s) + "'" + rest)[1..] == rest;
      PrefixedByNothing(LexWord(rest));
    } else {
      LexEscapedOn(s[1..], rest);
      EscapeStep(s, Escape(s[1..]) + "'" + rest, rest);
      PrefixedStep(s, LexWord(rest));
    }
  }

  lemma PrefixedByNothing(l: Lexed)
    ensures Prefixed("", l) == l
  {
    if l.Lexed? {
      assert "" + l.text == l.text;
    }
  }

  lemma PrefixedStep(s: string, l: Lexed)
    requires s != ""
    ensures Prefixed(s, l) == Prepend(s[0], Prefixed(s[1..], l))
  {
    if l.Lexed? {
      assert s + l.text == [s[0]] + (s[1..] + l.text);
    }
  }

  lemma QuoteGoesOn(s: string, rest: string)
    ensures LexWord(Quote(s) + rest) == Prefixed(s, LexWord(rest))
  {
    hide LexWord, LexSingle, Escape;
    LexEscapedOn(s, rest);
    var text := Quote(s) + rest;
    assert text[0] == '\'' && text[1..] == Escape(s) + "'" + rest;
    QuoteOpens(text);
  }

  lemma QuoteOpens(text: string)
    requires text != "" && text[0] == '\''
    ensures LexWord(text) == LexSingle(text[1..])
  {
    hide LexSingle;
  }

  /** A quoted string, plain text after it, an operator: one word, one operator. */
  function Suffixed(s: string, suffix: string, op: char): Piece {
    Piece(Quote(s) + (suffix + [op]), [Word(s + suffix), Operator(op)])
  }

  lemma SuffixedSound(s: string, suffix: string, op: char)
    requires (forall c | c in suffix :: PlainChar(c)) && IsOperator(op)
    ensures Sound(Suffixed(s, suffix, op))
  {
    hide LexWord, Tokens, Escape;
    OperatorReads(op);
    LexPlain(suffix, [op]);
    QuoteGoesOn(s, suffix + [op]);
    assert Quote(s)[0] == '\'';
    WordToken(Quote(s) + (suffix + [op]), s + suffix, [op], [Operator(op)]);
    assert [Word(s + suffix)] + [Operator(op)] == [Word(s + suffix), Operator(op)];
  }

  lemma OperatorReads(op: char)
    requires IsOperator(op)
    ensures Reads([op], [Operator(op)])
  {
    NothingReads();
    OperatorToken(op, "", []);
    assert [op] + "" == [op] && [Operator(op)] + [] == [Operator(op)];
  }

  /** Two quoted strings with a colon between them. */
  function Pair(a: string, b: string): Piece {
    Piece(Quote(a) + ":" + Quote(b), [Word(a + ":" + b)])
  }

  lemma WordToken(s: string, text: string, rest: string, ts: seq<Token>)
    requires s != "" && !IsBlank(s[0]) && !IsOperator(s[0]) && s[0] != '#'
    requires LexWord(s) == Lexed(text, rest) && Reads(rest, ts)
    ensures Reads(s, [Word(text)] + ts)
  {
    hide LexWord;
  }

  lemma PairSound(a: string, b: string)
    ensures Sound(Pair(a, b))
  {
    ColonWord(b);
    NothingReads();
    QuoteGoesOn(a, ":" + Quote(b));
    hide LexWord, Tokens, Escape;
    assert Quote(a) + ":" + Quote(b) == Quote(a) + (":" + Quote(b)) && Quote(a)[0] == '\'';
    assert a + (":" + b) == a + ":" + b && [Word(a + ":" + b)] + [] == [Word(a + ":" + b)];
    WordToken(Quote(a) + ":" + Quote(b), a + ":" + b, "", []);
  }

  lemma ColonWord(b: string)
    ensures LexWord(":" + Quote(b)) == Lexed(":" + b, "")
  {
    QuoteIsOneWord(b, "");
    assert Quote(b) + "" == Quote(b) && (":" + Quote(b))[1..] == Quote(b);
    hide Quote;
  }

  /** The temporary file's name, kept in a variable. */
  const TEMP := Piece("\"$t\"", [Word("$t")])
  const LAST_TEMP := Piece("\"$t\";", [Word("$t"), Operator(';')])

  lemma LexClosing(rest: string)
    requires Delimited(rest)
    ensures LexDouble("\"" + rest) == Lexed("", rest)
  {
    assert ("\"" + rest)[1..] == rest;
  }

  lemma LexInside(c: char, more: string, text: string, rest: string)
    requires c != '"' && c != '\\' && LexDouble(more) == Lexed(text, rest)
    ensures LexDouble([c] + more) == Lexed([c] + text, rest)
  {
    assert ([c] + more)[1..] == more;
  }

  lemma LexVariable(rest: string)
    requires Delimited(rest)
    ensures LexWord("\"$t\"" + rest) == Lexed("$t", rest)
  {
    hide LexDouble;
    var s := "\"" + rest;
    LexClosing(rest);
    LexInside('t', s, "", rest);
    assert ['t'] + "" == "t";
    LexInside('$', ['t'] + s, "t", rest);
    assert ['$'] + "t" == "$t";
    assert ("\"$t\"" + rest)[1..] == ['$'] + (['t'] + s);
  }

  lemma TempSound()
    ensures Sound(TEMP) && Sound(LAST_TEMP)
  {
    hide LexWord, Tokens;
    NothingReads();
    LexVariable("");
    assert "\"$t\"" + "" == "\"$t\"" && [Word("$t")] + [] == [Word("$t")];
    WordToken("\"$t\"", "$t", "", []);
    OperatorReads(';');
    LexVariable([';']);
    assert "\"$t\"" + [';'] == "\"$t\";" && [Word("$t")] + [Operator(';')] == [Word("$t"), Operator(';')];
    WordToken("\"$t\";", "$t", [';'], [Operator(';')]);
  }

  const TO_STDERR := Piece(">&2;", [Operator('>'), Operator('&'), Word("2"), Operator(';')])

  lemma StderrSound()
    ensures Sound(TO_STDERR)
  {
    hide Tokens, LexWord;
    ClosedSound("2", ';');
    assert "2" + [';'] == "2;";
    var t := [Word("2"), Operator(';')];
    OperatorToken('&', "2;", t);
    assert ['&'] + "2;" == "&2;";
    OperatorToken('>', "&2;", [Operator('&')] + t);
    assert ['>'] + "&2;" == ">&2;" && [Operator('>')] + ([Operator('&')] + t) == TO_STDERR.tokens;
  }

  /** A command substitution: the words inside are read as they would be outside. */
  const MKTEMP := Piece("t=$(mktemp", [Word("t=$"), Operator('('), Word("mktemp")])

  lemma MktempSound()
    ensures Sound(MKTEMP)
  {
    hide Tokens, LexWord;
    PlainlySound("mktemp");
    OperatorToken('(', "mktemp", [Word("mktemp")]);
    assert ['('] + "mktemp" == "(mktemp";
    PlainToken("t=$", "(mktemp", [Operator('(')] + [Word("mktemp")]);
    assert "t=$" + "(mktemp" == "t=$(mktemp";
    assert [Word("t=$")] + ([Operator('(')] + [Word("mktemp")]) == MKTEMP.tokens;
  }

  const INTO := Piece(">", [Operator('>')])

  lemma IntoSound()
    ensures Sound(INTO)
  {
    NothingReads();
    OperatorToken('>', "", []);
    assert ['>'] + "" == ">" && [Operator('>')] + [] == [Operator('>')];
  }

  // --------------------------------------------------------- SwapFile's script

  function SwapHead(path: Path): seq<Piece> {
    [Plainly("umask"), Closed("077", ';')] + IfLinked(path)
  }

  /** The message about a linked target, with the path as it is. */
  function Message(path: Path): Piece {
    Piece("'refusing: " + path + " is a symlink'", [Word("refusing: " + path + " is a symlink")])
  }

  function Leave(): seq<Piece> {
    [TO_STDERR, Plainly("exit"), Closed("8", ';'), Closed("fi", ';')]
  }

  function IfLinked(path: Path): seq<Piece> {
    [Plainly("if"), Plainly("["), Plainly("-L"), Quoted(path), Closed("]", ';'), Plainly("then"), Plainly("echo")]
  }

  function LinkedParent(dir: Path): seq<Piece> {
    Leave() + (IfLinked(dir) + ([Quoted("refusing: parent directory is a symlink")] + Leave()))
  }

  function MakeDir(dir: Path): seq<Piece> {
    [Plainly("if"), Plainly("["), Plainly("!"), Plainly("-d"), Quoted(dir), Closed("]", ';'), Plainly("then")]
    + ([Plainly("mkdir"), Plainly("-p"), Quoted(dir), Twice('&'), Plainly("chmod"), Plainly("700"), Quoted(dir)]
       + [Twice('|'), Plainly("exit"), Closed("1", ';'), Closed("fi", ';')])
  }

  function Fill(dir: Path, mode: string): seq<Piece> {
    [MKTEMP, Suffixed(dir, "/.sshkeytx.XXXXXXXX", ')'), Twice('|'), Plainly("exit"), Closed("1", ';')]
    + [Plainly("cat"), INTO, TEMP, Twice('&'), Plainly("chmod"), Quoted(mode), TEMP, Twice('&')]
  }

  function Chown(uid: string, gid: string): seq<Piece> {
    [Plainly("chown"), Pair(uid, gid), TEMP, Twice('&')]
  }

  function Rename(path: Path): seq<Piece> {
    [Plainly("mv"), Plainly("-f"), TEMP, Quoted(path), Twice('|')]
    + [Plainly("{"), Plainly("rm"), Plainly("-f"), LAST_TEMP, Plainly("exit"), Closed("1", ';'), Plainly("}")]
  }

  function SwapRest(path: Path, o: WriteOpts): seq<Piece> {
    var dir := DirOf(path);
    LinkedParent(dir)
    + (if o.mkdirFor then MakeDir(dir) else [])
    + Fill(dir, if o.mode == "" then "600" else o.mode)
    + (if o.uid != "" && o.runAs == "" then Chown(o.uid, o.gid) else [])
    + Rename(path)
  }

  function SwapPieces(path: Path, o: WriteOpts): seq<Piece> {
    SwapHead(path) + ([Message(path)] + SwapRest(path, o))
  }

  /** The script that replaces a file's content. */
  function SwapScript(path: Path, o: WriteOpts): string {
    Line(SwapPieces(path, o))
  }

  // ------------------------------------------------------- the script's words

  /** If this is a link: a message. */
  function LinkTest(path: Path): seq<Token> {
    [Word("if"), Word("["), Word("-L"), Word(path), Word("]"), Operator(';'), Word("then"), Word("echo")]
  }

  /** The message goes to standard error, and the script ends. */
  const LEAVING := [Operator('>'), Operator('&'), Word("2"), Operator(';')]
                   + [Word("exit"), Word("8"), Operator(';'), Word("fi"), Operator(';')]

  /** A missing directory is made and closed to others. */
  function MakingDir(dir: Path): seq<Token> {
    [Word("if"), Word("["), Word("!"), Word("-d"), Word(dir), Word("]"), Operator(';'), Word("then")]
    + [Word("mkdir"), Word("-p"), Word(dir), Operator('&'), Operator('&'), Word("chmod"), Word("700"), Word(dir)]
    + [Operator('|'), Operator('|'), Word("exit"), Word("1"), Operator(';'), Word("fi"), Operator(';')]
  }

  /** A temporary file next to the target. */
  function MakingTemp(dir: Path): seq<Token> {
    [Word("t=$"), Operator('('), Word("mktemp"), Word(dir + "/.sshkeytx.XXXXXXXX"), Operator(')')]
    + [Operator('|'), Operator('|'), Word("exit"), Word("1"), Operator(';')]
  }

  /** It gets the content, then the mode. */
  function FillingTemp(mode: string): seq<Token> {
    [Word("cat"), Operator('>'), Word("$t"), Operator('&'), Operator('&')]
    + [Word("chmod"), Word(mode), Word("$t"), Operator('&'), Operator('&')]
  }

  /** Then an owner. */
  function GivingTemp(uid: string, gid: string): seq<Token> {
    [Word("chown"), Word(uid + ":" + gid), Word("$t"), Operator('&'), Operator('&')]
  }

  /** Then the target's name, or it is removed. */
  function RenamingTemp(path: Path): seq<Token> {
    [Word("mv"), Word("-f"), Word("$t"), Word(path), Operator('|'), Operator('|')]
    + [Word("{"), Word("rm"), Word("-f"), Word("$t"), Operator(';'), Word("exit"), Word("1"), Operator(';'), Word("}")]
  }

  /** What the script says, word by word. */
  function SwapTokens(path: Path, o: WriteOpts): seq<Token> {
    var dir := DirOf(path);
    [Word("umask"), Word("077"), Operator(';')]
    + LinkTest(path) + [Word("refusing: " + path + " is a symlink")] + LEAVING
    + LinkTest(dir) + [Word("refusing: parent directory is a symlink")] + LEAVING
    + (if o.mkdirFor then MakingDir(dir) else [])
    + MakingTemp(dir) + FillingTemp(if o.mode == "" then "600" else o.mode)
    + (if o.uid != "" && o.runAs == "" then GivingTemp(o.uid, o.gid) else [])
    + RenamingTemp(path)
  }

  lemma {:induction false} MeantSplits(a: seq<Piece>, b: seq<Piece>)
    ensures Meant(a + b) == Meant(a) + Meant(b)
  {
    if a == [] {
      assert a + b == b;
    } else {
      assert (a + b)[1..] == a[1..] + b;
      MeantSplits(a[1..], b);
    }
  }

  lemma Meant2(p: Piece, q: Piece)
    ensures Meant([p]) == p.tokens && Meant([p, q]) == p.tokens + q.tokens
  {
    assert [p][1..] == [] && [p, q][1..] == [q] && [q][1..] == [];
  }

  lemma Meant4(a: Piece, b: Piece, c: Piece, d: Piece)
    ensures Meant([a, b, c, d]) == a.tokens + b.tokens + c.tokens + d.tokens
    ensures Meant([a, b, c]) == a.tokens + b.tokens + c.tokens
  {
    Meant2(a, b);
    Meant2(c, d);
    MeantSplits([a, b], [c, d]);
    MeantSplits([a, b], [c]);
    assert [a, b] + [c, d] == [a, b, c, d] && [a, b] + [c] == [a, b, c];
  }

  lemma LinkMeant(path: Path)
    ensures Meant(IfLinked(path)) == LinkTest(path)
  {
    hide Meant, Quote;
    Meant4(Plainly("if"), Plainly("["), Plainly("-L"), Quoted(path));
    Meant4(Closed("]", ';'), Plainly("then"), Plainly("echo"), Plainly(""));
    var a := [Plainly("if"), Plainly("["), Plainly("-L"), Quoted(path)];
    var b := [Closed("]", ';'), Plainly("then"), Plainly("echo")];
    MeantSplits(a, b);
    assert IfLinked(path) == a + b;
  }

  lemma LeaveMeant()
    ensures Meant(Leave()) == LEAVING
  {
    hide Meant;
    Meant4(TO_STDERR, Plainly("exit"), Closed("8", ';'), Closed("fi", ';'));
  }

  lemma DirTestMeant(dir: Path)
    ensures Meant([Plainly("if"), Plainly("["), Plainly("!"), Plainly("-d"), Quoted(dir), Closed("]", ';'),
                   Plainly("then")])
         == [Word("if"), Word("["), Word("!"), Word("-d"), Word(dir), Word("]"), Operator(';'), Word("then")]
  {
    hide Meant, Quote;
    var a := [Plainly("if"), Plainly("["), Plainly("!"), Plainly("-d")];
    var b := [Quoted(dir), Closed("]", ';'), Plainly("then")];
    Meant4(a[0], a[1], a[2], a[3]);
    Meant4(b[0], b[1], b[2], b[2]);
    MeantSplits(a, b);
    assert a + b
        == [Plainly("if"), Plainly("["), Plainly("!"), Plainly("-d"), Quoted(dir), Closed("]", ';'), Plainly("then")];
  }

  lemma DirMadeMeant(dir: Path)
    ensures Meant([Plainly("mkdir"), Plainly("-p"), Quoted(dir), Twice('&'), Plainly("chmod"), Plainly("700"),
                   Quoted(dir)])
         == [Word("mkdir"), Word("-p"), Word(dir), Operator('&'), Operator('&'), Word("chmod"), Word("700"), Word(dir)]
  {
    hide Meant, Quote;
    var a := [Plainly("mkdir"), Plainly("-p"), Quoted(dir), Twice('&')];
    var b := [Plainly("chmod"), Plainly("700"), Quoted(dir)];
    Meant4(a[0], a[1], a[2], a[3]);
    Meant4(b[0], b[1], b[2], b[2]);
    MeantSplits(a, b);
    assert a + b
        == [Plainly("mkdir"), Plainly("-p"), Quoted(dir), Twice('&'), Plainly("chmod"), Plainly("700"), Quoted(dir)];
  }

  lemma MakeDirMeant(dir: Path)
    ensures Meant(MakeDir(dir)) == MakingDir(dir)
  {
    hide Meant, Quote;
    DirTestMeant(dir);
    DirMadeMeant(dir);
    Meant4(Twice('|'), Plainly("exit"), Closed("1", ';'), Closed("fi", ';'));
    JoinedMeant(
      [Plainly("if"), Plainly("["), Plainly("!"), Plainly("-d"), Quoted(dir), Closed("]", ';'), Plainly("then")],
      [Plainly("mkdir"), Plainly("-p"), Quoted(dir), Twice('&'), Plainly("chmod"), Plainly("700"), Quoted(dir)],
      [Twice('|'), Plainly("exit"), Closed("1", ';'), Closed("fi", ';')]);
  }

  lemma JoinedMeant(a: seq<Piece>, b: seq<Piece>, c: seq<Piece>)
    ensures Meant(a + (b + c)) == Meant(a) + Meant(b) + Meant(c)
  {
    hide Meant;
    MeantSplits(b, c);
    MeantSplits(a, b + c);
  }

  lemma FillMeant(dir: Path, mode: string)
    ensures Meant(Fill(dir, mode)) == MakingTemp(dir) + FillingTemp(mode)
  {
    hide Meant, Quote;
    var a := [MKTEMP, Suffixed(dir, "/.sshkeytx.XXXXXXXX", ')'), Twice('|')];
    var b := [Plainly("exit"), Closed("1", ';')];
    var c := [Plainly("cat"), INTO, TEMP, Twice('&')];
    var d := [Plainly("chmod"), Quoted(mode), TEMP, Twice('&')];
    Meant4(a[0], a[1], a[2], a[2]);
    Meant2(b[0], b[1]);
    Meant4(c[0], c[1], c[2], c[3]);
    Meant4(d[0], d[1], d[2], d[3]);
    MeantSplits(a, b);
    MeantSplits(c, d);
    MeantSplits(a + b, c + d);
    assert Fill(dir, mode) == (a + b) + (c + d);
  }

  lemma ChownMeant(uid: string, gid: string)
    ensures Meant(Chown(uid, gid)) == GivingTemp(uid, gid)
  {
    hide Meant, Quote;
    Meant4(Plainly("chown"), Pair(uid, gid), TEMP, Twice('&'));
  }

  lemma RenameMeant(path: Path)
    ensures Meant(Rename(path)) == RenamingTemp(path)
  {
    hide Meant, Quote;
    var a := [Plainly("mv"), Plainly("-f"), TEMP];
    var b := [Quoted(path), Twice('|')];
    var c := [Plainly("{"), Plainly("rm"), Plainly("-f"), LAST_TEMP];
    var d := [Plainly("exit"), Closed("1", ';'), Plainly("}")];
    Meant4(a[0], a[1], a[2], a[2]);
    Meant2(b[0], b[1]);
    Meant4(c[0], c[1], c[2], c[3]);
    Meant4(d[0], d[1], d[2], d[2]);
    MeantSplits(a, b);
    MeantSplits(c, d);
    MeantSplits(a + b, c + d);
    assert Rename(path) == (a + b) + (c + d);
  }

  lemma HeadMeant(path: Path)
    ensures Meant(SwapHead(path)) == [Word("umask"), Word("077"), Operator(';')] + LinkTest(path)
  {
    hide Meant, IfLinked, LinkTest;
    Meant2(Plainly("umask"), Closed("077", ';'));
    LinkMeant(path);
    MeantSplits([Plainly("umask"), Closed("077", ';')], IfLinked(path));
  }

  lemma ParentMeant(dir: Path)
    ensures Meant(LinkedParent(dir))
         == LEAVING + LinkTest(dir) + [Word("refusing: parent directory is a symlink")] + LEAVING
  {
    hide Meant, IfLinked, LinkTest, Leave, LEAVING, Quote;
    var message := [Quoted("refusing: parent directory is a symlink")];
    LeaveMeant();
    LinkMeant(dir);
    Meant2(message[0], message[0]);
    MeantSplits(message, Leave());
    MeantSplits(IfLinked(dir), message + Leave());
    MeantSplits(Leave(), IfLinked(dir) + (message + Leave()));
  }

  lemma RestMeant(path: Path, o: WriteOpts)
    ensures var dir := DirOf(path);
            Meant(SwapRest(path, o))
            == LEAVING + LinkTest(dir) + [Word("refusing: parent directory is a symlink")] + LEAVING
               + (if o.mkdirFor then MakingDir(dir) else [])
               + (MakingTemp(dir) + FillingTemp(if o.mode == "" then "600" else o.mode))
               + (if o.uid != "" && o.runAs == "" then GivingTemp(o.uid, o.gid) else [])
               + RenamingTemp(path)
  {
    hide Meant, LinkedParent, MakeDir, Fill, Chown, Rename, DirOf, LinkTest, LEAVING, MakingDir, MakingTemp,
         FillingTemp, GivingTemp, RenamingTemp;
    var dir, mode := DirOf(path), if o.mode == "" then "600" else o.mode;
    var make := if o.mkdirFor then MakeDir(dir) else [];
    var own := if o.uid != "" && o.runAs == "" then Chown(o.uid, o.gid) else [];
    ParentMeant(dir);
    MakeDirMeant(dir);
    FillMeant(dir, mode);
    ChownMeant(o.uid, o.gid);
    RenameMeant(path);
    NothingMeant();
    MeantSplits(LinkedParent(dir), make);
    MeantSplits(LinkedParent(dir) + make, Fill(dir, mode));
    MeantSplits(LinkedParent(dir) + make + Fill(dir, mode), own);
    MeantSplits(LinkedParent(dir) + make + Fill(dir, mode) + own, Rename(path));
  }

  /** The pieces mean these words. */
  lemma SwapMeant(path: Path, o: WriteOpts)
    ensures Meant(SwapPieces(path, o)) == SwapTokens(path, o)
  {
    hide Meant, SwapRest, SwapHead, DirOf, LinkTest, LEAVING, MakingDir, MakingTemp, FillingTemp, GivingTemp,
         RenamingTemp;
    var dir := DirOf(path);
    HeadMeant(path);
    RestMeant(path, o);
    Meant2(Message(path), Message(path));
    MeantSplits([Message(path)], SwapRest(path, o));
    MeantSplits(SwapHead(path), [Message(path)] + SwapRest(path, o));
    Ungrouped([Word("umask"), Word("077"), Operator(';')] + LinkTest(path), Message(path).tokens, LEAVING,
              LinkTest(dir), [Word("refusing: parent directory is a symlink")],
              if o.mkdirFor then MakingDir(dir) else [],
              MakingTemp(dir), FillingTemp(if o.mode == "" then "600" else o.mode),
              if o.uid != "" && o.runAs == "" then GivingTemp(o.uid, o.gid) else [], RenamingTemp(path));
  }

  lemma Ungrouped(head: seq<Token>, message: seq<Token>, leave: seq<Token>, test: seq<Token>, other: seq<Token>,
                  make: seq<Token>, temp: seq<Token>, fill: seq<Token>, own: seq<Token>, name: seq<Token>)
    ensures head + (message + (leave + test + other + leave + make + (temp + fill) + own + name))
         == head + message + leave + test + other + leave + make + temp + fill + own + name
  {
    var a := leave + test + other + leave;
    assert a + make + (temp + fill) == a + make + temp + fill;
    var b := a + make + temp + fill + own + name;
    assert head + (message + b) == head + message + b;
    assert head + message + a == head + message + leave + test + other + leave;
    assert head + message + b == head + message + a + make + temp + fill + own + name;
  }

  lemma NothingMeant()
    ensures Meant([]) == []
  {
  }

  // ------------------------------------------------ what a word's lexing keeps

  /** Without the characters that lexing may drop. */
  function Bare(s: string): string {
    if s == "" then ""
    else (if s[0] == '\'' || s[0] == '"' || s[0] == '\\' || s[0] == '\n' then "" else [s[0]]) + Bare(s[1..])
  }

  lemma {:induction false} BareSplits(a: string, b: string)
    ensures Bare(a + b) == Bare(a) + Bare(b)
  {
    if a == "" {
      assert a + b == b;
    } else {
      assert (a + b)[1..] == a[1..] + b;
      BareSplits(a[1..], b);
    }
  }

  /** The text consumed for a word, of which l is the outcome. */
  ghost predicate Keeps(s: string, l: Lexed, inside: bool) {
    l.Lexed? ==>
      && |l.rest| <= |s| && s[|s| - |l.rest|..] == l.rest && Delimited(l.rest)
      && var used := s[..|s| - |l.rest|];
         && Bare(l.text) == Bare(used) && |l.text| <= |used| && (inside ==> |l.text| < |used|)
         && (|l.text| == |used| ==> '\'' !in used)
  }

  /** One more character in front of the consumed text, which the word keeps. */
  lemma KeepsOne(s: string, l: Lexed, inside: bool)
    requires s != "" && Keeps(s[1..], l, inside) && (s[0] == '\'' ==> inside)
    ensures Keeps(s, Prepend(s[0], l), inside)
  {
    if l.Lexed? {
      var used := s[..|s| - |l.rest|];
      assert used[1..] == s[1..][..|s| - 1 - |l.rest|] && used[0] == s[0];
      assert ([s[0]] + l.text)[1..] == l.text;
      assert used == [used[0]] + used[1..];
    }
  }

  /** Dropped characters in front, and perhaps one kept. */
  lemma KeepsLess(s: string, n: nat, kept: string, l: Lexed, after: bool)
    requires n <= |s| && |kept| < n && Keeps(s[n..], l, after) && Bare(s[..n]) == Bare(kept)
    ensures Keeps(s, Prefixed(kept, l), true)
  {
    hide Bare, Delimited, Keeps;
    if l.Lexed? {
      var rest := |l.rest|;
      KeptParts(s[n..], l, after);
      CutAgain(s, n, rest);
      BareSplits(s[..n], s[n..][..|s| - n - rest]);
      BareSplits(kept, l.text);
      FewerKept(s, Prefixed(kept, l));
    } else {
      NothingKeeps(s, l);
    }
  }

  lemma KeptParts(s: string, l: Lexed, inside: bool)
    requires l.Lexed? && Keeps(s, l, inside)
    ensures |l.rest| <= |s| && s[|s| - |l.rest|..] == l.rest && Delimited(l.rest)
    ensures Bare(l.text) == Bare(s[..|s| - |l.rest|]) && |l.text| <= |s| - |l.rest|
  {
    hide Bare, Delimited;
  }

  lemma FewerKept(s: string, l: Lexed)
    requires l.Lexed? && |l.rest| <= |s| && s[|s| - |l.rest|..] == l.rest && Delimited(l.rest)
    requires Bare(l.text) == Bare(s[..|s| - |l.rest|]) && |l.text| < |s| - |l.rest|
    ensures Keeps(s, l, true)
  {
    hide Bare, Delimited;
  }

  lemma NothingKeeps(s: string, l: Lexed)
    requires !l.Lexed?
    ensures Keeps(s, l, true)
  {
  }

  lemma CutAgain(s: string, n: nat, rest: nat)
    requires n + rest <= |s|
    ensures s[..|s| - rest] == s[..n] + s[n..][..|s| - n - rest]
    ensures s[n..][|s| - n - rest..] == s[|s| - rest..]
  {
  }

  lemma PrefixedByOne(c: char, l: Lexed)
    ensures Prefixed([c], l) == Prepend(c, l)
  {
  }

  lemma BareOfTwo(a: char, b: char)
    ensures a == '\\' ==> Bare([a, b]) == Bare([b])
    ensures Bare(['\'']) == "" && Bare(['"']) == "" && Bare(['\\', '\n']) == ""
  {
    assert [a, b][1..] == [b];
    assert ['\\', '\n'][1..] == ['\n'] && ['\n'][1..] == "";
  }

  lemma Weakened(s: string, l: Lexed)
    requires Keeps(s, l, true)
    ensures Keeps(s, l, false)
  {
  }

  lemma {:induction false} LexKeeps(s: string, mode: int)
    requires 0 <= mode <= 2
    ensures Keeps(s, LexIn(s, mode), mode != 0)
    decreases |s|
  {
    if mode == 0 {
      KeepsOutside(s);
    } else if s != "" {
      if mode == 1 {
        if s[0] == '\'' {
          Unwrapped(s, 0);
        } else {
          LexKeeps(s[1..], 1);
          KeepsOne(s, LexSingle(s[1..]), true);
        }
      } else {
        KeepsInDouble(s);
      }
    }
  }

  /** A quote opens or closes: one character dropped. */
  lemma {:induction false} Unwrapped(s: string, mode: int)
    requires s != "" && (s[0] == '\'' || s[0] == '"') && 0 <= mode <= 2
    ensures Keeps(s, LexIn(s[1..], mode), true)
    decreases |s|, 0
  {
    LexKeeps(s[1..], mode);
    BareOfTwo(s[0], s[0]);
    assert s[..1] == [s[0]];
    KeepsLess(s, 1, "", LexIn(s[1..], mode), mode != 0);
    PrefixedByNothing(LexIn(s[1..], mode));
  }

  /** A backslash and what it escapes: one character kept, or none. */
  lemma {:induction false} Unescaped(s: string, mode: int, kept: string)
    requires |s| >= 2 && s[0] == '\\' && 0 <= mode <= 2
    requires kept == [s[1]] || (kept == "" && s[1] == '\n')
    ensures Keeps(s, Prefixed(kept, LexIn(s[2..], mode)), true)
    decreases |s|, 0
  {
    LexKeeps(s[2..], mode);
    BareOfTwo(s[0], s[1]);
    assert s[..2] == [s[0], s[1]];
    KeepsLess(s, 2, kept, LexIn(s[2..], mode), mode != 0);
  }

  lemma {:induction false} KeepsOutside(s: string)
    ensures Keeps(s, LexWord(s), false)
    decreases |s|, 1
  {
    hide Keeps, Bare, LexSingle, LexDouble;
    if Delimited(s) {
      KeepsNothing(s);
    } else if s[0] == '\'' {
      Unwrapped(s, 1);
      Weakened(s, LexSingle(s[1..]));
    } else if s[0] == '"' {
      Unwrapped(s, 2);
      Weakened(s, LexDouble(s[1..]));
    } else if s[0] == '\\' {
      if |s| == 1 {
        KeepsUnterminated(s);
      } else if s[1] == '\n' {
        Unescaped(s, 0, "");
        PrefixedByNothing(LexWord(s[2..]));
        Weakened(s, LexWord(s[2..]));
      } else {
        Unescaped(s, 0, [s[1]]);
        PrefixedByOne(s[1], LexWord(s[2..]));
        Weakened(s, Prepend(s[1], LexWord(s[2..])));
      }
    } else {
      LexKeeps(s[1..], 0);
      KeepsOne(s, LexWord(s[1..]), false);
    }
  }

  lemma KeepsNothing(s: string)
    requires Delimited(s)
    ensures Keeps(s, Lexed("", s), false)
  {
  }

  lemma KeepsUnterminated(s: string)
    ensures Keeps(s, Unterminated, false) && Keeps(s, Unterminated, true)
  {
  }

  lemma {:induction false} KeepsInDouble(s: string)
    requires s != ""
    ensures Keeps(s, LexDouble(s), true)
    decreases |s|, 1
  {
    hide Keeps, Bare, LexSingle, LexWord;
    if s[0] == '"' {
      Unwrapped(s, 0);
    } else if s[0] == '\\' && |s| > 1 && s[1] in "$`\"\\" {
      Unescaped(s, 2, [s[1]]);
      PrefixedByOne(s[1], LexDouble(s[2..]));
    } else if s[0] == '\\' && |s| > 1 && s[1] == '\n' {
      Unescaped(s, 2, "");
      PrefixedByNothing(LexDouble(s[2..]));
    } else {
      LexKeeps(s[1..], 2);
      KeepsOne(s, LexDouble(s[1..]), true);
    }
  }

  // ------------------------------------------------------------- the theorem

  lemma TestWords()
    ensures Plain("if") && Plain("[") && Plain("-L") && Plain("]") && Plain("then") && Plain("echo") && Plain("fi")
  {
  }

  lemma ExitWords()
    ensures Plain("umask") && Plain("077") && Plain("exit") && Plain("8") && Plain("1") && Plain("!") && Plain("-d")
  {
  }

  lemma FileWords()
    ensures Plain("mkdir") && Plain("-p") && Plain("chmod") && Plain("700") && Plain("cat") && Plain("chown")
  {
  }

  lemma RenameWords()
    ensures Plain("mv") && Plain("-f") && Plain("{") && Plain("rm") && Plain("}")
  {
  }

  lemma SuffixIsPlain()
    ensures forall c | c in "/.sshkeytx.XXXXXXXX" :: PlainChar(c)
  {
  }

  /** Every piece but the message is read as it is meant, for every path and every attribute. */
  lemma PiecesSound()
    ensures forall w | Plain(w) :: Sound(Plainly(w))
    ensures forall w, op | Plain(w) && IsOperator(op) :: Sound(Closed(w, op))
    ensures forall s :: Sound(Quoted(s))
    ensures forall op | IsOperator(op) :: Sound(Twice(op))
    ensures Sound(TO_STDERR) && Sound(MKTEMP) && Sound(INTO) && Sound(TEMP) && Sound(LAST_TEMP)
    ensures forall a, b :: Sound(Pair(a, b))
  {
    hide Sound, Plain, TO_STDERR, MKTEMP, INTO, TEMP, LAST_TEMP;
    forall w | Plain(w)
      ensures Sound(Plainly(w))
    {
      PlainlySound(w);
    }
    forall w, op | Plain(w) && IsOperator(op)
      ensures Sound(Closed(w, op))
    {
      ClosedSound(w, op);
    }
    forall s
      ensures Sound(Quoted(s))
    {
      QuotedSound(s);
    }
    forall op | IsOperator(op)
      ensures Sound(Twice(op))
    {
      TwiceSound(op);
    }
    StderrSound();
    MktempSound();
    IntoSound();
    TempSound();
    forall a, b
      ensures Sound(Pair(a, b))
    {
      PairSound(a, b);
    }
  }

  lemma IfLinkedSound(path: Path)
    ensures AllSound(IfLinked(path))
  {
    hide Sound, Plain;
    PiecesSound();
    TestWords();
  }

  lemma HeadSound(path: Path)
    ensures AllSound(SwapHead(path))
  {
    hide Sound, Plain, IfLinked;
    PiecesSound();
    ExitWords();
    IfLinkedSound(path);
    BothSound([Plainly("umask"), Closed("077", ';')], IfLinked(path));
  }

  lemma LeaveSound()
    ensures AllSound(Leave())
  {
    hide Sound, Plain, TO_STDERR;
    PiecesSound();
    TestWords();
    ExitWords();
  }

  lemma LinkedParentSound(dir: Path)
    ensures AllSound(LinkedParent(dir))
  {
    hide Sound, Leave, IfLinked, AllSound, Quoted;
    LeaveSound();
    IfLinkedSound(dir);
    var message := [Quoted("refusing: parent directory is a symlink")];
    QuotedSound("refusing: parent directory is a symlink");
    OneSound(message[0]);
    BothSound(message, Leave());
    BothSound(IfLinked(dir), message + Leave());
    BothSound(Leave(), IfLinked(dir) + (message + Leave()));
  }

  lemma MakeDirSound(dir: Path)
    ensures AllSound(MakeDir(dir))
  {
    hide Sound, Plain;
    PiecesSound();
    TestWords();
    ExitWords();
    FileWords();
  }

  lemma FillSound(dir: Path, mode: string)
    ensures AllSound(Fill(dir, mode))
  {
    hide Sound, Plain, MKTEMP, INTO, TEMP, LAST_TEMP, Suffixed;
    PiecesSound();
    ExitWords();
    FileWords();
    SuffixIsPlain();
    SuffixedSound(dir, "/.sshkeytx.XXXXXXXX", ')');
  }

  lemma ChownSound(uid: string, gid: string)
    ensures AllSound(Chown(uid, gid))
  {
    hide Sound, Plain, TEMP, Pair;
    PiecesSound();
    FileWords();
  }

  lemma RenameSound(path: Path)
    ensures AllSound(Rename(path))
  {
    hide Sound, Plain, TEMP, LAST_TEMP;
    PiecesSound();
    ExitWords();
    RenameWords();
  }

  lemma BothSound(a: seq<Piece>, b: seq<Piece>)
    requires AllSound(a) && AllSound(b)
    ensures AllSound(a + b)
  {
    hide Sound;
  }

  lemma RestSound(path: Path, o: WriteOpts)
    ensures AllSound(SwapRest(path, o)) && SwapRest(path, o) != []
  {
    var dir, mode := DirOf(path), if o.mode == "" then "600" else o.mode;
    var make := if o.mkdirFor then MakeDir(dir) else [];
    var own := if o.uid != "" && o.runAs == "" then Chown(o.uid, o.gid) else [];
    LinkedParentSound(dir);
    MakeDirSound(dir);
    FillSound(dir, mode);
    ChownSound(o.uid, o.gid);
    RenameSound(path);
    LeaveIsSomething(dir);
    hide Sound, AllSound, LinkedParent, MakeDir, Fill, Chown, Rename, DirOf;
    NoneSound();
    BothSound(LinkedParent(dir), make);
    BothSound(LinkedParent(dir) + make, Fill(dir, mode));
    BothSound(LinkedParent(dir) + make + Fill(dir, mode), own);
    BothSound(LinkedParent(dir) + make + Fill(dir, mode) + own, Rename(path));
  }

  lemma OneSound(p: Piece)
    requires Sound(p)
    ensures AllSound([p])
  {
    hide Sound;
  }

  lemma LeaveIsSomething(dir: Path)
    ensures LinkedParent(dir) != []
  {
  }

  lemma NoneSound()
    ensures AllSound([])
  {
  }

  lemma {:induction false} EscapeNothing(s: string)
    requires '\'' !in s
    ensures Escape(s) == s
  {
    if s != "" {
      EscapeNothing(s[1..]);
      assert s == [s[0]] + s[1..];
    }
  }

  lemma PlainMessage(path: Path)
    requires '\'' !in path
    ensures Sound(Message(path))
  {
    var text := "refusing: " + path + " is a symlink";
    EscapeNothing(text);
    QuotedSound(text);
    hide Reads, Escape;
    MessageText();
    Enclosed("'", "refusing: ", path, " is a symlink");
  }

  lemma MessageText()
    ensures "'refusing: " == "'" + "refusing: " && " is a symlink'" == " is a symlink" + "'"
  {
  }

  lemma Enclosed(q: string, a: string, b: string, c: string)
    ensures (q + a) + b + (c + q) == q + (a + b + c) + q
  {
  }

  lemma Regrouped(q: string, r: string, a: string, b: string, e: string, more: string)
    ensures (q + r) + (a + q + b) + (e + q) + " " + more == (q + (r + a) + q) + (b + (e + q) + " " + more)
  {
  }

  /** Where the path's first quote ends the message's quoting. */
  lemma MessageBreaks(a: string, b: string, more: string)
    requires '\'' !in a
    ensures var rest := b + " is a symlink'" + " " + more;
            LexWord(Message(a + "'" + b).text + " " + more) == Prefixed("refusing: " + a, LexWord(rest))
  {
    var s, rest := "refusing: " + a, b + " is a symlink'" + " " + more;
    EscapeNothing(s);
    QuoteGoesOn(s, rest);
    hide LexWord, Escape;
    MessageText();
    Regrouped("'", "refusing: ", a, b, " is a symlink", more);
  }

  lemma EndsBare(d: string)
    requires d != "" && d[|d| - 1] == 'k'
    ensures Bare(d) != ""
  {
    BareSplits(d[..|d| - 1], "k");
    assert d == d[..|d| - 1] + "k";
    assert Bare("k") == "k" by {
      assert "k"[1..] == "";
    }
  }

  lemma BlankIsBare()
    ensures Bare("'" + " ") == " "
  {
    assert ("'" + " ")[1..] == " " && " "[1..] == "";
  }

  /** How much text may have been consumed if it kept just d's characters. */
  lemma Pinned(d: string, more: string, n: nat)
    requires d != "" && d[|d| - 1] == 'k' && n <= |d + "'" + " " + more|
    requires Bare((d + "'" + " " + more)[..n]) == Bare(d)
    ensures n == |d| || n == |d| + 1
  {
    var all := d + "'" + " " + more;
    if n < |d| {
      assert all[..n] == d[..n] && d == d[..n] + d[n..];
      EndsBare(d[n..]);
      BareSplits(d[..n], d[n..]);
    } else if n >= |d| + 2 {
      assert all[..n] == d + ("'" + " ") + all[|d| + 2..n];
      BlankIsBare();
      BareSplits(d, "'" + " ");
      BareSplits(d + ("'" + " "), all[|d| + 2..n]);
    }
  }

  /** A message with a quote in the path is not read as that message, whatever follows it. */
  lemma BrokenMessage(path: Path, more: string, ts: seq<Token>)
    requires '\'' in path
    ensures !Reads(Message(path).text + " " + more, Message(path).tokens + ts)
  {
    hide Keeps, LexWord, Tokens, IndexOf;
    var i := IndexOf(path, '\'');
    FirstQuote(path, i);
    var a, b := path[..i], path[i + 1..];
    var d := b + " is a symlink";
    var rest := d + "'" + " " + more;
    MessageBreaks(a, b, more);
    assert b + " is a symlink'" + " " + more == rest;
    LexKeeps(rest, 0);
    var whole := Message(path).text + " " + more;
    if Reads(whole, Message(path).tokens + ts) {
      FirstWord(whole, Message(path).tokens + ts);
      var l := LexWord(rest);
      assert "refusing: " + path + " is a symlink" == "refusing: " + a + ("'" + d);
      NotTheMessage(d, more, l);
      SamePrefixes("refusing: " + a, l.text, "'" + d);
    }
  }

  lemma FirstQuote(path: Path, i: nat)
    requires '\'' in path && i <= |path| && '\'' !in path[..i] && (i < |path| ==> path[i] == '\'')
    ensures i < |path| && path == path[..i] + "'" + path[i + 1..]
  {
    assert path[..|path|] == path;
  }

  lemma FirstWord(s: string, ts: seq<Token>)
    requires s != "" && s[0] == '\'' && Reads(s, ts) && ts != [] && ts[0].Word?
    ensures LexWord(s).Lexed? && LexWord(s).text == ts[0].text
  {
    hide LexWord;
  }

  lemma SamePrefixes(head: string, a: string, b: string)
    requires head + a == head + b
    ensures a == b
  {
    assert (head + a)[|head|..] == a && (head + b)[|head|..] == b;
  }

  /** A word read from text that goes on with a quote and a blank cannot be that text behind a quote. */
  lemma NotTheMessage(d: string, more: string, l: Lexed)
    requires d != "" && d[|d| - 1] == 'k' && l.Lexed? && Keeps(d + "'" + " " + more, l, false)
    ensures l.text != "'" + d
  {
    hide Bare, Keeps;
    var all := d + "'" + " " + more;
    KeptText(all, l);
    var n := |all| - |l.rest|;
    assert n > |d| ==> all[..n][|d|] == '\'';
    BareBehindQuote(d);
    if Bare(all[..n]) == Bare(d) {
      Pinned(d, more, n);
    }
  }

  lemma KeptText(s: string, l: Lexed)
    requires l.Lexed? && Keeps(s, l, false)
    ensures 0 <= |s| - |l.rest| && var used := s[..|s| - |l.rest|];
            Bare(l.text) == Bare(used) && |l.text| <= |used| && (|l.text| == |used| ==> '\'' !in used)
  {
    hide Bare;
  }

  lemma BareBehindQuote(d: string)
    ensures Bare("'" + d) == Bare(d)
  {
    assert ("'" + d)[1..] == d;
    assert "" + Bare(d) == Bare(d);
  }

  lemma LineCons(p: Piece, ps: seq<Piece>)
    requires ps != []
    ensures Line([p] + ps) == p.text + " " + Line(ps) && Meant([p] + ps) == p.tokens + Meant(ps)
  {
    assert ([p] + ps)[1..] == ps;
  }

  /** The script is read as it is meant if and only if the path holds no single quote. */
  lemma SwapScriptReads(path: Path, o: WriteOpts)
    ensures Reads(SwapScript(path, o), SwapTokens(path, o)) <==> '\'' !in path
  {
    var rest := SwapRest(path, o);
    HeadSound(path);
    RestSound(path, o);
    SwapMeant(path, o);
    hide AllSound, SwapHead, SwapRest, Message, Tokens, Quote, SwapTokens;
    LineGoesOn(SwapHead(path), [Message(path)] + rest);
    LineCons(Message(path), rest);
    LineReads(rest);
    if '\'' !in path {
      PlainMessage(path);
      hide Line, Meant;
      TokensCompose(Message(path).text, Line(rest), Message(path).tokens, Meant(rest));
    } else {
      BrokenMessage(path, Line(rest), Meant(rest));
      if Reads(SwapScript(path, o), SwapTokens(path, o)) {
        SameAfter(Meant(SwapHead(path)), Tokens(Line([Message(path)] + rest)), Message(path).tokens + Meant(rest));
      }
    }
  }

  lemma SameAfter(a: seq<Token>, more: Option<seq<Token>>, b: seq<Token>)
    requires After(a, more) == Some(a + b)
    ensures more == Some(b)
  {
    assert (a + more.value)[|a|..] == more.value && (a + b)[|a|..] == b;
  }

  lemma MessageEnds(a: string, b: string, more: string)
    requires '\'' !in a && b != "" && Delimited(b)
    ensures Tokens(Message(a + "'" + b).text + " " + more)
         == After([Word("refusing: " + a)], Tokens(b + " is a symlink'" + " " + more))
  {
    var text, tail := Message(a + "'" + b).text + " " + more, b + " is a symlink'" + " " + more;
    MessageBreaks(a, b, more);
    assert tail[0] == b[0] && text[0] == '\'';
    assert LexWord(tail) == Lexed("", tail);
    hide LexWord, Message;
    assert "refusing: " + a + "" == "refusing: " + a;
    assert Tokens(text) == Before(Word("refusing: " + a), Tokens(tail));
    BeforeIsAfter(Word("refusing: " + a), Tokens(tail));
  }

  /** At a quote that a delimiter follows, the message ends, and the rest of the path is read as shell text. */
  lemma QuoteEndsMessage(a: string, b: string, o: WriteOpts)
    requires '\'' !in a && b != "" && Delimited(b)
    ensures var path := a + "'" + b;
            && Tokens(SwapScript(path, o))
               == After(Meant(SwapHead(path)) + [Word("refusing: " + a)],
                        Tokens(b + " is a symlink'" + " " + Line(SwapRest(path, o))))
  {
    hide Tokens, SwapHead, SwapRest, Sound, AllSound, Message, Delimited;
    var path := a + "'" + b;
    var rest := SwapRest(path, o);
    HeadSound(path);
    RestSound(path, o);
    LineGoesOn(SwapHead(path), [Message(path)] + rest);
    LineCons(Message(path), rest);
    hide Line, Meant;
    MessageEnds(a, b, Line(rest));
    AfterBoth(Meant(SwapHead(path)), [Word("refusing: " + a)], Tokens(b + " is a symlink'" + " " + Line(rest)));
  }

  lemma BeforeIsAfter(t: Token, more: Option<seq<Token>>)
    ensures Before(t, more) == After([t], more)
  {
  }

  // ------------------------------------------------- the whole way to the host

  /** A shell is started here with a script of its own. */
  predicate StartsShell(ts: seq<Token>, i: nat) {
    i + 2 < |ts| && ts[i] == Word("/bin/sh") && ts[i + 1] == Word("-c")
  }

  /** A shell is started before the else and after it, and the word after each -c is this script. */
  ghost predicate GivenInBothBranches(ts: seq<Token>, script: string) {
    && (forall i: nat | StartsShell(ts, i) :: ts[i + 2] == Word(script))
    && exists i: nat, e: nat, j: nat ::
         StartsShell(ts, i) && i < e < j < |ts| && ts[e] == Word("else") && StartsShell(ts, j)
  }

  lemma BothBranches(script: string, user: string)
    ensures GivenInBothBranches(DroppedTokens(script, user), script)
  {
    var ts := DroppedTokens(script, user);
    assert StartsShell(ts, 17) && ts[21] == Word("else") && StartsShell(ts, 26);
  }

  /** From the client to the innermost shell: one argument of sh -c, one argument of the user's shell in either branch
      of the privilege drop, and there exactly the words that were meant, if and only if the path holds no quote. */
  lemma SwapCommandReads(path: Path, o: WriteOpts)
    requires o.runAs == "" || ValidUsername(o.runAs)
    ensures var script := SwapScript(path, o);
            var sent := DropPrivileges(script, o.runAs);
            && Reads(RunCommand(sent), [Word("sh"), Word("-c"), Word(sent)])
            && (o.runAs == "" ==> sent == script)
            && (o.runAs != "" ==> Reads(sent, DroppedTokens(script, o.runAs)))
            && GivenInBothBranches(DroppedTokens(script, o.runAs), script)
            && (Reads(script, SwapTokens(path, o)) <==> '\'' !in path)
  {
    hide Reads, SwapScript, SwapTokens, Quote, DroppedTokens, RunCommand;
    var script := SwapScript(path, o);
    RunCommandTokens(DropPrivileges(script, o.runAs));
    SwapScriptReads(path, o);
    BothBranches(script, o.runAs);
    if o.runAs != "" {
      DropPrivilegesTokens(script, o.runAs);
    }
  }

  function RemovePieces(path: Path): seq<Piece> {
    [Plainly("rm"), Plainly("-f"), Quoted(path)]
  }

  function StorePieces(path: Path): seq<Piece> {
    [Plainly("umask"), Closed("077", ';'), Plainly("cat"), INTO, Quoted(path)]
  }

  function AppendPieces(path: Path): seq<Piece> {
    [Plainly("umask"), Closed("077", ';'), Plainly("cat"), Twice('>'), Quoted(path)]
  }

  lemma FileMeant(path: Path)
    ensures Meant(RemovePieces(path)) == [Word("rm"), Word("-f"), Word(path)]
    ensures Meant(StorePieces(path))
         == [Word("umask"), Word("077"), Operator(';'), Word("cat"), Operator('>'), Word(path)]
    ensures Meant(AppendPieces(path))
         == [Word("umask"), Word("077"), Operator(';'), Word("cat"), Operator('>'), Operator('>'), Word(path)]
  {
    hide Meant, Quote;
    var umask := [Plainly("umask"), Closed("077", ';')];
    Meant4(Plainly("rm"), Plainly("-f"), Quoted(path), Quoted(path));
    Meant2(umask[0], umask[1]);
    Meant4(Plainly("cat"), INTO, Quoted(path), Quoted(path));
    Meant4(Plainly("cat"), Twice('>'), Quoted(path), Quoted(path));
    MeantSplits(umask, [Plainly("cat"), INTO, Quoted(path)]);
    MeantSplits(umask, [Plainly("cat"), Twice('>'), Quoted(path)]);
    assert StorePieces(path) == umask + [Plainly("cat"), INTO, Quoted(path)];
    assert AppendPieces(path) == umask + [Plainly("cat"), Twice('>'), Quoted(path)];
  }

  /** The other scripts that name a path quote it and nothing else: they are read as meant for every path. */
  lemma FileScriptsRead(path: Path)
    ensures Reads(Line(RemovePieces(path)), [Word("rm"), Word("-f"), Word(path)])
    ensures Reads(Line(StorePieces(path)),
                  [Word("umask"), Word("077"), Operator(';'), Word("cat"), Operator('>'), Word(path)])
    ensures Reads(Line(AppendPieces(path)),
                  [Word("umask"), Word("077"), Operator(';'), Word("cat"), Operator('>'), Operator('>'), Word(path)])
  {
    hide Sound, Plain, Reads, INTO;
    PiecesSound();
    ExitWords();
    FileWords();
    RenameWords();
    LineReads(RemovePieces(path));
    LineReads(StorePieces(path));
    LineReads(AppendPieces(path));
    FileMeant(path);
  }
}
