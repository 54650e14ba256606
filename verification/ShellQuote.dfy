/**
 Quoting for shell command lines (internal/acmesh/acmesh.go, internal/api/helpers.go,
 internal/sbctl/traffic_snapshot.go), against a tokenizer written from the rules of
 POSIX.1-2017 XCU: quoting as in sections 2.2.1 to 2.2.3, words and operators as in 2.3.

 The tokenizer keeps, for each character of a word, whether it was quoted: an unquoted
 dollar sign, for one, is still due for expansion. Command substitution is outside it.

 One command is read twice: the reload command, by the panel's shell as an argument, and
 later by the shell that acme.sh starts.
 */
module ShellQuote {
  import opened Wrappers
  import opened Text

  datatype Piece = Piece(c: char, quoted: bool)

  type Word = seq<Piece>

  datatype Token = Argument(w: Word) | Operator(c: char)

  // ---------------------------------------------------------------- the tokenizer

  datatype Mode = Plain | Escape | Single | Double | DoubleEscape | Comment

  datatype State = State(mode: Mode, word: Option<Word>, done: seq<Token>)

  const START := State(Plain, None, [])

  predicate IsBlank(c: char) { c == ' ' || c == '\t' }

  predicate IsOperator(c: char) {
    c == '|' || c == '&' || c == ';' || c == '<' || c == '>' || c == '(' || c == ')' || c == '\n'
  }

  predicate IsOrdinary(c: char) {
    !IsBlank(c) && !IsOperator(c) && c != '\\' && c != '\'' && c != '"'
  }

  function So(w: Option<Word>): Word { if w.Some? then w.value else [] }

  function Put(st: State, mode: Mode, c: char, quoted: bool): State {
    State(mode, Some(So(st.word) + [Piece(c, quoted)]), st.done)
  }

  /** The word so far, if there is one, is complete. */
  function EndWord(st: State): State {
    if st.word.Some? then State(Plain, None, st.done + [Argument(st.word.value)]) else st.(mode := Plain)
  }

  function Next(st: State, c: char): State {
    match st.mode
    case Plain =>
      if c == '\\' then st.(mode := Escape)
      else if c == '\'' then State(Single, Some(So(st.word)), st.done)
      else if c == '"' then State(Double, Some(So(st.word)), st.done)
      else if IsBlank(c) then EndWord(st)
      else if IsOperator(c) then var e := EndWord(st); e.(done := e.done + [Operator(c)])
      else if c == '#' && st.word.None? then st.(mode := Comment)
      else Put(st, Plain, c, false)
    // A backslash quotes the next character; before a newline both disappear (2.2.1).
    case Escape => if c == '\n' then st.(mode := Plain) else Put(st, Plain, c, true)
    // Single quotes quote everything; none can occur between them (2.2.2).
    case Single => if c == '\'' then st.(mode := Plain) else Put(st, Single, c, true)
    // Double quotes leave the dollar sign and the backquote their meaning (2.2.3).
    case Double =>
      if c == '"' then st.(mode := Plain)
      else if c == '\\' then st.(mode := DoubleEscape)
      else Put(st, Double, c, c != '$' && c != '`')
    case DoubleEscape =>
      if c == '\n' then st.(mode := Double)
      else if c in "$`\"\\" then Put(st, Double, c, true)
      else Put(Put(st, Double, '\\', true), Double, c, true)
    case Comment => if c == '\n' then State(Plain, None, st.done + [Operator(c)]) else st
  }

  function Run(st: State, s: string): State
    decreases |s|
  {
    if s == "" then st else Run(Next(st, s[0]), s[1..])
  }

  /** The tokens of a whole command line; none if a quotation is not closed. */
  function Tokenize(s: string): Option<seq<Token>> {
    var st := Run(START, s);
    if st.mode.Plain? || st.mode.Comment? then Some(EndWord(st).done) else None
  }

  lemma {:induction false} RunJoins(st: State, a: string, b: string)
    ensures Run(st, a + b) == Run(Run(st, a), b)
    decreases |a|
  {
    if a == "" {
      assert a + b == b;
    } else {
      assert (a + b)[1..] == a[1..] + b;
      RunJoins(Next(st, a[0]), a[1..], b);
    }
  }

  // ---------------------------------------------------------------- quoting

  function ReplaceQuotes(s: string, with: string): string {
    if s == "" then ""
    else (if s[0] == '\'' then with else [s[0]]) + ReplaceQuotes(s[1..], with)
  }

  const BACKSLASHED := "'\\''"
  const DOUBLED := "'\"'\"'"

  function ShellQuote(s: string): string { "'" + ReplaceQuotes(s, BACKSLASHED) + "'" }

  function ShellQuoteApi(s: string): string { "'" + ReplaceQuotes(s, BACKSLASHED) + "'" }

  function QuoteEpochUnit(s: string): string { "'" + ReplaceQuotes(s, DOUBLED) + "'" }

  function Quoted(s: string): Word { seq(|s|, i requires 0 <= i < |s| => Piece(s[i], true)) }

  function Bare(s: string): Word { seq(|s|, i requires 0 <= i < |s| => Piece(s[i], false)) }

  /** What the program sees as its argument, once no expansion is left to do. */
  function Value(w: Word): string { seq(|w|, i requires 0 <= i < |w| => w[i].c) }

  predicate Literal(w: Word) { forall p :: p in w ==> p.quoted }

  function Inside(w: Word, done: seq<Token>): State { State(Single, Some(w), done) }

  /** Leaving the quotation, one quoted quote, and back: either way of writing it. */
  lemma EscapedQuote(w: Word, done: seq<Token>, with: string)
    requires with == BACKSLASHED || with == DOUBLED
    ensures Run(Inside(w, done), with) == Inside(w + [Piece('\'', true)], done)
  {}

  lemma {:induction false} BodyIsQuoted(w: Word, done: seq<Token>, s: string, with: string)
    requires with == BACKSLASHED || with == DOUBLED
    ensures Run(Inside(w, done), ReplaceQuotes(s, with)) == Inside(w + Quoted(s), done)
    decreases |s|
  {
    if s == "" {
      assert w + Quoted(s) == w;
    } else {
      var first := if s[0] == '\'' then with else [s[0]];
      var longer := w + [Piece(s[0], true)];
      RunJoins(Inside(w, done), first, ReplaceQuotes(s[1..], with));
      if s[0] == '\'' {
        EscapedQuote(w, done, with);
      } else {
        assert first[1..] == "";
        assert Run(Inside(w, done), first) == Run(Next(Inside(w, done), s[0]), first[1..]);
      }
      BodyIsQuoted(longer, done, s[1..], with);
      assert longer + Quoted(s[1..]) == w + Quoted(s);
    }
  }

  /** Quoted text joins the word it stands in, every character quoted. */
  lemma QuotingIsExact(word: Option<Word>, done: seq<Token>, s: string, with: string)
    requires with == BACKSLASHED || with == DOUBLED
    ensures Run(State(Plain, word, done), "'" + ReplaceQuotes(s, with) + "'") == State(Plain,
        Some(So(word) + Quoted(s)), done)
  {
    var st := State(Plain, word, done);
    var body := ReplaceQuotes(s, with);
    RunJoins(st, "'" + body, "'");
    RunJoins(st, "'", body);
    assert "'"[1..] == "";
    assert Run(st, "'") == Inside(So(word), done);
    BodyIsQuoted(So(word), done, s, with);
    var inside := Inside(So(word) + Quoted(s), done);
    assert Run(inside, "'") == Run(Next(inside, '\''), "");
  }

  lemma QuotedAlone(s: string, with: string)
    requires with == BACKSLASHED || with == DOUBLED
    ensures Tokenize("'" + ReplaceQuotes(s, with) + "'") == Some([Argument(Quoted(s))])
  {
    QuotingIsExact(None, [], s, with);
    assert So(None) + Quoted(s) == Quoted(s);
    assert [] + [Argument(Quoted(s))] == [Argument(Quoted(s))];
  }

  /**
   For every string, each of the three quoting functions makes one word whose characters
   are exactly the string's, all quoted, so that no expansion touches them.
   */
  lemma QuotedStringIsOneWord(s: string)
    ensures Tokenize(ShellQuote(s)) == Some([Argument(Quoted(s))])
    ensures Tokenize(ShellQuoteApi(s)) == Some([Argument(Quoted(s))])
    ensures Tokenize(QuoteEpochUnit(s)) == Some([Argument(Quoted(s))])
    ensures Literal(Quoted(s)) && Value(Quoted(s)) == s
  {
    QuotedAlone(s, BACKSLASHED);
    QuotedAlone(s, DOUBLED);
    assert Value(Quoted(s)) == s;
  }

  // ---------------------------------------------------------------- building command lines

  /** The line so far is exactly these arguments, the last of them possibly unfinished. */
  ghost predicate Parses(cmd: string, args: seq<Word>) {
    args != [] && exists word, done ::
      Run(START, cmd) == State(Plain, Some(word), done) && done + [Argument(word)] == Arguments(args)
  }

  function Arguments(args: seq<Word>): seq<Token> { seq(|args|, i requires 0 <= i < |args| => Argument(args[i])) }

  lemma ParsedLine(cmd: string, args: seq<Word>)
    requires Parses(cmd, args)
    ensures Tokenize(cmd) == Some(Arguments(args))
  {}

  /** Reads as one word without quotes. A number sign starts a comment only at the start of a word. */
  predicate Ordinary(s: string) { s != "" && s[0] != '#' && forall i :: 0 <= i < |s| ==> IsOrdinary(s[i]) }

  lemma {:induction false} OrdinaryIsBare(word: Option<Word>, done: seq<Token>, s: string)
    requires s != "" && (word.None? ==> s[0] != '#') && forall i :: 0 <= i < |s| ==> IsOrdinary(s[i])
    ensures Run(State(Plain, word, done), s) == State(Plain, Some(So(word) + Bare(s)), done)
    decreases |s|
  {
    var st := State(Plain, word, done);
    var longer := So(word) + [Piece(s[0], false)];
    assert Next(st, s[0]) == State(Plain, Some(longer), done);
    if s[1..] == "" {
      assert longer == So(word) + Bare(s);
      assert Run(Next(st, s[0]), s[1..]) == Next(st, s[0]);
    } else {
      OrdinaryIsBare(Some(longer), done, s[1..]);
      assert longer + Bare(s[1..]) == So(word) + Bare(s);
    }
  }

  lemma BlankEndsWord(cmd: string, args: seq<Word>) returns (st: State)
    requires Parses(cmd, args)
    ensures Run(START, cmd + " ") == st == State(Plain, None, Arguments(args))
  {
    RunJoins(START, cmd, " ");
    var before := Run(START, cmd);
    assert " "[1..] == "";
    assert Run(before, " ") == Run(Next(before, ' '), "");
    st := Next(before, ' ');
  }

  lemma Extend(cmd: string, args: seq<Word>, text: string, w: Word)
    requires Parses(cmd, args)
    requires forall done :: Run(State(Plain, None, done), text) == State(Plain, Some(w), done)
    ensures Parses(cmd + " " + text, args + [w])
  {
    var st := BlankEndsWord(cmd, args);
    RunJoins(START, cmd + " ", text);
    assert Arguments(args) + [Argument(w)] == Arguments(args + [w]);
  }

  lemma AddBare(cmd: string, args: seq<Word>, text: string)
    requires Parses(cmd, args) && Ordinary(text)
    ensures Parses(cmd + " " + text, args + [Bare(text)])
  {
    forall done
      ensures Run(State(Plain, None, done), text) == State(Plain, Some(Bare(text)), done)
    {
      OrdinaryIsBare(None, done, text);
      assert So(None) + Bare(text) == Bare(text);
    }
    Extend(cmd, args, text, Bare(text));
  }

  lemma AddQuoted(cmd: string, args: seq<Word>, s: string)
    requires Parses(cmd, args)
    ensures Parses(cmd + " " + ShellQuote(s), args + [Quoted(s)])
  {
    forall done
      ensures Run(State(Plain, None, done), ShellQuote(s)) == State(Plain, Some(Quoted(s)), done)
    {
      QuotingIsExact(None, done, s, BACKSLASHED);
      assert So(None) + Quoted(s) == Quoted(s);
    }
    Extend(cmd, args, ShellQuote(s), Quoted(s));
  }

  lemma FirstWord(text: string)
    requires Ordinary(text)
    ensures Parses(text, [Bare(text)])
  {
    OrdinaryIsBare(None, [], text);
    assert So(None) + Bare(text) == Bare(text);
    assert [] + [Argument(Bare(text))] == Arguments([Bare(text)]);
  }

  lemma AddOption(cmd: string, args: seq<Word>, flag: string, s: string)
    requires Parses(cmd, args) && Ordinary(flag)
    ensures Parses(cmd + " " + flag + " " + ShellQuote(s), args + [Bare(flag)] + [Quoted(s)])
  {
    AddBare(cmd, args, flag);
    AddQuoted(cmd + " " + flag, args + [Bare(flag)], s);
  }

  lemma AddTwo(cmd: string, args: seq<Word>, a: string, b: string)
    requires Parses(cmd, args) && Ordinary(a) && Ordinary(b)
    ensures Parses(cmd + " " + a + " " + b, args + [Bare(a)] + [Bare(b)])
  {
    AddBare(cmd, args, a);
    AddBare(cmd + " " + a, args + [Bare(a)], b);
  }

  lemma Opening(program: string, verb: string, flag: string, s: string)
    requires Ordinary(program) && Ordinary(verb) && Ordinary(flag)
    ensures Parses(program + " " + verb + " " + flag + " " + ShellQuote(s),
                   [Bare(program)] + [Bare(verb)] + [Bare(flag)] + [Quoted(s)])
  {
    FirstWord(program);
    AddBare(program, [Bare(program)], verb);
    AddOption(program + " " + verb, [Bare(program)] + [Bare(verb)], flag, s);
  }

  // ---------------------------------------------------------------- the acme.sh commands

  const ACME_BIN := "$HOME/.acme.sh/acme.sh"

  datatype Method = Http01 | Webroot | CfDns | Unknown

  datatype IssueOpts = IssueOpts(
    domain: string, how: Method, cfToken: string, webroot: string, reloadCmd: string, keyLength: string,
        preferredChain: string)

  function KeyLength(o: IssueOpts): string { TrimSpace(o.keyLength) }

  function Chain(o: IssueOpts): string { TrimSpace(o.preferredChain) }

  predicate ValidCrypto(o: IssueOpts) {
    (KeyLength(o) == "" || KeyLength(o) == "2048" || KeyLength(o) == "ec-256")
        && (Chain(o) == "" || Chain(o) == "ISRG Root X1")
  }

  function WithOption(args: seq<Word>, flag: string, v: string): seq<Word> {
    if v != "" then args + [Bare(flag)] + [Quoted(v)] else args
  }

  function WithCrypto(args: seq<Word>, o: IssueOpts): seq<Word> {
    WithOption(WithOption(args, "--keylength", KeyLength(o)), "--preferred-chain", Chain(o))
  }

  lemma CryptoFlags()
    ensures Ordinary("--keylength") && Ordinary("--preferred-chain")
  {}

  method AppendOption(cmd: string, flag: string, v: string, ghost args: seq<Word>) returns (r: string)
    requires Parses(cmd, args) && Ordinary(flag)
    ensures Parses(r, WithOption(args, flag, v))
  {
    r := cmd;
    if v != "" {
      r := cmd + " " + flag + " " + ShellQuote(v);
      AddOption(cmd, args, flag, v);
    }
  }

  /** args: what the line says so far. */
  method AppendCryptoOptions(cmd: string, o: IssueOpts, ghost args: seq<Word>) returns (r: Result<string>)
    requires Parses(cmd, args)
    ensures r.Ok? <==> ValidCrypto(o)
    ensures r.Ok? ==> Parses(r.value, WithCrypto(args, o))
  {
    if !ValidCrypto(o) {
      return Err;
    }
    CryptoFlags();
    var line := AppendOption(cmd, "--keylength", TrimSpace(o.keyLength), args);
    ghost var more := WithOption(args, "--keylength", KeyLength(o));
    line := AppendOption(line, "--preferred-chain", TrimSpace(o.preferredChain), more);
    return Ok(line);
  }

  // ---------------------------------------------------------------- issuing, installing, renewing

  predicate Wildcard(domain: string) { |domain| >= 2 && domain[..2] == "*." }

  predicate Issuable(o: IssueOpts) {
    && TrimSpace(o.domain) != "" && ValidCrypto(o)
    && match o.how
       case Http01 => !Wildcard(TrimSpace(o.domain))
       case Webroot => !Wildcard(TrimSpace(o.domain)) && TrimSpace(o.webroot) != ""
       case CfDns => TrimSpace(o.cfToken) != ""
       case Unknown => false
  }

  function IssueHead(domain: string): seq<Word> {
    [Bare(ACME_BIN)] + [Bare("--issue")] + [Bare("-d")] + [Quoted(domain)] + [Bare("--server")] + [Bare("letsencrypt")]
  }

  function WithMethod(args: seq<Word>, o: IssueOpts): seq<Word> {
    match o.how
    case Http01 => args + [Bare("--standalone")] + [Bare("--httpport")] + [Bare("80")]
    case Webroot => args + [Bare("-w")] + [Quoted(TrimSpace(o.webroot))]
    case CfDns => args + [Bare("--dns")] + [Bare("dns_cf")]
    case Unknown => args
  }

  lemma IssueFlags()
    ensures Ordinary(ACME_BIN) && Ordinary("--issue") && Ordinary("-d") && Ordinary("--server")
        && Ordinary("letsencrypt")
  {}

  lemma MethodFlags()
    ensures Ordinary("--standalone") && Ordinary("--httpport") && Ordinary("80")
    ensures Ordinary("-w") && Ordinary("--dns") && Ordinary("dns_cf")
  {}

  method IssueBase(domain: string) returns (r: string)
    ensures Parses(r, IssueHead(domain))
  {
    IssueFlags();
    r := ACME_BIN + " " + "--issue" + " " + "-d" + " " + ShellQuote(domain);
    Opening(ACME_BIN, "--issue", "-d", domain);
    AddTwo(r, [Bare(ACME_BIN)] + [Bare("--issue")] + [Bare("-d")] + [Quoted(domain)], "--server", "letsencrypt");
    r := r + " " + "--server" + " " + "letsencrypt";
  }

  method AppendMethod(cmd: string, o: IssueOpts, ghost args: seq<Word>) returns (r: string)
    requires Parses(cmd, args)
    ensures Parses(r, WithMethod(args, o))
  {
    MethodFlags();
    match o.how {
      case Http01 =>
        AddTwo(cmd, args, "--standalone", "--httpport");
        r := cmd + " " + "--standalone" + " " + "--httpport";
        AddBare(r, args + [Bare("--standalone")] + [Bare("--httpport")], "80");
        r := r + " " + "80";
      case Webroot =>
        AddOption(cmd, args, "-w", TrimSpace(o.webroot));
        r := cmd + " " + "-w" + " " + ShellQuote(TrimSpace(o.webroot));
      case CfDns =>
        AddTwo(cmd, args, "--dns", "dns_cf");
        r := cmd + " " + "--dns" + " " + "dns_cf";
      case Unknown =>
        r := cmd;
    }
  }

  /** The command line says exactly the intended arguments, whatever the fields hold. */
  method BuildIssueCmd(o: IssueOpts) returns (r: Result<string>)
    ensures r.Ok? <==> Issuable(o)
    ensures r.Ok? ==> Tokenize(r.value) == Some(Arguments(WithMethod(WithCrypto(IssueHead(TrimSpace(o.domain)), o), o)))
  {
    var domain := TrimSpace(o.domain);
    if domain == "" {
      return Err;
    }
    var line := IssueBase(domain);
    var crypto := AppendCryptoOptions(line, o, IssueHead(domain));
    if crypto.Err? {
      return Err;
    }
    match o.how {
      case Http01 =>
        if Wildcard(domain) {
          return Err;
        }
      case Webroot =>
        if Wildcard(domain) || TrimSpace(o.webroot) == "" {
          return Err;
        }
      case CfDns =>
        if TrimSpace(o.cfToken) == "" {
          return Err;
        }
      case Unknown => return Err;
    }
    var cmd := AppendMethod(crypto.value, o, WithCrypto(IssueHead(domain), o));
    ParsedLine(cmd, WithMethod(WithCrypto(IssueHead(domain), o), o));
    return Ok(cmd);
  }

  function InstallHead(domain: string, keyPath: string, certPath: string): seq<Word> {
    [Bare(ACME_BIN)] + [Bare("--install-cert")] + [Bare("-d")] + [Quoted(domain)]
    + [Bare("--key-file")] + [Quoted(keyPath)] + [Bare("--fullchain-file")] + [Quoted(certPath)]
  }

  function WithEcc(args: seq<Word>, o: IssueOpts): seq<Word> {
    if KeyLength(o) == "ec-256" then args + [Bare("--ecc")] else args
  }

  function InstallArgs(o: IssueOpts, certPath: string, keyPath: string): seq<Word> {
    WithOption(WithEcc(InstallHead(TrimSpace(o.domain), keyPath, certPath), o), "--reloadcmd", TrimSpace(o.reloadCmd))
  }

  lemma InstallFlags()
    ensures Ordinary("--install-cert") && Ordinary("--key-file") && Ordinary("--fullchain-file")
    ensures Ordinary("--ecc") && Ordinary("--reloadcmd")
  {}

  method InstallBase(domain: string, certPath: string, keyPath: string) returns (r: string)
    ensures Parses(r, InstallHead(domain, keyPath, certPath))
  {
    IssueFlags();
    InstallFlags();
    r := ACME_BIN + " " + "--install-cert" + " " + "-d" + " " + ShellQuote(domain);
    Opening(ACME_BIN, "--install-cert", "-d", domain);
    ghost var args := [Bare(ACME_BIN)] + [Bare("--install-cert")] + [Bare("-d")] + [Quoted(domain)];
    AddOption(r, args, "--key-file", keyPath);
    r := r + " " + "--key-file" + " " + ShellQuote(keyPath);
    AddOption(r, args + [Bare("--key-file")] + [Quoted(keyPath)], "--fullchain-file", certPath);
    r := r + " " + "--fullchain-file" + " " + ShellQuote(certPath);
  }

  method BuildInstallCmd(o: IssueOpts, certPath: string, keyPath: string) returns (r: string)
    ensures Tokenize(r) == Some(Arguments(InstallArgs(o, certPath, keyPath)))
  {
    InstallFlags();
    ghost var args := InstallHead(TrimSpace(o.domain), keyPath, certPath);
    var cmd := InstallBase(TrimSpace(o.domain), certPath, keyPath);
    if TrimSpace(o.keyLength) == "ec-256" {
      AddBare(cmd, args, "--ecc");
      cmd := cmd + " " + "--ecc";
    }
    r := AppendOption(cmd, "--reloadcmd", TrimSpace(o.reloadCmd), WithEcc(args, o));
    ParsedLine(r, WithOption(WithEcc(args, o), "--reloadcmd", TrimSpace(o.reloadCmd)));
  }

  lemma ReloadFlags()
    ensures Ordinary("systemctl") && Ordinary("restart")
  {}

  function ReloadCmd(unit: string): string { "systemctl" + " " + "restart" + " " + unit }

  function ReloadTokens(unit: string): seq<Token> { Arguments([Bare("systemctl")] + [Bare("restart")] + [Bare(unit)]) }

  /** How many characters stand in the words of these tokens. */
  function Size(ts: seq<Token>): nat {
    if ts == [] then 0 else Size(ts[..|ts| - 1]) + match ts[|ts| - 1] case Argument(w) => |w| case Operator(_) => 0
  }

  /** The same of a line read so far; a backslash held back within double quotes may still stand for itself. */
  function Written(st: State): nat { Size(st.done) + |So(st.word)| + if st.mode.DoubleEscape? then 1 else 0 }

  lemma SizeOfOneMore(ts: seq<Token>, t: Token)
    ensures Size(ts + [t]) == Size(ts) + match t case Argument(w) => |w| case Operator(_) => 0
  {
    assert (ts + [t])[..|ts|] == ts;
  }

  lemma EndWrites(st: State)
    ensures Size(EndWord(st).done) == Size(st.done) + |So(st.word)|
  {
    if st.word.Some? {
      SizeOfOneMore(st.done, Argument(st.word.value));
    }
  }

  lemma PlainWrites(st: State, c: char)
    requires st.mode.Plain?
    ensures Written(Next(st, c)) <= Written(st) + 1
    ensures !IsOrdinary(c) || (st.word.None? && c == '#') ==> Written(Next(st, c)) <= Written(st)
  {
    EndWrites(st);
    SizeOfOneMore(EndWord(st).done, Operator(c));
  }

  /** Each character adds at most one. */
  lemma StepWrites(st: State, c: char)
    ensures Written(Next(st, c)) <= Written(st) + 1
  {
    match st.mode
    case Plain => PlainWrites(st, c);
    case Comment => SizeOfOneMore(st.done, Operator(c));
    case DoubleEscape =>
      var w := So(st.word);
      assert Next(st, c).done == st.done && |So(Next(st, c).word)| <= |w| + 2 && Next(st, c).mode.Double?;
    case _ =>
  }

  lemma {:induction false} RunWrites(st: State, s: string)
    ensures Written(Run(st, s)) <= Written(st) + |s|
    decreases |s|
  {
    if s != "" {
      StepWrites(st, s[0]);
      RunWrites(Next(st, s[0]), s[1..]);
    }
  }

  /** Text that is no plain word writes less than its characters. */
  lemma {:induction false} SpecialWritesLess(st: State, s: string)
    requires st.mode.Plain? && s != ""
    requires (st.word.None? && s[0] == '#') || exists i :: 0 <= i < |s| && !IsOrdinary(s[i])
    ensures Written(Run(st, s)) < Written(st) + |s|
    decreases |s|
  {
    PlainWrites(st, s[0]);
    if !IsOrdinary(s[0]) || (st.word.None? && s[0] == '#') {
      RunWrites(Next(st, s[0]), s[1..]);
    } else {
      assert exists i :: 0 <= i < |s[1..]| && !IsOrdinary(s[1..][i]) by {
        var i :| 0 <= i < |s| && !IsOrdinary(s[i]);
        assert !IsOrdinary(s[1..][i - 1]);
      }
      SpecialWritesLess(Next(st, s[0]), s[1..]);
    }
  }

  lemma BeforeUnit() returns (done: seq<Token>)
    ensures forall unit ::
              Run(START, ReloadCmd(unit)) == Run(State(Plain, None, done), unit)
              && ReloadTokens(unit) == done + [Argument(Bare(unit))]
  {
    ReloadFlags();
    FirstWord("systemctl");
    AddBare("systemctl", [Bare("systemctl")], "restart");
    var head := [Bare("systemctl")] + [Bare("restart")];
    var st := BlankEndsWord("systemctl" + " " + "restart", head);
    done := st.done;
    forall unit
      ensures Run(START, ReloadCmd(unit)) == Run(State(Plain, None, done), unit)
              && ReloadTokens(unit) == done + [Argument(Bare(unit))]
    {
      RunJoins(START, "systemctl" + " " + "restart" + " ", unit);
    }
  }

  /** Nothing in the word is left to expand: no tilde in front, no parameter, substitution or pattern (2.6, 2.13). */
  predicate Settled(w: Word) {
    forall i :: 0 <= i < |w| && !w[i].quoted ==>
      w[i].c != '$' && w[i].c != '`' && w[i].c != '*' && w[i].c != '?' && w[i].c != '[' && (i == 0 ==> w[i].c != '~')
  }

  /** A shell that runs the line starts a program with exactly these arguments. */
  ghost predicate Calls(line: string, args: seq<string>) {
    exists ws :: Tokenize(line) == Some(Arguments(ws)) && SaysAll(ws, args)
  }

  predicate SaysAll(ws: seq<Word>, args: seq<string>) {
    |ws| == |args| && forall i :: 0 <= i < |ws| ==> Value(ws[i]) == args[i] && Settled(ws[i])
  }

  function Meant(unit: string): seq<string> { ["systemctl"] + ["restart"] + [unit] }

  lemma SizeOfThree(ws: seq<Word>)
    requires |ws| == 3
    ensures Size(Arguments(ws)) == |ws[0]| + |ws[1]| + |ws[2]|
  {
    var one := [Argument(ws[0])];
    assert one[..0] == [] && Size(one[..0]) == 0;
    SizeOfOneMore(one, Argument(ws[1]));
    SizeOfOneMore(one + [Argument(ws[1])], Argument(ws[2]));
    assert Arguments(ws) == one + [Argument(ws[1])] + [Argument(ws[2])];
  }

  function FullSize(unit: string): nat { |"systemctl"| + |"restart"| + |unit| }

  lemma ReloadSize(unit: string)
    ensures Size(ReloadTokens(unit)) == FullSize(unit)
  {
    SizeOfThree([Bare("systemctl")] + [Bare("restart")] + [Bare(unit)]);
  }

  lemma CallsSize(line: string, unit: string) returns (ws: seq<Word>)
    requires Calls(line, Meant(unit))
    ensures Tokenize(line) == Some(Arguments(ws)) && SaysAll(ws, Meant(unit))
    ensures |ws| == |Arguments(ws)| == 3 && Size(Arguments(ws)) == FullSize(unit)
  {
    ws :| Tokenize(line) == Some(Arguments(ws)) && SaysAll(ws, Meant(unit));
    SizeOfThree(ws);
    assert Meant(unit)[0] == "systemctl" && Meant(unit)[1] == "restart" && Meant(unit)[2] == unit;
    assert |Value(ws[0])| == |ws[0]| && |Value(ws[1])| == |ws[1]| && |Value(ws[2])| == |ws[2]|;
  }

  /** Read again, the command never says more characters than were written; fewer, if the unit is no plain word. */
  lemma ReloadWrites(unit: string, ts: seq<Token>)
    requires Tokenize(ReloadCmd(unit)) == Some(ts)
    ensures Size(ts) <= FullSize(unit) && (unit != "" && !Ordinary(unit) ==> Size(ts) < FullSize(unit))
  {
    var done := BeforeUnit();
    var st := State(Plain, None, done);
    RunWrites(st, unit);
    if unit != "" && !Ordinary(unit) {
      SpecialWritesLess(st, unit);
    }
    EndWrites(Run(st, unit));
    SizeOfOneMore(done, Argument(Bare(unit)));
    ReloadSize(unit);
  }

  lemma NoUnit()
    ensures Tokenize(ReloadCmd("")) == Some(Arguments([Bare("systemctl")] + [Bare("restart")]))
  {
    ReloadFlags();
    FirstWord("systemctl");
    AddBare("systemctl", [Bare("systemctl")], "restart");
    var st := BlankEndsWord("systemctl" + " " + "restart", [Bare("systemctl")] + [Bare("restart")]);
    assert "systemctl" + " " + "restart" + " " + "" == "systemctl" + " " + "restart" + " ";
  }

  lemma PlainReload(unit: string)
    requires Ordinary(unit)
    ensures Tokenize(ReloadCmd(unit)) == Some(ReloadTokens(unit))
  {
    ReloadFlags();
    FirstWord("systemctl");
    AddTwo("systemctl", [Bare("systemctl")], "restart", unit);
    ParsedLine(ReloadCmd(unit), [Bare("systemctl")] + [Bare("restart")] + [Bare(unit)]);
  }

  lemma BareSays(s: string)
    ensures Value(Bare(s)) == s
  {}

  lemma FixedWordsAreSettled()
    ensures Settled(Bare("systemctl")) && Settled(Bare("restart"))
  {}

  lemma PlainReloadCalls(unit: string)
    requires Ordinary(unit)
    ensures Calls(ReloadCmd(unit), Meant(unit)) <==> Settled(Bare(unit))
  {
    PlainReload(unit);
    var ws := [Bare("systemctl")] + [Bare("restart")] + [Bare(unit)];
    BareSays("systemctl");
    BareSays("restart");
    BareSays(unit);
    FixedWordsAreSettled();
    if Settled(Bare(unit)) {
      assert SaysAll(ws, Meant(unit));
    }
    if Calls(ReloadCmd(unit), Meant(unit)) {
      var other := CallsSize(ReloadCmd(unit), unit);
      assert Arguments(other)[2] == Arguments(ws)[2];
    }
  }

  /**
   The unit stands there unquoted. The shell that runs the command restarts exactly that unit
   if and only if its name is a plain word in which nothing is left to expand.
   */
  lemma ReloadCallsIff(unit: string)
    ensures Calls(ReloadCmd(unit), Meant(unit)) <==> Ordinary(unit) && Settled(Bare(unit))
  {
    if Ordinary(unit) {
      PlainReloadCalls(unit);
    } else if Calls(ReloadCmd(unit), Meant(unit)) {
      var ws := CallsSize(ReloadCmd(unit), unit);
      ReloadWrites(unit, Arguments(ws));
      if unit == "" {
        NoUnit();
      }
    }
  }

  lemma {:induction false} TrimOnlyRight(s: string, unit: string)
    requires s != "" && !IsSpace(s[|s| - 1])
    ensures TrimRight(s + unit) == s + TrimRight(unit)
    decreases |unit|
  {
    if unit == "" {
      assert s + unit == s;
    } else {
      assert (s + unit)[..|s + unit| - 1] == s + unit[..|unit| - 1];
      if IsSpace(unit[|unit| - 1]) {
        TrimOnlyRight(s, unit[..|unit| - 1]);
      }
    }
  }

  lemma {:induction false} TrimShortens(s: string)
    ensures |TrimRight(s)| <= |s|
    ensures if s == "" || !IsSpace(s[|s| - 1]) then TrimRight(s) == s else |TrimRight(s)| < |s|
  {
    if s != "" && IsSpace(s[|s| - 1]) {
      TrimShortens(s[..|s| - 1]);
    }
  }

  lemma NothingLeft(s: string)
    requires s != "" && !IsSpace(s[0])
    ensures TrimSpace(s) == TrimRight(s)
  {}

  lemma TrimBehind(head: string, unit: string)
    requires Trimmed(head)
    ensures TrimSpace(head + (" " + unit)) == head + if TrimRight(unit) == "" then "" else " " + TrimRight(unit)
  {
    TrimOnlyRight(head, " " + unit);
    TrimBlankRight(unit);
    NothingLeft(head + (" " + unit));
  }

  lemma OneBlank(a: string, b: string)
    ensures a + (" " + b) == a + " " + b && a + "" == a
  {}

  lemma TrimmedLine(head: string, unit: string)
    requires Trimmed(head)
    ensures TrimSpace(head + " " + unit) == if TrimRight(unit) == "" then head else head + " " + TrimRight(unit)
  {
    TrimBehind(head, unit);
    OneBlank(head, unit);
    OneBlank(head, TrimRight(unit));
  }

  lemma HeadIsTrimmed()
    ensures Trimmed("systemctl" + " " + "restart")
  {
    var head := "systemctl" + " " + "restart";
    assert head[0] == 's' && head[|head| - 1] == 't';
  }

  lemma {:induction false} TrimBlankRight(unit: string)
    ensures TrimRight(" " + unit) == if TrimRight(unit) == "" then "" else " " + TrimRight(unit)
  {
    if unit == "" {
      assert (" " + unit)[..0] == "";
      assert TrimRight("") == "";
    } else {
      assert (" " + unit)[..|unit|] == " " + unit[..|unit| - 1];
      if IsSpace(unit[|unit| - 1]) {
        TrimBlankRight(unit[..|unit| - 1]);
      }
    }
  }

  lemma TrimmedReloadIff(unit: string)
    ensures TrimSpace(ReloadCmd(unit)) != ""
    ensures Calls(TrimSpace(ReloadCmd(unit)), Meant(unit)) <==>
            Ordinary(unit) && Settled(Bare(unit)) && !IsSpace(unit[|unit| - 1])
  {
    HeadIsTrimmed();
    TrimmedLine("systemctl" + " " + "restart", unit);
    TrimShortens(unit);
    if TrimRight(unit) == "" {
      FirstTwo();
      if Calls(TrimSpace(ReloadCmd(unit)), Meant(unit)) {
        var ws := CallsSize(TrimSpace(ReloadCmd(unit)), unit);
      }
    } else if TrimRight(unit) == unit {
      ReloadCallsIff(unit);
    } else if Calls(TrimSpace(ReloadCmd(unit)), Meant(unit)) {
      var ws := CallsSize(TrimSpace(ReloadCmd(unit)), unit);
      ReloadWrites(TrimRight(unit), Arguments(ws));
    }
  }

  /**
   With the trimming: the last argument of the install command, when acme.sh has it run,
   restarts exactly the unit if and only if, in addition, its name does not end in white space.
   */
  lemma InstalledReloadIff(o: IssueOpts, certPath: string, keyPath: string, unit: string)
    requires o.reloadCmd == ReloadCmd(unit)
    ensures var args := InstallArgs(o, certPath, keyPath);
            && |args| > 0 && Literal(args[|args| - 1])
            && (Calls(Value(args[|args| - 1]), Meant(unit)) <==>
                Ordinary(unit) && Settled(Bare(unit)) && !IsSpace(unit[|unit| - 1]))
  {
    TrimmedReloadIff(unit);
    QuotedStringIsOneWord(TrimSpace(o.reloadCmd));
    LastOption(WithEcc(InstallHead(TrimSpace(o.domain), keyPath, certPath), o), "--reloadcmd", TrimSpace(o.reloadCmd));
  }

  lemma LastOption(args: seq<Word>, flag: string, v: string)
    requires v != ""
    ensures var more := WithOption(args, flag, v); |more| > 0 && more[|more| - 1] == Quoted(v)
  {}

  lemma FirstTwo()
    ensures Tokenize("systemctl" + " " + "restart") == Some(Arguments([Bare("systemctl")] + [Bare("restart")]))
  {
    ReloadFlags();
    FirstWord("systemctl");
    AddBare("systemctl", [Bare("systemctl")], "restart");
    ParsedLine("systemctl" + " " + "restart", [Bare("systemctl")] + [Bare("restart")]);
  }

  /** A blank in the unit's name, for one, makes two words of it. */
  lemma ReloadCommandSplits(a: string, b: string)
    requires Ordinary(a) && Ordinary(b)
    ensures Tokenize(ReloadCmd(a + " " + b)) ==
            Some(Arguments([Bare("systemctl")] + [Bare("restart")] + [Bare(a)] + [Bare(b)]))
  {
    ReloadFlags();
    FirstWord("systemctl");
    AddTwo("systemctl", [Bare("systemctl")], "restart", a);
    AddBare(ReloadCmd(a), [Bare("systemctl")] + [Bare("restart")] + [Bare(a)], b);
    ParsedLine(ReloadCmd(a) + " " + b, [Bare("systemctl")] + [Bare("restart")] + [Bare(a)] + [Bare(b)]);
    assert ReloadCmd(a + " " + b) == ReloadCmd(a) + " " + b;
  }

  // ---------------------------------------------------------------- a secret put in front

  function Shift(pre: seq<Token>, st: State): State { st.(done := pre + st.done) }

  lemma {:induction false} RunShifts(pre: seq<Token>, st: State, s: string)
    ensures Run(Shift(pre, st), s) == Shift(pre, Run(st, s))
    decreases |s|
  {
    if s != "" {
      assert Next(Shift(pre, st), s[0]) == Shift(pre, Next(st, s[0])) by {
        NextShifts(pre, st, s[0]);
      }
      RunShifts(pre, Next(st, s[0]), s[1..]);
    }
  }

  lemma NextShifts(pre: seq<Token>, st: State, c: char)
    ensures Next(Shift(pre, st), c) == Shift(pre, Next(st, c))
  {}

  /** Without a runner that can set the environment, the token travels in front of the command. */
  function Export(key: string, v: string): string { "export" + " " + key + "=" + ShellQuote(v) + ";" + " " }

  function ExportWord(key: string, v: string): Word { Bare(key) + Bare("=") + Quoted(v) }

  function ExportTokens(key: string, v: string): seq<Token> {
    [Argument(Bare("export"))] + [Argument(ExportWord(key, v))] + [Operator(';')]
  }

  lemma OneStep(st: State, c: char)
    ensures Run(st, [c]) == Next(st, c)
  {}

  lemma ExportPrefix(key: string, v: string)
    requires Ordinary(key) && Ordinary("export") && Ordinary("=")
    ensures Run(START, Export(key, v)) == State(Plain, None, ExportTokens(key, v))
  {
    FirstWord("export");
    var st := BlankEndsWord("export", [Bare("export")]);
    var done := [Argument(Bare("export"))];
    assert Arguments([Bare("export")]) == done;
    OrdinaryIsBare(None, done, key);
    assert So(None) + Bare(key) == Bare(key);
    RunJoins(START, "export" + " ", key);
    OrdinaryIsBare(Some(Bare(key)), done, "=");
    RunJoins(START, "export" + " " + key, "=");
    QuotingIsExact(Some(Bare(key) + Bare("=")), done, v, BACKSLASHED);
    RunJoins(START, "export" + " " + key + "=", ShellQuote(v));
    var at := State(Plain, Some(ExportWord(key, v)), done);
    RunJoins(START, "export" + " " + key + "=" + ShellQuote(v), ";");
    OneStep(at, ';');
    RunJoins(START, "export" + " " + key + "=" + ShellQuote(v) + ";", " ");
    OneStep(Next(at, ';'), ' ');
  }

  lemma EndShifts(pre: seq<Token>, st: State)
    ensures EndWord(Shift(pre, st)).done == pre + EndWord(st).done
  {}

  /** Whatever the token holds, it is the value of one assignment, and the command behind it is unchanged. */
  lemma ExportLeavesCommand(key: string, v: string, cmd: string)
    requires Ordinary(key) && Tokenize(cmd).Some?
    ensures Tokenize(Export(key, v) + cmd) == Some(ExportTokens(key, v) + Tokenize(cmd).value)
  {
    assert Ordinary("export") && Ordinary("=");
    ExportPrefix(key, v);
    var pre := ExportTokens(key, v);
    RunJoins(START, Export(key, v), cmd);
    assert Shift(pre, START) == State(Plain, None, pre);
    RunShifts(pre, START, cmd);
    EndShifts(pre, Run(START, cmd));
  }
}
