/**
 * The parser of user/sh.c: gettoken, peek, parsecmd and the grammar functions, and nulterminate.
 *
 * `Lex` and the functions PLine, PPipe, PExec and PBlock say what a command line means; the methods
 * work on the characters, with positions into the line.
 */
module Shell {

  datatype Option<T> = None | Some(value: T)
  datatype Result<T> = Ok(value: T) | Err(error: Error)
  datatype Error = MissingFile | MissingParen | BadToken | TooManyArgs | Leftovers

  const NUL: char := '\0'
  const WHITESPACE: string := " \t\r\n\U{000B}"
  const SYMBOLS: string := "<|>&;()"
  const MAXARGS: nat := 10

  predicate White(c: char) {
    c in WHITESPACE
  }

  predicate Symbol(c: char) {
    c in SYMBOLS
  }

  predicate WordChar(c: char) {
    !White(c) && !Symbol(c) && c != NUL
  }

  predicate CString(s: string) {
    NUL !in s
  }

  // ---------------------------------------------------------------- tokens

  datatype Token = Sym(c: char) | Append | Word(w: string)

  /** s without leading whitespace. */
  function Skip(s: string): (r: string)
    ensures |r| <= |s| && (r == "" || !White(r[0]))
  {
    if s != "" && White(s[0]) then Skip(s[1..]) else s
  }

  /** How many word characters s starts with. */
  function WordLen(s: string): (n: nat)
    ensures n <= |s| && (forall k :: 0 <= k < n ==> WordChar(s[k])) && (n < |s| ==> !WordChar(s[n]))
  {
    if s != "" && WordChar(s[0]) then 1 + WordLen(s[1..]) else 0
  }

  /** How long the token is that s starts with. */
  function TokenLen(s: string): (n: nat)
    requires s != "" && !White(s[0]) && CString(s)
    ensures 0 < n <= |s|
  {
    if s[0] == '>' then (if |s| > 1 && s[1] == '>' then 2 else 1)
    else if Symbol(s[0]) then 1
    else WordLen(s)
  }

  function TokenOf(s: string): Token
    requires s != "" && !White(s[0]) && CString(s)
  {
    if s[0] == '>' && TokenLen(s) == 2 then Append
    else if Symbol(s[0]) then Sym(s[0])
    else Word(s[..WordLen(s)])
  }

  lemma {:induction false} SkipSuffix(s: string)
    ensures exists k :: 0 <= k <= |s| && Skip(s) == s[k..]
  {
    if s != "" && White(s[0]) {
      SkipSuffix(s[1..]);
      var k :| 0 <= k <= |s[1..]| && Skip(s[1..]) == s[1..][k..];
      assert s[1..][k..] == s[k + 1..];
    } else {
      assert s[0..] == s;
    }
  }

  lemma {:induction false} SkipClean(s: string)
    requires CString(s)
    ensures CString(Skip(s))
  {
    SkipSuffix(s);
  }

  /** The tokens of a line. */
  function Lex(s: string): seq<Token>
    requires CString(s)
    decreases |s|
  {
    SkipClean(s);
    var u := Skip(s);
    if u == "" then [] else [TokenOf(u)] + Lex(u[TokenLen(u)..])
  }

  // ---------------------------------------------------------------- trees

  datatype Kind = In | Out | App        // <, > and >>

  datatype Tree =
    | Exec(args: seq<string>)
    | Redir(cmd: Tree, file: string, kind: Kind)
    | Pipe(left: Tree, right: Tree)
    | List(left: Tree, right: Tree)
    | Back(cmd: Tree)

  datatype Redirection = Redirection(file: string, kind: Kind)

  function Wrap(t: Tree, rs: seq<Redirection>): Tree {
    if rs == [] then t else Redir(Wrap(t, rs[..|rs| - 1]), rs[|rs| - 1].file, rs[|rs| - 1].kind)
  }

  datatype Parsed = Parsed(tree: Tree, rest: seq<Token>)
  datatype Args = Args(args: seq<string>, redirs: seq<Redirection>, rest: seq<Token>)

  predicate Starts(ts: seq<Token>, cs: string) {
    ts != [] && match ts[0] case Sym(c) => c in cs case Append => '>' in cs case Word(w) => w != "" && w[0] in cs
  }

  function KindOf(t: Token): Kind {
    if t == Append then App else if t == Sym('<') then In else Out
  }

  /** parseredirs */
  function PRedirs(rs: seq<Redirection>, ts: seq<Token>): (r: Result<Args>)
    ensures r.Ok? ==> |r.value.rest| <= |ts|
    decreases |ts|
  {
    if Starts(ts, "<>") && !ts[0].Word? then
      if |ts| > 1 && ts[1].Word? then PRedirs(rs + [Redirection(ts[1].w, KindOf(ts[0]))], ts[2..]) else Err(MissingFile)
    else Ok(Args([], rs, ts))
  }

  /** parseexec's loop */
  function PArgs(args: seq<string>, rs: seq<Redirection>, ts: seq<Token>): (r: Result<Args>)
    ensures r.Ok? ==> |r.value.rest| <= |ts|
    decreases |ts|
  {
    if ts == [] || (Starts(ts, "|)&;") && !ts[0].Word?) then Ok(Args(args, rs, ts))
    else if !ts[0].Word? then Err(BadToken)
    else if |args| + 1 >= MAXARGS then Err(TooManyArgs)
    else
      match PRedirs(rs, ts[1..])
      case Err(e) => Err(e)
      case Ok(a) => PArgs(args + [ts[0].w], a.redirs, a.rest)
  }

  function PExec(ts: seq<Token>): (r: Result<Parsed>)
    ensures r.Ok? ==> |r.value.rest| <= |ts|
    decreases |ts|, 1
  {
    if ts != [] && ts[0] == Sym('(') then PBlock(ts)
    else
      match PRedirs([], ts)
      case Err(e) => Err(e)
      case Ok(a) =>
        match PArgs([], a.redirs, a.rest)
        case Err(e) => Err(e)
        case Ok(b) => Ok(Parsed(Wrap(Exec(b.args), b.redirs), b.rest))
  }

  function PBlock(ts: seq<Token>): (r: Result<Parsed>)
    requires ts != []
    ensures r.Ok? ==> |r.value.rest| <= |ts|
    decreases |ts|, 0
  {
    match PLine(ts[1..])
    case Err(e) => Err(e)
    case Ok(p) =>
      if p.rest == [] || p.rest[0] != Sym(')') then Err(MissingParen)
      else
        match PRedirs([], p.rest[1..])
        case Err(e) => Err(e)
        case Ok(a) => Ok(Parsed(Wrap(p.tree, a.redirs), a.rest))
  }

  function PPipe(ts: seq<Token>): (r: Result<Parsed>)
    ensures r.Ok? ==> |r.value.rest| <= |ts|
    decreases |ts|, 2
  {
    match PExec(ts)
    case Err(e) => Err(e)
    case Ok(p) =>
      if p.rest != [] && p.rest[0] == Sym('|') then
        match PPipe(p.rest[1..])
        case Err(e) => Err(e)
        case Ok(q) => Ok(Parsed(Pipe(p.tree, q.tree), q.rest))
      else Ok(p)
  }

  function PBacks(t: Tree, ts: seq<Token>): (r: Parsed)
    ensures |r.rest| <= |ts|
    decreases |ts|
  {
    if ts != [] && ts[0] == Sym('&') then PBacks(Back(t), ts[1..]) else Parsed(t, ts)
  }

  function PLine(ts: seq<Token>): (r: Result<Parsed>)
    ensures r.Ok? ==> |r.value.rest| <= |ts|
    decreases |ts|, 3
  {
    match PPipe(ts)
    case Err(e) => Err(e)
    case Ok(p) =>
      var q := PBacks(p.tree, p.rest);
      if q.rest != [] && q.rest[0] == Sym(';') then
        match PLine(q.rest[1..])
        case Err(e) => Err(e)
        case Ok(l) => Ok(Parsed(List(q.tree, l.tree), l.rest))
      else Ok(q)
  }

  /** parsecmd */
  function PCmd(ts: seq<Token>): Result<Tree> {
    match PLine(ts)
    case Err(e) => Err(e)
    case Ok(p) => if p.rest == [] then Ok(p.tree) else Err(Leftovers)
  }

  // ---------------------------------------------------------------- printing

  predicate WordOk(w: string) {
    w != "" && forall k :: 0 <= k < |w| ==> WordChar(w[k])
  }

  /** The trees that the parser can build. */
  predicate TreeOk(t: Tree) {
    match t
    case Exec(args) => |args| < MAXARGS && forall k :: 0 <= k < |args| ==> WordOk(args[k])
    case Redir(c, f, _) => WordOk(f) && TreeOk(c)
    case Pipe(l, r) => TreeOk(l) && TreeOk(r)
    case List(l, r) => TreeOk(l) && TreeOk(r)
    case Back(c) => TreeOk(c)
  }

  function Words(args: seq<string>): seq<Token> {
    if args == [] then [] else [Word(args[0])] + Words(args[1..])
  }

  function RedirToken(k: Kind): Token {
    match k case In => Sym('<') case Out => Sym('>') case App => Append
  }

  /** A tree as tokens: as a line, an operand of ; before any &, an operand of |, a simple command.  Parentheses
      go round what does not fit. */
  function PrintLine(t: Tree): seq<Token>
    decreases t, 3
  {
    if t.List? then PrintBack(t.left) + [Sym(';')] + PrintLine(t.right) else PrintBack(t)
  }

  function PrintBack(t: Tree): seq<Token>
    decreases t, 2
  {
    if t.Back? then PrintBack(t.cmd) + [Sym('&')] else PrintPipe(t)
  }

  function PrintPipe(t: Tree): seq<Token>
    decreases t, 1
  {
    if t.Pipe? then PrintExec(t.left) + [Sym('|')] + PrintPipe(t.right) else PrintExec(t)
  }

  function PrintExec(t: Tree): seq<Token>
    decreases t, 0
  {
    match t
    case Exec(args) => Words(args)
    case Redir(c, f, k) => PrintExec(c) + [RedirToken(k), Word(f)]
    case Pipe(l, r) => [Sym('(')] + (PrintExec(l) + [Sym('|')] + PrintPipe(r)) + [Sym(')')]
    case List(l, r) => [Sym('(')] + (PrintBack(l) + [Sym(';')] + PrintLine(r)) + [Sym(')')]
    case Back(c) => [Sym('(')] + (PrintBack(c) + [Sym('&')]) + [Sym(')')]
  }

  function Text(t: Token): string {
    match t case Sym(c) => [c] case Append => ">>" case Word(w) => w
  }

  function Render(ts: seq<Token>): string {
    if ts == [] then "" else Text(ts[0]) + " " + Render(ts[1..])
  }

  // ---------------------------------------------------------------- parsing what was printed, token by token

  /** The rest of the line is empty or starts with one of these. */
  predicate Follow(ts: seq<Token>, cs: string) {
    ts == [] || (ts[0].Sym? && ts[0].c in cs)
  }

  function RedirTokens(rs: seq<Redirection>): seq<Token> {
    if rs == [] then [] else [RedirToken(rs[0].kind), Word(rs[0].file)] + RedirTokens(rs[1..])
  }

  lemma {:induction false} WrapFirst(t: Tree, r: Redirection, rs: seq<Redirection>)
    ensures Wrap(t, [r] + rs) == Wrap(Redir(t, r.file, r.kind), rs)
  {
    if rs == [] {
      assert [r] + rs == [r];
      assert Wrap(t, [r][..0]) == t;
    } else {
      var all := [r] + rs;
      assert all[..|all| - 1] == [r] + rs[..|rs| - 1];
      WrapFirst(t, r, rs[..|rs| - 1]);
    }
  }

  lemma {:induction false} RedirsPrinted(before: seq<Redirection>, rs: seq<Redirection>, rest: seq<Token>)
    requires Follow(rest, "|&;)") || (rest != [] && rest[0].Word?)
    ensures PRedirs(before, RedirTokens(rs) + rest) == Ok(Args([], before + rs, rest))
    decreases |rs|
  {
    var ts := RedirTokens(rs) + rest;
    if rs == [] {
      assert ts == rest && before + rs == before;
    } else {
      assert ts[0] == RedirToken(rs[0].kind) && ts[1] == Word(rs[0].file) && ts[2..] == RedirTokens(rs[1..]) + rest;
      assert KindOf(ts[0]) == rs[0].kind && Redirection(ts[1].w, KindOf(ts[0])) == rs[0];
      RedirsPrinted(before + [rs[0]], rs[1..], rest);
      assert before + [rs[0]] + rs[1..] == before + rs;
    }
  }

  lemma {:induction false} ArgsStep(done: seq<string>, w: string, tail: seq<Token>, a: Args)
    requires |done| + 1 < MAXARGS && PRedirs([], tail) == Ok(a)
    ensures PArgs(done, [], [Word(w)] + tail) == PArgs(done + [w], a.redirs, a.rest)
  {
    var ts := [Word(w)] + tail;
    assert ts[0] == Word(w) && ts[1..] == tail;
    hide PRedirs;
  }

  lemma {:induction false} ArgsEnd(args: seq<string>, rs: seq<Redirection>, rest: seq<Token>)
    requires Follow(rest, "|&;)")
    ensures PArgs(args, rs, rest) == Ok(Args(args, rs, rest))
  {
  }

  lemma {:induction false} WordsFirst(args: seq<string>, more: seq<Token>)
    requires args != []
    ensures Words(args) + more == [Word(args[0])] + (Words(args[1..]) + more)
  {
  }

  lemma {:induction false} ArgsPrinted(done: seq<string>, args: seq<string>, rs: seq<Redirection>, rest: seq<Token>)
    requires Follow(rest, "|&;)") && args != [] && |done| + |args| < MAXARGS
    ensures PArgs(done, [], Words(args) + (RedirTokens(rs) + rest)) == Ok(Args(done + args, rs, rest))
    decreases |args|
  {
    hide PArgs, PRedirs, RedirTokens;
    var more := RedirTokens(rs) + rest;
    var tail := Words(args[1..]) + more;
    WordsFirst(args, more);
    if |args| == 1 {
      assert tail == more;
      RedirsPrinted([], rs, rest);
      assert [] + rs == rs;
      ArgsStep(done, args[0], tail, Args([], rs, rest));
      ArgsEnd(done + [args[0]], rs, rest);
      assert args == [args[0]];
    } else {
      WordsFirst(args[1..], more);
      RedirsNone(tail);
      ArgsStep(done, args[0], tail, Args([], [], tail));
      ArgsPrinted(done + [args[0]], args[1..], rs, rest);
      assert done + [args[0]] + args[1..] == done + args;
    }
  }

  lemma {:induction false} RedirsNone(ts: seq<Token>)
    requires ts != [] && ts[0].Word?
    ensures PRedirs([], ts) == Ok(Args([], [], ts))
  {
  }

  lemma {:induction false} ExecIs(ts: seq<Token>, a: Args, b: Args)
    requires (ts == [] || ts[0] != Sym('(')) && PRedirs([], ts) == Ok(a) && PArgs([], a.redirs, a.rest) == Ok(b)
    ensures PExec(ts) == Ok(Parsed(Wrap(Exec(b.args), b.redirs), b.rest))
  {
    hide PRedirs, PArgs, PBlock;
  }

  lemma {:induction false} SimplePrinted(args: seq<string>, rs: seq<Redirection>, rest: seq<Token>)
    requires Follow(rest, "|&;)") && |args| < MAXARGS
    ensures PExec(Words(args) + (RedirTokens(rs) + rest)) == Ok(Parsed(Wrap(Exec(args), rs), rest))
  {
    var more := RedirTokens(rs) + rest;
    var ts := Words(args) + more;
    if args == [] {
      assert ts == more;
      assert ts != [] ==> ts[0] != Sym('(');
      hide PArgs, PRedirs, PExec;
      RedirsPrinted([], rs, rest);
      assert [] + rs == rs;
      ArgsEnd([], rs, rest);
      ExecIs(ts, Args([], rs, rest), Args([], rs, rest));
    } else {
      hide PArgs, PRedirs, PExec;
      WordsFirst(args, more);
      RedirsNone(ts);
      ArgsPrinted([], args, rs, rest);
      assert [] + args == args;
      ExecIs(ts, Args([], [], ts), Args(args, rs, rest));
    }
  }

  datatype Level = AtLine | AtBack | AtPipe | AtExec

  /** The order in which the four statements about one tree use each other. */
  function Rank(l: Level, t: Tree): nat {
    match t
    case List(_, _) => (match l case AtBack => 4 case AtPipe => 3 case AtExec => 2 case AtLine => 1)
    case Back(_) => (match l case AtPipe => 4 case AtExec => 3 case AtLine => 2 case AtBack => 1)
    case Pipe(_, _) => (match l case AtExec => 4 case AtLine => 3 case AtBack => 2 case AtPipe => 1)
    case _ => (match l case AtLine => 4 case AtBack => 3 case AtPipe => 2 case AtExec => 1)
  }

  lemma {:induction false} ExecPrinted(t: Tree, rs: seq<Redirection>, rest: seq<Token>)
    requires TreeOk(t) && Follow(rest, "|&;)")
    ensures PExec(PrintExec(t) + (RedirTokens(rs) + rest)) == Ok(Parsed(Wrap(t, rs), rest))
    decreases t, Rank(AtExec, t)
  {
    hide PExec, PLine, PrintLine, Wrap, RedirTokens;
    match t
    case Exec(args) => SimplePrinted(args, rs, rest);
    case Redir(c, f, k) =>
      RedirsFirst(PrintExec(c), Redirection(f, k), rs, rest);
      ExecPrinted(c, [Redirection(f, k)] + rs, rest);
      WrapFirst(c, Redirection(f, k), rs);
    case _ =>
      LinePrinted(t, [Sym(')')] + (RedirTokens(rs) + rest));
      Parenthesised(t);
      hide PrintExec;
      BlockPrinted(t, PrintLine(t), rs, rest);
  }

  lemma {:induction false} RedirsFirst(ts: seq<Token>, r: Redirection, rs: seq<Redirection>, rest: seq<Token>)
    ensures ts + [RedirToken(r.kind), Word(r.file)] + (RedirTokens(rs) + rest) == ts + (RedirTokens([r] + rs) + rest)
  {
    assert ([r] + rs)[1..] == rs;
  }

  lemma {:induction false} BlockPrinted(t: Tree, line: seq<Token>, rs: seq<Redirection>, rest: seq<Token>)
    requires Follow(rest, "|&;)")
    requires PLine(line + ([Sym(')')] + (RedirTokens(rs) + rest))) == Ok(Parsed(t,
             [Sym(')')] + (RedirTokens(rs) + rest)))
    ensures PExec([Sym('(')] + line + [Sym(')')] + (RedirTokens(rs) + rest)) == Ok(Parsed(Wrap(t, rs), rest))
  {
    var more := RedirTokens(rs) + rest;
    var after := [Sym(')')] + more;
    var ts := [Sym('(')] + line + [Sym(')')] + more;
    assert ts[0] == Sym('(') && ts[1..] == line + after && after[1..] == more;
    RedirsPrinted([], rs, rest);
    assert [] + rs == rs;
    hide PLine, PRedirs, RedirTokens, PExec;
    BlockIs(ts, Parsed(t, after), Args([], rs, rest));
  }

  lemma {:induction false} BlockIs(ts: seq<Token>, p: Parsed, a: Args)
    requires ts != [] && ts[0] == Sym('(') && PLine(ts[1..]) == Ok(p) && p.rest != [] && p.rest[0] == Sym(')')
             && PRedirs([], p.rest[1..]) == Ok(a)
    ensures PExec(ts) == Ok(Parsed(Wrap(p.tree, a.redirs), a.rest))
  {
    hide PLine, PRedirs;
    assert PExec(ts) == PBlock(ts);
  }

  lemma {:induction false} Parenthesised(t: Tree)
    requires t.Pipe? || t.List? || t.Back?
    ensures PrintExec(t) == [Sym('(')] + PrintLine(t) + [Sym(')')]
  {
    assert t.Back? ==> PrintLine(t) == PrintBack(t);
    assert t.Pipe? ==> PrintLine(t) == PrintBack(t) && PrintBack(t) == PrintPipe(t);
  }

  lemma {:induction false} PipeStep(l: Tree, ts: seq<Token>, after: seq<Token>, r: Parsed)
    requires PExec(ts) == Ok(Parsed(l, [Sym('|')] + after)) && PPipe(after) == Ok(r)
    ensures PPipe(ts) == Ok(Parsed(Pipe(l, r.tree), r.rest))
  {
    assert ([Sym('|')] + after)[1..] == after;
    hide PExec;
  }

  lemma {:induction false} PipePrinted(t: Tree, rest: seq<Token>)
    requires TreeOk(t) && Follow(rest, "&;)")
    ensures PPipe(PrintPipe(t) + rest) == Ok(Parsed(t, rest))
    decreases t, Rank(AtPipe, t)
  {
    hide PExec, PrintExec;
    assert RedirTokens([]) == [];
    if t.Pipe? {
      var after := PrintPipe(t.right) + rest;
      assert PrintPipe(t) + rest == PrintExec(t.left) + (RedirTokens([]) + ([Sym('|')] + after));
      ExecPrinted(t.left, [], [Sym('|')] + after);
      PipePrinted(t.right, rest);
      hide PPipe;
      PipeStep(t.left, PrintPipe(t) + rest, after, Parsed(t.right, rest));
    } else {
      assert PrintPipe(t) + rest == PrintExec(t) + (RedirTokens([]) + rest);
      ExecPrinted(t, [], rest);
    }
  }

  lemma {:induction false} BackPrinted(t: Tree, rest: seq<Token>)
    requires TreeOk(t) && Follow(rest, "&;)")
    ensures var r := PPipe(PrintBack(t) + rest); r.Ok? && PBacks(r.value.tree, r.value.rest) == PBacks(t, rest)
    decreases t, Rank(AtBack, t)
  {
    if t.Back? {
      var after := [Sym('&')] + rest;
      assert PrintBack(t) + rest == PrintBack(t.cmd) + after;
      BackPrinted(t.cmd, after);
      assert after[1..] == rest;
    } else {
      PipePrinted(t, rest);
    }
  }

  /** Any line printed and parsed again is the same tree, whatever may follow a line. */
  lemma {:induction false} LinePrinted(t: Tree, rest: seq<Token>)
    requires TreeOk(t) && Follow(rest, ")")
    ensures PLine(PrintLine(t) + rest) == Ok(Parsed(t, rest))
    decreases t, Rank(AtLine, t)
  {
    if t.List? {
      var after := [Sym(';')] + (PrintLine(t.right) + rest);
      assert PrintLine(t) + rest == PrintBack(t.left) + after;
      BackPrinted(t.left, after);
      assert after[1..] == PrintLine(t.right) + rest;
      LinePrinted(t.right, rest);
    } else {
      BackPrinted(t, rest);
    }
  }

  // ---------------------------------------------------------------- which lines are commands

  /** Words and redirections in any order: args are the words, rs the redirections. */
  ghost predicate IsSimple(ts: seq<Token>, args: seq<string>, rs: seq<Redirection>)
    decreases |ts|
  {
    || (ts == [] && args == [] && rs == [])
    || (ts != [] && args != [] && ts[0] == Word(args[0]) && IsSimple(ts[1..], args[1..], rs))
    || (|ts| >= 2 && rs != [] && ts[0] == RedirToken(rs[0].kind) && ts[1] == Word(rs[0].file)
        && IsSimple(ts[2..], args, rs[1..]))
  }

  predicate SymAt(ts: seq<Token>, k: nat, c: char) {
    k < |ts| && ts[k] == Sym(c)
  }

  /** The grammar of command lines: what tokens are a line, and of what tree.  A line is parts divided by ;, each of
      them a pipeline with any number of & behind it; a pipeline is commands divided by |; a command is simple, or
      a line in parentheses with redirections behind it. */
  ghost predicate IsLine(ts: seq<Token>, t: Tree)
    decreases |ts|, 3
  {
    || IsPart(ts, t)
    || (t.List? && exists k: nat :: SymAt(ts, k, ';') && IsPart(ts[..k], t.left) && IsLine(ts[k + 1..], t.right))
  }

  ghost predicate IsPart(ts: seq<Token>, t: Tree)
    decreases |ts|, 2
  {
    || IsPipeline(ts, t)
    || (t.Back? && ts != [] && SymAt(ts, |ts| - 1, '&') && IsPart(ts[..|ts| - 1], t.cmd))
  }

  ghost predicate IsPipeline(ts: seq<Token>, t: Tree)
    decreases |ts|, 1
  {
    || IsCommand(ts, t)
    || (t.Pipe? && exists k: nat :: SymAt(ts, k, '|') && IsCommand(ts[..k], t.left) && IsPipeline(ts[k + 1..], t.right))
  }

  ghost predicate IsCommand(ts: seq<Token>, t: Tree)
    decreases |ts|, 0
  {
    || (exists args, rs :: IsSimple(ts, args, rs) && |args| < MAXARGS && t == Wrap(Exec(args), rs))
    || (exists k: nat, u, rs :: SymAt(ts, 0, '(') && k > 0 && SymAt(ts, k, ')') && IsLine(ts[1..k], u)
                                && ts[k + 1..] == RedirTokens(rs) && t == Wrap(u, rs))
  }

  // what is derived is parsed

  lemma {:induction false} SimpleParsed(done: seq<string>, before: seq<Redirection>, ts: seq<Token>,
      args: seq<string>, rs: seq<Redirection>, rest: seq<Token>)
    requires IsSimple(ts, args, rs) && Follow(rest, "|&;)") && |done| + |args| < MAXARGS
    ensures var a := PRedirs(before, ts + rest);
            a.Ok? && PArgs(done, a.value.redirs, a.value.rest) == Ok(Args(done + args, before + rs, rest))
    decreases |ts|
  {
    hide PRedirs, PArgs;
    var all := ts + rest;
    if ts == [] {
      assert all == rest && done + args == done && before + rs == before;
      NoRedir(before, rest);
      ArgsEnd(done, before, rest);
    } else if ts[0].Word? {
      assert args != [] && IsSimple(ts[1..], args[1..], rs);
      hide IsSimple;
      assert all[0] == ts[0] && all[1..] == ts[1..] + rest;
      SimpleParsed(done + [args[0]], before, ts[1..], args[1..], rs, rest);
      assert done + [args[0]] + args[1..] == done + args;
      WordNext(done, before, all);
    } else {
      assert rs != [] && |ts| >= 2 && IsSimple(ts[2..], args, rs[1..]);
      assert ts[0] == RedirToken(rs[0].kind) && ts[1] == Word(rs[0].file);
      hide IsSimple;
      assert all[0] == ts[0] && all[1] == ts[1] && all[2..] == ts[2..] + rest;
      SimpleParsed(done, before + [rs[0]], ts[2..], args, rs[1..], rest);
      assert before + [rs[0]] + rs[1..] == before + rs;
      assert Redirection(all[1].w, KindOf(all[0])) == rs[0];
      RedirNext(before, all);
    }
  }

  lemma {:induction false} NoRedir(before: seq<Redirection>, rest: seq<Token>)
    requires Follow(rest, "|&;)")
    ensures PRedirs(before, rest) == Ok(Args([], before, rest))
  {
  }

  lemma {:induction false} WordNext(done: seq<string>, before: seq<Redirection>, ts: seq<Token>)
    requires ts != [] && ts[0].Word? && |done| + 1 < MAXARGS && PRedirs(before, ts[1..]).Ok?
    ensures PRedirs(before, ts) == Ok(Args([], before, ts))
    ensures var a := PRedirs(before, ts[1..]).value;
            PArgs(done, before, ts) == PArgs(done + [ts[0].w], a.redirs, a.rest)
  {
    ArgsBad(done, before, ts);
    RedirEnd(before, ts);
    hide PArgs, PRedirs;
  }

  lemma {:induction false} RedirNext(before: seq<Redirection>, ts: seq<Token>)
    requires |ts| >= 2 && (ts[0] == Sym('<') || ts[0] == Sym('>') || ts[0] == Append) && ts[1].Word?
    ensures PRedirs(before, ts) == PRedirs(before + [Redirection(ts[1].w, KindOf(ts[0]))], ts[2..])
  {
    RedirStep(before, ts);
    hide PRedirs;
  }

  lemma {:induction false} SimpleStart(ts: seq<Token>, args: seq<string>, rs: seq<Redirection>)
    requires IsSimple(ts, args, rs) && ts != []
    ensures ts[0] != Sym('(')
  {
  }

  lemma {:induction false} CommandParsed(ts: seq<Token>, t: Tree, rest: seq<Token>)
    requires IsCommand(ts, t) && Follow(rest, "|&;)")
    ensures PExec(ts + rest) == Ok(Parsed(t, rest))
    decreases |ts|, 0
  {
    hide PExec, PRedirs, PArgs, PLine, IsLine, IsSimple, RedirTokens, Wrap;
    if args, rs :| IsSimple(ts, args, rs) && |args| < MAXARGS && t == Wrap(Exec(args), rs) {
      SimpleParsed([], [], ts, args, rs, rest);
      assert [] + args == args && [] + rs == rs;
      if ts != [] { SimpleStart(ts, args, rs); }
      ExecIs(ts + rest, PRedirs([], ts + rest).value, Args(args, rs, rest));
    } else {
      var k: nat, u, rs :| SymAt(ts, 0, '(') && k > 0 && SymAt(ts, k, ')') && IsLine(ts[1..k], u)
                           && ts[k + 1..] == RedirTokens(rs) && t == Wrap(u, rs);
      var more := [Sym(')')] + (RedirTokens(rs) + rest);
      LineParsed(ts[1..k], u, more);
      BlockPrinted(u, ts[1..k], rs, rest);
      assert ts + rest == [Sym('(')] + ts[1..k] + [Sym(')')] + (RedirTokens(rs) + rest);
    }
  }

  lemma {:induction false} PipelineParsed(ts: seq<Token>, t: Tree, rest: seq<Token>)
    requires IsPipeline(ts, t) && Follow(rest, "&;)")
    ensures PPipe(ts + rest) == Ok(Parsed(t, rest))
    decreases |ts|, 1
  {
    hide PExec, IsCommand;
    if IsCommand(ts, t) {
      CommandParsed(ts, t, rest);
    } else {
      var k: nat :| SymAt(ts, k, '|') && IsCommand(ts[..k], t.left) && IsPipeline(ts[k + 1..], t.right);
      var after := ts[k + 1..] + rest;
      assert ts + rest == ts[..k] + ([Sym('|')] + after);
      CommandParsed(ts[..k], t.left, [Sym('|')] + after);
      PipelineParsed(ts[k + 1..], t.right, rest);
      hide PPipe;
      PipeStep(t.left, ts + rest, after, Parsed(t.right, rest));
    }
  }

  lemma {:induction false} PartParsed(ts: seq<Token>, t: Tree, rest: seq<Token>)
    requires IsPart(ts, t) && Follow(rest, "&;)")
    ensures var r := PPipe(ts + rest); r.Ok? && PBacks(r.value.tree, r.value.rest) == PBacks(t, rest)
    decreases |ts|, 2
  {
    hide PPipe, IsPipeline;
    if IsPipeline(ts, t) {
      PipelineParsed(ts, t, rest);
    } else {
      var after := [Sym('&')] + rest;
      assert ts + rest == ts[..|ts| - 1] + after;
      PartParsed(ts[..|ts| - 1], t.cmd, after);
      assert after[1..] == rest;
    }
  }

  lemma {:induction false} LineParsed(ts: seq<Token>, t: Tree, rest: seq<Token>)
    requires IsLine(ts, t) && Follow(rest, ")")
    ensures PLine(ts + rest) == Ok(Parsed(t, rest))
    decreases |ts|, 3
  {
    hide PPipe, IsPart;
    if IsPart(ts, t) {
      PartParsed(ts, t, rest);
    } else {
      var k: nat :| SymAt(ts, k, ';') && IsPart(ts[..k], t.left) && IsLine(ts[k + 1..], t.right);
      var after := [Sym(';')] + (ts[k + 1..] + rest);
      assert ts + rest == ts[..k] + after;
      PartParsed(ts[..k], t.left, after);
      assert after[1..] == ts[k + 1..] + rest;
      LineParsed(ts[k + 1..], t.right, rest);
    }
  }

  // what is parsed is derived

  /** The tokens of ts before a rest. */
  function Used(ts: seq<Token>, rest: seq<Token>): seq<Token>
    requires |rest| <= |ts|
  {
    ts[..|ts| - |rest|]
  }

  ghost predicate Leaves(ts: seq<Token>, rest: seq<Token>) {
    |rest| <= |ts| && ts[|ts| - |rest|..] == rest
  }

  lemma {:induction false} LeavesAfter(ts: seq<Token>, mid: seq<Token>, rest: seq<Token>, k: nat)
    requires Leaves(ts, mid) && k <= |mid| && Leaves(mid[k..], rest)
    ensures Leaves(ts, rest) && Used(ts, rest) == Used(ts, mid) + mid[..k] + Used(mid[k..], rest)
  {
    hide Leaves, Used;
    Parted(ts, mid);
    Parted(mid[k..], rest);
    var a, b, c := Used(ts, mid), mid[..k], Used(mid[k..], rest);
    assert mid == b + mid[k..];
    assert ts == a + b + c + rest;
    Joined(ts, a + b + c, rest);
  }

  lemma {:induction false} Parted(ts: seq<Token>, rest: seq<Token>)
    requires Leaves(ts, rest)
    ensures |rest| <= |ts| && ts == Used(ts, rest) + rest
  {
  }

  lemma {:induction false} Joined(ts: seq<Token>, used: seq<Token>, rest: seq<Token>)
    requires ts == used + rest
    ensures Leaves(ts, rest) && Used(ts, rest) == used
  {
  }

  lemma {:induction false} RedirsDerived(rs: seq<Redirection>, ts: seq<Token>) returns (more: seq<Redirection>)
    requires PRedirs(rs, ts).Ok?
    ensures var a := PRedirs(rs, ts).value; a.redirs == rs + more && ts == RedirTokens(more) + a.rest
    decreases |ts|
  {
    if Starts(ts, "<>") && !ts[0].Word? {
      var r := Redirection(ts[1].w, KindOf(ts[0]));
      RedirStep(rs, ts);
      assert RedirToken(r.kind) == ts[0];
      hide PRedirs, Starts, KindOf;
      var rest := PRedirs(rs, ts).value.rest;
      var tail := RedirsDerived(rs + [r], ts[2..]);
      more := [r] + tail;
      assert rs + [r] + tail == rs + more;
      assert more[1..] == tail;
      assert RedirTokens(more) == [ts[0], ts[1]] + RedirTokens(tail);
      assert ts == [ts[0], ts[1]] + ts[2..];
    } else {
      more := [];
    }
  }

  lemma {:induction false} SimpleRedirs(more: seq<Redirection>, ts: seq<Token>, args: seq<string>, rs: seq<Redirection>)
    requires IsSimple(ts, args, rs)
    ensures IsSimple(RedirTokens(more) + ts, args, more + rs)
    decreases |more|
  {
    hide Words, PRedirs;
    if more == [] {
      assert RedirTokens(more) + ts == ts && more + rs == rs;
    } else {
      SimpleRedirs(more[1..], ts, args, rs);
      var all, ys := RedirTokens(more) + ts, more + rs;
      assert all[0] == RedirToken(ys[0].kind) && all[1] == Word(ys[0].file);
      assert all[2..] == RedirTokens(more[1..]) + ts && ys[1..] == more[1..] + rs;
    }
  }

  lemma {:induction false} ArgsDerived(args: seq<string>, rs: seq<Redirection>, ts: seq<Token>)
      returns (xs: seq<string>, ys: seq<Redirection>, used: seq<Token>)
    requires PArgs(args, rs, ts).Ok? && |args| < MAXARGS
    ensures var b := PArgs(args, rs, ts).value;
            && b.args == args + xs && b.redirs == rs + ys && |b.args| < MAXARGS
            && ts == used + b.rest && IsSimple(used, xs, ys)
    decreases |ts|
  {
    hide PArgs, PRedirs, Starts, IsSimple, RedirTokens;
    if ts == [] || (Starts(ts, "|)&;") && !ts[0].Word?) {
      ArgsStop(args, rs, ts);
      xs, ys, used := [], [], [];
      SimpleNone();
    } else {
      ArgsBad(args, rs, ts);
      var w, a := ts[0].w, PRedirs(rs, ts[1..]).value;
      assert ts == [Word(w)] + ts[1..];
      var more := RedirsDerived(rs, ts[1..]);
      var xs1, ys1, used1 := ArgsDerived(args + [w], a.redirs, a.rest);
      SimpleRedirs(more, used1, xs1, ys1);
      WordFirst(w, RedirTokens(more) + used1, xs1, more + ys1);
      xs, ys, used := [w] + xs1, more + ys1, [Word(w)] + (RedirTokens(more) + used1);
      assert args + [w] + xs1 == args + xs;
      assert rs + more + ys1 == rs + ys;
    }
  }

  lemma {:induction false} SimpleNone()
    ensures IsSimple([], [], [])
  {
  }

  lemma {:induction false} WordFirst(w: string, ts: seq<Token>, args: seq<string>, rs: seq<Redirection>)
    requires IsSimple(ts, args, rs)
    ensures IsSimple([Word(w)] + ts, [w] + args, rs)
  {
    assert ([Word(w)] + ts)[1..] == ts && ([w] + args)[1..] == args;
  }

  lemma {:induction false} ExecParts(ts: seq<Token>)
    requires PExec(ts).Ok? && (ts == [] || ts[0] != Sym('('))
    ensures PRedirs([], ts).Ok?
    ensures var a := PRedirs([], ts).value;
            var b := PArgs([], a.redirs, a.rest);
            b.Ok? && PExec(ts).value == Parsed(Wrap(Exec(b.value.args), b.value.redirs), b.value.rest)
  {
    hide PRedirs, PArgs, PBlock, Wrap;
  }

  lemma {:induction false} SimpleDerived(ts: seq<Token>)
    requires PExec(ts).Ok? && (ts == [] || ts[0] != Sym('('))
    ensures var p := PExec(ts).value; Leaves(ts, p.rest) && IsCommand(Used(ts, p.rest), p.tree)
  {
    hide PExec, PRedirs, PArgs, IsSimple, IsLine, Wrap, RedirTokens, Leaves, Used, IsCommand;
    ExecParts(ts);
    var a := PRedirs([], ts).value;
    var b := PArgs([], a.redirs, a.rest).value;
    var more := RedirsDerived([], ts);
    var xs, ys, used := ArgsDerived([], a.redirs, a.rest);
    assert [] + xs == xs && [] + more == more;
    SimpleRedirs(more, used, xs, ys);
    var all := RedirTokens(more) + used;
    assert ts == all + b.rest;
    Joined(ts, all, b.rest);
    SimpleCommand(all, xs, more + ys);
  }

  lemma {:induction false} SimpleCommand(ts: seq<Token>, args: seq<string>, rs: seq<Redirection>)
    requires IsSimple(ts, args, rs) && |args| < MAXARGS
    ensures IsCommand(ts, Wrap(Exec(args), rs))
  {
    hide IsSimple, IsLine, Wrap, RedirTokens;
  }

  lemma {:induction false} BlockParts(ts: seq<Token>)
    requires PExec(ts).Ok? && ts != [] && ts[0] == Sym('(')
    ensures PLine(ts[1..]).Ok?
    ensures var p := PLine(ts[1..]).value;
            && p.rest != [] && p.rest[0] == Sym(')') && PRedirs([], p.rest[1..]).Ok?
            && var a := PRedirs([], p.rest[1..]).value;
               PExec(ts).value == Parsed(Wrap(p.tree, a.redirs), a.rest)
  {
    hide PRedirs, PLine, Wrap;
    assert PExec(ts) == PBlock(ts);
  }

  lemma {:induction false} BlockDerived(ts: seq<Token>)
    requires PExec(ts).Ok? && ts != [] && ts[0] == Sym('(')
    ensures var p := PExec(ts).value; Leaves(ts, p.rest) && IsCommand(Used(ts, p.rest), p.tree)
    decreases |ts|, 0
  {
    hide PLine, PExec, PRedirs, IsLine, RedirTokens, Wrap, IsSimple, PBlock, IsCommand;
    BlockParts(ts);
    var p := PLine(ts[1..]).value;
    LineDerived(ts[1..]);
    var line := Used(ts[1..], p.rest);
    var rs := RedirsDerived([], p.rest[1..]);
    assert [] + rs == rs;
    var rest := PExec(ts).value.rest;
    var all := [Sym('(')] + line + [Sym(')')] + RedirTokens(rs);
    assert p.rest == [Sym(')')] + p.rest[1..];
    assert ts[1..] == line + p.rest;
    assert ts == all + rest;
    Joined(ts, all, rest);
    InParentheses(line, p.tree, rs);
  }

  lemma {:induction false} InParentheses(line: seq<Token>, u: Tree, rs: seq<Redirection>)
    requires IsLine(line, u)
    ensures IsCommand([Sym('(')] + line + [Sym(')')] + RedirTokens(rs), Wrap(u, rs))
  {
    hide IsLine, RedirTokens, Wrap, IsSimple;
    var all, k := [Sym('(')] + line + [Sym(')')] + RedirTokens(rs), |line| + 1;
    assert all[1..k] == line && all[k + 1..] == RedirTokens(rs) && SymAt(all, k, ')') && SymAt(all, 0, '(');
  }

  lemma {:induction false} CommandDerived(ts: seq<Token>)
    requires PExec(ts).Ok?
    ensures var p := PExec(ts).value; Leaves(ts, p.rest) && IsCommand(Used(ts, p.rest), p.tree)
    decreases |ts|, 1
  {
    hide PExec, IsCommand;
    if ts != [] && ts[0] == Sym('(') { BlockDerived(ts); } else { SimpleDerived(ts); }
  }

  lemma {:induction false} PipelineDerived(ts: seq<Token>)
    requires PPipe(ts).Ok?
    ensures var p := PPipe(ts).value; Leaves(ts, p.rest) && IsPipeline(Used(ts, p.rest), p.tree)
    decreases |ts|, 2
  {
    hide PExec, IsCommand;
    CommandDerived(ts);
    var p := PExec(ts).value;
    if p.rest != [] && p.rest[0] == Sym('|') {
      PipelineDerived(p.rest[1..]);
      var q := PPipe(p.rest[1..]).value;
      LeavesAfter(ts, p.rest, q.rest, 1);
      var used, k := Used(ts, q.rest), |Used(ts, p.rest)|;
      assert used[..k] == Used(ts, p.rest) && used[k + 1..] == Used(p.rest[1..], q.rest) && SymAt(used, k, '|');
    }
  }

  lemma {:induction false} PartDerived(ts: seq<Token>, mid: seq<Token>, t: Tree)
    requires Leaves(ts, mid) && IsPart(Used(ts, mid), t)
    ensures var p := PBacks(t, mid); Leaves(ts, p.rest) && IsPart(Used(ts, p.rest), p.tree)
    decreases |mid|
  {
    if mid != [] && mid[0] == Sym('&') {
      hide IsPipeline;
      var used := Used(ts, mid[1..]);
      assert used == Used(ts, mid) + [Sym('&')];
      assert used[..|used| - 1] == Used(ts, mid);
      PartDerived(ts, mid[1..], Back(t));
    }
  }

  lemma {:induction false} LineDerived(ts: seq<Token>)
    requires PLine(ts).Ok?
    ensures var p := PLine(ts).value; Leaves(ts, p.rest) && IsLine(Used(ts, p.rest), p.tree)
    decreases |ts|, 3
  {
    hide PPipe, IsPipeline, PBacks;
    PipelineDerived(ts);
    var p := PPipe(ts).value;
    PartDerived(ts, p.rest, p.tree);
    var q := PBacks(p.tree, p.rest);
    hide IsPart;
    if q.rest != [] && q.rest[0] == Sym(';') {
      LineDerived(q.rest[1..]);
      var l := PLine(q.rest[1..]).value;
      LeavesAfter(ts, q.rest, l.rest, 1);
      var used, k := Used(ts, l.rest), |Used(ts, q.rest)|;
      assert used[..k] == Used(ts, q.rest) && used[k + 1..] == Used(q.rest[1..], l.rest) && SymAt(used, k, ';');
    }
  }

  /** The parser accepts exactly the lines of the grammar, whole, and gives each its tree; so no line has two trees. */
  lemma {:induction false} ParsesGrammar(ts: seq<Token>, t: Tree)
    ensures PCmd(ts) == Ok(t) <==> IsLine(ts, t)
  {
    hide PLine, IsLine;
    if IsLine(ts, t) {
      LineParsed(ts, t, []);
      assert ts + [] == ts;
    }
    if PCmd(ts) == Ok(t) {
      LineDerived(ts);
      assert Used(ts, []) == ts;
    }
  }

  // ---------------------------------------------------------------- and character by character

  predicate TokenOk(t: Token) {
    match t case Sym(c) => Symbol(c) case Append => true case Word(w) => WordOk(w)
  }

  lemma {:induction false} TextClean(t: Token)
    requires TokenOk(t)
    ensures CString(Text(t)) && Text(t) != "" && !White(Text(t)[0])
  {
  }

  lemma {:induction false} RenderClean(ts: seq<Token>)
    requires forall k :: 0 <= k < |ts| ==> TokenOk(ts[k])
    ensures CString(Render(ts))
  {
    if ts != [] {
      TextClean(ts[0]);
      RenderClean(ts[1..]);
    }
  }

  lemma {:induction false} WordLenIs(w: string, rest: string)
    requires (forall k :: 0 <= k < |w| ==> WordChar(w[k])) && (rest == "" || !WordChar(rest[0]))
    ensures WordLen(w + rest) == |w|
  {
    if w == "" {
      assert w + rest == rest;
    } else {
      assert (w + rest)[1..] == w[1..] + rest && (w + rest)[0] == w[0];
      WordLenIs(w[1..], rest);
    }
  }

  lemma {:induction false} FirstToken(t: Token, rest: string)
    requires TokenOk(t) && CString(rest)
    ensures var u := Text(t) + (" " + rest);
            CString(u) && u != "" && !White(u[0]) && TokenLen(u) == |Text(t)| && TokenOf(u) == t
  {
    TextClean(t);
    var u := Text(t) + (" " + rest);
    if t.Word? {
      WordLenIs(t.w, " " + rest);
      assert u[..|t.w|] == t.w;
    }
  }

  lemma {:induction false} LexFirst(t: Token, rest: string)
    requires TokenOk(t) && CString(rest)
    ensures CString(Text(t) + (" " + rest)) && Lex(Text(t) + (" " + rest)) == [t] + Lex(rest)
  {
    var u := Text(t) + (" " + rest);
    FirstToken(t, rest);
    assert Skip(u) == u;
    assert u[TokenLen(u)..] == " " + rest;
    LexBlank(rest);
    hide TokenLen, TokenOf, Text;
    assert Lex(u) == [t] + Lex(" " + rest);
  }

  /** Tokens written out with blanks between them read back the same. */
  lemma {:induction false} LexRendered(ts: seq<Token>)
    requires forall k :: 0 <= k < |ts| ==> TokenOk(ts[k])
    ensures CString(Render(ts)) && Lex(Render(ts)) == ts
  {
    hide Lex, TokenOk, Text, CString;
    RenderClean(ts);
    if ts == [] {
      LexNone();
    } else {
      RenderClean(ts[1..]);
      LexRendered(ts[1..]);
      LexFirst(ts[0], Render(ts[1..]));
      assert Render(ts) == Text(ts[0]) + (" " + Render(ts[1..]));
    }
  }

  lemma {:induction false} LexNone()
    ensures Lex("") == []
  {
  }

  lemma {:induction false} LexBlank(s: string)
    requires CString(s)
    ensures CString(" " + s) && Lex(" " + s) == Lex(s)
  {
    assert (" " + s)[1..] == s;
    assert Skip(" " + s) == Skip(s);
  }

  // ---------------------------------------------------------------- what lexing is, in five laws

  lemma {:induction false} LexStep(u: string)
    requires CString(u) && u != "" && !White(u[0])
    ensures TokenLen(u) <= |u| && CString(u[TokenLen(u)..]) && Lex(u) == [TokenOf(u)] + Lex(u[TokenLen(u)..])
  {
    assert Skip(u) == u;
  }

  lemma {:induction false} LexWhite(u: string)
    requires CString(u) && u != "" && White(u[0])
    ensures CString(u[1..]) && Lex(u) == Lex(u[1..])
  {
    assert Skip(u) == Skip(u[1..]);
  }

  /** The first token of u is the same with x behind u, if x starts with no character of a word and does not double
      a > at the end of u. */
  lemma {:induction false} SameToken(u: string, x: string)
    requires CString(u) && CString(x) && u != "" && !White(u[0]) && x != "" && !WordChar(x[0])
    requires x[0] == '>' ==> u[|u| - 1] != '>'
    ensures CString(u + x) && !White((u + x)[0]) && TokenLen(u + x) == TokenLen(u) && TokenOf(u + x) == TokenOf(u)
  {
    var n := WordLen(u);
    assert (u + x)[0] == u[0];
    assert u + x == u[..n] + (u[n..] + x);
    WordLenIs(u[..n], u[n..] + x);
    assert (u + x)[..n] == u[..n];
    assert |u| > 1 ==> (u + x)[1] == u[1];
    assert |u| == 1 ==> (u + x)[1] == x[0];
  }

  lemma {:induction false} LexAppend(u: string, x: string)
    requires CString(u) && CString(x) && x != "" && !WordChar(x[0])
    requires x[0] == '>' && u != "" ==> u[|u| - 1] != '>'
    ensures CString(u + x) && Lex(u + x) == Lex(u) + Lex(x)
    decreases |u|
  {
    hide Lex, TokenLen, TokenOf, CString, WordChar, White;
    CleanBoth(u, x);
    if u == "" {
      assert u + x == x;
      LexNone();
    } else if White(u[0]) {
      LexWhite(u);
      LexWhite(u + x);
      assert (u + x)[1..] == u[1..] + x;
      LexAppend(u[1..], x);
    } else {
      SameToken(u, x);
      LexStep(u);
      LexStep(u + x);
      var n := TokenLen(u);
      assert (u + x)[n..] == u[n..] + x;
      assert u[n..] != "" ==> u[n..][|u[n..]| - 1] == u[|u| - 1];
      LexAppend(u[n..], x);
    }
  }

  lemma {:induction false} CleanBoth(u: string, x: string)
    requires CString(u) && CString(x)
    ensures CString(u + x)
  {
  }

  /** Blanks only divide; each symbol but > is a token wherever it stands; >> is one token and > another; and any other
      characters that stand together are one word. */
  lemma {:induction false} LexLaws(u: string, c: char, v: string, w: string)
    requires CString(u) && CString(v)
    ensures c in " \t\r\n\U{000B}" ==> CString(u + ([c] + v)) && Lex(u + ([c] + v)) == Lex(u) + Lex(v)
    ensures c in "<|&;()" ==> CString(u + ([c] + v)) && Lex(u + ([c] + v)) == Lex(u) + ([Sym(c)] + Lex(v))
    ensures (u == "" || u[|u| - 1] != '>') && (v == "" || v[0] != '>') ==>
              CString(u + (">" + v)) && Lex(u + (">" + v)) == Lex(u) + ([Sym('>')] + Lex(v))
    ensures u == "" || u[|u| - 1] != '>' ==>
              CString(u + (">>" + v)) && Lex(u + (">>" + v)) == Lex(u) + ([Append] + Lex(v))
    ensures w != "" && (forall k :: 0 <= k < |w| ==> w[k] !in " \t\r\n\U{000B}<|>&;()" && w[k] != '\0') ==>
              CString(w) && Lex(w) == [Word(w)]
  {
    hide Lex;
    if c in " \t\r\n\U{000B}<|&;()" {
      LexChar(c, v);
      LexAppend(u, [c] + v);
    }
    LexArrows(v);
    if u == "" || u[|u| - 1] != '>' {
      LexAppend(u, ">>" + v);
      if v == "" || v[0] != '>' { LexAppend(u, ">" + v); }
    }
    if w != "" && (forall k :: 0 <= k < |w| ==> w[k] !in " \t\r\n\U{000B}<|>&;()" && w[k] != '\0') { LexWord(w); }
  }

  lemma {:induction false} LexChar(c: char, v: string)
    requires CString(v) && c in " \t\r\n\U{000B}<|&;()"
    ensures CString([c] + v) && Lex([c] + v) == if White(c) then Lex(v) else [Sym(c)] + Lex(v)
  {
    var s := [c] + v;
    assert s[0] == c && s[1..] == v;
    hide Lex;
    if White(c) { LexWhite(s); } else { LexStep(s); }
  }

  lemma {:induction false} LexArrows(v: string)
    requires CString(v)
    ensures CString(">>" + v) && Lex(">>" + v) == [Append] + Lex(v)
    ensures v == "" || v[0] != '>' ==> CString(">" + v) && Lex(">" + v) == [Sym('>')] + Lex(v)
  {
    assert (">>" + v)[2..] == v && (">" + v)[1..] == v;
    hide Lex;
    LexStep(">>" + v);
    LexStep(">" + v);
  }

  lemma {:induction false} LexWord(w: string)
    requires w != "" && forall k :: 0 <= k < |w| ==> w[k] !in " \t\r\n\U{000B}<|>&;()" && w[k] != '\0'
    ensures CString(w) && Lex(w) == [Word(w)]
  {
    assert w + "" == w && w[..|w|] == w;
    WordLenIs(w, "");
    LexStep(w);
    LexNone();
    hide Lex;
  }

  predicate AllOk(ts: seq<Token>) {
    forall k :: 0 <= k < |ts| ==> TokenOk(ts[k])
  }

  lemma {:induction false} PrintedOk(t: Tree)
    requires TreeOk(t)
    ensures AllOk(PrintLine(t)) && AllOk(PrintBack(t)) && AllOk(PrintPipe(t)) && AllOk(PrintExec(t))
  {
    match t
    case Exec(args) =>
      WordsOk(args);
      assert PrintPipe(t) == PrintExec(t) && PrintBack(t) == PrintPipe(t) && PrintLine(t) == PrintBack(t);
    case Redir(c, _, _) =>
      PrintedOk(c);
      assert PrintPipe(t) == PrintExec(t) && PrintBack(t) == PrintPipe(t) && PrintLine(t) == PrintBack(t);
    case Pipe(l, r) =>
      PrintedOk(l);
      PrintedOk(r);
      Parenthesised(t);
      assert PrintBack(t) == PrintPipe(t) && PrintLine(t) == PrintBack(t);
    case List(l, r) =>
      PrintedOk(l);
      PrintedOk(r);
      Parenthesised(t);
      assert PrintPipe(t) == PrintExec(t) && PrintBack(t) == PrintPipe(t);
    case Back(c) =>
      PrintedOk(c);
      Parenthesised(t);
      assert PrintPipe(t) == PrintExec(t) && PrintLine(t) == PrintBack(t);
  }

  lemma {:induction false} WordsOk(args: seq<string>)
    requires forall k :: 0 <= k < |args| ==> WordOk(args[k])
    ensures forall k :: 0 <= k < |Words(args)| ==> TokenOk(Words(args)[k])
  {
    if args != [] { WordsOk(args[1..]); }
  }

  /** Every tree that the parser can build, printed as a line and parsed, is itself. */
  lemma {:induction false} RoundTrip(t: Tree)
    requires TreeOk(t)
    ensures CString(Render(PrintLine(t))) && PCmd(Lex(Render(PrintLine(t)))) == Ok(t)
  {
    PrintedOk(t);
    LexRendered(PrintLine(t));
    LinePrinted(t, []);
    assert PrintLine(t) + [] == PrintLine(t);
  }

  // ---------------------------------------------------------------- the parser builds no other trees

  lemma {:induction false} LexOk(s: string)
    requires CString(s)
    ensures AllOk(Lex(s))
    decreases |s|
  {
    SkipClean(s);
    var u := Skip(s);
    if u != "" {
      LexOk(u[TokenLen(u)..]);
      assert TokenOk(TokenOf(u));
    }
  }

  ghost predicate RedirsOk(rs: seq<Redirection>) {
    forall k :: 0 <= k < |rs| ==> WordOk(rs[k].file)
  }

  lemma {:induction false} WrapOk(t: Tree, rs: seq<Redirection>)
    requires TreeOk(t) && RedirsOk(rs)
    ensures TreeOk(Wrap(t, rs))
  {
    if rs != [] { WrapOk(t, rs[..|rs| - 1]); }
  }

  lemma {:induction false} RedirsGood(rs: seq<Redirection>, ts: seq<Token>)
    requires AllOk(ts) && RedirsOk(rs)
    ensures var r := PRedirs(rs, ts); r.Ok? ==> RedirsOk(r.value.redirs) && AllOk(r.value.rest)
    decreases |ts|
  {
    if Starts(ts, "<>") && !ts[0].Word? && |ts| > 1 && ts[1].Word? {
      assert TokenOk(ts[1]);
      RedirsGood(rs + [Redirection(ts[1].w, KindOf(ts[0]))], ts[2..]);
    }
  }

  lemma {:induction false} ArgsGood(args: seq<string>, rs: seq<Redirection>, ts: seq<Token>)
    requires AllOk(ts) && RedirsOk(rs) && |args| < MAXARGS && forall k :: 0 <= k < |args| ==> WordOk(args[k])
    ensures var r := PArgs(args, rs, ts);
            r.Ok? ==> RedirsOk(r.value.redirs) && AllOk(r.value.rest) && TreeOk(Exec(r.value.args))
    decreases |ts|
  {
    if !(ts == [] || (Starts(ts, "|)&;") && !ts[0].Word?)) && ts[0].Word? && |args| + 1 < MAXARGS {
      RedirsGood(rs, ts[1..]);
      var r := PRedirs(rs, ts[1..]);
      assert TokenOk(ts[0]);
      if r.Ok? { ArgsGood(args + [ts[0].w], r.value.redirs, r.value.rest); }
      hide PRedirs;
    }
  }

  ghost predicate Good(r: Result<Parsed>) {
    r.Ok? ==> TreeOk(r.value.tree) && AllOk(r.value.rest)
  }

  lemma {:induction false} ExecGood(ts: seq<Token>)
    requires AllOk(ts)
    ensures Good(PExec(ts))
    decreases |ts|, 1
  {
    if ts != [] && ts[0] == Sym('(') {
      BlockGood(ts);
      assert PExec(ts) == PBlock(ts);
    } else {
      RedirsGood([], ts);
      var a := PRedirs([], ts);
      if a.Ok? {
        ArgsGood([], a.value.redirs, a.value.rest);
        var b := PArgs([], a.value.redirs, a.value.rest);
        if b.Ok? {
          WrapOk(Exec(b.value.args), b.value.redirs);
          ExecIs(ts, a.value, b.value);
        }
      }
      hide PRedirs, PArgs;
    }
  }

  lemma {:induction false} BlockGood(ts: seq<Token>)
    requires AllOk(ts) && ts != []
    ensures Good(PBlock(ts))
    decreases |ts|, 0
  {
    LineGood(ts[1..]);
    var p := PLine(ts[1..]);
    if p.Ok? && p.value.rest != [] {
      RedirsGood([], p.value.rest[1..]);
      var a := PRedirs([], p.value.rest[1..]);
      if a.Ok? { WrapOk(p.value.tree, a.value.redirs); }
    }
    hide PRedirs, PLine;
  }

  lemma {:induction false} PipeGood(ts: seq<Token>)
    requires AllOk(ts)
    ensures Good(PPipe(ts))
    decreases |ts|, 2
  {
    ExecGood(ts);
    var p := PExec(ts);
    if p.Ok? && p.value.rest != [] { PipeGood(p.value.rest[1..]); }
    hide PExec;
  }

  lemma {:induction false} BacksGood(t: Tree, ts: seq<Token>)
    requires AllOk(ts) && TreeOk(t)
    ensures TreeOk(PBacks(t, ts).tree) && AllOk(PBacks(t, ts).rest)
    decreases |ts|
  {
    if ts != [] && ts[0] == Sym('&') { BacksGood(Back(t), ts[1..]); }
  }

  lemma {:induction false} LineGood(ts: seq<Token>)
    requires AllOk(ts)
    ensures Good(PLine(ts))
    decreases |ts|, 3
  {
    PipeGood(ts);
    var p := PPipe(ts);
    if p.Ok? {
      BacksGood(p.value.tree, p.value.rest);
      var q := PBacks(p.value.tree, p.value.rest);
      if q.rest != [] { LineGood(q.rest[1..]); }
    }
    hide PPipe, PBacks;
  }

  /** The trees that some line parses to are the TreeOk ones. */
  lemma {:induction false} BuildsExactly(t: Tree)
    ensures TreeOk(t) <==> exists s :: CString(s) && PCmd(Lex(s)) == Ok(t)
  {
    if TreeOk(t) { RoundTrip(t); }
    forall s | CString(s) && PCmd(Lex(s)) == Ok(t)
      ensures TreeOk(t)
    {
      LexOk(s);
      LineGood(Lex(s));
    }
  }

  // ---------------------------------------------------------------- positions in the line

  /** The characters from q to e, as q and eq in the source. */
  datatype Span = Span(q: nat, e: nat)

  datatype Cmd =
    | CExec(argv: seq<Span>)
    | CRedir(cmd: Cmd, file: Span, kind: Kind)
    | CPipe(left: Cmd, right: Cmd)
    | CList(left: Cmd, right: Cmd)
    | CBack(cmd: Cmd)

  datatype CRedirection = CRedirection(file: Span, kind: Kind)

  ghost predicate SpanOk(s: string, sp: Span) {
    && sp.q < sp.e <= |s| && (forall k :: sp.q <= k < sp.e ==> WordChar(s[k])) && (sp.e < |s| ==> !WordChar(s[sp.e]))
  }

  function WordAt(s: string, sp: Span): string {
    if sp.q <= sp.e <= |s| then s[sp.q..sp.e] else ""
  }

  function WordsAt(s: string, spans: seq<Span>): (r: seq<string>)
    ensures |r| == |spans|
  {
    seq(|spans|, k requires 0 <= k < |spans| => WordAt(s, spans[k]))
  }

  function RedirsAt(s: string, rs: seq<CRedirection>): (r: seq<Redirection>)
    ensures |r| == |rs|
  {
    seq(|rs|, k requires 0 <= k < |rs| => Redirection(WordAt(s, rs[k].file), rs[k].kind))
  }

  /** The tree that the spans stand for. */
  function TreeAt(s: string, c: Cmd): Tree {
    match c
    case CExec(argv) => Exec(WordsAt(s, argv))
    case CRedir(d, f, k) => Redir(TreeAt(s, d), WordAt(s, f), k)
    case CPipe(l, r) => Pipe(TreeAt(s, l), TreeAt(s, r))
    case CList(l, r) => List(TreeAt(s, l), TreeAt(s, r))
    case CBack(d) => Back(TreeAt(s, d))
  }

  ghost predicate CmdOk(s: string, c: Cmd) {
    match c
    case CExec(argv) => SpansOk(s, argv)
    case CRedir(d, f, _) => CmdOk(s, d) && SpanOk(s, f)
    case CPipe(l, r) => CmdOk(s, l) && CmdOk(s, r)
    case CList(l, r) => CmdOk(s, l) && CmdOk(s, r)
    case CBack(d) => CmdOk(s, d)
  }

  ghost predicate SpansOk(s: string, spans: seq<Span>) {
    forall k :: 0 <= k < |spans| ==> SpanOk(s, spans[k])
  }

  ghost predicate CRedirsOk(s: string, rs: seq<CRedirection>) {
    forall k :: 0 <= k < |rs| ==> SpanOk(s, rs[k].file)
  }

  function CWrap(c: Cmd, rs: seq<CRedirection>): Cmd {
    if rs == [] then c else CRedir(CWrap(c, rs[..|rs| - 1]), rs[|rs| - 1].file, rs[|rs| - 1].kind)
  }

  lemma {:induction false} CWrapAt(s: string, c: Cmd, rs: seq<CRedirection>)
    requires CmdOk(s, c) && CRedirsOk(s, rs)
    ensures CmdOk(s, CWrap(c, rs)) && TreeAt(s, CWrap(c, rs)) == Wrap(TreeAt(s, c), RedirsAt(s, rs))
  {
    if rs != [] {
      CWrapAt(s, c, rs[..|rs| - 1]);
      assert RedirsAt(s, rs)[..|rs| - 1] == RedirsAt(s, rs[..|rs| - 1]);
    }
  }

  lemma {:induction false} SuffixClean(s: string, i: nat)
    requires CString(s) && i <= |s|
    ensures CString(s[i..])
  {
  }

  /** The tokens from position i on. */
  ghost function LexAt(s: string, i: nat): seq<Token>
    requires CString(s) && i <= |s|
  {
    SuffixClean(s, i);
    Lex(s[i..])
  }

  lemma {:induction false} SkipTwice(s: string)
    ensures Skip(Skip(s)) == Skip(s)
  {
    var u := Skip(s);
    assert u != "" ==> !White(u[0]);
  }

  lemma {:induction false} LexSkip(s: string, i: nat, j: nat)
    requires CString(s) && i <= |s| && j <= |s| && s[j..] == Skip(s[i..])
    ensures LexAt(s, j) == LexAt(s, i)
  {
    SuffixClean(s, i);
    SuffixClean(s, j);
    SkipTwice(s[i..]);
  }

  /** At a position that is not blank, the first token starts right there. */
  lemma {:induction false} LexHere(s: string, j: nat)
    requires CString(s) && j <= |s| && (j < |s| ==> !White(s[j]))
    ensures j == |s| ==> LexAt(s, j) == []
    ensures j < |s| ==> CString(s[j..]) && j + TokenLen(s[j..]) <= |s|
                        && LexAt(s, j) == [TokenOf(s[j..])] + LexAt(s, j + TokenLen(s[j..]))
  {
    SuffixClean(s, j);
    var u := s[j..];
    assert Skip(u) == u;
    if j < |s| {
      var n := TokenLen(u);
      SuffixClean(s, j + n);
      assert u[n..] == s[j + n..];
    }
  }

  function TokChar(t: Token): char {
    match t case Sym(c) => c case Append => '+' case Word(_) => 'a'
  }

  // ---------------------------------------------------------------- the code

  /** Past whitespace. */
  method SkipFrom(s: string, i0: nat) returns (i: nat)
    requires i0 <= |s|
    ensures i0 <= i <= |s| && s[i..] == Skip(s[i0..]) && (i < |s| ==> !White(s[i]))
  {
    i := i0;
    while i < |s| && White(s[i])
      invariant i0 <= i <= |s| && Skip(s[i..]) == Skip(s[i0..])
    {
      assert s[i..][1..] == s[i + 1..];
      i := i + 1;
    }
  }

  method Peek(s: string, i0: nat, toks: string) returns (r: bool, i: nat)
    requires CString(s) && i0 <= |s| && forall k :: 0 <= k < |toks| ==> Symbol(toks[k])
    ensures i0 <= i <= |s| && LexAt(s, i) == LexAt(s, i0)
    ensures r <==> Starts(LexAt(s, i0), toks) && !LexAt(s, i0)[0].Word?
  {
    i := SkipFrom(s, i0);
    LexSkip(s, i0, i);
    LexHere(s, i);
    r := i < |s| && s[i] in toks;
    if i < |s| { PeekToken(s[i..], toks); }
  }

  lemma {:induction false} PeekToken(u: string, toks: string)
    requires u != "" && !White(u[0]) && CString(u) && forall k :: 0 <= k < |toks| ==> Symbol(toks[k])
    ensures var t := TokenOf(u); u[0] in toks <==> Starts([t], toks) && !t.Word?
  {
  }

  method GetToken(s: string, i0: nat) returns (tok: char, q: nat, eq: nat, i: nat)
    requires CString(s) && i0 <= |s|
    ensures i0 <= i <= |s|
    ensures LexAt(s, i0) == [] ==> tok == NUL && LexAt(s, i) == []
    ensures LexAt(s, i0) != [] ==>
              && tok == TokChar(LexAt(s, i0)[0]) && LexAt(s, i) == LexAt(s, i0)[1..] && i0 < i
              && TokenOk(LexAt(s, i0)[0]) && (tok == 'a' <==> LexAt(s, i0)[0].Word?)
              && (LexAt(s, i0)[0].Word? ==> SpanOk(s, Span(q, eq)) && WordAt(s, Span(q, eq)) == LexAt(s, i0)[0].w)
  {
    hide Lex, Skip;
    i := SkipFrom(s, i0);
    q := i;
    LexSkip(s, i0, i);
    LexHere(s, i);
    if i == |s| {
      return NUL, q, i, i;
    }
    ghost var u := s[i..];
    match s[i] {
    case '|' | '(' | ')' | ';' | '&' | '<' =>
      tok := s[i];
      i := i + 1;
    case '>' =>
      tok := '>';
      i := i + 1;
      if i < |s| && s[i] == '>' {
        tok := '+';
        i := i + 1;
      }
    case _ =>
      tok := 'a';
      while i < |s| && !White(s[i]) && !Symbol(s[i])
        invariant q <= i <= |s| && forall k :: q <= k < i ==> WordChar(s[k])
      {
        i := i + 1;
      }
      WordSpan(s, q, i);
    }
    eq := i;
    assert eq == q + TokenLen(u);
    i := SkipFrom(s, eq);
    LexSkip(s, eq, i);
  }

  lemma {:induction false} WordSpan(s: string, q: nat, e: nat)
    requires CString(s) && q < |s| && q <= e <= |s| && !White(s[q]) && !Symbol(s[q])
             && (forall k :: q <= k < e ==> WordChar(s[k])) && (e < |s| ==> !WordChar(s[e]))
    ensures q < e && SpanOk(s, Span(q, e)) && CString(s[q..]) && TokenLen(s[q..]) == e - q
            && TokenOf(s[q..]) == Word(s[q..e])
  {
    SuffixClean(s, q);
    var u := s[q..];
    assert u[0] == s[q];
    assert WordChar(u[0]);
    assert s[q..] == s[q..e] + s[e..];
    WordLenIs(s[q..e], s[e..]);
    assert u[..e - q] == s[q..e];
  }

  lemma {:induction false} SymSingle(s: string, i: nat, c: char)
    requires CString(s) && i <= |s| && Symbol(c) && c != '>'
    ensures Starts(LexAt(s, i), [c]) && !LexAt(s, i)[0].Word? <==> LexAt(s, i) != [] && LexAt(s, i)[0] == Sym(c)
  {
    hide LexAt;
  }

  lemma {:induction false} RedirStep(rs: seq<Redirection>, ts: seq<Token>)
    requires Starts(ts, "<>") && !ts[0].Word?
    ensures PRedirs(rs, ts) == if |ts| > 1 && ts[1].Word?
            then PRedirs(rs + [Redirection(ts[1].w, KindOf(ts[0]))], ts[2..]) else Err(MissingFile)
  {
  }

  lemma {:induction false} RedirEnd(rs: seq<Redirection>, ts: seq<Token>)
    requires !(Starts(ts, "<>") && !ts[0].Word?)
    ensures PRedirs(rs, ts) == Ok(Args([], rs, ts))
  {
  }

  method ParseRedirs(s: string, i0: nat, rs0: seq<CRedirection>) returns (r: Result<seq<CRedirection>>, i: nat)
    requires CString(s) && i0 <= |s| && CRedirsOk(s, rs0)
    ensures i0 <= i <= |s|
    ensures match PRedirs(RedirsAt(s, rs0), LexAt(s, i0))
            case Err(e) => r == Err(e)
            case Ok(a) => r.Ok? && CRedirsOk(s, r.value) && RedirsAt(s, r.value) == a.redirs && LexAt(s, i) == a.rest
  {
    hide LexAt, PRedirs;
    var rs, more := rs0, false;
    i := i0;
    more, i := Peek(s, i, "<>");
    while more
      invariant i0 <= i <= |s| && CRedirsOk(s, rs)
      invariant more <==> Starts(LexAt(s, i), "<>") && !LexAt(s, i)[0].Word?
      invariant PRedirs(RedirsAt(s, rs), LexAt(s, i)) == PRedirs(RedirsAt(s, rs0), LexAt(s, i0))
      decreases |s| - i
    {
      var tok, q, eq, tok2;
      ghost var ts := LexAt(s, i);
      tok, q, eq, i := GetToken(s, i);
      tok2, q, eq, i := GetToken(s, i);
      RedirStep(RedirsAt(s, rs), ts);
      if tok2 != 'a' {
        return Err(MissingFile), i;
      }
      assert ts[1..][1..] == ts[2..];
      var kind := if tok == '<' then In else if tok == '>' then Out else App;
      RedirsMore(s, rs, CRedirection(Span(q, eq), kind));
      rs := rs + [CRedirection(Span(q, eq), kind)];
      more, i := Peek(s, i, "<>");
    }
    RedirEnd(RedirsAt(s, rs), LexAt(s, i));
    return Ok(rs), i;
  }

  lemma {:induction false} RedirsMore(s: string, rs: seq<CRedirection>, r: CRedirection)
    ensures RedirsAt(s, rs + [r]) == RedirsAt(s, rs) + [Redirection(WordAt(s, r.file), r.kind)]
  {
  }

  lemma {:induction false} WordsMore(s: string, argv: seq<Span>, sp: Span)
    ensures WordsAt(s, argv + [sp]) == WordsAt(s, argv) + [WordAt(s, sp)]
  {
  }

  lemma {:induction false} ArgsStop(args: seq<string>, rs: seq<Redirection>, ts: seq<Token>)
    requires ts == [] || (Starts(ts, "|)&;") && !ts[0].Word?)
    ensures PArgs(args, rs, ts) == Ok(Args(args, rs, ts))
  {
  }

  lemma {:induction false} ArgsBad(args: seq<string>, rs: seq<Redirection>, ts: seq<Token>)
    requires ts != [] && !(Starts(ts, "|)&;") && !ts[0].Word?)
    ensures !ts[0].Word? ==> PArgs(args, rs, ts) == Err(BadToken)
    ensures ts[0].Word? && |args| + 1 >= MAXARGS ==> PArgs(args, rs, ts) == Err(TooManyArgs)
    ensures ts[0].Word? && |args| + 1 < MAXARGS ==>
              PArgs(args, rs, ts) == match PRedirs(rs,
                  ts[1..]) case Err(e) => Err(e) case Ok(a) => PArgs(args + [ts[0].w], a.redirs, a.rest)
  {
    hide PRedirs;
  }

  /** parseexec after the parenthesis test.  The node that argv is stored in sits below the redirections found so far.
      */
  method ParseArgs(s: string, i0: nat) returns (r: Result<Cmd>, i: nat)
    requires CString(s) && i0 <= |s| && !(LexAt(s, i0) != [] && LexAt(s, i0)[0] == Sym('('))
    ensures i0 <= i <= |s|
    ensures match PExec(LexAt(s, i0))
            case Err(e) => r == Err(e)
            case Ok(p) => r.Ok? && CmdOk(s, r.value) && TreeAt(s, r.value) == p.tree && LexAt(s, i) == p.rest
  {
    hide LexAt, PRedirs, PArgs, PBlock, Wrap, CWrap;
    ghost var ts0 := LexAt(s, i0);
    var argv: seq<Span>, redirs, more := [], [], false;
    assert RedirsAt(s, []) == [] && WordsAt(s, []) == [];
    var rr;
    rr, i := ParseRedirs(s, i0, []);
    if rr.Err? {
      return Err(rr.error), i;
    }
    redirs := rr.value;
    ghost var a := PRedirs([], ts0).value;
    more, i := Peek(s, i, "|)&;");
    while !more
      invariant i0 <= i <= |s| && SpansOk(s, argv) && CRedirsOk(s, redirs) && |argv| < MAXARGS
      invariant more <==> Starts(LexAt(s, i), "|)&;") && !LexAt(s, i)[0].Word?
      invariant PArgs(WordsAt(s, argv), RedirsAt(s, redirs), LexAt(s, i)) == PArgs([], a.redirs, a.rest)
      decreases |s| - i
    {
      var tok, q, eq;
      ghost var ts, iWas := LexAt(s, i), i;
      tok, q, eq, i := GetToken(s, i);
      if tok == NUL {
        break;
      }
      ArgsBad(WordsAt(s, argv), RedirsAt(s, redirs), ts);
      if tok != 'a' {
        return Err(BadToken), i;
      }
      WordsMore(s, argv, Span(q, eq));
      argv := argv + [Span(q, eq)];
      if |argv| >= MAXARGS {
        return Err(TooManyArgs), i;
      }
      rr, i := ParseRedirs(s, i, redirs);
      if rr.Err? {
        return Err(rr.error), i;
      }
      redirs := rr.value;
      more, i := Peek(s, i, "|)&;");
    }
    ArgsStop(WordsAt(s, argv), RedirsAt(s, redirs), LexAt(s, i));
    CWrapAt(s, CExec(argv), redirs);
    return Ok(CWrap(CExec(argv), redirs)), i;
  }

  method ParseExec(s: string, i0: nat) returns (r: Result<Cmd>, i: nat)
    requires CString(s) && i0 <= |s|
    ensures i0 <= i <= |s|
    ensures match PExec(LexAt(s, i0))
            case Err(e) => r == Err(e)
            case Ok(p) => r.Ok? && CmdOk(s, r.value) && TreeAt(s, r.value) == p.tree && LexAt(s, i) == p.rest
    decreases |s| - i0, 1
  {
    hide LexAt, PBlock, PRedirs, PArgs;
    var block;
    SymSingle(s, i0, '(');
    block, i := Peek(s, i0, "(");
    if block {
      r, i := ParseBlock(s, i);
    } else {
      r, i := ParseArgs(s, i);
    }
  }

  method ParseBlock(s: string, i0: nat) returns (r: Result<Cmd>, i: nat)
    requires CString(s) && i0 <= |s| && LexAt(s, i0) != [] && LexAt(s, i0)[0] == Sym('(')
    ensures i0 <= i <= |s|
    ensures match PBlock(LexAt(s, i0))
            case Err(e) => r == Err(e)
            case Ok(p) => r.Ok? && CmdOk(s, r.value) && TreeAt(s, r.value) == p.tree && LexAt(s, i) == p.rest
    decreases |s| - i0, 0
  {
    hide LexAt, PLine, PRedirs, Wrap, CWrap;
    var tok, q, eq, close;
    tok, q, eq, i := GetToken(s, i0);
    r, i := ParseLine(s, i);
    if r.Err? {
      return;
    }
    SymSingle(s, i, ')');
    close, i := Peek(s, i, ")");
    if !close {
      return Err(MissingParen), i;
    }
    tok, q, eq, i := GetToken(s, i);
    var rr;
    assert RedirsAt(s, []) == [];
    rr, i := ParseRedirs(s, i, []);
    if rr.Err? {
      return Err(rr.error), i;
    }
    CWrapAt(s, r.value, rr.value);
    r := Ok(CWrap(r.value, rr.value));
  }

  method ParsePipe(s: string, i0: nat) returns (r: Result<Cmd>, i: nat)
    requires CString(s) && i0 <= |s|
    ensures i0 <= i <= |s|
    ensures match PPipe(LexAt(s, i0))
            case Err(e) => r == Err(e)
            case Ok(p) => r.Ok? && CmdOk(s, r.value) && TreeAt(s, r.value) == p.tree && LexAt(s, i) == p.rest
    decreases |s| - i0, 2
  {
    hide LexAt, PExec;
    r, i := ParseExec(s, i0);
    if r.Err? {
      return;
    }
    var pipe;
    SymSingle(s, i, '|');
    pipe, i := Peek(s, i, "|");
    if pipe {
      var tok, q, eq;
      tok, q, eq, i := GetToken(s, i);
      var right;
      right, i := ParsePipe(s, i);
      if right.Err? {
        return right, i;
      }
      r := Ok(CPipe(r.value, right.value));
    }
  }

  lemma {:induction false} BacksStep(t: Tree, ts: seq<Token>)
    ensures PBacks(t, ts) == if ts != [] && ts[0] == Sym('&') then PBacks(Back(t), ts[1..]) else Parsed(t, ts)
  {
  }

  method ParseLine(s: string, i0: nat) returns (r: Result<Cmd>, i: nat)
    requires CString(s) && i0 <= |s|
    ensures i0 <= i <= |s|
    ensures match PLine(LexAt(s, i0))
            case Err(e) => r == Err(e)
            case Ok(p) => r.Ok? && CmdOk(s, r.value) && TreeAt(s, r.value) == p.tree && LexAt(s, i) == p.rest
    decreases |s| - i0, 3
  {
    hide LexAt, PPipe, PBacks;
    r, i := ParsePipe(s, i0);
    if r.Err? {
      return;
    }
    var c, more, tok, q, eq := r.value, false, NUL, 0, 0;
    ghost var p := PPipe(LexAt(s, i0)).value;
    SymSingle(s, i, '&');
    more, i := Peek(s, i, "&");
    while more
      invariant i0 <= i <= |s| && CmdOk(s, c) && PBacks(TreeAt(s, c), LexAt(s, i)) == PBacks(p.tree, p.rest)
      invariant more <==> LexAt(s, i) != [] && LexAt(s, i)[0] == Sym('&')
      decreases |s| - i
    {
      BacksStep(TreeAt(s, c), LexAt(s, i));
      tok, q, eq, i := GetToken(s, i);
      c := CBack(c);
      SymSingle(s, i, '&');
      more, i := Peek(s, i, "&");
    }
    BacksStep(TreeAt(s, c), LexAt(s, i));
    SymSingle(s, i, ';');
    more, i := Peek(s, i, ";");
    if more {
      tok, q, eq, i := GetToken(s, i);
      var rest;
      rest, i := ParseLine(s, i);
      if rest.Err? {
        return rest, i;
      }
      c := CList(c, rest.value);
    }
    return Ok(c), i;
  }

  // ---------------------------------------------------------------- nulterminate

  /** The words of a command. */
  ghost function SpansOf(c: Cmd): set<Span> {
    match c
    case CExec(argv) => set sp | sp in argv
    case CRedir(d, f, _) => SpansOf(d) + {f}
    case CPipe(l, r) => SpansOf(l) + SpansOf(r)
    case CList(l, r) => SpansOf(l) + SpansOf(r)
    case CBack(d) => SpansOf(d)
  }

  ghost function EndsOf(c: Cmd): set<nat> {
    set sp | sp in SpansOf(c) :: sp.e
  }

  ghost function Nulled(b: seq<char>, at: set<nat>): (r: seq<char>)
    ensures |r| == |b|
  {
    seq(|b|, k requires 0 <= k < |b| => if k in at then NUL else b[k])
  }

  lemma {:induction false} NulledTwice(b: seq<char>, x: set<nat>, y: set<nat>)
    ensures Nulled(Nulled(b, x), y) == Nulled(b, x + y)
  {
  }

  /** Writes a NUL after every word of the command, and nowhere else. */
  method Nulterminate(buf: array<char>, c: Cmd)
    requires forall sp :: sp in SpansOf(c) ==> sp.e < buf.Length
    modifies buf
    ensures buf[..] == Nulled(old(buf[..]), EndsOf(c))
    decreases c
  {
    ghost var b := buf[..];
    match c
    case CExec(argv) =>
      NulledNone(b);
      assert (set sp | sp in argv[..0] :: sp.e) == {};
      for i := 0 to |argv|
        invariant buf[..] == Nulled(b, set sp | sp in argv[..i] :: sp.e)
      {
        assert argv[i] in argv;
        OneMoreEnd(b, argv, i);
        buf[argv[i].e] := NUL;
      }
      assert argv[..|argv|] == argv;
      assert EndsOf(c) == set sp | sp in argv :: sp.e;
    case CRedir(d, f, _) =>
      Nulterminate(buf, d);
      NulledMore(b, EndsOf(d), f.e);
      buf[f.e] := NUL;
      assert EndsOf(c) == EndsOf(d) + {f.e} by { EndsRedir(c); }
    case CPipe(l, r) =>
      Nulterminate(buf, l);
      Nulterminate(buf, r);
      NulledTwice(b, EndsOf(l), EndsOf(r));
      assert EndsOf(c) == EndsOf(l) + EndsOf(r);
    case CList(l, r) =>
      Nulterminate(buf, l);
      Nulterminate(buf, r);
      NulledTwice(b, EndsOf(l), EndsOf(r));
      assert EndsOf(c) == EndsOf(l) + EndsOf(r);
    case CBack(d) => Nulterminate(buf, d);
  }

  lemma {:induction false} EndsRedir(c: Cmd)
    requires c.CRedir?
    ensures EndsOf(c) == EndsOf(c.cmd) + {c.file.e}
  {
    assert c.file in SpansOf(c);
    forall e | e in EndsOf(c.cmd)
      ensures e in EndsOf(c)
    {
      var sp :| sp in SpansOf(c.cmd) && sp.e == e;
      assert sp in SpansOf(c);
    }
  }

  lemma {:induction false} NulledNone(b: seq<char>)
    ensures Nulled(b, {}) == b
  {
  }

  lemma {:induction false} NulledMore(b: seq<char>, x: set<nat>, e: nat)
    requires e < |b|
    ensures Nulled(b, x)[e := NUL] == Nulled(b, x + {e})
  {
  }

  lemma {:induction false} OneMoreEnd(b: seq<char>, argv: seq<Span>, i: nat)
    requires i < |argv| && argv[i].e < |b|
    ensures Nulled(b, set sp | sp in argv[..i] ::
              sp.e)[argv[i].e := NUL] == Nulled(b, set sp | sp in argv[..i + 1] :: sp.e)
  {
    var x, y := set sp | sp in argv[..i] :: sp.e, set sp | sp in argv[..i + 1] :: sp.e;
    assert argv[..i + 1] == argv[..i] + [argv[i]];
    assert y == x + {argv[i].e};
    NulledMore(b, x, argv[i].e);
  }

  /** The C string at position q. */
  function CStr(b: seq<char>, q: nat): string
    decreases if q < |b| then |b| - q else 0
  {
    if q < |b| && b[q] != NUL then [b[q]] + CStr(b, q + 1) else ""
  }

  lemma {:induction false} CStrIs(b: seq<char>, q: nat, e: nat)
    requires q <= e < |b| && b[e] == NUL && forall k :: q <= k < e ==> b[k] != NUL
    ensures CStr(b, q) == b[q..e]
    decreases e - q
  {
    if q < e {
      CStrIs(b, q + 1, e);
      assert b[q..e] == [b[q]] + b[q + 1..e];
    }
  }

  lemma {:induction false} SpanIn(s: string, c: Cmd, sp: Span)
    requires CmdOk(s, c) && sp in SpansOf(c)
    ensures SpanOk(s, sp)
  {
    match c
    case CExec(argv) =>
    case CRedir(d, f, _) => if sp in SpansOf(d) { SpanIn(s, d, sp); }
    case CPipe(l, r) => if sp in SpansOf(l) { SpanIn(s, l, sp); } else { SpanIn(s, r, sp); }
    case CList(l, r) => if sp in SpansOf(l) { SpanIn(s, l, sp); } else { SpanIn(s, r, sp); }
    case CBack(d) => SpanIn(s, d, sp);
  }

  /** After nulterminate every argument and file name reads back as its token: no NUL lands inside another word. */
  lemma {:induction false} ReadsBack(s: string, c: Cmd, sp: Span)
    requires CString(s) && CmdOk(s, c) && sp in SpansOf(c)
    ensures CStr(Nulled(s + [NUL], EndsOf(c)), sp.q) == WordAt(s, sp)
  {
    SpanIn(s, c, sp);
    var b := Nulled(s + [NUL], EndsOf(c));
    assert sp.e in EndsOf(c);
    forall k | sp.q <= k < sp.e
      ensures b[k] == s[k] && b[k] != NUL
    {
      assert WordChar(s[k]);
      if k in EndsOf(c) {
        var o :| o in SpansOf(c) && o.e == k;
        SpanIn(s, c, o);
      }
    }
    CStrIs(b, sp.q, sp.e);
    assert b[sp.q..sp.e] == s[sp.q..sp.e];
  }

  /** parsecmd on the line in buf. */
  method ParseCmd(buf: array<char>) returns (r: Result<Cmd>)
    requires buf.Length > 0 && buf[buf.Length - 1] == NUL && CString(buf[..buf.Length - 1])
    modifies buf
    ensures var s := old(buf[..buf.Length - 1]);
            match PCmd(Lex(s))
            case Err(e) => r == Err(e) && buf[..] == old(buf[..])
            case Ok(t) =>
              && r.Ok? && CmdOk(s, r.value) && TreeAt(s, r.value) == t
                  && buf[..] == Nulled(old(buf[..]), EndsOf(r.value))
              && forall sp :: sp in SpansOf(r.value) ==> CStr(buf[..], sp.q) == WordAt(s, sp)
  {
    hide PLine, Lex, CString;
    var s := buf[..buf.Length - 1];
    assert s[0..] == s;
    var i;
    r, i := ParseLine(s, 0);
    if r.Err? {
      return;
    }
    ghost var i1 := i;
    i := SkipFrom(s, i);
    LexSkip(s, i1, i);
    LexHere(s, i);
    if i != |s| {
      return Err(Leftovers);
    }
    forall sp | sp in SpansOf(r.value)
      ensures sp.e < buf.Length
    {
      SpanIn(s, r.value, sp);
    }
    assert buf[..] == s + [NUL];
    Nulterminate(buf, r.value);
    forall sp | sp in SpansOf(r.value)
      ensures CStr(buf[..], sp.q) == WordAt(s, sp)
    {
      ReadsBack(s, r.value, sp);
    }
  }
}
