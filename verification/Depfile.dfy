/**
 Dependency files: the grammar that reads them and the printer that writes them.

 The grammar is an ordered-choice parser with a skipper: before each token,
 colon and end of line it passes over blanks and line continuations.
 */
module Depfile {
  import opened Common
  import opened Text
  import opened TextLines

  datatype Rule = Rule(targets: seq<string>, prerequisites: seq<string>)
  datatype Env = Env(name: string, value: Option<string>)
  datatype DepFile = DepFile(rules: seq<Rule>, envDeps: seq<Env>)

  const BACKSLASH := '\\'
  const ENV_PREFIX := "# env-dep:"

  // ---- the grammar -----------------------------------------------------------------

  predicate Blank(c: char) { c == ' ' || c == '\t' }

  predicate Space(c: char) { Blank(c) || c == '\n' || c == '\r' || c == '\U{000B}' || c == '\U{000C}' }

  /** The characters a backslash may stand before. */
  predicate Escapable(c: char) { Blank(c) || c == BACKSLASH || c == '#' || c == ':' }

  datatype Parsed<+T> = Fail | Parsed(value: T, rest: string)

  /** The length of the end of line that s starts with, or zero. */
  function Eol(s: string): (n: nat)
    ensures n <= |s|
  {
    if s == "" then 0
    else if s[0] == '\r' then (if |s| > 1 && s[1] == '\n' then 2 else 1)
    else if s[0] == '\n' then 1
    else 0
  }

  function Skip(s: string): (r: string)
    ensures |r| <= |s|
  {
    if s == "" then s
    else if Blank(s[0]) then Skip(s[1..])
    else if s[0] == BACKSLASH && Eol(s[1..]) > 0 then Skip(s[1 + Eol(s[1..])..])
    else s
  }

  function PathChar(s: string): (r: Parsed<char>)
    ensures r.Parsed? ==> |r.rest| < |s|
  {
    if |s| > 1 && s[0] == BACKSLASH && Escapable(s[1]) then Parsed(s[1], s[2..])
    else if |s| > 1 && s[0] == '$' && s[1] == '$' then Parsed('$', s[2..])
    else if s != "" && !Space(s[0]) && s[0] != ':' && s[0] != BACKSLASH then Parsed(s[0], s[1..])
    else Fail
  }

  /** As many path characters as there are, and what follows them. */
  function PathChars(s: string): (r: (string, string))
    ensures |r.1| <= |s| && (r.0 != "" ==> |r.1| < |s|)
    decreases |s|
  {
    match PathChar(s)
    case Fail => ("", s)
    case Parsed(c, rest) => var (cs, after) := PathChars(rest); ([c] + cs, after)
  }

  function Token(s: string): (r: Parsed<string>)
    ensures r.Parsed? ==> |r.rest| < |s|
  {
    var (cs, after) := PathChars(Skip(s));
    if cs == "" then Fail else Parsed(cs, after)
  }

  function Tokens(s: string): (r: (seq<string>, string))
    ensures |r.1| <= |s| && (r.0 != [] ==> |r.1| < |s|)
    decreases |s|
  {
    match Token(s)
    case Fail => ([], s)
    case Parsed(t, rest) => var (ts, after) := Tokens(rest); ([t] + ts, after)
  }

  function ParseRule(s: string): (r: Parsed<Rule>)
    ensures r.Parsed? ==> |r.rest| < |s|
  {
    var (targets, after) := Tokens(s);
    var colon := Skip(after);
    if targets == [] || colon == "" || colon[0] != ':' then Fail
    else var (prerequisites, rest) := Tokens(colon[1..]); Parsed(Rule(targets, prerequisites), rest)
  }

  /** Past any number of ends of line. */
  function Eols(s: string): (r: string)
    ensures |r| <= |s|
    decreases |s|
  {
    var t := Skip(s);
    if Eol(t) == 0 then t else Eols(t[Eol(t)..])
  }

  /** The rules that follow one, each after at least one end of line. */
  function MoreRules(s: string): (r: (seq<Rule>, string))
    decreases |s|
  {
    if Eol(Skip(s)) == 0 then ([], s)
    else
      match ParseRule(Eols(s))
      case Fail => ([], s)
      case Parsed(rule, rest) => var (rules, after) := MoreRules(rest); ([rule] + rules, after)
  }

  function RulesOf(s: string): (seq<Rule>, string) {
    match ParseRule(s)
    case Fail => ([], s)
    case Parsed(rule, rest) => var (rules, after) := MoreRules(rest); ([rule] + rules, after)
  }

  function ParseRules(s: string): Option<seq<Rule>> {
    var (rules, after) := RulesOf(Eols(s));
    if Skip(Eols(after)) == "" then Some(rules) else None
  }

  // ---- env-dep lines ---------------------------------------------------------------

  predicate IsEnvLine(line: Line) { ENV_PREFIX <= line.body }

  function FirstEquals(s: string): (r: nat)
    ensures r <= |s| && (r < |s| ==> s[r] == '=')
    ensures forall k :: 0 <= k < r ==> s[k] != '='
  {
    if s == "" || s[0] == '=' then 0 else 1 + FirstEquals(s[1..])
  }

  function EnvOf(entry: string): Env {
    var eq := FirstEquals(entry);
    Env(entry[..eq], if eq == |entry| then None else Some(entry[eq + 1..]))
  }

  function EnvsOfLine(line: Line): seq<Env> {
    if IsEnvLine(line) then [EnvOf(line.body[|ENV_PREFIX|..])] else []
  }

  function RuleTextOfLine(line: Line): string {
    if IsEnvLine(line) then "" else LineText(line)
  }

  /** What the grammar is given, and the env deps that were lifted out before. */
  function Envs(text: string): seq<Env> {
    Flat(EnvsOfLine, Lines(text))
  }

  function GrammarInput(text: string): string {
    if Envs(text) == [] then text else Flat(RuleTextOfLine, Lines(text))
  }

  function Parse(text: string): Option<DepFile> {
    match ParseRules(GrammarInput(text))
    case None => None
    case Some(rules) => Some(DepFile(rules, Envs(text)))
  }

  // ---- the printer -----------------------------------------------------------------

  function EscapedChar(c: char): string {
    if Blank(c) || c == '#' || c == BACKSLASH then [BACKSLASH, c]
    else if c == '$' then "$$"
    else [c]
  }

  function Escaped(path: string): string { Flat(EscapedChar, path) }

  function Spaced(path: string): string { " " + Escaped(path) }

  function RuleText(rule: Rule): string {
    if rule.targets == [] then ""
    else Escaped(rule.targets[0]) + Flat(Spaced, rule.targets[1..]) + ":" + Flat(Spaced, rule.prerequisites) + "\n"
  }

  function EnvText(env: Env): string {
    ENV_PREFIX + env.name + (if env.value.Some? then "=" + env.value.value else "") + "\n"
  }

  function Rendered(d: DepFile): string {
    Flat(RuleText, d.rules) + (if d.envDeps == [] then "" else "\n") + Flat(EnvText, d.envDeps)
  }

  // ---- reading back what was printed -----------------------------------------------

  predicate GoodChar(c: char) { c != ':' && (Space(c) ==> Blank(c)) }

  predicate GoodPath(path: string) { path != "" && forall i :: 0 <= i < |path| ==> GoodChar(path[i]) }

  predicate GoodPaths(paths: seq<string>) { forall i :: 0 <= i < |paths| ==> GoodPath(paths[i]) }

  predicate GoodRule(rule: Rule) { rule.targets != [] && GoodPaths(rule.targets) && GoodPaths(rule.prerequisites) }

  predicate GoodRules(rules: seq<Rule>) { forall i :: 0 <= i < |rules| ==> GoodRule(rules[i]) }

  predicate GoodEnv(env: Env) {
    && NEWLINE !in env.name && '=' !in env.name
    && (env.value.Some? ==> NEWLINE !in env.value.value)
  }

  predicate GoodEnvs(envs: seq<Env>) { forall i :: 0 <= i < |envs| ==> GoodEnv(envs[i]) }

  predicate WellFormed(d: DepFile) { GoodRules(d.rules) && GoodEnvs(d.envDeps) }

  /** What can follow a printed path. */
  predicate Ends(rest: string) { rest != "" && (rest[0] == ' ' || rest[0] == ':' || rest[0] == '\n') }

  lemma CharReadsBack(c: char, rest: string)
    requires GoodChar(c)
    ensures PathChar(EscapedChar(c) + rest) == Parsed(c, rest)
  {
    var s := EscapedChar(c) + rest;
    assert s[|EscapedChar(c)|..] == rest;
  }

  lemma {:induction false} PathReadsBack(path: string, rest: string)
    requires Ends(rest) && forall i :: 0 <= i < |path| ==> GoodChar(path[i])
    ensures PathChars(Escaped(path) + rest) == (path, rest)
  {
    if path == "" {
      assert Escaped(path) + rest == rest;
    } else {
      FlatFirst(EscapedChar, path);
      var tail := Escaped(path[1..]) + rest;
      assert Escaped(path) + rest == EscapedChar(path[0]) + tail;
      CharReadsBack(path[0], tail);
      PathReadsBack(path[1..], rest);
      assert [path[0]] + path[1..] == path;
    }
  }

  /** A printed path starts with nothing that is skipped. */
  lemma NothingSkipped(path: string, rest: string)
    requires GoodPath(path)
    ensures Skip(Escaped(path) + rest) == Escaped(path) + rest
  {
    FlatFirst(EscapedChar, path);
    var s, first := Escaped(path) + rest, EscapedChar(path[0]);
    assert s[0] == first[0];
    if first[0] == BACKSLASH {
      assert s[1..][0] == first[1];
    }
  }

  lemma TokenReadsBack(path: string, rest: string)
    requires GoodPath(path) && Ends(rest)
    ensures Token(Escaped(path) + rest) == Parsed(path, rest)
    ensures Token(Spaced(path) + rest) == Parsed(path, rest)
  {
    NothingSkipped(path, rest);
    PathReadsBack(path, rest);
    assert (Spaced(path) + rest)[1..] == Escaped(path) + rest;
  }

  lemma {:induction false} TokensReadBack(paths: seq<string>, rest: string)
    requires GoodPaths(paths) && rest != "" && (rest[0] == ':' || rest[0] == '\n')
    ensures Tokens(Flat(Spaced, paths) + rest) == (paths, rest)
    ensures Ends(Flat(Spaced, paths) + rest)
  {
    if paths == [] {
      assert Flat(Spaced, paths) + rest == rest;
    } else {
      FlatFirst(Spaced, paths);
      assert [paths[0]] + paths[1..] == paths;
      var tail := Flat(Spaced, paths[1..]) + rest;
      assert Flat(Spaced, paths) + rest == Spaced(paths[0]) + tail;
      TokensReadBack(paths[1..], rest);
      TokenReadsBack(paths[0], tail);
    }
  }

  lemma PrerequisitesReadBack(rule: Rule, rest: string)
    requires GoodRule(rule)
    ensures Tokens(Flat(Spaced, rule.prerequisites) + "\n" + rest) == (rule.prerequisites, "\n" + rest)
  {
    TokensReadBack(rule.prerequisites, "\n" + rest);
    assert Flat(Spaced, rule.prerequisites) + "\n" + rest == Flat(Spaced, rule.prerequisites) + ("\n" + rest);
  }

  lemma TargetsReadBack(rule: Rule, rest: string)
    requires GoodRule(rule)
    ensures Tokens(Escaped(rule.targets[0]) + Flat(Spaced, rule.targets[1..]) + ":" + rest)
            == (rule.targets, ":" + rest)
  {
    var first, others := rule.targets[0], rule.targets[1..];
    var tail := Flat(Spaced, others) + (":" + rest);
    assert Escaped(first) + Flat(Spaced, others) + ":" + rest == Escaped(first) + tail;
    TokensReadBack(others, ":" + rest);
    TokenReadsBack(first, tail);
    assert [first] + others == rule.targets;
  }

  lemma RuleReadsBack(rule: Rule, rest: string)
    requires GoodRule(rule)
    ensures ParseRule(RuleText(rule) + rest) == Parsed(rule, "\n" + rest)
  {
    var after := Flat(Spaced, rule.prerequisites) + "\n" + rest;
    assert RuleText(rule) + rest == Escaped(rule.targets[0]) + Flat(Spaced, rule.targets[1..]) + ":" + after;
    TargetsReadBack(rule, after);
    assert (":" + after)[1..] == after;
    PrerequisitesReadBack(rule, rest);
  }

  /** Before a rule there is no end of line left to pass. */
  lemma AtRule(rule: Rule, rest: string)
    requires GoodRule(rule)
    ensures Eols(RuleText(rule) + rest) == RuleText(rule) + rest
  {
    var first := rule.targets[0];
    var after := (RuleText(rule) + rest)[|Escaped(first)|..];
    FlatFirst(EscapedChar, first);
    assert RuleText(rule) + rest == Escaped(first) + after;
    NothingSkipped(first, after);
  }

  lemma NoMoreRules(tail: string)
    requires tail == "" || tail == "\n"
    ensures Eols(tail) == "" && Eols("\n" + tail) == ""
    ensures MoreRules("\n" + tail) == ([], "\n" + tail)
  {
    assert tail != "" ==> tail[1..] == "";
    assert ("\n" + tail)[1..] == tail;
    assert Tokens("").0 == [];
  }

  lemma OneMoreRule(rule: Rule, rest: string)
    requires GoodRule(rule)
    ensures MoreRules("\n" + (RuleText(rule) + rest)) == ([rule] + MoreRules("\n" + rest).0, MoreRules("\n" + rest).1)
  {
    var s := "\n" + (RuleText(rule) + rest);
    assert s[1..] == RuleText(rule) + rest;
    AtRule(rule, rest);
    RuleReadsBack(rule, rest);
  }

  lemma {:induction false} MoreRulesReadBack(rules: seq<Rule>, tail: string)
    requires GoodRules(rules) && (tail == "" || tail == "\n")
    ensures MoreRules("\n" + (Flat(RuleText, rules) + tail)) == (rules, "\n" + tail)
  {
    if rules == [] {
      assert Flat(RuleText, rules) + tail == tail;
      NoMoreRules(tail);
    } else {
      FlatSplit(RuleText, rules, tail);
      var rest := Flat(RuleText, rules[1..]) + tail;
      OneMoreRule(rules[0], rest);
      assert [rules[0]] + rules[1..] == rules;
      MoreRulesReadBack(rules[1..], tail);
    }
  }

  lemma RulesReadBack(rules: seq<Rule>, tail: string)
    requires GoodRules(rules) && (tail == "" || tail == "\n")
    ensures ParseRules(Flat(RuleText, rules) + tail) == Some(rules)
  {
    NoMoreRules(tail);
    if rules == [] {
      assert Flat(RuleText, rules) + tail == tail;
    } else {
      FlatSplit(RuleText, rules, tail);
      var rest := Flat(RuleText, rules[1..]) + tail;
      AtRule(rules[0], rest);
      RuleReadsBack(rules[0], rest);
      MoreRulesReadBack(rules[1..], tail);
      assert [rules[0]] + rules[1..] == rules;
    }
  }

  // ---- whatever is read back is well formed ----------------------------------------

  /** Backslashes come in pairs with a character that the printer escapes. */
  predicate Aligned(s: string) {
    s == "" ||
    if s[0] == BACKSLASH then |s| > 1 && s[1] != ':' && Escapable(s[1]) && Aligned(s[2..]) else Aligned(s[1..])
  }

  lemma {:induction false} AlignedConcat(a: string, b: string)
    requires Aligned(a) && Aligned(b)
    ensures Aligned(a + b)
  {
    if a == "" {
      assert a + b == b;
    } else {
      var n := if a[0] == BACKSLASH then 2 else 1;
      AlignedConcat(a[n..], b);
      assert (a + b)[n..] == a[n..] + b;
    }
  }

  lemma {:induction false} AlignedFlat<L(!new)>(f: L -> string, xs: seq<L>)
    requires forall x :: Aligned(f(x))
    ensures Aligned(Flat(f, xs))
  {
    if xs != [] {
      AlignedFlat(f, xs[..|xs| - 1]);
      AlignedConcat(Flat(f, xs[..|xs| - 1]), f(xs[|xs| - 1]));
    }
  }

  lemma CharAligned(c: char)
    ensures Aligned(EscapedChar(c))
  {
    assert |EscapedChar(c)| == 2 ==> EscapedChar(c)[2..] == "" && EscapedChar(c)[1..] == [EscapedChar(c)[1]];
  }

  lemma SpacedAligned(path: string)
    ensures Aligned(Escaped(path)) && Aligned(Spaced(path))
  {
    forall c ensures Aligned(EscapedChar(c)) {
      CharAligned(c);
    }
    AlignedFlat(EscapedChar, path);
    assert Spaced(path)[1..] == Escaped(path);
  }

  lemma RuleAligned(rule: Rule)
    ensures Aligned(RuleText(rule))
  {
    if rule.targets != [] {
      forall p ensures Aligned(Spaced(p)) {
        SpacedAligned(p);
      }
      SpacedAligned(rule.targets[0]);
      AlignedFlat(Spaced, rule.targets[1..]);
      AlignedFlat(Spaced, rule.prerequisites);
      AlignedConcat(Escaped(rule.targets[0]), Flat(Spaced, rule.targets[1..]));
      AlignedConcat(Escaped(rule.targets[0]) + Flat(Spaced, rule.targets[1..]), ":");
      AlignedConcat(Escaped(rule.targets[0]) + Flat(Spaced, rule.targets[1..]) + ":", Flat(Spaced, rule.prerequisites));
      AlignedConcat(Escaped(rule.targets[0]) + Flat(Spaced, rule.targets[1..]) + ":" + Flat(Spaced, rule.prerequisites),
                    "\n");
    }
  }

  lemma {:induction false} SkipAligned(s: string)
    requires Aligned(s)
    ensures Aligned(Skip(s))
  {
    if s != "" && Blank(s[0]) {
      SkipAligned(s[1..]);
    }
  }

  lemma {:induction false} PathCharsAligned(s: string)
    requires Aligned(s)
    ensures Aligned(PathChars(s).1) && forall i :: 0 <= i < |PathChars(s).0| ==> GoodChar(PathChars(s).0[i])
    decreases |s|
  {
    match PathChar(s)
    case Fail =>
    case Parsed(c, rest) =>
      assert s[0] == '$' && |s| > 1 ==> s[1..][1..] == s[2..];
      PathCharsAligned(rest);
  }

  lemma {:induction false} TokensAligned(s: string)
    requires Aligned(s)
    ensures Aligned(Tokens(s).1) && GoodPaths(Tokens(s).0)
    decreases |s|
  {
    SkipAligned(s);
    PathCharsAligned(Skip(s));
    if Token(s).Parsed? {
      TokensAligned(Token(s).rest);
    }
  }

  lemma ParsedRuleAligned(s: string)
    requires Aligned(s) && ParseRule(s).Parsed?
    ensures Aligned(ParseRule(s).rest) && GoodRule(ParseRule(s).value)
  {
    TokensAligned(s);
    var colon := Skip(Tokens(s).1);
    SkipAligned(Tokens(s).1);
    TokensAligned(colon[1..]);
  }

  lemma {:induction false} EolsAligned(s: string)
    requires Aligned(s)
    ensures Aligned(Eols(s))
    decreases |s|
  {
    SkipAligned(s);
    var t := Skip(s);
    if Eol(t) > 0 {
      assert Eol(t) == 2 ==> t[1..][1..] == t[2..];
      EolsAligned(t[Eol(t)..]);
    }
  }

  lemma {:induction false} MoreRulesAligned(s: string)
    requires Aligned(s)
    ensures GoodRules(MoreRules(s).0)
    decreases |s|
  {
    EolsAligned(s);
    if Eol(Skip(s)) > 0 && ParseRule(Eols(s)).Parsed? {
      ParsedRuleAligned(Eols(s));
      MoreRulesAligned(ParseRule(Eols(s)).rest);
    }
  }

  lemma ParsedRulesGood(s: string)
    requires Aligned(s) && ParseRules(s).Some?
    ensures GoodRules(ParseRules(s).value)
  {
    EolsAligned(s);
    RulesOfGood(Eols(s));
  }

  lemma RulesOfGood(s: string)
    requires Aligned(s)
    ensures GoodRules(RulesOf(s).0)
  {
    match ParseRule(s)
    case Fail =>
    case Parsed(rule, rest) =>
      ParsedRuleAligned(s);
      MoreRulesAligned(rest);
  }

  // ---- which lines are rules and which are env deps --------------------------------

  /** Every hash sign is escaped, so no line starts with one. */
  predicate HashesEscaped(s: string) {
    forall k :: 0 <= k < |s| && s[k] == HASH ==> k > 0 && s[k - 1] == BACKSLASH
  }

  lemma {:induction false} HashesEscapedFlat<L(!new)>(f: L -> string, xs: seq<L>)
    requires forall x :: HashesEscaped(f(x))
    ensures HashesEscaped(Flat(f, xs))
  {
    if xs != [] {
      HashesEscapedFlat(f, xs[..|xs| - 1]);
    }
  }

  lemma SpacedHashes(path: string)
    ensures HashesEscaped(Escaped(path)) && HashesEscaped(Spaced(path))
  {
    HashesEscapedFlat(EscapedChar, path);
  }

  lemma RuleHashes(rule: Rule)
    ensures HashesEscaped(RuleText(rule)) && EndsLine(RuleText(rule))
  {
    forall p ensures HashesEscaped(Spaced(p)) {
      SpacedHashes(p);
    }
    if rule.targets != [] {
      SpacedHashes(rule.targets[0]);
      HashesEscapedFlat(Spaced, rule.targets[1..]);
      HashesEscapedFlat(Spaced, rule.prerequisites);
    }
  }

  lemma {:induction false} EndsLineFlat<L(!new)>(f: L -> string, xs: seq<L>)
    requires forall x :: EndsLine(f(x))
    ensures EndsLine(Flat(f, xs))
  {
    if xs != [] {
      EndsLineFlat(f, xs[..|xs| - 1]);
    }
  }

  /** No printed rule line, of any rules at all, can be mistaken for an env-dep line. */
  lemma NoRuleLineIsEnvLine(rules: seq<Rule>)
    ensures EndsLine(Flat(RuleText, rules))
    ensures forall i :: 0 <= i < |Lines(Flat(RuleText, rules))| ==> !IsEnvLine(Lines(Flat(RuleText, rules))[i])
  {
    var text := Flat(RuleText, rules);
    forall r ensures HashesEscaped(RuleText(r)) && EndsLine(RuleText(r)) {
      RuleHashes(r);
    }
    HashesEscapedFlat(RuleText, rules);
    EndsLineFlat(RuleText, rules);
    assert NoHashLine(text, 0, |text|);
    PlainLines(text);
    forall i | 0 <= i < |Lines(text)| ensures !IsEnvLine(Lines(text)[i]) {
      assert Plain(Lines(text)[i]) && ENV_PREFIX[0] == HASH;
    }
  }

  lemma RuleLines(rules: seq<Rule>)
    ensures Flat(EnvsOfLine, Lines(Flat(RuleText, rules))) == []
    ensures Flat(RuleTextOfLine, Lines(Flat(RuleText, rules))) == Flat(RuleText, rules)
  {
    var text := Flat(RuleText, rules);
    NoRuleLineIsEnvLine(rules);
    FlatEmpty(EnvsOfLine, Lines(text));
    FlatSame(RuleTextOfLine, LineText, Lines(text));
    LinesAre(text);
  }

  function EnvEntry(env: Env): string {
    env.name + if env.value.Some? then "=" + env.value.value else ""
  }

  lemma EnvReadsBack(env: Env)
    requires GoodEnv(env)
    ensures EnvOf(EnvEntry(env)) == env
  {
    var entry := EnvEntry(env);
    var eq := FirstEquals(entry);
    assert entry[..|env.name|] == env.name;
    assert forall k :: 0 <= k < |env.name| ==> entry[k] == env.name[k];
    if env.value.Some? {
      assert entry[|env.name|] == '=';
      assert entry[|env.name| + 1..] == env.value.value;
    }
  }

  lemma EnvBody(env: Env)
    requires GoodEnv(env)
    ensures var body := ENV_PREFIX + EnvEntry(env);
            EnvsOfLine(Line(body, true)) == [env] && RuleTextOfLine(Line(body, true)) == ""
  {
    var body := ENV_PREFIX + EnvEntry(env);
    assert body[|ENV_PREFIX|..] == EnvEntry(env);
    EnvReadsBack(env);
  }

  lemma EnvLine(env: Env)
    requires GoodEnv(env)
    ensures EndsLine(EnvText(env))
    ensures Flat(EnvsOfLine, Lines(EnvText(env))) == [env]
    ensures Flat(RuleTextOfLine, Lines(EnvText(env))) == ""
  {
    var body := ENV_PREFIX + EnvEntry(env);
    assert EnvText(env) == body + [NEWLINE];
    OneLine(body);
    EnvBody(env);
    FlatOne(EnvsOfLine, Line(body, true));
    FlatOne(RuleTextOfLine, Line(body, true));
  }

  lemma EnvLines(envs: seq<Env>)
    requires GoodEnvs(envs)
    ensures Flat(EnvsOfLine, Lines(Flat(EnvText, envs))) == envs
    ensures Flat(RuleTextOfLine, Lines(Flat(EnvText, envs))) == ""
  {
    var keep: Env -> seq<Env>, drop: Env -> string := env => [env], _ => "";
    forall i | 0 <= i < |envs| ensures EndsLine(EnvText(envs[i]))
                                       && Flat(EnvsOfLine, Lines(EnvText(envs[i]))) == keep(envs[i])
                                       && Flat(RuleTextOfLine, Lines(EnvText(envs[i]))) == drop(envs[i]) {
      EnvLine(envs[i]);
    }
    LinesOfFlat(EnvText, EnvsOfLine, keep, envs);
    LinesOfFlat(EnvText, RuleTextOfLine, drop, envs);
    FlatSingles(keep, envs);
    FlatEmpty(drop, envs);
  }

  function Separator(envs: seq<Env>): string { if envs == [] then "" else "\n" }

  lemma SeparatorLines(envs: seq<Env>)
    requires GoodEnvs(envs)
    ensures Flat(EnvsOfLine, Lines(Separator(envs) + Flat(EnvText, envs))) == envs
    ensures Flat(RuleTextOfLine, Lines(Separator(envs) + Flat(EnvText, envs))) == Separator(envs)
  {
    var text := Flat(EnvText, envs);
    EnvLines(envs);
    if envs == [] {
      assert Separator(envs) + text == text;
    } else {
      LinesConcat(Separator(envs), text);
      OneLine("");
      assert "" + [NEWLINE] == Separator(envs);
      FlatCons(EnvsOfLine, Line("", true), Lines(text));
      FlatCons(RuleTextOfLine, Line("", true), Lines(text));
    }
  }

  /** The env deps are lifted out exactly, and the grammar sees the rules and nothing else. */
  lemma InputIs(d: DepFile)
    requires GoodEnvs(d.envDeps)
    ensures Envs(Rendered(d)) == d.envDeps
    ensures GrammarInput(Rendered(d)) == Flat(RuleText, d.rules) + Separator(d.envDeps)
  {
    var rules, envs := Flat(RuleText, d.rules), Separator(d.envDeps) + Flat(EnvText, d.envDeps);
    assert Rendered(d) == rules + envs;
    NoRuleLineIsEnvLine(d.rules);
    RuleLines(d.rules);
    SeparatorLines(d.envDeps);
    FlatLines(EnvsOfLine, rules, envs);
    FlatLines(RuleTextOfLine, rules, envs);
    if d.envDeps == [] {
      assert Flat(EnvText, d.envDeps) == "";
    }
  }

  lemma {:induction false} EnvsGood(lines: seq<Line>)
    requires forall i :: 0 <= i < |lines| ==> NEWLINE !in lines[i].body
    ensures GoodEnvs(Flat(EnvsOfLine, lines))
  {
    if lines != [] {
      EnvsGood(lines[..|lines| - 1]);
    }
  }

  /** Printing and reading back gives the same file exactly when it is well formed. */
  lemma RoundTripExactly(d: DepFile)
    ensures Parse(Rendered(d)) == Some(d) <==> WellFormed(d)
  {
    var text, rules := Rendered(d), Flat(RuleText, d.rules);
    if WellFormed(d) {
      InputIs(d);
      RulesReadBack(d.rules, Separator(d.envDeps));
    }
    if Parse(text) == Some(d) {
      LinesHoldNoNewline(text);
      EnvsGood(Lines(text));
      InputIs(d);
      forall r ensures Aligned(RuleText(r)) {
        RuleAligned(r);
      }
      AlignedFlat(RuleText, d.rules);
      AlignedConcat(rules, Separator(d.envDeps));
      ParsedRulesGood(rules + Separator(d.envDeps));
    }
  }
}

/** Reading and writing a dependency file as the loops do it. */
module DepfileIO {
  import opened Common
  import opened Depfile
  import opened Text
  import opened TextLines

  method Escape(path: string) returns (out: string)
    ensures out == Escaped(path)
  {
    out := "";
    for i := 0 to |path|
      invariant out == Escaped(path[..i])
    {
      assert path[..i + 1][..i] == path[..i];
      match path[i] {
        case ' ' => out := out + [BACKSLASH, path[i]];
        case '\t' => out := out + [BACKSLASH, path[i]];
        case '#' => out := out + [BACKSLASH, path[i]];
        case '\\' => out := out + [BACKSLASH, path[i]];
        case '$' => out := out + "$$";
        case _ => out := out + [path[i]];
      }
    }
    assert path[..|path|] == path;
  }

  method RenderTargets(targets: seq<string>) returns (out: string)
    requires targets != []
    ensures out == Escaped(targets[0]) + Flat(Spaced, targets[1..])
  {
    out := "";
    for i := 0 to |targets|
      invariant out == if i == 0 then "" else Escaped(targets[0]) + Flat(Spaced, targets[1..i])
    {
      var escaped := Escape(targets[i]);
      if i != 0 {
        assert targets[1..i + 1][..i - 1] == targets[1..i];
        out := out + " ";
      }
      out := out + escaped;
    }
    assert targets[1..|targets|] == targets[1..];
  }

  method RenderRule(rule: Rule) returns (out: string)
    requires rule.targets != []
    ensures out == RuleText(rule)
  {
    var targets := RenderTargets(rule.targets);
    out := targets + ":";
    for i := 0 to |rule.prerequisites|
      invariant out == targets + ":" + Flat(Spaced, rule.prerequisites[..i])
    {
      assert rule.prerequisites[..i + 1][..i] == rule.prerequisites[..i];
      var escaped := Escape(rule.prerequisites[i]);
      out := out + " ";
      out := out + escaped;
    }
    assert rule.prerequisites[..|rule.prerequisites|] == rule.prerequisites;
    out := out + "\n";
  }

  method RenderRules(rules: seq<Rule>) returns (out: string)
    ensures out == Flat(RuleText, rules)
  {
    out := "";
    for i := 0 to |rules|
      invariant out == Flat(RuleText, rules[..i])
    {
      assert rules[..i + 1][..i] == rules[..i];
      if rules[i].targets == [] {
        continue;
      }
      var text := RenderRule(rules[i]);
      out := out + text;
    }
    assert rules[..|rules|] == rules;
  }

  method RenderEnvs(envs: seq<Env>) returns (out: string)
    ensures out == Flat(EnvText, envs)
  {
    out := "";
    for i := 0 to |envs|
      invariant out == Flat(EnvText, envs[..i])
    {
      assert envs[..i + 1][..i] == envs[..i];
      var line := ENV_PREFIX + envs[i].name;
      if envs[i].value.Some? {
        line := line + "=" + envs[i].value.value;
      }
      out := out + line + "\n";
    }
    assert envs[..|envs|] == envs;
  }

  method RenderDepFile(d: DepFile) returns (out: string)
    ensures out == Rendered(d)
  {
    out := RenderRules(d.rules);
    if d.envDeps != [] {
      out := out + "\n";
    }
    var envs := RenderEnvs(d.envDeps);
    out := out + envs;
  }

  method ExtractLine(line: string, ended: bool) returns (rulesText: string, envs: seq<Env>)
    ensures rulesText == RuleTextOfLine(Line(line, ended)) && envs == EnvsOfLine(Line(line, ended))
  {
    rulesText, envs := "", [];
    if ENV_PREFIX <= line {
      envs := [EnvOf(line[|ENV_PREFIX|..])];
    } else {
      rulesText := line;
      if ended {
        rulesText := rulesText + "\n";
      }
    }
  }

  /** Moves the env-dep lines out of the text. */
  method ExtractEnvDeps(text: string) returns (rulesText: string, envs: seq<Env>)
    ensures rulesText == Flat(RuleTextOfLine, Lines(text)) && envs == Envs(text)
  {
    rulesText, envs := "", [];
    var rest := text;
    while rest != ""
      invariant rulesText + Flat(RuleTextOfLine, Lines(rest)) == Flat(RuleTextOfLine, Lines(text))
      invariant envs + Flat(EnvsOfLine, Lines(rest)) == Envs(text)
      decreases |rest|
    {
      FirstLineOff(RuleTextOfLine, rest);
      FirstLineOff(EnvsOfLine, rest);
      var eol := FirstNewline(rest);
      var ruleLine, envLine := ExtractLine(rest[..eol], eol < |rest|);
      Regroup(rulesText, ruleLine, Flat(RuleTextOfLine, Lines(AfterLine(rest))));
      Regroup(envs, envLine, Flat(EnvsOfLine, Lines(AfterLine(rest))));
      rulesText, envs := rulesText + ruleLine, envs + envLine;
      rest := if eol < |rest| then rest[eol + 1..] else "";
    }
  }

  lemma {:induction false} NoPrefixNoEnvs(text: string)
    requires !Occurs(text, ENV_PREFIX)
    ensures Envs(text) == []
    decreases |text|
  {
    if text != "" {
      var k := FirstNewline(text);
      var line := text[..k];
      assert ENV_PREFIX <= line ==> OccursAt(text, ENV_PREFIX, 0);
      if k < |text| {
        var rest := text[k + 1..];
        assert text == text[..k + 1] + rest + "";
        PartHasNone(rest, text[..k + 1], "", ENV_PREFIX);
        NoPrefixNoEnvs(rest);
        FlatCons(EnvsOfLine, Line(line, true), Lines(rest));
      } else {
        FlatOne(EnvsOfLine, Line(text, false));
      }
    }
  }

  method ParseDepFile(text: string) returns (r: Option<DepFile>)
    ensures r == Parse(text)
  {
    var rulesText: string, envs: seq<Env> := "", [];
    if Occurs(text, ENV_PREFIX) {
      rulesText, envs := ExtractEnvDeps(text);
    } else {
      NoPrefixNoEnvs(text);
    }
    var input := if envs == [] then text else rulesText;
    var rules := ParseRules(input);
    r := if rules.None? then None else Some(DepFile(rules.value, envs));
  }
}
