// The command registry (internal/command/registry.go): which names and aliases lead to which
// command, and why checking a registered command's permission cannot fail. Case folding of
// arbitrary text is a parameter; it leaves command tokens alone.
module Registry {
  import opened Prelude
  import opened Permission
  import opened Strings

  type Fold = string -> string

  datatype Command = Command(name: string, aliases: seq<string>, permission: Text, runs: bool)

  datatype Registry = Registry(commands: map<string, Command>, tokens: map<string, string>)

  datatype ErrorCode = InvalidArgument | Conflict

  datatype Built = Built(registry: Registry) | Refused(code: ErrorCode)

  const NOTHING := Registry(map[], map[])

  predicate IsTokenChar(c: char) {
    'a' <= c <= 'z' || '0' <= c <= '9' || c == '-'
  }

  /** A lower-case letter followed by up to 62 letters, digits or hyphens. */
  predicate IsToken(s: string) {
    1 <= |s| <= 63 && 'a' <= s[0] <= 'z' && forall k | 0 <= k < |s| :: IsTokenChar(s[k])
  }

  ghost predicate KeepsTokens(fold: Fold) {
    forall s | IsToken(s) :: fold(s) == s
  }

  predicate IsBlank(u: Unit) {
    u.Rune? && IsSpace(u.c)
  }

  function TrimText(text: Text): (r: Text)
    ensures |r| <= |text|
  {
    if text != [] && IsBlank(text[0]) then TrimText(text[1..])
    else if text != [] && IsBlank(text[|text| - 1]) then TrimText(text[..|text| - 1])
    else text
  }

  function Token(fold: Fold, s: string): string {
    fold(Trim(s))
  }

  lemma TokensKeep(fold: Fold, s: string)
    requires IsToken(s) && KeepsTokens(fold)
    ensures Trim(s) == s && Token(fold, s) == s
  {
    assert !IsSpace(s[0]) by {
      assert IsTokenChar(s[0]);
    }
    assert TrimLeft(s) == s;
    assert IsTokenChar(s[|s| - 1]);
  }

  // ---- Building ------------------------------------------------------------------

  /** Claims the tokens of one command, the name first. */
  function ClaimTokens(tokens: map<string, string>, owner: string, wanted: seq<string>, fold: Fold): (r: Built)
    decreases |wanted|
  {
    if wanted == [] then Built(Registry(map[], tokens))
    else
      var token := Token(fold, wanted[0]);
      if !IsToken(token) then Refused(InvalidArgument)
      else if token in tokens then Refused(Conflict)
      else ClaimTokens(tokens[token := owner], owner, wanted[1..], fold)
  }

  function Tokens(fold: Fold, names: seq<string>): (r: seq<string>)
    ensures |r| == |names| && forall k | 0 <= k < |names| :: r[k] == Token(fold, names[k])
  {
    seq(|names|, i requires 0 <= i < |names| => Token(fold, names[i]))
  }

  predicate Acceptable(cmd: Command) {
    IsToken(cmd.name) && cmd.runs && TrimText(cmd.permission) != [] && Evaluated(TrimText(cmd.permission), NO_FACTS).Some?
  }

  function Stored(cmd: Command, fold: Fold): Command {
    cmd.(permission := TrimText(cmd.permission), aliases := Tokens(fold, cmd.aliases))
  }

  function Register(registry: Registry, cmd: Command, fold: Fold): Built {
    if !Acceptable(cmd) then Refused(InvalidArgument)
    else
      match ClaimTokens(registry.tokens, cmd.name, [cmd.name] + cmd.aliases, fold)
      case Refused(code) => Refused(code)
      case Built(claimed) => Built(Registry(registry.commands[cmd.name := Stored(cmd, fold)], claimed.tokens))
  }

  function RegisterAll(registry: Registry, cmds: seq<Command>, fold: Fold): Built
    decreases |cmds|
  {
    if cmds == [] then Built(registry)
    else
      match Register(registry, cmds[0], fold)
      case Refused(code) => Refused(code)
      case Built(next) => RegisterAll(next, cmds[1..], fold)
  }

  /** NewRegistry as a function of the commands. */
  function Result(cmds: seq<Command>, fold: Fold): Built {
    if cmds == [] then Refused(InvalidArgument) else RegisterAll(NOTHING, cmds, fold)
  }

  lemma ClaimsNext(tokens: map<string, string>, owner: string, wanted: seq<string>, index: nat, fold: Fold)
    requires index < |wanted|
    ensures var token := Token(fold, wanted[index]);
            ClaimTokens(tokens, owner, wanted[index..], fold) ==
              if !IsToken(token) then Refused(InvalidArgument)
              else if token in tokens then Refused(Conflict)
              else ClaimTokens(tokens[token := owner], owner, wanted[index + 1..], fold)
  {
    hide Token, IsToken;
    assert wanted[index..][0] == wanted[index] && wanted[index..][1..] == wanted[index + 1..];
  }

  lemma NoneLeft(tokens: map<string, string>, owner: string, wanted: seq<string>, fold: Fold)
    ensures ClaimTokens(tokens, owner, wanted[|wanted|..], fold) == Built(Registry(map[], tokens))
  {
  }

  /** The inner loop of NewRegistry: the name and the aliases of one command are claimed. */
  method AddTokens(claimed: map<string, string>, cmd: Command, fold: Fold)
    returns (result: Built, aliases: seq<string>)
    ensures result == ClaimTokens(claimed, cmd.name, [cmd.name] + cmd.aliases, fold)
    ensures result.Built? ==> aliases == Tokens(fold, cmd.aliases)
  {
    hide ClaimTokens, Token, IsToken;
    var wanted := [cmd.name] + cmd.aliases;
    var tokens := claimed;
    aliases := [];
    var index := 0;
    assert wanted[0..] == wanted;
    while index < |wanted|
      invariant 0 <= index <= |wanted|
      invariant ClaimTokens(claimed, cmd.name, wanted, fold) == ClaimTokens(tokens, cmd.name, wanted[index..], fold)
      invariant |aliases| == (if index == 0 then 0 else index - 1)
      invariant forall k | 0 <= k < |aliases| :: aliases[k] == Token(fold, cmd.aliases[k])
    {
      ClaimsNext(tokens, cmd.name, wanted, index, fold);
      var token := Token(fold, wanted[index]);
      if !IsToken(token) {
        return Refused(InvalidArgument), [];
      }
      if token in tokens {
        return Refused(Conflict), [];
      }
      tokens := tokens[token := cmd.name];
      if index > 0 {
        aliases := aliases + [token];
      }
      index := index + 1;
    }
    NoneLeft(tokens, cmd.name, wanted, fold);
    return Built(Registry(map[], tokens)), aliases;
  }

  method NewRegistry(cmds: seq<Command>, fold: Fold) returns (result: Built)
    ensures result == Result(cmds, fold)
  {
    if |cmds| == 0 {
      return Refused(InvalidArgument);
    }
    var registry := NOTHING;
    var done := 0;
    assert cmds[0..] == cmds;
    while done < |cmds|
      invariant 0 <= done <= |cmds|
      invariant RegisterAll(NOTHING, cmds, fold) == RegisterAll(registry, cmds[done..], fold)
    {
      var cmd := cmds[done];
      assert cmds[done..][0] == cmd && cmds[done..][1..] == cmds[done + 1..];
      var next := AddCommand(registry, cmd, fold);
      if next.Refused? {
        return next;
      }
      registry := next.registry;
      done := done + 1;
    }
    return Built(registry);
  }

  /** One round of NewRegistry. */
  method AddCommand(registry: Registry, cmd: Command, fold: Fold) returns (result: Built)
    ensures result == Register(registry, cmd, fold)
  {
    var permission := TrimText(cmd.permission);
    if !IsToken(cmd.name) || !cmd.runs || permission == [] {
      return Refused(InvalidArgument);
    }
    var value := Evaluate(permission, NO_FACTS);
    if value == None {
      return Refused(InvalidArgument);
    }
    var claimed, aliases := AddTokens(registry.tokens, cmd, fold);
    if claimed.Refused? {
      return claimed;
    }
    return Built(Registry(registry.commands[cmd.name := cmd.(permission := permission, aliases := aliases)], claimed.registry.tokens));
  }

  // ---- Using it --------------------------------------------------------------------

  datatype Request = Request(name: string, arguments: string, argumentsPresent: bool)

  function Lookup(registry: Registry, name: string, fold: Fold): Option<Command> {
    var token := Token(fold, name);
    if token in registry.tokens && registry.tokens[token] in registry.commands
    then Some(registry.commands[registry.tokens[token]]) else None
  }

  /** Registry.Parse: what a message text asks for, if it names a registered command. */
  function Parse(registry: Registry, text: string, fold: Fold): Option<Request> {
    if text == [] || text[0] != '/' then None
    else
      var rest := text[1..];
      var end := Find(rest, ' ', 0);
      var token := Token(fold, rest[..end]);
      if token !in registry.tokens then None
      else Some(Request(registry.tokens[token], if end < |rest| then rest[end + 1..] else "", end < |rest|))
  }

  /** Registry.Allows; an error is no answer. */
  method Allows(registry: Registry, request: Request, facts: Facts, fold: Fold) returns (allowed: Option<bool>)
    ensures var cmd := Lookup(registry, request.name, fold);
            allowed == if cmd.None? then None else Evaluated(cmd.value.permission, facts)
  {
    var cmd := Lookup(registry, request.name, fold);
    if cmd == None {
      return None;
    }
    allowed := Evaluate(cmd.value.permission, facts);
  }

  // ---- What a built registry promises -------------------------------------------------

  /** Every token leads to a command that knows its own name and has a valid permission. */
  ghost predicate Coherent(registry: Registry) {
    && (forall name | name in registry.commands ::
          && IsToken(name) && registry.commands[name].name == name && registry.commands[name].runs
          && name in registry.tokens && registry.tokens[name] == name
          && forall facts :: Evaluated(registry.commands[name].permission, facts).Some?)
    && (forall token | token in registry.tokens :: IsToken(token) && registry.tokens[token] in registry.commands)
  }

  /** The wanted tokens are valid, free and all different. */
  ghost predicate Claimable(tokens: map<string, string>, list: seq<string>) {
    && (forall t | t in list :: IsToken(t) && t !in tokens)
    && Distinct(list)
  }

  lemma ClaimableStep(tokens: map<string, string>, token: string, rest: seq<string>, owner: string)
    ensures Claimable(tokens, [token] + rest) <==> IsToken(token) && token !in tokens && Claimable(tokens[token := owner], rest)
  {
    var list := [token] + rest;
    assert forall t :: t in list <==> t == token || t in rest;
    if Distinct(list) {
      DistinctParts([token], rest);
    }
    if Distinct(rest) && token !in rest {
      DistinctJoin([token], rest);
    }
  }

  lemma NothingToClaim(tokens: map<string, string>)
    ensures Claimable(tokens, [])
  {
  }

  /** Claiming succeeds exactly on valid, free and distinct tokens, and gives them this owner. */
  lemma {:induction false} ClaimedTokens(tokens: map<string, string>, owner: string, wanted: seq<string>, fold: Fold)
    ensures var r := ClaimTokens(tokens, owner, wanted, fold);
            && (r.Built? <==> Claimable(tokens, Tokens(fold, wanted)))
            && (r.Built? ==> forall t :: t in r.registry.tokens <==> t in tokens || t in Tokens(fold, wanted))
            && (r.Built? ==> forall t | t in r.registry.tokens :: r.registry.tokens[t] == if t in tokens then tokens[t] else owner)
    decreases |wanted|
  {
    hide Claimable, IsToken, Token;
    if wanted == [] {
      NothingToClaim(tokens);
      assert Tokens(fold, wanted) == [];
    } else {
      var token := Token(fold, wanted[0]);
      var rest := Tokens(fold, wanted[1..]);
      assert Tokens(fold, wanted) == [token] + rest;
      ClaimableStep(tokens, token, rest, owner);
      hide Tokens;
      ClaimedTokens(tokens[token := owner], owner, wanted[1..], fold);
    }
  }

  lemma AcceptableForAll(cmd: Command)
    requires Acceptable(cmd)
    ensures forall facts :: Evaluated(TrimText(cmd.permission), facts).Some?
  {
  }

  lemma ClaimableTokens(tokens: map<string, string>, list: seq<string>)
    requires Claimable(tokens, list)
    ensures forall t | t in list :: IsToken(t) && t !in tokens
  {
  }

  lemma RegisterKeeps(registry: Registry, cmd: Command, fold: Fold)
    requires Coherent(registry) && KeepsTokens(fold) && Register(registry, cmd, fold).Built?
    ensures Coherent(Register(registry, cmd, fold).registry)
  {
    hide IsToken, Token, Evaluated, TrimText, KeepsTokens, ClaimTokens, Trim;
    var wanted := [cmd.name] + cmd.aliases;
    ClaimedTokens(registry.tokens, cmd.name, wanted, fold);
    AcceptableForAll(cmd);
    TokensKeep(fold, cmd.name);
    assert wanted[0] == cmd.name && Tokens(fold, wanted)[0] == cmd.name;
    ClaimableTokens(registry.tokens, Tokens(fold, wanted));
    hide Claimable, Tokens;
  }

  lemma {:induction false} RegisterAllKeeps(registry: Registry, cmds: seq<Command>, fold: Fold)
    requires Coherent(registry) && KeepsTokens(fold) && RegisterAll(registry, cmds, fold).Built?
    ensures Coherent(RegisterAll(registry, cmds, fold).registry)
    decreases |cmds|
  {
    if cmds != [] {
      RegisterKeeps(registry, cmds[0], fold);
      hide Coherent, Register;
      RegisterAllKeeps(Register(registry, cmds[0], fold).registry, cmds[1..], fold);
    }
  }

  /** Once a registry was built, a message it recognizes names a registered command, and asking
      whether the sender may run it has an answer for every sender. */
  lemma RegisteredCommandsNeverErr(cmds: seq<Command>, fold: Fold, text: string, facts: Facts)
    requires KeepsTokens(fold) && Result(cmds, fold).Built? && Parse(Result(cmds, fold).registry, text, fold).Some?
    ensures var registry := Result(cmds, fold).registry;
            var request := Parse(registry, text, fold).value;
            var cmd := Lookup(registry, request.name, fold);
            cmd.Some? && cmd.value.name == request.name && Evaluated(cmd.value.permission, facts).Some?
  {
    hide IsToken, Token, Evaluated, TrimText, KeepsTokens, Trim, RegisterAll, Find;
    RegisterAllKeeps(NOTHING, cmds, fold);
    var registry := Result(cmds, fold).registry;
    var request := Parse(registry, text, fold).value;
    assert registry.commands[request.name].name == request.name;
    TokensKeep(fold, request.name);
  }

  /** The canonical tokens of all commands, in order. */
  function AllTokens(cmds: seq<Command>, fold: Fold): seq<string> {
    if cmds == [] then [] else Tokens(fold, [cmds[0].name] + cmds[0].aliases) + AllTokens(cmds[1..], fold)
  }

  lemma ClaimableParts(tokens: map<string, string>, a: seq<string>, b: seq<string>, claimed: map<string, string>)
    requires forall t :: t in claimed <==> t in tokens || t in a
    ensures Claimable(tokens, a + b) <==> Claimable(tokens, a) && Claimable(claimed, b)
  {
    assert forall t :: t in a + b <==> t in a || t in b;
    if Distinct(a + b) {
      DistinctParts(a, b);
    }
    if Distinct(a) && Distinct(b) && forall t | t in a :: t !in b {
      DistinctJoin(a, b);
    }
  }

  /** Building succeeds exactly when every command is acceptable on its own and no two names or
      aliases, trimmed and folded, collide. */
  lemma {:induction false} BuiltExactlyWhenTokensAreFree(registry: Registry, cmds: seq<Command>, fold: Fold)
    ensures RegisterAll(registry, cmds, fold).Built? <==>
            (forall cmd | cmd in cmds :: Acceptable(cmd)) && Claimable(registry.tokens, AllTokens(cmds, fold))
    decreases |cmds|
  {
    if cmds != [] {
      var wanted := [cmds[0].name] + cmds[0].aliases;
      assert forall cmd :: cmd in cmds <==> cmd == cmds[0] || cmd in cmds[1..];
      ClaimedTokens(registry.tokens, cmds[0].name, wanted, fold);
      var claimed := ClaimTokens(registry.tokens, cmds[0].name, wanted, fold);
      hide Acceptable, Tokens, ClaimTokens;
      if Acceptable(cmds[0]) && claimed.Built? {
        ClaimableParts(registry.tokens, Tokens(fold, wanted), AllTokens(cmds[1..], fold), claimed.registry.tokens);
        hide Claimable;
        BuiltExactlyWhenTokensAreFree(Register(registry, cmds[0], fold).registry, cmds[1..], fold);
      } else {
        assert forall t :: t in AllTokens(cmds, fold) <==> t in Tokens(fold, wanted) || t in AllTokens(cmds[1..], fold);
        if Distinct(AllTokens(cmds, fold)) {
          DistinctParts(Tokens(fold, wanted), AllTokens(cmds[1..], fold));
        }
      }
    }
  }
}
