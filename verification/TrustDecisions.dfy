/** When the trust engine allows, asks or denies, told from membership in its rules and grants. */
module TrustDecisions {
  import opened Text
  import opened Trust

  // ---------------------------------------------------------------- what patterns cover

  predicate StartsWith(s: string, t: string) {
    t <= s
  }

  /** A pattern covers a tool name if it is "*", the name itself, or a front of it and a star; patterns
      for commands and paths cover no name. */
  lemma NamePattern(pattern: string, tool: string)
    ensures MatchToolPattern(pattern, tool) <==>
      || pattern == "*"
      || (&& !StartsWith(pattern, "path:") && !StartsWith(pattern, "bash:")
          && (pattern == tool || exists n :: 0 <= n <= |tool| && pattern == tool[..n] + "*"))
  {
    if MatchToolPattern(pattern, tool) && pattern != "*" && pattern != tool {
      var n := |pattern| - 1;
      assert pattern[n..] == "*" && pattern == pattern[..n] + pattern[n..];
      assert pattern == tool[..n] + "*";
    }
    if n :| 0 <= n <= |tool| && pattern == tool[..n] + "*" {
      assert pattern[..n] == tool[..n] && pattern[n..] == "*";
    }
  }

  /** A pattern covers a command line if it is "*", "bash:*", the line after "bash:", or "bash:c *" where
      `c` is the first field of the line, or its beginning up to some blank. */
  lemma CommandPattern(pattern: string, cmd: string)
    ensures MatchCommandPattern(pattern, cmd) <==>
      || pattern == "*" || pattern == "bash:*" || pattern == "bash:" + cmd
      || (FirstField(cmd) != "" && pattern == "bash:" + FirstField(cmd) + " *")
      || exists n :: 0 <= n < |cmd| && cmd[n] == ' ' && pattern == "bash:" + cmd[..n] + " *"
  {
    hide FirstField;
    if MatchCommandPattern(pattern, cmd) && pattern != "*" {
      var bash := pattern[5..];
      assert pattern == pattern[..5] + bash;
      if HasSuffix(bash, " *") {
        var c := bash[..|bash| - 2];
        assert bash == c + " *" && pattern == "bash:" + c + " *";
        CommandStar(c, cmd);
        if HasPrefix(cmd, c + " ") {
          assert cmd[..|c| + 1] == c + " " && cmd[|c|] == (c + " ")[|c|] == ' ' && cmd[..|c|] == (c + " ")[..|c|] == c;
        }
      }
    }
    if n :| 0 <= n < |cmd| && cmd[n] == ' ' && pattern == "bash:" + cmd[..n] + " *" {
      CommandStar(cmd[..n], cmd);
      assert cmd[..n + 1] == cmd[..n] + " ";
    }
    if FirstField(cmd) != "" && pattern == "bash:" + FirstField(cmd) + " *" {
      CommandStar(FirstField(cmd), cmd);
    }
    assert ("bash:" + cmd)[5..] == cmd && "bash:*"[5..] == "*";
  }

  /** A pattern covers a path if what follows "path:" matches it as a glob, a leading ~ standing for the
      home directory where that is known. */
  lemma PathPattern(paths: Paths, pattern: string, path: string)
    ensures paths.Match(pattern, path) <==>
      exists glob: string :: pattern == "path:" + glob
        && paths.glob(if "~/" <= glob && paths.home.Some? then paths.home.value + glob[1..] else glob, path)
  {
    if HasPrefix(pattern, "path:") {
      assert pattern == "path:" + pattern[5..];
    }
    if glob: string :| pattern == "path:" + glob {
      assert pattern[5..] == glob;
    }
  }

  /** A Claude Code pattern for a command with any arguments becomes one with a star, one for a single
      command line becomes that line, and a pattern for anything else stays as it is. */
  lemma NormalizeClaudeMeans(inner: string, pattern: string)
    ensures NormalizeClaude("Bash(" + inner + ":*)") == "bash:" + inner + " *"
    ensures !HasSuffix(inner, ":*") ==> NormalizeClaude("Bash(" + inner + ")") == "bash:" + inner
    ensures !HasPrefix(pattern, "Bash(") || !HasSuffix(pattern, ")") ==> NormalizeClaude(pattern) == pattern
  {
    NormalizeWildcard(inner);
    var whole := "Bash(" + inner + ")";
    assert whole[5..|whole| - 1] == inner && whole[..5] == "Bash(" && whole[|whole| - 1..] == ")";
    var last := LastIndex(inner, ":");
    if last.Some? && inner[last.value + 1..] == "*" {
      assert inner[last.value..last.value + 1] == ":" && inner[last.value..] == ":" + inner[last.value + 1..];
    }
  }

  // ---------------------------------------------------------------- rules, grants, policy

  /** Some rule in force that covers the tool in this scope has this action. */
  ghost predicate RuleSays(e: Engine, tool: string, scope: string, action: Action) {
    exists r :: (r in e.preset || r in e.explicit) && r.scope in {"", "global", scope}
                && MatchToolPattern(r.pattern, tool) && r.action == action
  }

  ghost predicate CommandRuleSays(e: Engine, cmd: string, action: Action) {
    exists r :: (r in e.preset || r in e.explicit) && MatchCommandPattern(r.pattern, cmd) && r.action == action
  }

  ghost predicate PathRuleSays(e: Engine, path: string, action: Action) {
    exists r :: (r in e.preset || r in e.explicit) && e.paths.Match(r.pattern, path) && r.action == action
  }

  /** The stored grant is about the tool, in this scope or everywhere. */
  predicate Concerns(e: Engine, g: Grant, tool: string, scope: string) {
    && g.scope in {scope, "global"}
    && (MatchToolPattern(g.pattern, tool) || MatchCommandPattern(g.pattern, tool) || e.paths.Match(g.pattern, tool))
  }

  ghost predicate GrantSays(e: Engine, tool: string, scope: string, action: Action) {
    e.grants.Some? && exists g :: g in e.grants.value && Concerns(e, g, tool, scope) && g.action == action
  }

  ghost predicate GrantSpeaks(e: Engine, tool: string, scope: string) {
    e.grants.Some? && exists g :: g in e.grants.value && Concerns(e, g, tool, scope)
  }

  /** The policy is asked for the agent named by the scope. */
  predicate PolicyAllows(e: Engine, tool: string, scope: string) {
    e.policy.Some? && e.policy.value(tool, if "agent:" <= scope then scope[|"agent:"|..] else "")
  }

  // ---------------------------------------------------------------- the decisions

  lemma RuleSaysMeans(e: Engine, tool: string, scope: string, action: Action)
    ensures RuleSays(e, tool, scope, action) <==> action in Matched(e.Rules(), ToolRule(tool, scope))
  {
    hide MatchToolPattern;
    MatchedMembers(e.Rules(), ToolRule(tool, scope), action);
    if RuleSays(e, tool, scope, action) {
      var r :| (r in e.preset || r in e.explicit) && r.scope in {"", "global", scope}
               && MatchToolPattern(r.pattern, tool) && r.action == action;
      assert r in e.Rules() && ToolRule(tool, scope)(r);
    }
  }

  lemma GrantSaysMeans(e: Engine, tool: string, scope: string, action: Action)
    requires e.grants.Some?
    ensures GrantSays(e, tool, scope, action) <==> action in GrantedActions(e.paths, e.grants.value, tool, scope)
    ensures GrantSpeaks(e, tool, scope) <==> GrantedActions(e.paths, e.grants.value, tool, scope) != []
  {
    hide MatchToolPattern, MatchCommandPattern, Paths.Match;
    var rows := e.grants.value;
    var actions := GrantedActions(e.paths, rows, tool, scope);
    GrantedMembers(e.paths, rows, tool, scope, action);
    if actions != [] {
      GrantedMembers(e.paths, rows, tool, scope, actions[0]);
    }
    if g :| g in rows && Concerns(e, g, tool, scope) {
      assert GrantApplies(e.paths, g, tool, scope);
      GrantedMembers(e.paths, rows, tool, scope, g.action);
    }
    assert forall g :: g in rows ==> GrantApplies(e.paths, g, tool, scope) == Concerns(e, g, tool, scope);
  }

  /** A tool is allowed exactly if no rule denies it and some rule allows it, or no rule decides and the
      grants about it allow it, or there are none and the policy does; it is asked about exactly if a
      rule asks and none denies or allows, or no rule decides and the grants about it neither deny nor
      allow; in every other case it is denied. */
  lemma ToolDecision(e: Engine, tool: string, scope: string)
    ensures var denied, allowed, asked :=
        RuleSays(e, tool, scope, Deny), RuleSays(e, tool, scope, Allow), RuleSays(e, tool, scope, Ask);
      var granted, speaks, refused :=
        GrantSays(e, tool, scope, Allow), GrantSpeaks(e, tool, scope), GrantSays(e, tool, scope, Deny);
      var d := e.Evaluate(tool, scope);
      && (d == Allow <==>
            (!denied && (allowed || (!asked && if speaks then granted && !refused else PolicyAllows(e, tool, scope)))))
      && (d == Ask <==> !denied && !allowed && (asked || (speaks && !granted && !refused)))
      && (d == Deny <==> denied || (!allowed && !asked && if speaks then refused else !PolicyAllows(e, tool, scope)))
  {
    hide GrantedActions, Matched, RuleSays, GrantSays, GrantSpeaks;
    RuleSaysMeans(e, tool, scope, Deny);
    RuleSaysMeans(e, tool, scope, Allow);
    RuleSaysMeans(e, tool, scope, Ask);
    if e.grants.Some? {
      GrantSaysMeans(e, tool, scope, Deny);
      GrantSaysMeans(e, tool, scope, Allow);
    } else {
      NoGrants(e, tool, scope);
    }
  }

  lemma NoGrants(e: Engine, tool: string, scope: string)
    requires e.grants.None?
    ensures !GrantSpeaks(e, tool, scope) && forall a :: !GrantSays(e, tool, scope, a)
  {
  }

  /** A command line is denied if a rule denies it or none allows it or asks; an Allow rule beats Ask. */
  lemma CommandDecision(e: Engine, cmd: string)
    ensures var denied, allowed, asked :=
        CommandRuleSays(e, cmd, Deny), CommandRuleSays(e, cmd, Allow), CommandRuleSays(e, cmd, Ask);
      var d := e.EvaluateCommand(cmd);
      && (d == Allow <==> allowed && !denied)
      && (d == Ask <==> asked && !allowed && !denied)
      && (d == Deny <==> denied || (!allowed && !asked))
  {
    hide MatchCommandPattern;
    forall a: Action ensures a in Matched(e.Rules(), CommandRule(cmd)) <==> CommandRuleSays(e, cmd, a) {
      MatchedMembers(e.Rules(), CommandRule(cmd), a);
      if CommandRuleSays(e, cmd, a) {
        var r :| (r in e.preset || r in e.explicit) && MatchCommandPattern(r.pattern, cmd) && r.action == a;
        assert r in e.Rules() && CommandRule(cmd)(r);
      }
    }
  }

  /** Likewise for a path. */
  lemma PathDecision(e: Engine, path: string)
    ensures var denied, allowed, asked :=
        PathRuleSays(e, path, Deny), PathRuleSays(e, path, Allow), PathRuleSays(e, path, Ask);
      var d := e.EvaluatePath(path);
      && (d == Allow <==> allowed && !denied)
      && (d == Ask <==> asked && !allowed && !denied)
      && (d == Deny <==> denied || (!allowed && !asked))
  {
    hide Paths.Match;
    forall a: Action ensures a in Matched(e.Rules(), PathRule(e.paths, path)) <==> PathRuleSays(e, path, a) {
      MatchedMembers(e.Rules(), PathRule(e.paths, path), a);
      if PathRuleSays(e, path, a) {
        var r :| (r in e.preset || r in e.explicit) && e.paths.Match(r.pattern, path) && r.action == a;
        assert r in e.Rules() && PathRule(e.paths, path)(r);
      }
    }
  }

  // ---------------------------------------------------------------- the built-in modes

  /** The decision on a name if the rules are these and nothing else speaks. */
  function Alone(rules: seq<Rule>, mode: string, paths: Paths): Engine {
    Engine(rules, [], mode, paths, None, None)
  }

  lemma StemPattern(stem: string, tool: string)
    ensures MatchToolPattern("blackboard_*", tool) <==> "blackboard_" <= tool
    ensures forall cmd :: !MatchToolPattern("bash:" + cmd, tool) && !MatchToolPattern("path:" + cmd, tool)
  {
    assert "blackboard_*" == "blackboard_" + "*" && ("blackboard_" + "*")[0] == 'b' && ("blackboard_" + "*")[1] == 'l';
    TrailingStar("blackboard_", tool);
    forall cmd: string ensures !MatchToolPattern("bash:" + cmd, tool) && !MatchToolPattern("path:" + cmd, tool) {
      assert ("bash:" + cmd)[..5] == "bash:" && ("path:" + cmd)[..5] == "path:";
      assert ("bash:" + cmd)[0] == 'b' && ("path:" + cmd)[0] == 'p';
    }
  }

  lemma ExactPattern(name: string, tool: string)
    requires name != "" && name[|name| - 1] != '*' && name[0] != 'b' && name[0] != 'p'
    ensures MatchToolPattern(name, tool) <==> name == tool
  {
    assert !HasPrefix(name, "path:") && !HasPrefix(name, "bash:");
  }

  lemma ForeignPatterns(tool: string)
    ensures !MatchToolPattern("bash:git *", tool) && !MatchToolPattern("bash:go *", tool)
    ensures !MatchToolPattern("bash:*", tool) && !MatchToolPattern("bash:rm -rf /*", tool)
    ensures !MatchToolPattern("bash:sudo *", tool)
    ensures !MatchToolPattern("path:~/.ssh/*", tool) && !MatchToolPattern("path:~/.aws/*", tool)
  {
    StemPattern("", tool);
    hide MatchToolPattern;
    assert "bash:git *" == "bash:" + "git *" && "bash:go *" == "bash:" + "go *" && "bash:*" == "bash:" + "*";
    assert "path:~/.ssh/*" == "path:" + "~/.ssh/*" && "path:~/.aws/*" == "path:" + "~/.aws/*";
    assert "bash:rm -rf /*" == "bash:" + "rm -rf /*" && "bash:sudo *" == "bash:" + "sudo *";
  }

  predicate Read(tool: string) {
    tool == "file_read" || "blackboard_" <= tool
  }

  predicate Harmless(tool: string) {
    Read(tool) || tool == "send_message"
  }

  lemma NamePatterns(tool: string)
    ensures MatchToolPattern("file_read", tool) <==> tool == "file_read"
    ensures MatchToolPattern("blackboard_*", tool) <==> "blackboard_" <= tool
    ensures MatchToolPattern("send_message", tool) <==> tool == "send_message"
    ensures MatchToolPattern("file_write", tool) <==> tool == "file_write"
    ensures MatchToolPattern("*", tool)
  {
    StemPattern("", tool);
    ExactPattern("file_read", tool);
    ExactPattern("send_message", tool);
    ExactPattern("file_write", tool);
  }

  /** Some rule at one of the first `n` places covers the name and has this action. */
  ghost predicate Among(rules: seq<Rule>, n: nat, tool: string, action: Action)
    requires n <= |rules|
  {
    exists k :: 0 <= k < n && MatchToolPattern(rules[k].pattern, tool) && rules[k].action == action
  }

  lemma AmongNext(rules: seq<Rule>, n: nat, tool: string, action: Action)
    requires n < |rules|
    ensures Among(rules, n + 1, tool, action) <==>
      Among(rules, n, tool, action) || (MatchToolPattern(rules[n].pattern, tool) && rules[n].action == action)
    ensures !Among(rules, 0, tool, action)
  {
    hide MatchToolPattern;
  }

  lemma Decides(rules: seq<Rule>, mode: string, paths: Paths, tool: string, scope: string)
    requires forall k :: 0 <= k < |rules| ==> rules[k].scope == ""
    ensures Alone(rules, mode, paths).Evaluate(tool, scope) ==
      if Among(rules, |rules|, tool, Deny) then Deny
      else if Among(rules, |rules|, tool, Allow) then Allow
      else if Among(rules, |rules|, tool, Ask) then Ask
      else Deny
  {
    hide MatchToolPattern, Engine.Evaluate;
    var e := Alone(rules, mode, paths);
    ToolDecision(e, tool, scope);
    NoGrants(e, tool, scope);
    forall a ensures RuleSays(e, tool, scope, a) <==> Among(rules, |rules|, tool, a) {
      if k :| 0 <= k < |rules| && MatchToolPattern(rules[k].pattern, tool) && rules[k].action == a {
        assert rules[k] in e.preset;
      }
    }
  }

  /** The conservative mode, left to itself. */
  lemma ConservativeDecides(paths: Paths, tool: string, scope: string)
    ensures ModePreset("conservative") == Some(CONSERVATIVE)
    ensures Alone(CONSERVATIVE, "conservative", paths).Evaluate(tool, scope)
         == if Harmless(tool) then Allow else if tool == "file_write" then Ask else Deny
  {
    hide MatchToolPattern, Engine.Evaluate, Among;
    NamePatterns(tool);
    ForeignPatterns(tool);
    Decides(CONSERVATIVE, "conservative", paths, tool, scope);
    ConservativeRules(tool, Deny);
    ConservativeRules(tool, Allow);
    ConservativeRules(tool, Ask);
  }

  lemma ConservativeRules(tool: string, a: Action)
    ensures Among(CONSERVATIVE, 9, tool, a) <==> (a == Allow && Harmless(tool)) || (a == Ask && tool == "file_write")
  {
    hide MatchToolPattern, Among;
    NamePatterns(tool);
    ForeignPatterns(tool);
    AmongNext(CONSERVATIVE, 0, tool, a);
    for n := 0 to 9
      invariant Among(CONSERVATIVE, n, tool, a) <==>
        || (a == Allow && n > 0 && tool == "file_read")
        || (a == Allow && n > 1 && "blackboard_" <= tool)
        || (a == Allow && n > 2 && tool == "send_message")
        || (a == Ask && n > 5 && tool == "file_write")
    {
      AmongNext(CONSERVATIVE, n, tool, a);
    }
  }

  /** The other modes: everything is allowed, or asked about unless it only reads. */
  lemma OtherModesDecide(paths: Paths, tool: string, scope: string)
    ensures ModePreset("permissive") == Some(PERMISSIVE) && ModePreset("sandbox") == Some(SANDBOX)
    ensures ModePreset("locked") == Some(LOCKED)
    ensures Alone(PERMISSIVE, "permissive", paths).Evaluate(tool, scope) == Allow
    ensures Alone(SANDBOX, "sandbox", paths).Evaluate(tool, scope) == Allow
    ensures Alone(LOCKED, "locked", paths).Evaluate(tool, scope) == if Read(tool) then Allow else Ask
  {
    hide MatchToolPattern, Engine.Evaluate;
    NamePatterns(tool);
    ForeignPatterns(tool);
    Decides(PERMISSIVE, "permissive", paths, tool, scope);
    Decides(SANDBOX, "sandbox", paths, tool, scope);
    Decides(LOCKED, "locked", paths, tool, scope);
    assert PERMISSIVE[0].pattern == SANDBOX[0].pattern == LOCKED[2].pattern == "*";
    assert LOCKED[0].pattern == "file_read" && LOCKED[1].pattern == "blackboard_*";
  }
}
