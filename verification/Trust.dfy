/** Trust rules and persistent grants (policy/trust.go, policy/store.go). */
module Trust {
  import opened Text

  /** A trust decision. Rules and stored grants may carry any other text, which decides nothing. */
  datatype Action = Allow | Deny | Ask | Other(text: string)

  datatype Rule = Rule(pattern: string, action: Action, scope: string)

  // ---------------------------------------------------------------- deciding among matches

  /** Deny wins, then Allow, then Ask. */
  function Decide(matched: seq<Action>): Option<Action> {
    if Deny in matched then Some(Deny)
    else if Allow in matched then Some(Allow)
    else if Ask in matched then Some(Ask)
    else None
  }

  /** Position in the order none < Ask < Allow < Deny. */
  function Strength(d: Option<Action>): nat {
    match d
    case Some(Deny) => 3
    case Some(Allow) => 2
    case Some(Ask) => 1
    case _ => 0
  }

  function Stronger(a: Option<Action>, b: Option<Action>): Option<Action> {
    if Strength(a) >= Strength(b) then a else b
  }

  /** Deciding is a homomorphism from lists of matches to the strongest decision. */
  lemma DecideJoins(a: seq<Action>, b: seq<Action>)
    ensures Decide(a + b) == Stronger(Decide(a), Decide(b))
  {
    forall x ensures x in a + b <==> x in a || x in b {
    }
  }

  /** The scans over the matches. */
  method DecideByScan(matched: seq<Action>) returns (decision: Option<Action>)
    ensures decision == Decide(matched)
  {
    for i := 0 to |matched|
      invariant Deny !in matched[..i]
    {
      if matched[i] == Deny {
        return Some(Deny);
      }
    }
    for i := 0 to |matched|
      invariant Deny !in matched && Allow !in matched[..i]
    {
      if matched[i] == Allow {
        return Some(Allow);
      }
    }
    for i := 0 to |matched|
      invariant Deny !in matched && Allow !in matched && Ask !in matched[..i]
    {
      if matched[i] == Ask {
        return Some(Ask);
      }
    }
    decision := None;
  }

  // ---------------------------------------------------------------- matching

  predicate MatchToolPattern(pattern: string, tool: string) {
    || pattern == "*"
    || (&& !HasPrefix(pattern, "path:") && !HasPrefix(pattern, "bash:")
        && (pattern == tool || (HasSuffix(pattern, "*") && HasPrefix(tool, pattern[..|pattern| - 1]))))
  }

  function SkipSpaces(s: string): string {
    if s != "" && IsSpace(s[0]) then SkipSpaces(s[1..]) else s
  }

  function UpToSpace(s: string): string {
    if s == "" || IsSpace(s[0]) then "" else [s[0]] + UpToSpace(s[1..])
  }

  /** The first of `strings.Fields(s)`, or "" when there is none. */
  function FirstField(s: string): string {
    UpToSpace(SkipSpaces(s))
  }

  predicate MatchCommandPattern(pattern: string, cmd: string) {
    || pattern == "*"
    || (&& HasPrefix(pattern, "bash:")
        && var bash := pattern[5..];
           || bash == "*"
           || (&& HasSuffix(bash, " *")
               && var prefix := bash[..|bash| - 2];
                  || (FirstField(cmd) != "" && FirstField(cmd) == prefix)
                  || HasPrefix(cmd, bash[..|bash| - 1]))
           || bash == cmd)
  }

  /** Path globbing, and the home directory if it can be found, come from outside. */
  datatype Paths = Paths(glob: (string, string) -> bool, home: Option<string>) {
    predicate Match(pattern: string, path: string) {
      && HasPrefix(pattern, "path:")
      && var p := pattern[5..];
         glob(if HasPrefix(p, "~/") && home.Some? then home.value + p[1..] else p, path)
    }
  }

  /** A trailing star stands for any end of a tool name, unless the pattern is for commands or paths. */
  lemma TrailingStar(front: string, tool: string)
    requires !HasPrefix(front + "*", "path:") && !HasPrefix(front + "*", "bash:")
    ensures MatchToolPattern(front + "*", tool) <==> HasPrefix(tool, front)
  {
    var pattern := front + "*";
    assert pattern[..|pattern| - 1] == front && pattern[|pattern| - 1..] == "*";
  }

  /** `word` is the first field of a line that starts with it, after any blanks. */
  lemma {:induction false} FirstFieldOf(blanks: string, word: string, rest: string)
    requires Blank(blanks) && word != "" && (forall k :: 0 <= k < |word| ==> !IsSpace(word[k]))
    requires rest == "" || IsSpace(rest[0])
    ensures FirstField(blanks + word + rest) == word
  {
    var line := blanks + word + rest;
    if blanks != "" {
      assert line[1..] == blanks[1..] + word + rest && line[0] == blanks[0];
      FirstFieldOf(blanks[1..], word, rest);
    } else {
      assert line == word + rest && line[0] == word[0];
      WordThenSpace(word, rest);
    }
  }

  lemma {:induction false} WordThenSpace(word: string, rest: string)
    requires forall k :: 0 <= k < |word| ==> !IsSpace(word[k])
    requires rest == "" || IsSpace(rest[0])
    ensures UpToSpace(word + rest) == word
  {
    if word == "" {
      assert word + rest == rest;
    } else {
      assert (word + rest)[1..] == word[1..] + rest;
      WordThenSpace(word[1..], rest);
    }
  }

  /** `bash:c *` covers the lines whose first field is `c` and those that start with `c` and a blank. */
  lemma CommandStar(c: string, cmd: string)
    ensures MatchCommandPattern("bash:" + c + " *", cmd) <==>
              (FirstField(cmd) != "" && FirstField(cmd) == c) || HasPrefix(cmd, c + " ")
  {
    var pattern := "bash:" + c + " *";
    assert pattern[5..] == c + " *" && pattern[0] == 'b';
    var bash := c + " *";
    assert bash[|bash| - 2..] == " *" && bash[..|bash| - 2] == c && bash[..|bash| - 1] == c + " ";
    assert bash == cmd ==> cmd[..|c| + 1] == c + " ";
    assert |bash| > 1;
  }

  predicate MatchesScope(r: Rule, scope: string) {
    r.scope == "" || r.scope == "global" || r.scope == scope
  }

  /** The actions of the rules that `matches` accepts, in order. */
  function Matched(rules: seq<Rule>, matches: Rule -> bool): seq<Action> {
    if rules == [] then []
    else Matched(rules[..|rules| - 1], matches)
         + (if matches(rules[|rules| - 1]) then [rules[|rules| - 1].action] else [])
  }

  lemma {:induction false} MatchedMembers(rules: seq<Rule>, matches: Rule -> bool, a: Action)
    ensures a in Matched(rules, matches) <==> exists r :: r in rules && matches(r) && r.action == a
    decreases |rules|
  {
    if rules == [] {
    } else {
      var front, r := rules[..|rules| - 1], rules[|rules| - 1];
      MatchedMembers(front, matches, a);
      assert rules == front + [r];
      forall x ensures x in rules <==> x in front || x == r {
      }
      if matches(r) && r.action == a {
        assert r in rules;
      }
    }
  }

  /** Only which rules there are matters: not their order, nor how often each is repeated. */
  lemma DecideByRuleSet(a: seq<Rule>, b: seq<Rule>, matches: Rule -> bool)
    requires forall r :: r in a <==> r in b
    ensures Decide(Matched(a, matches)) == Decide(Matched(b, matches))
  {
    forall x ensures x in Matched(a, matches) <==> x in Matched(b, matches) {
      MatchedMembers(a, matches, x);
      MatchedMembers(b, matches, x);
    }
  }

  // ---------------------------------------------------------------- grants

  datatype Grant = Row(pattern: string, action: Action, scope: string, grantedBy: string)

  function WithoutGrant(rows: seq<Grant>, pattern: string, scope: string): seq<Grant> {
    if rows == [] then []
    else WithoutGrant(rows[..|rows| - 1], pattern, scope)
         + (var r := rows[|rows| - 1]; if r.pattern == pattern && r.scope == scope then [] else [r])
  }

  /** The table as a map from pattern and scope to the granted action. */
  ghost function View(rows: seq<Grant>): map<(string, string), Action> {
    if rows == [] then map[]
    else var r := rows[|rows| - 1]; View(rows[..|rows| - 1])[(r.pattern, r.scope) := r.action]
  }

  /** No pattern has two rows in one scope. */
  ghost predicate OnePerKey(rows: seq<Grant>) {
    rows == []
    || (var r := rows[|rows| - 1];
        OnePerKey(rows[..|rows| - 1]) && (r.pattern, r.scope) !in View(rows[..|rows| - 1]))
  }

  lemma {:induction false} ViewMeans(rows: seq<Grant>, key: (string, string), a: Action)
    requires OnePerKey(rows)
    ensures key in View(rows) && View(rows)[key] == a
       <==> exists r :: r in rows && (r.pattern, r.scope) == key && r.action == a
    decreases |rows|
  {
    if rows == [] {
    } else {
      var front, last := rows[..|rows| - 1], rows[|rows| - 1];
      ViewMeans(front, key, a);
      assert rows == front + [last];
      forall x ensures x in rows <==> x in front || x == last {
      }
      forall r | r in front && (r.pattern, r.scope) == key ensures key != (last.pattern, last.scope) {
        ViewMeans(front, key, r.action);
      }
    }
  }

  /** The rows really are pairwise different in pattern or scope. */
  lemma {:induction false} OnePerKeyMeans(rows: seq<Grant>, i: nat, j: nat)
    requires OnePerKey(rows) && i < j < |rows|
    ensures (rows[i].pattern, rows[i].scope) != (rows[j].pattern, rows[j].scope)
    decreases |rows|
  {
    var front := rows[..|rows| - 1];
    if j < |rows| - 1 {
      OnePerKeyMeans(front, i, j);
    } else {
      assert front[i] in front;
      ViewMeans(front, (rows[i].pattern, rows[i].scope), rows[i].action);
    }
  }

  lemma AppendRow(rows: seq<Grant>, r: Grant)
    ensures View([]) == map[] && OnePerKey([])
    ensures View(rows + [r]) == View(rows)[(r.pattern, r.scope) := r.action]
    ensures OnePerKey(rows + [r]) <==> OnePerKey(rows) && (r.pattern, r.scope) !in View(rows)
  {
    assert (rows + [r])[..|rows|] == rows;
  }

  lemma {:induction false} WithoutGrantRemoves(rows: seq<Grant>, pattern: string, scope: string)
    requires OnePerKey(rows)
    ensures OnePerKey(WithoutGrant(rows, pattern, scope))
    ensures View(WithoutGrant(rows, pattern, scope)) == View(rows) - {(pattern, scope)}
    decreases |rows|
  {
    hide View, OnePerKey;
    if rows == [] {
      AppendRow([], Row("", Ask, "", ""));
    } else {
      var front, last := rows[..|rows| - 1], rows[|rows| - 1];
      var rest := WithoutGrant(front, pattern, scope);
      assert rows == front + [last] && rest + [] == rest;
      AppendRow(front, last);
      AppendRow(rest, last);
      WithoutGrantRemoves(front, pattern, scope);
    }
  }

  /** `DELETE FROM permission_grants WHERE pattern = ? AND scope = ?` */
  method DeleteRows(rows: seq<Grant>, pattern: string, scope: string) returns (kept: seq<Grant>)
    ensures kept == WithoutGrant(rows, pattern, scope)
  {
    kept := [];
    for i := 0 to |rows|
      invariant kept == WithoutGrant(rows[..i], pattern, scope)
    {
      assert rows[..i + 1][..i] == rows[..i];
      if !(rows[i].pattern == pattern && rows[i].scope == scope) {
        kept := kept + [rows[i]];
      }
    }
    assert rows[..|rows|] == rows;
  }

  /** Whether a stored grant speaks about this tool in this scope. */
  predicate GrantApplies(paths: Paths, g: Grant, tool: string, scope: string) {
    && (g.scope == scope || g.scope == "global")
    && (MatchToolPattern(g.pattern, tool) || MatchCommandPattern(g.pattern, tool) || paths.Match(g.pattern, tool))
  }

  function GrantedActions(paths: Paths, rows: seq<Grant>, tool: string, scope: string): seq<Action> {
    if rows == [] then []
    else GrantedActions(paths, rows[..|rows| - 1], tool, scope)
         + (var g := rows[|rows| - 1]; if GrantApplies(paths, g, tool, scope) then [g.action] else [])
  }

  /** `Check`: any applying grant decides; one that is neither deny nor allow means ask. */
  function CheckGrants(paths: Paths, rows: seq<Grant>, tool: string, scope: string): Option<Action> {
    var matched := GrantedActions(paths, rows, tool, scope);
    if matched == [] then None
    else if Deny in matched then Some(Deny)
    else if Allow in matched then Some(Allow)
    else Some(Ask)
  }

  lemma {:induction false} GrantedMembers(paths: Paths, rows: seq<Grant>, tool: string, scope: string, a: Action)
    ensures a in GrantedActions(paths, rows, tool, scope)
       <==> exists g :: g in rows && GrantApplies(paths, g, tool, scope) && g.action == a
    decreases |rows|
  {
    if rows == [] {
    } else {
      var front, g := rows[..|rows| - 1], rows[|rows| - 1];
      GrantedMembers(paths, front, tool, scope, a);
      assert rows == front + [g];
      forall x ensures x in rows <==> x in front || x == g {
      }
      if GrantApplies(paths, g, tool, scope) && g.action == a {
        assert g in rows;
      }
    }
  }

  /** Whether a stored pattern and scope speak about this tool, as a property of the key alone. */
  predicate KeyApplies(paths: Paths, key: (string, string), tool: string, scope: string) {
    GrantApplies(paths, Row(key.0, Ask, key.1, ""), tool, scope)
  }

  lemma GrantedByView(paths: Paths, rows: seq<Grant>, tool: string, scope: string, a: Action)
    requires OnePerKey(rows)
    ensures a in GrantedActions(paths, rows, tool, scope)
       <==> exists key :: key in View(rows) && View(rows)[key] == a && KeyApplies(paths, key, tool, scope)
  {
    GrantedMembers(paths, rows, tool, scope, a);
    if g :| g in rows && GrantApplies(paths, g, tool, scope) && g.action == a {
      ViewMeans(rows, (g.pattern, g.scope), a);
      assert KeyApplies(paths, (g.pattern, g.scope), tool, scope);
    }
    if key :| key in View(rows) && View(rows)[key] == a && KeyApplies(paths, key, tool, scope) {
      ViewMeans(rows, key, a);
      var g :| g in rows && (g.pattern, g.scope) == key && g.action == a;
      assert GrantApplies(paths, g, tool, scope);
    }
  }

  /** Two tables that hold the same grants answer alike, whatever the order of their rows. */
  lemma CheckByView(paths: Paths, a: seq<Grant>, b: seq<Grant>, tool: string, scope: string)
    requires OnePerKey(a) && OnePerKey(b) && View(a) == View(b)
    ensures CheckGrants(paths, a, tool, scope) == CheckGrants(paths, b, tool, scope)
  {
    var x, y := GrantedActions(paths, a, tool, scope), GrantedActions(paths, b, tool, scope);
    forall act ensures act in x <==> act in y {
      GrantedByView(paths, a, tool, scope, act);
      GrantedByView(paths, b, tool, scope, act);
    }
    assert x != [] ==> x[0] in y;
    assert y != [] ==> y[0] in x;
  }

  class PermissionStore {
    var rows: seq<Grant>

    constructor ()
      ensures rows == [] && OnePerKey(rows)
    {
      rows := [];
    }

    /** Delete and insert in one transaction. */
    method Grant(pattern: string, action: Action, scope: string, grantedBy: string)
      requires OnePerKey(rows)
      modifies this
      ensures OnePerKey(rows) && View(rows) == View(old(rows))[(pattern, scope) := action]
      ensures rows == WithoutGrant(old(rows), pattern, scope) + [Row(pattern, action, scope, grantedBy)]
    {
      WithoutGrantRemoves(rows, pattern, scope);
      var kept := DeleteRows(rows, pattern, scope);
      rows := kept + [Row(pattern, action, scope, grantedBy)];
      assert rows[..|kept|] == kept;
    }

    method Revoke(pattern: string, scope: string)
      requires OnePerKey(rows)
      modifies this
      ensures OnePerKey(rows) && View(rows) == View(old(rows)) - {(pattern, scope)}
      ensures rows == WithoutGrant(old(rows), pattern, scope)
    {
      WithoutGrantRemoves(rows, pattern, scope);
      rows := DeleteRows(rows, pattern, scope);
    }

    method Check(paths: Paths, tool: string, scope: string) returns (decision: Option<Action>)
      ensures decision == CheckGrants(paths, rows, tool, scope)
    {
      var matched := [];
      for i := 0 to |rows|
        invariant matched == GrantedActions(paths, rows[..i], tool, scope)
      {
        assert rows[..i + 1][..i] == rows[..i];
        if GrantApplies(paths, rows[i], tool, scope) {
          matched := matched + [rows[i].action];
        }
      }
      assert rows[..|rows|] == rows;
      if |matched| == 0 {
        return None;
      }
      decision := DecideByScan(matched);
      if decision.None? {
        decision := Some(Ask);
      }
    }
  }

  // ---------------------------------------------------------------- the engine

  const CONSERVATIVE := [
    Rule("file_read", Allow, ""), Rule("blackboard_*", Allow, ""), Rule("send_message", Allow, ""),
    Rule("bash:git *", Allow, ""), Rule("bash:go *", Allow, ""), Rule("file_write", Ask, ""),
    Rule("bash:*", Ask, ""), Rule("path:~/.ssh/*", Deny, ""), Rule("path:~/.aws/*", Deny, "")]
  const PERMISSIVE := [
    Rule("*", Allow, ""), Rule("bash:rm -rf /*", Deny, ""), Rule("bash:sudo *", Deny, ""),
    Rule("path:~/.ssh/*", Deny, "")]
  const LOCKED := [Rule("file_read", Allow, ""), Rule("blackboard_*", Allow, ""), Rule("*", Ask, "")]
  const SANDBOX := [Rule("*", Allow, "")]

  function ModePreset(mode: string): Option<seq<Rule>> {
    if mode == "conservative" then Some(CONSERVATIVE)
    else if mode == "permissive" then Some(PERMISSIVE)
    else if mode == "locked" then Some(LOCKED)
    else if mode == "sandbox" then Some(SANDBOX)
    else None
  }

  /** All that a decision depends on; `policy` is the optional SQL policy, given tool and agent. */
  datatype Engine = Engine(
    preset: seq<Rule>, explicit: seq<Rule>, mode: string, paths: Paths,
    grants: Option<seq<Grant>>, policy: Option<(string, string) -> bool>)
  {
    function Rules(): seq<Rule> {
      preset + explicit
    }

    function Evaluate(tool: string, scope: string): Action {
      match Decide(Matched(Rules(), ToolRule(tool, scope)))
      case Some(a) => a
      case None =>
        match if grants.Some? then CheckGrants(paths, grants.value, tool, scope) else None
        case Some(a) => a
        case None => if policy.Some? && policy.value(tool, AgentOf(scope)) then Allow else Deny
    }

    function EvaluateCommand(cmd: string): Action {
      match Decide(Matched(Rules(), CommandRule(cmd)))
      case Some(a) => a
      case None => Deny
    }

    function EvaluatePath(path: string): Action {
      match Decide(Matched(Rules(), PathRule(paths, path)))
      case Some(a) => a
      case None => Deny
    }
  }

  function ToolRule(tool: string, scope: string): Rule -> bool {
    (r: Rule) => MatchesScope(r, scope) && MatchToolPattern(r.pattern, tool)
  }

  function CommandRule(cmd: string): Rule -> bool {
    (r: Rule) => MatchCommandPattern(r.pattern, cmd)
  }

  function PathRule(paths: Paths, path: string): Rule -> bool {
    (r: Rule) => paths.Match(r.pattern, path)
  }

  /** `extractAgentFromScope`. */
  function AgentOf(scope: string): string {
    if HasPrefix(scope, "agent:") then scope[6..] else ""
  }

  method CollectMatched(rules: seq<Rule>, matches: Rule -> bool) returns (matched: seq<Action>)
    ensures matched == Matched(rules, matches)
  {
    matched := [];
    for i := 0 to |rules|
      invariant matched == Matched(rules[..i], matches)
    {
      assert rules[..i + 1][..i] == rules[..i];
      if matches(rules[i]) {
        matched := matched + [rules[i].action];
      }
    }
    assert rules[..|rules|] == rules;
  }

  class TrustEngine {
    var presetRules: seq<Rule>
    var explicitRules: seq<Rule>
    var mode: string
    var permStore: PermissionStore?
    const paths: Paths
    const policyDB: Option<(string, string) -> bool>

    function State(): Engine
      reads this, permStore
    {
      Engine(presetRules, explicitRules, mode, paths, if permStore == null then None else Some(permStore.rows), policyDB)
    }

    constructor (mode: string, rules: seq<Rule>, paths: Paths, policyDB: Option<(string, string) -> bool>)
      ensures State() == Engine(ModePreset(mode).GetOr([]), rules, mode, paths, None, policyDB)
    {
      this.mode, this.paths, this.policyDB := mode, paths, policyDB;
      explicitRules := rules;
      presetRules := ModePreset(mode).GetOr([]);
      permStore := null;
    }

    method SetPermissionStore(ps: PermissionStore)
      modifies this`permStore
      ensures permStore == ps
    {
      permStore := ps;
    }

    method SetMode(mode: string)
      modifies this`mode, this`presetRules
      ensures State() == Apply(old(State()), SetModeTo(mode))
    {
      match ModePreset(mode)
      case None =>
      case Some(preset) =>
        this.mode := mode;
        presetRules := preset;
    }

    method AddRule(rule: Rule)
      modifies this`explicitRules
      ensures State() == Apply(old(State()), Add(rule))
    {
      explicitRules := explicitRules + [rule];
    }

    method EvaluateScoped(tool: string, scope: string) returns (action: Action)
      ensures action == State().Evaluate(tool, scope)
    {
      var rules := presetRules + explicitRules;
      var matched := CollectMatched(rules, ToolRule(tool, scope));
      var decision := DecideByScan(matched);
      if decision.Some? {
        return decision.value;
      }
      if permStore != null {
        decision := permStore.Check(paths, tool, scope);
        if decision.Some? {
          return decision.value;
        }
      }
      if policyDB.Some? {
        if policyDB.value(tool, AgentOf(scope)) {
          return Allow;
        }
      }
      action := Deny;
    }

    method EvaluateCommand(cmd: string) returns (action: Action)
      ensures action == State().EvaluateCommand(cmd)
    {
      var matched := CollectMatched(presetRules + explicitRules, CommandRule(cmd));
      var decision := DecideByScan(matched);
      action := decision.GetOr(Deny);
    }

    method EvaluatePath(path: string) returns (action: Action)
      ensures action == State().EvaluatePath(path)
    {
      var matched := CollectMatched(presetRules + explicitRules, PathRule(paths, path));
      var decision := DecideByScan(matched);
      action := decision.GetOr(Deny);
    }
  }

  // ---------------------------------------------------------------- what decisions do not depend on

  /** The order and repetition of rules, split as they may be between preset and explicit ones, do not
      change any decision. */
  lemma DecisionsByRuleSet(e: Engine, f: Engine, tool: string, scope: string, cmd: string, path: string)
    requires forall r :: r in e.Rules() <==> r in f.Rules()
    requires e.paths == f.paths && e.grants == f.grants && e.policy == f.policy
    ensures e.Evaluate(tool, scope) == f.Evaluate(tool, scope)
    ensures e.EvaluateCommand(cmd) == f.EvaluateCommand(cmd)
    ensures e.EvaluatePath(path) == f.EvaluatePath(path)
  {
    DecideByRuleSet(e.Rules(), f.Rules(), ToolRule(tool, scope));
    DecideByRuleSet(e.Rules(), f.Rules(), CommandRule(cmd));
    DecideByRuleSet(e.Rules(), f.Rules(), PathRule(e.paths, path));
  }

  lemma DenyDecides(rules: seq<Rule>, matches: Rule -> bool, r: Rule)
    requires r in rules && matches(r) && r.action == Deny
    ensures Decide(Matched(rules, matches)) == Some(Deny)
  {
    MatchedMembers(rules, matches, Deny);
  }

  /** A matching Deny rule wins over every other rule, every grant and the policy. */
  lemma DenyWins(e: Engine, r: Rule, tool: string, scope: string, cmd: string, path: string)
    requires r in e.Rules() && r.action == Deny
    ensures ToolRule(tool, scope)(r) ==> e.Evaluate(tool, scope) == Deny
    ensures CommandRule(cmd)(r) ==> e.EvaluateCommand(cmd) == Deny
    ensures PathRule(e.paths, path)(r) ==> e.EvaluatePath(path) == Deny
  {
    if ToolRule(tool, scope)(r) {
      DenyDecides(e.Rules(), ToolRule(tool, scope), r);
    }
    if CommandRule(cmd)(r) {
      DenyDecides(e.Rules(), CommandRule(cmd), r);
    }
    if PathRule(e.paths, path)(r) {
      DenyDecides(e.Rules(), PathRule(e.paths, path), r);
    }
  }

  // ---------------------------------------------------------------- changing the engine

  datatype Change = SetModeTo(mode: string) | Add(rule: Rule) | SetGrants(rows: seq<Grant>)

  function Apply(e: Engine, c: Change): Engine {
    match c
    case SetModeTo(mode) =>
      if ModePreset(mode).Some? then e.(mode := mode, preset := ModePreset(mode).value) else e
    case Add(rule) => e.(explicit := e.explicit + [rule])
    case SetGrants(rows) => e.(grants := Some(rows))
  }

  function ApplyAll(e: Engine, changes: seq<Change>): Engine {
    if changes == [] then e else Apply(ApplyAll(e, changes[..|changes| - 1]), changes[|changes| - 1])
  }

  function Added(changes: seq<Change>): seq<Rule> {
    if changes == [] then []
    else Added(changes[..|changes| - 1])
         + (var c := changes[|changes| - 1]; if c.Add? then [c.rule] else [])
  }

  /** Through any changes the explicit rules only grow, and the preset is that of the current mode. */
  lemma {:induction false} ExplicitRulesSurvive(e: Engine, changes: seq<Change>)
    ensures ApplyAll(e, changes).explicit == e.explicit + Added(changes)
    ensures ApplyAll(e, changes).paths == e.paths
    ensures var f := ApplyAll(e, changes);
            ModePreset(f.mode) == Some(f.preset) || (f.mode == e.mode && f.preset == e.preset)
    decreases |changes|
  {
    if changes == [] {
    } else {
      ExplicitRulesSurvive(e, changes[..|changes| - 1]);
    }
  }

  /** A tool name matched by an explicit Deny rule is denied ever after. */
  lemma DenySurvives(e: Engine, changes: seq<Change>, r: Rule, tool: string, scope: string)
    requires r in e.explicit && r.action == Deny && ToolRule(tool, scope)(r)
    ensures ApplyAll(e, changes).Evaluate(tool, scope) == Deny
  {
    ExplicitRulesSurvive(e, changes);
    DenyWins(ApplyAll(e, changes), r, tool, scope, "", "");
  }

  // ---------------------------------------------------------------- Claude Code patterns

  /** `normalizeClaudeToolPattern`. */
  function NormalizeClaude(pattern: string): string {
    if HasPrefix(pattern, "Bash(") && HasSuffix(pattern, ")") then
      assert pattern[..5][4] == '(' && pattern[|pattern| - 1..][0] == ')';
      var inner := pattern[5..|pattern| - 1];
      match LastIndex(inner, ":")
      case Some(i) => if inner[i + 1..] == "*" then "bash:" + inner[..i] + " *" else "bash:" + inner
      case None => "bash:" + inner
    else pattern
  }

  lemma NormalizeWildcard(cmd: string)
    ensures NormalizeClaude("Bash(" + cmd + ":*)") == "bash:" + cmd + " *"
  {
    var pattern := "Bash(" + cmd + ":*)";
    var inner := pattern[5..|pattern| - 1];
    assert inner == cmd + ":*";
    assert OccursAt(inner, ":", |cmd|) && inner[|cmd|] == ':' && inner[|cmd| + 1] == '*';
    assert LastIndex(inner, ":") == Some(|cmd|);
    assert inner[|cmd| + 1..] == "*" && inner[..|cmd|] == cmd;
  }

  /** Disallowing `Bash(cmd:*)` denies every command line that starts with `cmd` and a blank,
      colons in `cmd` included. */
  lemma ClaudeDenyBlocks(e: Engine, cmd: string, rest: string)
    requires Rule(NormalizeClaude("Bash(" + cmd + ":*)"), Deny, "provider:claude_code") in e.Rules()
    ensures e.EvaluateCommand(cmd + " " + rest) == Deny
  {
    NormalizeWildcard(cmd);
    var p := "bash:" + cmd + " *";
    assert p[5..] == cmd + " *";
    assert (cmd + " *")[..|cmd| + 1] == cmd + " ";
    assert HasPrefix(cmd + " " + rest, cmd + " ");
    DenyWins(e, Rule(p, Deny, "provider:claude_code"), "", "", cmd + " " + rest, "");
  }
}
