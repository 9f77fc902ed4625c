// Whether a tool call runs: allow, ask or deny (max_ai/core/policy.py).
module Policy {
  import opened Common

  datatype Verdict = Allow | Ask | Deny

  type Rule = string

  const ON_HOST := "commands on this machine always ask"

  datatype Decision = Decision(verdict: Verdict, rule: Option<Rule>)

  datatype Rules = Rules(allow: seq<Rule>, ask: seq<Rule>, deny: seq<Rule>)

  // `named` says whether a rule's name, read as a case-insensitive glob, names this tool;
  // `matches` whether a rule's pattern matches one subject of a call.
  datatype Tool = Tool(name: string, runsCommands: bool, auto: bool,
                       named: string -> bool, matches: (string, string) -> bool)

  // What the tool could read of the call, and whether that is all of it.
  datatype Call = Call(subjects: seq<string>, certain: bool)

  // ---- Reading a rule: Tool or Tool(pattern) ---------------------------------------------

  datatype Parsed = Parsed(name: string, pattern: Option<string>)

  // White space as Python's str.split and \s see it.
  predicate IsSpace(c: char) {
    var n := c as int;
    || 0x09 <= n <= 0x0D || 0x1C <= n <= 0x20 || n == 0x85 || n == 0xA0 || n == 0x1680 || 0x2000 <= n <= 0x200A
    || n == 0x2028 || n == 0x2029 || n == 0x202F || n == 0x205F || n == 0x3000
  }

  predicate IsNameChar(c: char) { c != '(' && c != ')' && !IsSpace(c) }

  function NamePrefix(text: string): (n: nat)
    ensures n <= |text|
    ensures forall i :: 0 <= i < n ==> IsNameChar(text[i])
    ensures n < |text| ==> !IsNameChar(text[n])
  {
    if text == [] || !IsNameChar(text[0]) then 0 else 1 + NamePrefix(text[1..])
  }

  function ParseRule(rule: Rule): Option<Parsed> {
    var n := NamePrefix(rule);
    if n == 0 then None
    else if n == |rule| then Some(Parsed(rule, None))
    else if rule[n] == '(' && |rule| - n >= 3 && rule[|rule| - 1] == ')'
    then Some(Parsed(rule[..n], Some(rule[n + 1..|rule| - 1])))
    else None
  }

  predicate Matches(rule: Rule, tool: Tool, subject: Option<string>) {
    match ParseRule(rule)
    case None => false
    case Some(p) => tool.named(p.name)
                    && (p.pattern == None || (subject.Some? && tool.matches(p.pattern.value, subject.value)))
  }

  // ---- Deciding --------------------------------------------------------------------------

  function Subjects(call: Call): seq<Option<string>> {
    if call.subjects == [] then [None]
    else seq(|call.subjects|, i requires 0 <= i < |call.subjects| => Some(call.subjects[i]))
  }

  predicate MatchesSome(rule: Rule, tool: Tool, call: Call) {
    exists s :: s in Subjects(call) && Matches(rule, tool, s)
  }

  // The first rule of a deny or ask list that matches any subject.
  function FirstHit(rules: seq<Rule>, tool: Tool, call: Call): (hit: Option<Rule>)
    ensures hit.Some? <==> exists r :: r in rules && MatchesSome(r, tool, call)
    ensures hit.Some? ==> hit.value in rules && MatchesSome(hit.value, tool, call)
  {
    if rules == [] then None
    else if MatchesSome(rules[0], tool, call) then Some(rules[0])
    else FirstHit(rules[1..], tool, call)
  }

  // The first rule of an allow list that matches one subject.
  function FirstMatch(rules: seq<Rule>, tool: Tool, subject: Option<string>): (found: Option<Rule>)
    ensures found.Some? <==> exists r :: r in rules && Matches(r, tool, subject)
    ensures found.Some? ==> found.value in rules && Matches(found.value, tool, subject)
  {
    if rules == [] then None
    else if Matches(rules[0], tool, subject) then Some(rules[0])
    else FirstMatch(rules[1..], tool, subject)
  }

  function Used(rules: seq<Rule>, tool: Tool, subjects: seq<Option<string>>): (used: seq<Rule>)
    requires forall s :: s in subjects ==> FirstMatch(rules, tool, s).Some?
    ensures |used| == |subjects|
    ensures forall i :: 0 <= i < |used| ==> used[i] == FirstMatch(rules, tool, subjects[i]).value
  {
    seq(|subjects|, i requires 0 <= i < |subjects| => FirstMatch(rules, tool, subjects[i]).value)
  }

  predicate WholeTool(rule: Rule) { '(' !in rule }

  // One rule per subject, or [] when some subject is left out, or when the tool could not read
  // the whole call and one of the rules is narrower than the tool.
  function Covering(rules: seq<Rule>, tool: Tool, call: Call): seq<Rule> {
    var subjects := Subjects(call);
    if exists s :: s in subjects && FirstMatch(rules, tool, s) == None then []
    else
      var used := Used(rules, tool, subjects);
      if call.certain || forall r :: r in used ==> WholeTool(r) then used else []
  }

  function OnHost(tool: Tool, decision: Decision, isolated: bool): Decision {
    if decision.verdict == Allow && tool.runsCommands && !isolated then Decision(Ask, Some(ON_HOST)) else decision
  }

  function Decide(rules: Rules, tool: Tool, call: Call, isolated: bool, session: seq<Rule>): Decision {
    var denied, asked := FirstHit(rules.deny, tool, call), FirstHit(rules.ask, tool, call);
    if denied.Some? then Decision(Deny, denied)
    else if asked.Some? then Decision(Ask, asked)
    else Permit(rules.allow, tool, call, isolated, session)
  }

  // The agent's allow rules, then those and the session's, then the tool's own default.
  function Permit(allow: seq<Rule>, tool: Tool, call: Call, isolated: bool, session: seq<Rule>): Decision {
    var agents, all := Covering(allow, tool, call), Covering(allow + session, tool, call);
    if agents != [] then Granted(tool, agents, isolated, session)
    else if all != [] then Granted(tool, all, isolated, session)
    else OnHost(tool, Decision(if tool.auto then Allow else Ask, None), isolated)
  }

  function Granted(tool: Tool, used: seq<Rule>, isolated: bool, session: seq<Rule>): Decision
    requires used != []
  {
    var decision := Decision(Allow, Some(used[0]));
    if exists r :: r in used && r in session then decision else OnHost(tool, decision, isolated)
  }

  // ---- "Always allow" --------------------------------------------------------------------

  function FirstWord(text: string): string {
    if text == [] then []
    else if IsSpace(text[0]) then FirstWord(text[1..])
    else Word(text)
  }

  function Word(text: string): string {
    if text == [] || IsSpace(text[0]) then [] else [text[0]] + Word(text[1..])
  }

  // The rules "always allow" adds for a call: none when the call cannot be read in full.
  function RulesFor(tool: Tool, call: Call): set<Rule> {
    if !call.certain then {}
    else if !tool.runsCommands then {tool.name}
    else set s | s in call.subjects && s != [] :: tool.name + "(" + FirstWord(s) + ":*)"
  }

  lemma PermitNeverDenies(allow: seq<Rule>, tool: Tool, call: Call, isolated: bool, session: seq<Rule>)
    ensures Permit(allow, tool, call, isolated, session).verdict != Deny
  {
    hide Covering;
  }

  // ---- What an allowed call rests on -----------------------------------------------------

  predicate MatchedBy(rules: seq<Rule>, tool: Tool, subject: Option<string>) {
    exists r :: r in rules && Matches(r, tool, subject)
  }

  lemma CoveringMatches(rules: seq<Rule>, tool: Tool, call: Call)
    ensures Covering(rules, tool, call) != [] ==> forall s :: s in Subjects(call) ==> MatchedBy(rules, tool, s)
    ensures forall r :: r in Covering(rules, tool, call) ==>
              r in rules && exists s :: s in Subjects(call) && Matches(r, tool, s)
  {
    var subjects, used := Subjects(call), Covering(rules, tool, call);
    forall r | r in used ensures r in rules && exists s :: s in subjects && Matches(r, tool, s) {
      var i :| 0 <= i < |used| && used[i] == r;
      assert subjects[i] in subjects && FirstMatch(rules, tool, subjects[i]) == Some(r);
    }
  }

  // A call is allowed only when no deny or ask rule matches any part of it; when every part
  // is matched by an allow rule, unless the tool needs no approval; and, for a command on the
  // user's own machine, when some part is matched by a rule of the user's.
  lemma AllowedOnlyWithRules(rules: Rules, tool: Tool, call: Call, isolated: bool, session: seq<Rule>)
    requires Decide(rules, tool, call, isolated, session).verdict == Allow
    ensures forall r, s :: (r in rules.deny || r in rules.ask) && s in Subjects(call) ==> !Matches(r, tool, s)
    ensures tool.auto || forall s :: s in Subjects(call) ==> MatchedBy(rules.allow + session, tool, s)
    ensures tool.runsCommands && !isolated ==> exists s :: s in Subjects(call) && MatchedBy(session, tool, s)
  {
    forall r, s | (r in rules.deny || r in rules.ask) && s in Subjects(call) ensures !Matches(r, tool, s) {
      assert !MatchesSome(r, tool, call);
    }
    CoveringMatches(rules.allow, tool, call);
    CoveringMatches(rules.allow + session, tool, call);
  }

  // ---- Monotonicity ----------------------------------------------------------------------

  function Rank(v: Verdict): nat {
    match v case Allow => 0 case Ask => 1 case Deny => 2
  }

  // More deny or ask rules, wherever they are put, never make any call more permissive.
  lemma {:induction false} MoreDenyOrAskNeverPermits(
    p: Rules, q: Rules, tool: Tool, call: Call, isolated: bool, session: seq<Rule>)
    requires p.allow == q.allow
    requires forall r :: r in p.deny ==> r in q.deny
    requires forall r :: r in p.ask ==> r in q.ask
    ensures Rank(Decide(q, tool, call, isolated, session).verdict)
            >= Rank(Decide(p, tool, call, isolated, session).verdict)
    ensures (exists r :: r in q.deny && MatchesSome(r, tool, call)) ==>
              Decide(q, tool, call, isolated, session).verdict == Deny
  {
    hide Permit, MatchesSome;
    PermitNeverDenies(p.allow, tool, call, isolated, session);
    assert FirstHit(p.deny, tool, call).Some? ==> FirstHit(q.deny, tool, call).Some?;
    assert FirstHit(p.ask, tool, call).Some? ==> FirstHit(q.ask, tool, call).Some?;
  }

  lemma {:induction false} FirstMatchAppend(rules: seq<Rule>, more: seq<Rule>, tool: Tool, subject: Option<string>)
    ensures FirstMatch(rules + more, tool, subject) ==
            if FirstMatch(rules, tool, subject).Some? then FirstMatch(rules, tool, subject)
            else FirstMatch(more, tool, subject)
  {
    if rules == [] {
      assert rules + more == more;
    } else {
      assert (rules + more)[0] == rules[0] && (rules + more)[1..] == rules[1..] + more;
      FirstMatchAppend(rules[1..], more, tool, subject);
    }
  }

  // Rules that cover a call keep covering it, the same way, when more are added behind them.
  lemma CoveringAppend(rules: seq<Rule>, more: seq<Rule>, tool: Tool, call: Call)
    ensures Covering(rules, tool, call) != [] ==> Covering(rules + more, tool, call) == Covering(rules, tool, call)
  {
    forall s | s in Subjects(call)
      ensures FirstMatch(rules, tool, s).Some? ==> FirstMatch(rules + more, tool, s) == FirstMatch(rules, tool, s)
    {
      FirstMatchAppend(rules, more, tool, s);
    }
    if Covering(rules, tool, call) != [] {
      assert Used(rules + more, tool, Subjects(call)) == Used(rules, tool, Subjects(call));
    }
  }

  // Session rules never make a call less permissive, and a matching deny or ask rule decides
  // the same with or without them.
  lemma {:induction false} MoreSessionRulesNeverForbid(
    rules: Rules, tool: Tool, call: Call, isolated: bool, session: seq<Rule>, more: seq<Rule>)
    ensures Rank(Decide(rules, tool, call, isolated, session + more).verdict)
            <= Rank(Decide(rules, tool, call, isolated, session).verdict)
    ensures FirstHit(rules.deny, tool, call).Some? || FirstHit(rules.ask, tool, call).Some? ==>
              Decide(rules, tool, call, isolated, session + more) == Decide(rules, tool, call, isolated, session)
  {
    assert rules.allow + session + more == rules.allow + (session + more);
    CoveringAppend(rules.allow + session, more, tool, call);
    if FirstHit(rules.deny, tool, call) == None && FirstHit(rules.ask, tool, call) == None {
      MoreSessionRulesGrantMore(tool, Covering(rules.allow, tool, call), isolated, session, more);
      MoreSessionRulesGrantMore(tool, Covering(rules.allow + session, tool, call), isolated, session, more);
      GrantBeatsDefault(tool, Covering(rules.allow + (session + more), tool, call), isolated, session + more);
    }
  }

  lemma MoreSessionRulesGrantMore(tool: Tool, used: seq<Rule>, isolated: bool, session: seq<Rule>, more: seq<Rule>)
    ensures used != [] ==>
              Rank(Granted(tool, used, isolated, session + more).verdict)
              <= Rank(Granted(tool, used, isolated, session).verdict)
  {
    assert forall r :: r in session ==> r in session + more;
  }

  lemma GrantBeatsDefault(tool: Tool, used: seq<Rule>, isolated: bool, session: seq<Rule>)
    ensures used != [] ==>
              forall v :: v == Allow || v == Ask ==>
                Rank(Granted(tool, used, isolated, session).verdict)
                <= Rank(OnHost(tool, Decision(v, None), isolated).verdict)
  {
  }

  // ---- When "always allow" takes effect --------------------------------------------------

  // What "always allow" relies on: a tool is named by its own name, which is a plain word, and
  // `w:*` matches any command whose first word is `w`.
  ghost predicate Readable(tool: Tool) {
    && tool.named(tool.name)
    && tool.name != [] && (forall c :: c in tool.name ==> IsNameChar(c))
    && forall s :: FirstWord(s) != [] ==> tool.matches(FirstWord(s) + ":*", s)
  }

  lemma {:induction false} PrefixOfName(name: string, rest: string)
    requires forall c :: c in name ==> IsNameChar(c)
    requires rest == [] || !IsNameChar(rest[0])
    ensures NamePrefix(name + rest) == |name|
  {
    if name == [] {
      assert name + rest == rest;
    } else {
      assert (name + rest)[0] == name[0] && (name + rest)[1..] == name[1..] + rest;
      PrefixOfName(name[1..], rest);
    }
  }

  // The generated rules parse back to the tool's name and, for commands, their first word.
  lemma GeneratedRuleParses(name: string, word: string)
    requires name != [] && forall c :: c in name ==> IsNameChar(c)
    requires word != []
    ensures ParseRule(name) == Some(Parsed(name, None))
    ensures ParseRule(name + "(" + word + ":*)") == Some(Parsed(name, Some(word + ":*")))
  {
    PrefixOfName(name, "");
    assert name + "" == name;
    var tail := "(" + word + ":*)";
    PrefixOfName(name, tail);
    assert name + "(" + word + ":*)" == name + tail;
    assert (name + tail)[|name|] == '(';
    assert (name + tail)[|name| + 1..|name + tail| - 1] == word + ":*";
    assert (name + tail)[..|name|] == name;
  }

  lemma SubjectIsMatched(tool: Tool, call: Call, s: Option<string>)
    requires Readable(tool) && call.certain && s in Subjects(call)
    requires tool.runsCommands ==> call.subjects != [] && forall t :: t in call.subjects ==> FirstWord(t) != []
    ensures exists r :: r in RulesFor(tool, call) && Matches(r, tool, s)
  {
    if tool.runsCommands {
      var t := s.value;
      assert t in call.subjects && t != [];
      GeneratedRuleParses(tool.name, FirstWord(t));
      var r := tool.name + "(" + FirstWord(t) + ":*)";
      assert r in RulesFor(tool, call) && Matches(r, tool, s);
    } else {
      GeneratedRuleParses(tool.name, "x");
      assert tool.name in RulesFor(tool, call) && Matches(tool.name, tool, s);
    }
  }

  lemma RulesForCover(rules: seq<Rule>, tool: Tool, call: Call)
    requires Readable(tool) && call.certain
    requires tool.runsCommands ==> call.subjects != [] && forall t :: t in call.subjects ==> FirstWord(t) != []
    requires forall r :: r in RulesFor(tool, call) ==> r in rules
    ensures Covering(rules, tool, call) != []
  {
    forall s | s in Subjects(call) ensures FirstMatch(rules, tool, s).Some? {
      SubjectIsMatched(tool, call, s);
    }
  }

  // The agent's own rules cover the call, and none of the rules used is also a session rule.
  predicate AgentRulesDecideFirst(rules: Rules, tool: Tool, call: Call, session: seq<Rule>) {
    var agents := Covering(rules.allow, tool, call);
    agents != [] && forall r :: r in agents ==> r !in session
  }

  // Once the user has said "always allow" to a call the tool reads in full, the call is
  // allowed exactly when no deny or ask rule matches it and, for a command on the user's own
  // machine, the agent's rules do not cover it first.
  lemma AlwaysAllowTakesEffectIff(rules: Rules, tool: Tool, call: Call, isolated: bool, session: seq<Rule>)
    requires Readable(tool) && call.certain
    requires tool.runsCommands ==> call.subjects != [] && forall t :: t in call.subjects ==> FirstWord(t) != []
    requires forall r :: r in RulesFor(tool, call) ==> r in session
    ensures Decide(rules, tool, call, isolated, session).verdict == Allow
            <==> FirstHit(rules.deny, tool, call) == None && FirstHit(rules.ask, tool, call) == None
                 && (isolated || !tool.runsCommands || !AgentRulesDecideFirst(rules, tool, call, session))
  {
    hide Covering, FirstHit, MatchesSome, RulesFor, Readable, FirstWord;
    RulesForCover(rules.allow + session, tool, call);
    if Covering(rules.allow, tool, call) == [] {
      SessionRuleIsUsed(rules.allow, session, tool, call);
    }
  }

  // A shell tool whose every pattern matches.
  const SHELL := Tool("sh", true, false, name => name == "sh", (pattern, subject) => true)

  const LS := Call(["ls"], true)

  // On the user's own machine, an agent that allows the whole shell makes "always allow" for
  // `ls` useless: the call is asked about again, though without the agent's rule it would run.
  lemma AgentRuleShadowsAlwaysAllow()
    ensures Readable(SHELL) && RulesFor(SHELL, LS) == {"sh(ls:*)"}
    ensures Decide(Rules(["sh"], [], []), SHELL, LS, false, ["sh(ls:*)"]).verdict == Ask
    ensures Decide(Rules([], [], []), SHELL, LS, false, ["sh(ls:*)"]).verdict == Allow
  {
    FirstWordOfLs();
    ShellRules();
    ShellCovered();
    hide Readable, RulesFor, Covering, FirstHit;
    assert |"sh"| != |"sh(ls:*)"|;
    AlwaysAllowTakesEffectIff(Rules(["sh"], [], []), SHELL, LS, false, ["sh(ls:*)"]);
    AlwaysAllowTakesEffectIff(Rules([], [], []), SHELL, LS, false, ["sh(ls:*)"]);
  }

  lemma ShellRules()
    ensures Readable(SHELL) && RulesFor(SHELL, LS) == {"sh(ls:*)"}
  {
    FirstWordOfLs();
    assert "sh" + "(" + "ls" + ":*)" == "sh(ls:*)";
    assert forall r :: r in RulesFor(SHELL, LS) ==> r == "sh(ls:*)";
    assert LS.subjects[0] in LS.subjects;
  }

  lemma ShellCovered()
    ensures Covering(["sh"], SHELL, LS) == ["sh"] && Covering([], SHELL, LS) == []
  {
    GeneratedRuleParses("sh", "ls");
    assert Subjects(LS) == [Some("ls")] && Some("ls") in Subjects(LS);
    assert FirstMatch(["sh"], SHELL, Some("ls")) == Some("sh") && FirstMatch([], SHELL, Some("ls")) == None;
  }

  lemma FirstWordOfLs()
    ensures FirstWord("ls") == "ls"
  {
    assert "ls"[1..] == "s" && "s"[1..] == "";
    assert Word("s") == "s" && Word("ls") == "l" + Word("s");
  }

  // If the agent's rules alone leave a subject out, whatever covers the call uses the session.
  lemma SessionRuleIsUsed(allow: seq<Rule>, session: seq<Rule>, tool: Tool, call: Call)
    requires call.certain && Covering(allow, tool, call) == [] && Covering(allow + session, tool, call) != []
    ensures exists r :: r in Covering(allow + session, tool, call) && r in session
  {
    var subjects := Subjects(call);
    var i := LeftOut(allow, tool, subjects);
    FirstMatchAppend(allow, session, tool, subjects[i]);
    var used := Used(allow + session, tool, subjects);
    assert used[i] in used && used[i] in session;
  }

  lemma LeftOut(allow: seq<Rule>, tool: Tool, subjects: seq<Option<string>>) returns (i: nat)
    requires exists s :: s in subjects && FirstMatch(allow, tool, s) == None
    ensures i < |subjects| && FirstMatch(allow, tool, subjects[i]) == None
  {
    var s :| s in subjects && FirstMatch(allow, tool, s) == None;
    i :| 0 <= i < |subjects| && subjects[i] == s;
  }

  // A whole-tool rule is documented to cover even what the tool could not read. It does so
  // only if no narrower rule is tried before it: for an unreadable call, an allow list covers
  // exactly when the first rule matching each subject has no pattern.
  lemma {:induction false} UnreadableCallCoveredIff(rules: seq<Rule>, tool: Tool, call: Call)
    requires !call.certain
    ensures Covering(rules, tool, call) != []
            <==> forall s :: s in Subjects(call) ==>
                   FirstMatch(rules, tool, s).Some? && WholeTool(FirstMatch(rules, tool, s).value)
  {
    var subjects := Subjects(call);
    if Covering(rules, tool, call) != [] {
      forall s | s in subjects
        ensures FirstMatch(rules, tool, s).Some? && WholeTool(FirstMatch(rules, tool, s).value)
      {
        var i :| 0 <= i < |subjects| && subjects[i] == s;
        assert Covering(rules, tool, call)[i] == FirstMatch(rules, tool, s).value;
      }
    } else if forall s :: s in subjects ==> FirstMatch(rules, tool, s).Some? {
      var used := Used(rules, tool, subjects);
      assert |used| > 0;
      var r :| r in used && !WholeTool(r);
      var i :| 0 <= i < |used| && used[i] == r;
      assert subjects[i] in subjects && FirstMatch(rules, tool, subjects[i]).value == r;
    }
  }

  lemma NarrowRuleShadowsWholeTool(tool: Tool)
    requires tool.named("b") && tool.matches("x", "x")
    ensures var call := Call(["x"], false);
            Covering(["b"], tool, call) != [] && Covering(["b(x)", "b"], tool, call) == []
  {
    var call, s := Call(["x"], false), Some("x");
    PrefixOfName("b", "");
    PrefixOfName("b", "(x)");
    assert "b" + "" == "b" && "b" + "(x)" == "b(x)";
    assert "b(x)"[1] == '(' && "b(x)"[3] == ')' && "b(x)"[2..3] == "x" && "b(x)"[..1] == "b";
    assert ParseRule("b") == Some(Parsed("b", None));
    assert ParseRule("b(x)") == Some(Parsed("b", Some("x")));
    assert Subjects(call) == [s];
    assert FirstMatch(["b"], tool, s) == Some("b");
    assert FirstMatch(["b(x)", "b"], tool, s) == Some("b(x)");
    assert !WholeTool("b(x)") by { assert "b(x)"[1] == '('; }
    UnreadableCallCoveredIff(["b"], tool, call);
    UnreadableCallCoveredIff(["b(x)", "b"], tool, call);
  }
}
