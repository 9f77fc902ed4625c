// Exactly when a call is denied, asked about or allowed, and by which rule, in terms of the
// rules' text and what they match (Policy.decide and its helpers in max_ai/core/policy.py).
module Verdicts {
  import opened Common
  import opened Policy

  // ---- What a rule matches ---------------------------------------------------------------

  // The rule's text: a tool name, and possibly a pattern in parentheses.
  ghost predicate Spells(rule: Rule, name: string, pattern: Option<string>) {
    && name != [] && (forall c :: c in name ==> IsNameChar(c))
    && match pattern
       case None => rule == name
       case Some(p) => p != [] && rule == name + "(" + p + ")"
  }

  lemma ParsesIff(rule: Rule, name: string, pattern: Option<string>)
    ensures ParseRule(rule) == Some(Parsed(name, pattern)) <==> Spells(rule, name, pattern)
  {
    if Spells(rule, name, pattern) {
      match pattern {
        case None =>
          PrefixOfName(name, "");
          assert name + "" == name;
        case Some(p) =>
          var tail := "(" + p + ")";
          assert rule == name + tail;
          PrefixOfName(name, tail);
          assert rule[..|name|] == name && rule[|name| + 1..|rule| - 1] == p;
          assert rule[|name|] == '(' && rule[|rule| - 1] == ')';
      }
    }
    if ParseRule(rule) == Some(Parsed(name, pattern)) && pattern.Some? {
      assert rule == rule[..|name|] + "(" + rule[|name| + 1..|rule| - 1] + ")";
    }
  }

  // A rule matches a subject when it names the tool and has no pattern, or one that matches.
  lemma MatchesIff(rule: Rule, tool: Tool, subject: Option<string>)
    ensures Matches(rule, tool, subject)
            <==> exists name, pattern ::
                   Spells(rule, name, pattern) && tool.named(name)
                   && (pattern == None || (subject.Some? && tool.matches(pattern.value, subject.value)))
  {
    if Matches(rule, tool, subject) {
      var p := ParseRule(rule).value;
      ParsesIff(rule, p.name, p.pattern);
    }
    forall name, pattern | Spells(rule, name, pattern) ensures ParseRule(rule) == Some(Parsed(name, pattern)) {
      ParsesIff(rule, name, pattern);
    }
  }

  // What there is to match in a call: each of its subjects, or nothing when it has none.
  ghost predicate IsSubject(call: Call, s: Option<string>) {
    if s == None then call.subjects == [] else s.value in call.subjects
  }

  lemma SubjectsAre(call: Call, s: Option<string>)
    ensures s in Subjects(call) <==> IsSubject(call, s)
  {
    if s.Some? && s.value in call.subjects {
      var i :| 0 <= i < |call.subjects| && call.subjects[i] == s.value;
      assert Subjects(call)[i] == s;
    }
  }

  ghost predicate Hits(rule: Rule, tool: Tool, call: Call) {
    exists s :: IsSubject(call, s) && Matches(rule, tool, s)
  }

  lemma HitsIff(rule: Rule, tool: Tool, call: Call)
    ensures MatchesSome(rule, tool, call) <==> Hits(rule, tool, call)
  {
    hide Matches;
    if MatchesSome(rule, tool, call) {
      var s :| s in Subjects(call) && Matches(rule, tool, s);
      SubjectsAre(call, s);
    }
    if Hits(rule, tool, call) {
      var s :| IsSubject(call, s) && Matches(rule, tool, s);
      SubjectsAre(call, s);
    }
  }

  // ---- Deny and ask ----------------------------------------------------------------------

  // The `i`-th rule is the first of its list to match any part of the call.
  ghost predicate HitsFirst(rules: seq<Rule>, tool: Tool, call: Call, i: int) {
    0 <= i < |rules| && Hits(rules[i], tool, call) && forall j :: 0 <= j < i ==> !Hits(rules[j], tool, call)
  }

  ghost predicate AnyHits(rules: seq<Rule>, tool: Tool, call: Call) {
    exists r :: r in rules && Hits(r, tool, call)
  }

  lemma {:induction false} FirstHitIs(rules: seq<Rule>, tool: Tool, call: Call)
    ensures FirstHit(rules, tool, call).Some? <==> AnyHits(rules, tool, call)
    ensures forall i :: HitsFirst(rules, tool, call, i) ==> FirstHit(rules, tool, call) == Some(rules[i])
  {
    hide MatchesSome, Hits;
    if rules != [] {
      HitsIff(rules[0], tool, call);
      FirstHitIs(rules[1..], tool, call);
      assert forall r :: r in rules <==> r == rules[0] || r in rules[1..];
      forall i | HitsFirst(rules, tool, call, i) && i > 0 ensures HitsFirst(rules[1..], tool, call, i - 1) {
        forall j | 0 <= j < i - 1 ensures !Hits(rules[1..][j], tool, call) {
          assert rules[1..][j] == rules[j + 1];
        }
      }
    }
  }

  // Denied if and only if some deny rule matches some part of the call, whatever the other rules
  // say; and the rule reported is the first such one.
  lemma DeniedIff(rules: Rules, tool: Tool, call: Call, isolated: bool, session: seq<Rule>)
    ensures Decide(rules, tool, call, isolated, session).verdict == Deny <==> AnyHits(rules.deny, tool, call)
    ensures forall i :: HitsFirst(rules.deny, tool, call, i) ==>
              Decide(rules, tool, call, isolated, session) == Decision(Deny, Some(rules.deny[i]))
  {
    hide FirstHit, Permit, HitsFirst, AnyHits;
    FirstHitIs(rules.deny, tool, call);
    PermitNeverDenies(rules.allow, tool, call, isolated, session);
  }

  // Asked about on behalf of an ask rule if and only if one matches and no deny rule does.
  lemma AskedByRuleIff(rules: Rules, tool: Tool, call: Call, isolated: bool, session: seq<Rule>)
    ensures (exists i :: HitsFirst(rules.ask, tool, call, i)
                         && Decide(rules, tool, call, isolated, session) == Decision(Ask, Some(rules.ask[i])))
            <==> AnyHits(rules.ask, tool, call) && !AnyHits(rules.deny, tool, call)
  {
    hide FirstHit, Permit;
    FirstHitIs(rules.deny, tool, call);
    FirstHitIs(rules.ask, tool, call);
    if AnyHits(rules.ask, tool, call) {
      var i := FirstHitter(rules.ask, tool, call);
    }
  }

  lemma {:induction false} FirstHitter(rules: seq<Rule>, tool: Tool, call: Call) returns (i: int)
    requires AnyHits(rules, tool, call)
    ensures HitsFirst(rules, tool, call, i)
  {
    hide Hits;
    i := 0;
    while !Hits(rules[i], tool, call)
      invariant 0 <= i < |rules| && forall j :: 0 <= j < i ==> !Hits(rules[j], tool, call)
      decreases |rules| - i
    {
      var r :| r in rules && Hits(r, tool, call);
      var k :| 0 <= k < |rules| && rules[k] == r;
      assert i < k;
      i := i + 1;
    }
  }

  // ---- Allow -----------------------------------------------------------------------------

  // The `i`-th rule is the first of its list to match this subject.
  ghost predicate MatchesFirst(rules: seq<Rule>, tool: Tool, s: Option<string>, i: int) {
    0 <= i < |rules| && Matches(rules[i], tool, s) && forall j :: 0 <= j < i ==> !Matches(rules[j], tool, s)
  }

  lemma {:induction false} FirstMatchIs(rules: seq<Rule>, tool: Tool, s: Option<string>)
    ensures forall i :: MatchesFirst(rules, tool, s, i) ==> FirstMatch(rules, tool, s) == Some(rules[i])
    ensures FirstMatch(rules, tool, s).Some? ==> exists i :: MatchesFirst(rules, tool, s, i)
  {
    hide Matches;
    if rules != [] {
      FirstMatchIs(rules[1..], tool, s);
      forall i | MatchesFirst(rules, tool, s, i) && i > 0 ensures MatchesFirst(rules[1..], tool, s, i - 1) {
        forall j | 0 <= j < i - 1 ensures !Matches(rules[1..][j], tool, s) {
          assert rules[1..][j] == rules[j + 1];
        }
      }
      if Matches(rules[0], tool, s) {
        assert MatchesFirst(rules, tool, s, 0);
      } else if FirstMatch(rules[1..], tool, s).Some? {
        var i :| MatchesFirst(rules[1..], tool, s, i);
        assert MatchesFirst(rules, tool, s, i + 1);
      }
    }
  }

  // Every part of the call is matched by a rule; and if the tool could not read the whole call,
  // the first rule to match each part is a whole-tool one.
  ghost predicate Covers(rules: seq<Rule>, tool: Tool, call: Call) {
    forall s :: IsSubject(call, s) ==>
      exists i :: MatchesFirst(rules, tool, s, i) && (call.certain || '(' !in rules[i])
  }

  // The first rule to match some part of the call is one of these.
  ghost predicate Relies(rules: seq<Rule>, tool: Tool, call: Call, session: seq<Rule>) {
    exists s, i :: IsSubject(call, s) && MatchesFirst(rules, tool, s, i) && rules[i] in session
  }

  lemma CoveringIff(rules: seq<Rule>, tool: Tool, call: Call)
    ensures Covering(rules, tool, call) != [] <==> Covers(rules, tool, call)
    ensures Covers(rules, tool, call) ==> forall s :: s in Subjects(call) ==> FirstMatch(rules, tool, s).Some?
    ensures Covers(rules, tool, call) ==> Covering(rules, tool, call) == Used(rules, tool, Subjects(call))
  {
    hide Matches, MatchesFirst, Subjects;
    forall s ensures s in Subjects(call) <==> IsSubject(call, s) { SubjectsAre(call, s); }
    forall s ensures MatchesBy(rules, tool, s, call.certain) <==> Sound(rules, tool, s, call.certain) {
      MatchesByIff(rules, tool, s, call.certain);
    }
    SomeSubject(call);
    if Covers(rules, tool, call) {
      forall s | s in Subjects(call) ensures Sound(rules, tool, s, call.certain) {
        assert MatchesBy(rules, tool, s, call.certain);
      }
      var used := Used(rules, tool, Subjects(call));
      forall r | r in used ensures call.certain || WholeTool(r) {
        var k :| 0 <= k < |used| && used[k] == r;
        assert Sound(rules, tool, Subjects(call)[k], call.certain);
      }
    }
    if Covering(rules, tool, call) != [] {
      forall s | IsSubject(call, s) ensures MatchesBy(rules, tool, s, call.certain) {
        var k :| 0 <= k < |Subjects(call)| && Subjects(call)[k] == s;
        assert Used(rules, tool, Subjects(call))[k] in Used(rules, tool, Subjects(call));
      }
    }
  }

  lemma SomeSubject(call: Call)
    ensures Subjects(call) != []
  {
  }

  ghost predicate MatchesBy(rules: seq<Rule>, tool: Tool, s: Option<string>, certain: bool) {
    exists i :: MatchesFirst(rules, tool, s, i) && (certain || '(' !in rules[i])
  }

  ghost predicate Sound(rules: seq<Rule>, tool: Tool, s: Option<string>, certain: bool) {
    FirstMatch(rules, tool, s).Some? && (certain || WholeTool(FirstMatch(rules, tool, s).value))
  }

  lemma MatchesByIff(rules: seq<Rule>, tool: Tool, s: Option<string>, certain: bool)
    ensures MatchesBy(rules, tool, s, certain) <==> Sound(rules, tool, s, certain)
  {
    hide Matches, MatchesFirst, FirstMatch;
    FirstMatchIs(rules, tool, s);
  }

  // When agent and session rules together do not cover a call, the agent's alone do not either.
  lemma AgentsCoverLess(allow: seq<Rule>, session: seq<Rule>, tool: Tool, call: Call)
    ensures Covering(allow, tool, call) != [] ==> Covering(allow + session, tool, call) == Covering(allow, tool, call)
    ensures Covering(allow, tool, call) == [] && Covering(allow + session, tool, call) != [] ==>
              exists r :: r in Covering(allow + session, tool, call) && r in session
  {
    hide Matches, Subjects;
    CoveringAppend(allow, session, tool, call);
    if Covering(allow, tool, call) == [] && Covering(allow + session, tool, call) != [] {
      NewRuleIsUsed(allow, session, tool, call);
    }
  }

  // A call covered only with the session's rules relies on one of them, readable or not: what
  // the agent's rules match, they match first.
  lemma NewRuleIsUsed(allow: seq<Rule>, session: seq<Rule>, tool: Tool, call: Call)
    requires Covering(allow, tool, call) == [] && Covering(allow + session, tool, call) != []
    ensures exists r :: r in Covering(allow + session, tool, call) && r in session
  {
    hide Matches, Subjects;
    var subjects, used := Subjects(call), Covering(allow + session, tool, call);
    if forall s :: s in subjects ==> FirstMatch(allow, tool, s).Some? { MatchedAlike(allow, session, tool, call); }
    var k :| 0 <= k < |subjects| && FirstMatch(allow, tool, subjects[k]) == None;
    FirstMatchAppend(allow, session, tool, subjects[k]);
    assert used == Used(allow + session, tool, subjects);
    assert used[k] in used && used[k] in session;
  }

  lemma MatchedAlike(allow: seq<Rule>, session: seq<Rule>, tool: Tool, call: Call)
    requires forall s :: s in Subjects(call) ==> FirstMatch(allow, tool, s).Some?
    ensures Covering(allow + session, tool, call) == Covering(allow, tool, call)
  {
    hide Matches, Subjects;
    forall s | s in Subjects(call) ensures FirstMatch(allow + session, tool, s) == FirstMatch(allow, tool, s) {
      FirstMatchAppend(allow, session, tool, s);
    }
    assert Used(allow + session, tool, Subjects(call)) == Used(allow, tool, Subjects(call));
  }

  lemma ReliesIff(rules: seq<Rule>, tool: Tool, call: Call, session: seq<Rule>)
    requires Covers(rules, tool, call)
    ensures Relies(rules, tool, call, session) <==> exists r :: r in Covering(rules, tool, call) && r in session
  {
    hide Matches, Subjects, Covering, FirstMatch;
    CoveringIff(rules, tool, call);
    var subjects := Subjects(call);
    forall s ensures s in subjects <==> IsSubject(call, s) { SubjectsAre(call, s); }
    var used := Used(rules, tool, subjects);
    if Relies(rules, tool, call, session) {
      var s, i :| IsSubject(call, s) && MatchesFirst(rules, tool, s, i) && rules[i] in session;
      FirstMatchIs(rules, tool, s);
      var k :| 0 <= k < |subjects| && subjects[k] == s;
      assert used[k] in used;
    }
    if r :| r in used && r in session {
      var k :| 0 <= k < |used| && used[k] == r;
      FirstMatchIs(rules, tool, subjects[k]);
      var i :| MatchesFirst(rules, tool, subjects[k], i);
      assert subjects[k] in subjects && IsSubject(call, subjects[k]) && rules[i] in session;
    }
  }

  // Where the command would run on the user's own machine.
  predicate RunsOnHost(tool: Tool, isolated: bool) {
    tool.runsCommands && !isolated
  }

  // With no deny or ask rule in the way, a call that agent and session rules together cover is
  // allowed, except that on the user's own machine a command needs one of the session's rules
  // among those it relies on; any other call gets the tool's own default, which on the user's
  // own machine never allows a command. What is not allowed is asked about.
  lemma PermittedIff(rules: Rules, tool: Tool, call: Call, isolated: bool, session: seq<Rule>)
    requires !AnyHits(rules.deny, tool, call) && !AnyHits(rules.ask, tool, call)
    ensures var all, verdict := rules.allow + session, Decide(rules, tool, call, isolated, session).verdict;
            && (verdict == Allow <==>
                  if Covers(all, tool, call) then !RunsOnHost(tool, isolated) || Relies(all, tool, call, session)
                  else tool.auto && !RunsOnHost(tool, isolated))
            && (verdict == Allow || verdict == Ask)
  {
    hide FirstHit, Covering, AnyHits, Relies, Covers;
    FirstHitIs(rules.deny, tool, call);
    FirstHitIs(rules.ask, tool, call);
    CoveringIff(rules.allow + session, tool, call);
    AgentsCoverLess(rules.allow, session, tool, call);
    if Covers(rules.allow + session, tool, call) { ReliesIff(rules.allow + session, tool, call, session); }
  }

  // With no matching rule at all the tool's own default decides, and no rule is reported.
  lemma NoRuleMeansDefault(rules: Rules, tool: Tool, call: Call, isolated: bool, session: seq<Rule>)
    requires forall r :: r in rules.deny + rules.ask + rules.allow + session ==> !Hits(r, tool, call)
    ensures var decision := Decide(rules, tool, call, isolated, session);
            && (decision.verdict == Allow <==> tool.auto && !RunsOnHost(tool, isolated))
            && (decision.verdict == Ask <==> !(tool.auto && !RunsOnHost(tool, isolated)))
            && decision.rule == if tool.auto && RunsOnHost(tool, isolated) then Some(ON_HOST) else None
  {
    hide FirstHit, Covering, Hits;
    FirstHitIs(rules.deny, tool, call);
    FirstHitIs(rules.ask, tool, call);
    var all := rules.allow + session;
    NothingCovers(rules.allow, tool, call);
    NothingCovers(all, tool, call);
  }

  lemma NothingCovers(rules: seq<Rule>, tool: Tool, call: Call)
    requires forall r :: r in rules ==> !Hits(r, tool, call)
    ensures Covering(rules, tool, call) == []
  {
    hide Matches, Covering;
    CoveringIff(rules, tool, call);
    SomeSubject(call);
    var s := Subjects(call)[0];
    SubjectsAre(call, s);
    forall i | 0 <= i < |rules| ensures !MatchesFirst(rules, tool, s, i) {
      assert !Hits(rules[i], tool, call);
    }
  }

  // The rule reported for a covered call is the first to match its first part, unless the call
  // is asked about because it would run on the user's own machine.
  lemma PermittedByRule(rules: Rules, tool: Tool, call: Call, isolated: bool, session: seq<Rule>, i: int)
    requires !AnyHits(rules.deny, tool, call) && !AnyHits(rules.ask, tool, call)
    requires Covers(rules.allow + session, tool, call)
    requires MatchesFirst(rules.allow + session, tool, if call.subjects == [] then None else Some(call.subjects[0]), i)
    ensures var decision := Decide(rules, tool, call, isolated, session);
            decision.rule == if decision.verdict == Allow then Some((rules.allow + session)[i]) else Some(ON_HOST)
  {
    hide FirstHit, AnyHits, Covers, Matches;
    FirstHitIs(rules.deny, tool, call);
    FirstHitIs(rules.ask, tool, call);
    var all := rules.allow + session;
    CoveringIff(all, tool, call);
    AgentsCoverLess(rules.allow, session, tool, call);
    FirstMatchIs(all, tool, Subjects(call)[0]);
    assert Covering(all, tool, call)[0] == all[i];
  }

  // ---- What "always allow" adds ----------------------------------------------------------

  // The first word of a text: what stands before it is white space, it has none, and it ends
  // where white space or the text's end comes.
  lemma {:induction false} FirstWordIs(text: string) returns (space: string, rest: string)
    ensures text == space + FirstWord(text) + rest
    ensures (forall c :: c in space ==> IsSpace(c)) && forall c :: c in FirstWord(text) ==> !IsSpace(c)
    ensures rest == "" || IsSpace(rest[0])
    ensures FirstWord(text) == "" ==> rest == ""
  {
    if text == [] {
      space, rest := "", "";
    } else if IsSpace(text[0]) {
      var s, r := FirstWordIs(text[1..]);
      space, rest := [text[0]] + s, r;
      assert text == [text[0]] + text[1..];
    } else {
      space := "";
      rest := WordIs(text);
    }
  }

  lemma {:induction false} WordIs(text: string) returns (rest: string)
    ensures text == Word(text) + rest && (forall c :: c in Word(text) ==> !IsSpace(c))
    ensures rest == "" || IsSpace(rest[0])
    ensures text != "" && !IsSpace(text[0]) ==> Word(text) != ""
  {
    if text == [] || IsSpace(text[0]) {
      rest := text;
    } else {
      hide IsSpace;
      rest := WordIs(text[1..]);
      assert text == [text[0]] + text[1..];
    }
  }

  // For a command the user allows no more than other commands that begin with the same word; for
  // a call the tool could not read in full, nothing.
  lemma RulesForAreNarrow(tool: Tool, call: Call, rule: Rule)
    requires rule in RulesFor(tool, call)
    ensures call.certain
    ensures if tool.runsCommands
            then exists s :: s in call.subjects && s != "" && rule == tool.name + "(" + FirstWord(s) + ":*)"
            else rule == tool.name
  {
  }
}
