// Messages and the window a provider accepts (max_ai/core/messages.py,
// CoreCompaction._validate in max_ai/base/compaction.py).
module Transcript {
  import opened Common

  const HARNESS := Name("harness")

  // An argument of a tool call: text can be truncated, any other JSON value is left alone.
  datatype Argument = Text(text: string) | Json(json: string)

  datatype Call = Call(id: Id, tool: Name, parameters: map<string, Argument>)

  datatype Message =
    | User(source: Name, text: string)
    | System(source: Name, text: string)
    | Assistant(source: Name, text: string, calls: seq<Call>)
    | Tool(source: Name, text: string, callId: Id, tool: Name, success: bool, error: Option<string>,
           multimodal: bool)

  function CallIds(m: Message): set<Id> {
    if m.Assistant? then set c | c in m.calls :: c.id else {}
  }

  function Flatten(blocks: seq<seq<Message>>): seq<Message> {
    if blocks == [] then [] else blocks[0] + Flatten(blocks[1..])
  }

  // ---- Acceptance: the calls still waiting for a result, or None once rejected -----------

  function Read(waiting: Option<set<Id>>, m: Message): Option<set<Id>> {
    if waiting == None then None
    else if m.Tool? then (if m.callId in waiting.value then Some(waiting.value - {m.callId}) else None)
    else if waiting.value != {} then None
    else Some(CallIds(m))
  }

  function Scan(waiting: Option<set<Id>>, messages: seq<Message>): Option<set<Id>> {
    if messages == [] then waiting
    else Read(Scan(waiting, messages[..|messages| - 1]), messages[|messages| - 1])
  }

  predicate Accepted(messages: seq<Message>) {
    Scan(Some({}), messages) == Some({})
  }

  lemma {:induction false} ScanConcat(waiting: Option<set<Id>>, a: seq<Message>, b: seq<Message>)
    ensures Scan(waiting, a + b) == Scan(Scan(waiting, a), b)
  {
    if b == [] {
      assert a + b == a;
    } else {
      var n := |b| - 1;
      assert (a + b)[..|a + b| - 1] == a + b[..n];
      ScanConcat(waiting, a, b[..n]);
    }
  }

  lemma ScanCons(waiting: Option<set<Id>>, m: Message, rest: seq<Message>)
    ensures Scan(waiting, [m] + rest) == Scan(Read(waiting, m), rest)
  {
    ScanConcat(waiting, [m], rest);
    assert [m][..0] == [];
  }

  lemma {:induction false} RejectedStays(messages: seq<Message>)
    ensures Scan(None, messages) == None
  {
    if messages != [] { RejectedStays(messages[..|messages| - 1]); }
  }

  datatype WindowError = OrphanResult(index: nat, id: Id) | Unanswered(openedAt: int, waiting: set<Id>)

  // The result at `index` answers nothing that was waiting.
  ghost predicate OrphanAt(messages: seq<Message>, index: nat, id: Id) {
    && index < |messages| && messages[index].Tool? && messages[index].callId == id
    && Scan(Some({}), messages[..index]).Some? && id !in Scan(Some({}), messages[..index]).value
  }

  // The calls made at `openedAt` are followed by results up to `n`, where some still wait and
  // no result comes next.
  ghost predicate LeftOpenAt(messages: seq<Message>, openedAt: int, waiting: set<Id>, n: int) {
    && 0 <= openedAt < n <= |messages|
    && waiting != {} && waiting <= CallIds(messages[openedAt])
    && Scan(Some({}), messages[..n]) == Some(waiting)
    && (n < |messages| ==> !messages[n].Tool?)
    && forall k :: openedAt < k < n ==> messages[k].Tool?
  }

  lemma PrefixDecides(messages: seq<Message>, n: nat)
    requires n < |messages|
    ensures Scan(Some({}), messages[..n + 1]) == Read(Scan(Some({}), messages[..n]), messages[n])
    ensures Scan(Some({}), messages[..n + 1]) == None ==> !Accepted(messages)
  {
    assert messages[..n + 1][..n] == messages[..n];
    assert messages == messages[..n + 1] + messages[n + 1..];
    ScanConcat(Some({}), messages[..n + 1], messages[n + 1..]);
    RejectedStays(messages[n + 1..]);
  }

  // The checking loop. Errors name the first offending message, and what it left waiting.
  method Validate(messages: seq<Message>) returns (r: Result<(), WindowError>)
    ensures r.Ok? <==> Accepted(messages)
    ensures r.Err? && r.error.OrphanResult? ==> OrphanAt(messages, r.error.index, r.error.id)
    ensures r.Err? && r.error.Unanswered? ==> exists n :: LeftOpenAt(messages, r.error.openedAt, r.error.waiting, n)
  {
    var openIndex, waiting: set<Id> := -1, {};
    var index := 0;
    while index < |messages|
      invariant 0 <= index <= |messages|
      invariant Scan(Some({}), messages[..index]) == Some(waiting)
      invariant waiting != {} ==> 0 <= openIndex < index && waiting <= CallIds(messages[openIndex])
      invariant waiting != {} ==> forall k :: openIndex < k < index ==> messages[k].Tool?
    {
      var message := messages[index];
      PrefixDecides(messages, index);
      if message.Tool? {
        if message.callId !in waiting {
          return Err(OrphanResult(index, message.callId));
        }
        waiting := waiting - {message.callId};
      } else {
        if waiting != {} {
          assert LeftOpenAt(messages, openIndex, waiting, index);
          return Err(Unanswered(openIndex, waiting));
        }
        if message.Assistant? && message.calls != [] {
          openIndex := index;
          waiting := set c | c in message.calls :: c.id;
        }
        assert waiting == CallIds(message);
      }
      index := index + 1;
    }
    assert messages[..index] == messages;
    if waiting != {} {
      assert LeftOpenAt(messages, openIndex, waiting, index);
      return Err(Unanswered(openIndex, waiting));
    }
    return Ok(());
  }

  lemma AcceptedConcat(a: seq<Message>, b: seq<Message>)
    requires Accepted(a) && Accepted(b)
    ensures Accepted(a + b)
  {
    ScanConcat(Some({}), a, b);
  }

  // ---- What acceptance means -------------------------------------------------------------

  ghost function ResultIds(messages: seq<Message>): set<Id> {
    set i | 0 <= i < |messages| && messages[i].Tool? :: messages[i].callId
  }

  ghost predicate AllResults(messages: seq<Message>) {
    forall i :: 0 <= i < |messages| ==> messages[i].Tool?
  }

  ghost predicate DistinctIds(messages: seq<Message>)
    requires AllResults(messages)
  {
    forall i, j :: 0 <= i < j < |messages| ==> messages[i].callId != messages[j].callId
  }

  // One block: a message that is not a tool result, followed by exactly one result for each
  // of its calls, in any order.
  ghost predicate WellFormedBlock(block: seq<Message>) {
    && block != [] && !block[0].Tool?
    && AllResults(block[1..])
    && DistinctIds(block[1..])
    && ResultIds(block[1..]) == CallIds(block[0])
  }

  // Reading results alone: the ids must be distinct and waited for.
  lemma {:induction false} ScanResults(waiting: set<Id>, results: seq<Message>)
    requires AllResults(results)
    ensures Scan(Some(waiting), results) ==
            if ResultIds(results) <= waiting && DistinctIds(results) then Some(waiting - ResultIds(results)) else None
  {
    if results == [] {
      assert waiting - ResultIds(results) == waiting;
    } else {
      var n := |results| - 1;
      var early, last := results[..n], results[n];
      assert early + [last] == results;
      ScanResults(waiting, early);
      ResultIdsLast(early, last);
      DistinctIdsLast(early, last);
      assert waiting - ResultIds(early) - {last.callId} == waiting - ResultIds(results);
    }
  }

  lemma DistinctIdsLast(early: seq<Message>, last: Message)
    requires AllResults(early) && last.Tool?
    ensures DistinctIds(early + [last]) <==> DistinctIds(early) && last.callId !in ResultIds(early)
  {
    var all := early + [last];
    assert forall i :: 0 <= i < |early| ==> all[i] == early[i];
    assert all[|early|] == last;
    assert forall i :: 0 <= i < |early| ==> early[i].callId in ResultIds(early);
  }

  lemma ResultIdsLast(early: seq<Message>, last: Message)
    ensures ResultIds(early + [last]) == ResultIds(early) + if last.Tool? then {last.callId} else {}
  {
    var all := early + [last];
    forall i | 0 <= i < |early| && early[i].Tool? ensures early[i].callId in ResultIds(all) {
      assert all[i] == early[i];
    }
    if last.Tool? { assert all[|early|] == last; }
  }

  lemma BlockAccepted(block: seq<Message>)
    requires block != [] && !block[0].Tool? && AllResults(block[1..])
    ensures Accepted(block) <==> WellFormedBlock(block)
  {
    assert block == [block[0]] + block[1..];
    ScanCons(Some({}), block[0], block[1..]);
    ScanResults(CallIds(block[0]), block[1..]);
    var calls, answers := CallIds(block[0]), ResultIds(block[1..]);
    assert answers <= calls && calls - answers == {} <==> answers == calls by {
      assert forall id :: id in calls ==> id in answers || id in calls - answers;
    }
  }

  lemma {:induction false} AcceptedBlocksConcat(blocks: seq<seq<Message>>)
    requires forall b :: b in blocks ==> Accepted(b)
    ensures Accepted(Flatten(blocks))
  {
    if blocks != [] {
      AcceptedBlocksConcat(blocks[1..]);
      assert Accepted(blocks[0]);
      ScanConcat(Some({}), blocks[0], Flatten(blocks[1..]));
    }
  }
}
