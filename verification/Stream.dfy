// Assembling streamed tool calls from fragments that may arrive interleaved
// (_merge_tool_call_chunk and _build_tool_calls_from_chunks in max_ai/base/reasoning.py).
module Stream {
  import opened Common

  // An absent key and an empty string are alike to the code: both are falsy.
  datatype Fragment = Fragment(id: string, name: string, arguments: string)

  datatype Entry = Entry(name: string, arguments: string)

  // The accumulator dict: its keys in insertion order, and their entries.
  datatype Accumulated = Accumulated(order: seq<string>, entries: map<string, Entry>)

  const EMPTY := Accumulated([], map[])

  function Merged(acc: Accumulated, f: Fragment): Accumulated {
    if f.id == "" then acc
    else if f.id !in acc.entries then
      Accumulated(acc.order + [f.id], acc.entries[f.id := Entry(f.name, f.arguments)])
    else
      var e := acc.entries[f.id];
      acc.(entries := acc.entries[f.id := Entry(if e.name == "" then f.name else e.name, e.arguments + f.arguments)])
  }

  class Accumulator {
    var order: seq<string>
    var entries: map<string, Entry>

    constructor ()
      ensures Now() == EMPTY
    {
      order, entries := [], map[];
    }

    function Now(): Accumulated
      reads this
    {
      Accumulated(order, entries)
    }

    method MergeToolCallChunk(f: Fragment)
      modifies this
      ensures Now() == Merged(old(Now()), f)
    {
      if f.id == "" { return; }
      if f.id !in entries {
        order := order + [f.id];
        entries := entries[f.id := Entry(f.name, f.arguments)];
        return;
      }
      var name, arguments := entries[f.id].name, entries[f.id].arguments;
      if f.name != "" && name == "" { name := f.name; }
      if f.arguments != "" { arguments := arguments + f.arguments; }
      assert entries[f.id].arguments + "" == entries[f.id].arguments;
      entries := entries[f.id := Entry(name, arguments)];
    }
  }

  function Fold(fragments: seq<Fragment>): Accumulated {
    if fragments == [] then EMPTY
    else Merged(Fold(fragments[..|fragments| - 1]), fragments[|fragments| - 1])
  }

  // ---- Reference: each call on its own ---------------------------------------------------

  // The fragments of one call, in the order they came.
  function Own(fragments: seq<Fragment>, id: string): seq<Fragment> {
    if fragments == [] then []
    else
      var n := |fragments| - 1;
      Own(fragments[..n], id) + if fragments[n].id == id then [fragments[n]] else []
  }

  // Its first non-empty name.
  function FirstName(own: seq<Fragment>): string {
    if own == [] then ""
    else if own[0].name != "" then own[0].name
    else FirstName(own[1..])
  }

  // Its argument text, put back together.
  function Joined(own: seq<Fragment>): string {
    if own == [] then "" else own[0].arguments + Joined(own[1..])
  }

  // The ids in the order in which they first appear.
  function FirstAppearances(fragments: seq<Fragment>): seq<string> {
    if fragments == [] then []
    else
      var n := |fragments| - 1;
      var seen := FirstAppearances(fragments[..n]);
      if fragments[n].id == "" || fragments[n].id in seen then seen else seen + [fragments[n].id]
  }

  lemma {:induction false} FirstNameSnoc(own: seq<Fragment>, f: Fragment)
    ensures FirstName(own + [f]) == if FirstName(own) == "" then f.name else FirstName(own)
  {
    if own == [] {
      assert own + [f] == [f];
    } else {
      assert (own + [f])[0] == own[0] && (own + [f])[1..] == own[1..] + [f];
      FirstNameSnoc(own[1..], f);
    }
  }

  lemma {:induction false} JoinedSnoc(own: seq<Fragment>, f: Fragment)
    ensures Joined(own + [f]) == Joined(own) + f.arguments
  {
    if own == [] {
      assert own + [f] == [f] && [f][1..] == [];
      assert Joined([f]) == f.arguments + "";
    } else {
      assert (own + [f])[0] == own[0] && (own + [f])[1..] == own[1..] + [f];
      JoinedSnoc(own[1..], f);
    }
  }

  // However the fragments interleave, every call ends up with its own first non-empty name and
  // the in-order concatenation of its own arguments, and calls are kept in first-appearance
  // order.
  lemma {:induction false} AssemblyIsPerCall(fragments: seq<Fragment>, id: string)
    ensures Fold(fragments).order == FirstAppearances(fragments)
    ensures id in Fold(fragments).entries <==> id != "" && Own(fragments, id) != []
    ensures id in Fold(fragments).entries <==> id in Fold(fragments).order
    ensures id in Fold(fragments).entries ==>
              Fold(fragments).entries[id] == Entry(FirstName(Own(fragments, id)), Joined(Own(fragments, id)))
  {
    if fragments != [] {
      var n := |fragments| - 1;
      var f := fragments[n];
      AssemblyIsPerCall(fragments[..n], id);
      AssemblyIsPerCall(fragments[..n], f.id);
      FirstNameSnoc(Own(fragments[..n], id), f);
      JoinedSnoc(Own(fragments[..n], id), f);
      assert "" + f.arguments == f.arguments;
      assert Own(fragments[..n], id) + [] == Own(fragments[..n], id);
    }
  }

  // ---- Building the calls ----------------------------------------------------------------

  // Malformed arguments are kept raw instead of losing the call.
  datatype Parameters = Parsed(json: string) | Malformed(raw: string)

  datatype ToolCall = ToolCall(id: string, name: string, parameters: Parameters)

  function Parameters_(arguments: string, parse: string -> Option<string>): Parameters {
    var text := if arguments == "" then "{}" else arguments;
    match parse(text) case Some(json) => Parsed(json) case None => Malformed(text)
  }

  // One call built from its own fragments alone; none without a name.
  function CallOf(own: seq<Fragment>, id: string, parse: string -> Option<string>): seq<ToolCall> {
    if FirstName(own) == "" then [] else [ToolCall(id, FirstName(own), Parameters_(Joined(own), parse))]
  }

  function CallsOf(fragments: seq<Fragment>, order: seq<string>, parse: string -> Option<string>): seq<ToolCall> {
    if order == [] then []
    else
      var n := |order| - 1;
      CallsOf(fragments, order[..n], parse) + CallOf(Own(fragments, order[n]), order[n], parse)
  }

  method BuildToolCalls(acc: Accumulated, ghost fragments: seq<Fragment>, parse: string -> Option<string>)
    returns (calls: seq<ToolCall>)
    requires acc == Fold(fragments)
    ensures calls == CallsOf(fragments, FirstAppearances(fragments), parse)
  {
    calls := [];
    AssemblyIsPerCall(fragments, "");
    var i := 0;
    assert CallsOf(fragments, acc.order[..0], parse) == [];
    hide CallsOf, Own, Fold;
    while i < |acc.order|
      invariant 0 <= i <= |acc.order|
      invariant calls == CallsOf(fragments, acc.order[..i], parse)
    {
      var id := acc.order[i];
      AssemblyIsPerCall(fragments, id);
      assert id in acc.order;
      var e := acc.entries[id];
      OneMoreCall(fragments, acc.order, i, parse);
      if e.name != "" {
        calls := calls + [ToolCall(id, e.name, Parameters_(e.arguments, parse))];
      }
      i := i + 1;
    }
    assert acc.order[..i] == acc.order;
  }

  lemma OneMoreCall(fragments: seq<Fragment>, order: seq<string>, i: nat, parse: string -> Option<string>)
    requires i < |order|
    ensures CallsOf(fragments, order[..i + 1], parse) ==
            CallsOf(fragments, order[..i], parse) + CallOf(Own(fragments, order[i]), order[i], parse)
  {
    assert order[..i + 1][..i] == order[..i];
  }

  // Arguments that parse are parsed, whatever else the call went through; those that do not are
  // kept as they came; and a call without arguments has an empty object.
  lemma ArgumentsAreKept(own: seq<Fragment>, id: string, parse: string -> Option<string>)
    requires FirstName(own) != ""
    ensures var text := if Joined(own) == "" then "{}" else Joined(own);
            && |CallOf(own, id, parse)| == 1
            && var call := CallOf(own, id, parse)[0];
               && call.id == id && call.name == FirstName(own)
               && (parse(text).Some? ==> call.parameters == Parsed(parse(text).value))
               && (parse(text) == None ==> call.parameters == Malformed(text))
  {
  }

  lemma {:induction false} SameOrderSameCalls(
    a: seq<Fragment>, b: seq<Fragment>, order: seq<string>, parse: string -> Option<string>)
    requires forall id :: id in order ==> Own(a, id) == Own(b, id)
    ensures CallsOf(a, order, parse) == CallsOf(b, order, parse)
  {
    if order != [] {
      var n := |order| - 1;
      assert order[n] in order;
      SameOrderSameCalls(a, b, order[..n], parse);
    }
  }

  lemma {:induction false} CallsOfConcat(
    fragments: seq<Fragment>, x: seq<string>, y: seq<string>, parse: string -> Option<string>)
    ensures CallsOf(fragments, x + y, parse) == CallsOf(fragments, x, parse) + CallsOf(fragments, y, parse)
  {
    hide CallOf, Own;
    if y == [] {
      assert x + y == x;
    } else {
      var n := |y| - 1;
      assert (x + y)[..|x + y| - 1] == x + y[..n];
      CallsOfConcat(fragments, x, y[..n], parse);
    }
  }

  // The calls built from a list of ids do not depend on the list's order, but for their own.
  lemma {:induction false} ReorderedIds(
    fragments: seq<Fragment>, x: seq<string>, y: seq<string>, parse: string -> Option<string>)
    requires multiset(x) == multiset(y)
    ensures multiset(CallsOf(fragments, x, parse)) == multiset(CallsOf(fragments, y, parse))
    decreases |x|
  {
    hide CallOf, Own;
    if x == [] {
      assert |multiset(y)| == 0;
    } else {
      var n := |x| - 1;
      assert x == x[..n] + [x[n]];
      assert x[n] in multiset(y);
      var i :| 0 <= i < |y| && y[i] == x[n];
      var front, back := y[..i], y[i + 1..];
      assert y == (front + [y[i]]) + back;
      assert multiset(front + back) == multiset(y) - multiset{y[i]} == multiset(x[..n]);
      ReorderedIds(fragments, x[..n], front + back, parse);
      OneIdMoved(fragments, front, y[i], back, parse);
      CallsOfConcat(fragments, x[..n], [x[n]], parse);
    }
  }

  lemma OneIdMoved(
    fragments: seq<Fragment>, front: seq<string>, id: string, back: seq<string>, parse: string -> Option<string>)
    ensures multiset(CallsOf(fragments, (front + [id]) + back, parse)) ==
            multiset(CallsOf(fragments, front + back, parse)) + multiset(CallsOf(fragments, [id], parse))
  {
    hide CallsOf;
    CallsOfConcat(fragments, front, back, parse);
    CallsOfConcat(fragments, front + [id], back, parse);
    CallsOfConcat(fragments, front, [id], parse);
  }

  lemma {:induction false} AppearsOnce(fragments: seq<Fragment>, id: string)
    ensures multiset(FirstAppearances(fragments))[id] == if id in FirstAppearances(fragments) then 1 else 0
  {
    if fragments != [] {
      AppearsOnce(fragments[..|fragments| - 1], id);
    }
  }

  // Two arrivals with the same fragments per call, however interleaved, build the same calls,
  // each once; and the very same list when the calls also appear in the same order.
  lemma {:induction false} InterleavingDoesNotMatter(
    a: seq<Fragment>, b: seq<Fragment>, parse: string -> Option<string>)
    requires forall id :: Own(a, id) == Own(b, id)
    ensures multiset(CallsOf(a, FirstAppearances(a), parse)) == multiset(CallsOf(b, FirstAppearances(b), parse))
    ensures FirstAppearances(a) == FirstAppearances(b) ==>
              CallsOf(a, FirstAppearances(a), parse) == CallsOf(b, FirstAppearances(b), parse)
  {
    var x, y := FirstAppearances(a), FirstAppearances(b);
    forall id ensures multiset(x)[id] == multiset(y)[id] {
      SameSetOfCalls(a, b, id);
      AppearsOnce(a, id);
      AppearsOnce(b, id);
    }
    SameOrderSameCalls(a, b, x, parse);
    ReorderedIds(b, x, y, parse);
  }

  lemma {:induction false} SameSetOfCalls(a: seq<Fragment>, b: seq<Fragment>, id: string)
    requires forall k :: Own(a, k) == Own(b, k)
    ensures id in FirstAppearances(a) <==> id in FirstAppearances(b)
    ensures Get(Fold(a).entries, id) == Get(Fold(b).entries, id)
  {
    AssemblyIsPerCall(a, id);
    AssemblyIsPerCall(b, id);
  }
}
