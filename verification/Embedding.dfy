// The deduplicating, batching LRU cache of embeddings (max_ai/base/embedding.py).
module Embedding {
  import opened Common

  datatype Text = Text(content: string)
  datatype Vector = Vector(values: seq<real>)

  // ---- Recency ---------------------------------------------------------------------------

  function Except(order: seq<Text>, gone: set<Text>): seq<Text> {
    if order == [] then []
    else Except(order[..|order| - 1], gone) + if order[|order| - 1] in gone then [] else [order[|order| - 1]]
  }

  function Members(texts: seq<Text>): set<Text> {
    set t | t in texts
  }

  // Distinct texts by last use, oldest first: what an unbounded LRU order would be.
  function ByLastUse(uses: seq<Text>): seq<Text> {
    if uses == [] then []
    else Except(ByLastUse(uses[..|uses| - 1]), {uses[|uses| - 1]}) + [uses[|uses| - 1]]
  }

  ghost predicate Suffix(a: seq<Text>, b: seq<Text>) {
    |a| <= |b| && a == b[|b| - |a|..]
  }

  lemma {:induction false} ExceptConcat(a: seq<Text>, b: seq<Text>, gone: set<Text>)
    ensures Except(a + b, gone) == Except(a, gone) + Except(b, gone)
  {
    if b == [] {
      assert a + b == a;
    } else {
      assert (a + b)[..|a + b| - 1] == a + b[..|b| - 1];
      ExceptConcat(a, b[..|b| - 1], gone);
    }
  }

  lemma MembersConcat(a: seq<Text>, b: seq<Text>)
    ensures Members(a + b) == Members(a) + Members(b)
  {
  }

  lemma MembersSnoc(order: seq<Text>, t: Text)
    ensures Members(order + [t]) == Members(order) + {t}
  {
  }

  lemma {:induction false} ExceptMembers(order: seq<Text>, gone: set<Text>)
    ensures Members(Except(order, gone)) == Members(order) - gone
    ensures |Except(order, gone)| <= |order|
    ensures Members(order) !! gone ==> Except(order, gone) == order
    ensures Members(order) <= gone ==> Except(order, gone) == []
  {
    if order != [] {
      var n := |order| - 1;
      ExceptMembers(order[..n], gone);
      assert order == order[..n] + [order[n]];
      MembersSnoc(order[..n], order[n]);
      if order[n] in gone {
        assert Except(order, gone) == Except(order[..n], gone);
      } else {
        MembersSnoc(Except(order[..n], gone), order[n]);
      }
    }
  }

  lemma {:induction false} ExceptTwice(order: seq<Text>, a: set<Text>, b: set<Text>)
    ensures Except(Except(order, a), b) == Except(order, a + b)
  {
    if order != [] {
      var n := |order| - 1;
      ExceptTwice(order[..n], a, b);
      var last := if order[n] in a then [] else [order[n]];
      ExceptConcat(Except(order[..n], a), last, b);
      assert [order[n]][..0] == [];
    }
  }

  ghost predicate Distinct(order: seq<Text>) {
    forall i, j :: 0 <= i < j < |order| ==> order[i] != order[j]
  }

  lemma DistinctSnoc(order: seq<Text>, t: Text)
    requires Distinct(order) && t !in Members(order)
    ensures Distinct(order + [t])
  {
    assert forall i :: 0 <= i < |order| ==> order[i] in Members(order);
  }

  lemma {:induction false} ExceptDistinct(order: seq<Text>, gone: set<Text>)
    requires Distinct(order)
    ensures Distinct(Except(order, gone))
  {
    if order != [] {
      var n := |order| - 1;
      ExceptDistinct(order[..n], gone);
      if order[n] in gone {
        assert Except(order, gone) == Except(order[..n], gone);
      } else {
        ExceptMembers(order[..n], gone);
        assert order[n] !in Members(order[..n]);
        DistinctSnoc(Except(order[..n], gone), order[n]);
      }
    }
  }

  lemma MovedMembers(order: seq<Text>, t: Text)
    ensures Members(Except(order, {t}) + [t]) == Members(order) + {t}
  {
    ExceptMembers(order, {t});
    MembersSnoc(Except(order, {t}), t);
  }

  lemma {:induction false} ByLastUseMembers(uses: seq<Text>)
    ensures Members(ByLastUse(uses)) == Members(uses)
  {
    if uses != [] {
      var n := |uses| - 1;
      ByLastUseMembers(uses[..n]);
      MovedMembers(ByLastUse(uses[..n]), uses[n]);
      assert Members(uses) == Members(uses[..n]) + {uses[n]} by {
        assert uses == uses[..n] + [uses[n]];
        MembersSnoc(uses[..n], uses[n]);
      }
    }
  }

  // Recency splits: later uses push their texts behind everything older.
  lemma {:induction false} ByLastUseConcat(a: seq<Text>, b: seq<Text>)
    ensures ByLastUse(a + b) == Except(ByLastUse(a), Members(b)) + ByLastUse(b)
  {
    if b == [] {
      assert a + b == a && Members(b) == {};
      ExceptMembers(ByLastUse(a), Members(b));
    } else {
      var n := |b| - 1;
      ByLastUseConcat(a, b[..n]);
      assert b == b[..n] + [b[n]] && a + b == (a + b[..n]) + [b[n]];
      UseSnoc(a + b[..n], b[n]);
      UseSnoc(b[..n], b[n]);
      MembersSnoc(b[..n], b[n]);
      OneMoreUse(ByLastUse(a), Members(b[..n]), ByLastUse(b[..n]), b[n]);
    }
  }

  lemma OneMoreUse(older: seq<Text>, again: set<Text>, newer: seq<Text>, last: Text)
    ensures Except(Except(older, again) + newer, {last}) + [last] ==
            Except(older, again + {last}) + (Except(newer, {last}) + [last])
  {
    ExceptConcat(Except(older, again), newer, {last});
    ExceptTwice(older, again, {last});
  }

  lemma UseSnoc(uses: seq<Text>, t: Text)
    ensures ByLastUse(uses + [t]) == Except(ByLastUse(uses), {t}) + [t]
  {
    assert (uses + [t])[..|uses|] == uses;
  }

  // Putting the misses in first changes nothing once every text of the call is used.
  lemma MissesLeaveNoTrace(uses: seq<Text>, misses: seq<Text>, texts: seq<Text>)
    requires Members(misses) <= Members(texts)
    ensures ByLastUse(uses + misses + texts) == ByLastUse(uses + texts)
  {
    var gone := Members(texts);
    var older := Except(ByLastUse(uses), Members(misses));
    assert Except(ByLastUse(uses + misses), gone) == Except(ByLastUse(uses), gone) by {
      ByLastUseConcat(uses, misses);
      ExceptConcat(older, ByLastUse(misses), gone);
      assert Except(older, gone) == Except(ByLastUse(uses), gone) by {
        ExceptTwice(ByLastUse(uses), Members(misses), gone);
        assert Members(misses) + gone == gone;
      }
      assert Except(ByLastUse(misses), gone) == [] by {
        ByLastUseMembers(misses);
        ExceptMembers(ByLastUse(misses), gone);
      }
    }
    ByLastUseConcat(uses + misses, texts);
    ByLastUseConcat(uses, texts);
  }

  // Moving a text to the end keeps a suffix of the recency order a suffix.
  lemma UseKeepsSuffix(order: seq<Text>, full: seq<Text>, t: Text)
    requires Suffix(order, full)
    ensures Suffix(Except(order, {t}) + [t], Except(full, {t}) + [t])
  {
    var front := full[..|full| - |order|];
    assert full == front + order;
    ExceptConcat(front, order, {t});
  }

  // ---- Misses ----------------------------------------------------------------------------

  // Texts worth sending: the misses, each once, in order.
  function Misses(texts: seq<Text>, cached: set<Text>): seq<Text> {
    if texts == [] then []
    else
      var n := |texts| - 1;
      var before := Misses(texts[..n], cached);
      if texts[n] in cached || texts[n] in before then before else before + [texts[n]]
  }

  lemma {:induction false} MissesAreDistinct(texts: seq<Text>, cached: set<Text>)
    ensures Distinct(Misses(texts, cached))
    ensures Members(Misses(texts, cached)) == Members(texts) - cached
  {
    if texts != [] {
      var n := |texts| - 1;
      var before := Misses(texts[..n], cached);
      MissesAreDistinct(texts[..n], cached);
      assert texts == texts[..n] + [texts[n]];
      MembersSnoc(texts[..n], texts[n]);
      if texts[n] !in cached && texts[n] !in before {
        DistinctSnoc(before, texts[n]);
        MembersSnoc(before, texts[n]);
      }
    }
  }

  // ---- The cache -------------------------------------------------------------------------

  // How the backend answers one batch: not at all, or with vectors for its first texts (a
  // count other than the batch's own is refused after those were stored).
  datatype Reply = Fails | Replies(count: nat)

  function Smaller(a: nat, b: nat): nat { if a <= b then a else b }

  // How fetching `n` misses goes, batch by batch: whether all is well, how many texts were
  // stored and how many were sent.
  datatype Fetch = Fetch(ok: bool, stored: nat, sent: nat)

  function Fetched(n: nat, batchSize: nat, replies: seq<Reply>): Fetch
    requires batchSize > 0
  {
    var size := Smaller(batchSize, n);
    if n == 0 then Fetch(true, 0, 0)
    else if replies == [] || replies[0] == Fails then Fetch(false, 0, size)
    else if replies[0].count != size then Fetch(false, Smaller(replies[0].count, size), size)
    else
      var rest := Fetched(n - size, batchSize, replies[1..]);
      Fetch(rest.ok, size + rest.stored, size + rest.sent)
  }

  // All is well exactly when every batch is answered with its own count.
  // How many texts of a batch of `size` are stored.
  function StoredOf(reply: Reply, size: nat): (stored: nat)
    ensures stored <= size
  {
    if reply == Fails then 0 else Smaller(reply.count, size)
  }

  function Later(f: Fetch, k: nat): Fetch {
    Fetch(f.ok, k + f.stored, k + f.sent)
  }

  lemma FetchedNothing(batchSize: nat, replies: seq<Reply>)
    requires batchSize > 0
    ensures Fetched(0, batchSize, replies) == Fetch(true, 0, 0)
  {
  }

  // The fetch from its next batch on.
  lemma FetchedNext(n: nat, batchSize: nat, replies: seq<Reply>, turn: nat)
    requires batchSize > 0 && n > 0 && turn <= |replies|
    ensures var reply := if turn < |replies| then replies[turn] else Fails;
            var size := Smaller(batchSize, n);
            && (reply == Replies(size) ==>
                  Fetched(n, batchSize, replies[turn..]) ==
                  Later(Fetched(n - size, batchSize, replies[turn + 1..]), size))
            && (reply != Replies(size) ==>
                  Fetched(n, batchSize, replies[turn..]) == Fetch(false, StoredOf(reply, size), size))
  {
    if turn < |replies| {
      assert replies[turn..][0] == replies[turn] && replies[turn..][1..] == replies[turn + 1..];
    }
  }

  lemma {:induction false} FetchedOkIff(n: nat, batchSize: nat, replies: seq<Reply>)
    requires batchSize > 0
    ensures Fetched(n, batchSize, replies).stored <= Fetched(n, batchSize, replies).sent <= n
    ensures Fetched(n, batchSize, replies).ok ==> Fetched(n, batchSize, replies).stored == n
    ensures Fetched(n, batchSize, replies).ok
            <==> forall t: nat :: AnsweredAt(n, batchSize, replies, t)
    decreases n
  {
    if n > 0 {
      var size := Smaller(batchSize, n);
      assert AnsweredAt(n, batchSize, replies, 0) <==> replies != [] && replies[0] == Replies(size);
      if replies != [] && replies[0] == Replies(size) {
        var rest, later := n - size, replies[1..];
        FetchedOkIff(rest, batchSize, later);
        if forall t: nat :: AnsweredAt(n, batchSize, replies, t) {
          forall t: nat ensures AnsweredAt(rest, batchSize, later, t) {
            AnsweredShifts(n, batchSize, replies, t);
          }
        }
        if forall t: nat :: AnsweredAt(rest, batchSize, later, t) {
          forall t: nat | t > 0 ensures AnsweredAt(n, batchSize, replies, t) {
            AnsweredShifts(n, batchSize, replies, t - 1);
          }
        }
      }
    } else {
      forall t: nat ensures AnsweredAt(n, batchSize, replies, t) {
        assert t * batchSize >= 0;
      }
    }
  }

  // If the `t`-th batch is the first that is not answered with its own count, everything up to and
  // with it was sent; and stored was everything before it and what the backend gave for it.
  lemma {:induction false} BrokenOffAt(n: nat, batchSize: nat, replies: seq<Reply>, t: nat)
    requires batchSize > 0 && !AnsweredAt(n, batchSize, replies, t)
    requires forall u :: 0 <= u < t ==> AnsweredAt(n, batchSize, replies, u)
    ensures var fetch, size := Fetched(n, batchSize, replies), Smaller(batchSize, n - t * batchSize);
            && !fetch.ok && fetch.sent == t * batchSize + size
            && fetch.stored == t * batchSize + (if t < |replies| && replies[t] != Fails
                                                then Smaller(replies[t].count, size) else 0)
    decreases t
  {
    if t > 0 {
      assert AnsweredAt(n, batchSize, replies, 0);
      var rest, later := n - Smaller(batchSize, n), replies[1..];
      assert t * batchSize == (t - 1) * batchSize + batchSize;
      AnsweredShifts(n, batchSize, replies, t - 1);
      forall u | 0 <= u < t - 1 ensures AnsweredAt(rest, batchSize, later, u) {
        AnsweredShifts(n, batchSize, replies, u);
      }
      BrokenOffAt(rest, batchSize, later, t - 1);
    }
  }

  lemma AnsweredShifts(n: nat, batchSize: nat, replies: seq<Reply>, t: nat)
    requires n > 0 && batchSize > 0 && replies != []
    ensures AnsweredAt(n - Smaller(batchSize, n), batchSize, replies[1..], t)
            <==> AnsweredAt(n, batchSize, replies, t + 1)
  {
    assert (t + 1) * batchSize == t * batchSize + batchSize;
    assert t * batchSize >= 0;
  }

  // If there is a `t`-th batch, it is answered with its own count.
  ghost predicate AnsweredAt(n: nat, batchSize: nat, replies: seq<Reply>, t: nat) {
    t * batchSize < n ==> t < |replies| && replies[t] == Replies(Smaller(batchSize, n - t * batchSize))
  }

  // The OrderedDict: its keys, oldest first, and their vectors.
  datatype Cache = Cache(order: seq<Text>, vectors: map<Text, Vector>)

  ghost predicate MostRecent(order: seq<Text>, uses: seq<Text>, size: nat) {
    && Suffix(order, ByLastUse(uses))
    && (|order| >= size || order == ByLastUse(uses))
  }

  // Correct vectors only, for the most recently used texts, and for all of them while there is
  // room.
  ghost predicate Good(c: Cache, uses: seq<Text>, vectorOf: Text -> Vector, size: nat) {
    && Distinct(c.order)
    && c.vectors.Keys == Members(c.order)
    && Correct(c, vectorOf)
    && MostRecent(c.order, uses, size)
  }

  ghost predicate Correct(c: Cache, vectorOf: Text -> Vector) {
    forall t :: t in c.vectors ==> c.vectors[t] == vectorOf(t)
  }

  // The cache once `t` is its newest entry.
  function Touch(c: Cache, t: Text, vectorOf: Text -> Vector): Cache {
    Cache(Except(c.order, {t}) + [t], c.vectors[t := vectorOf(t)])
  }

  // The same for a text that was not cached: it goes last.
  function Stored(c: Cache, t: Text, vectorOf: Text -> Vector): Cache {
    Cache(c.order + [t], c.vectors[t := vectorOf(t)])
  }

  // The cache and its uses after `batch` was stored on top of the keys and uses before.
  ghost predicate Grown(keysBefore: set<Text>, usesBefore: seq<Text>, batch: seq<Text>, c: Cache, uses: seq<Text>)
  {
    uses == usesBefore + batch && c.vectors.Keys == keysBefore + Members(batch)
  }

  lemma NothingGrown(c: Cache, uses: seq<Text>, batch: seq<Text>)
    ensures Grown(c.vectors.Keys, uses, batch[0..0], c, uses)
  {
  }

  lemma EmptyIsGood(vectorOf: Text -> Vector, size: nat)
    ensures Good(Cache([], map[]), [], vectorOf, size)
  {
  }

  lemma StoreNext(c: Cache, uses: seq<Text>, batch: seq<Text>, i: nat, vectorOf: Text -> Vector, size: nat,
                  keysBefore: set<Text>, usesBefore: seq<Text>)
    requires i < |batch| && Distinct(batch) && Members(batch) !! keysBefore
    requires Good(c, uses, vectorOf, size) && Grown(keysBefore, usesBefore, batch[0..i], c, uses)
    ensures Good(Stored(c, batch[i], vectorOf), uses + [batch[i]], vectorOf, size)
    ensures Grown(keysBefore, usesBefore, batch[0..i + 1], Stored(c, batch[i], vectorOf), uses + [batch[i]])
  {
    hide Good, Distinct;
    IsNew(batch, i, keysBefore);
    ExtendByOne(usesBefore, batch, 0, i);
    TouchKeepsGood(c, uses, batch[i], vectorOf, size);
    GrownByOne(keysBefore, usesBefore, batch, i, c, uses, vectorOf);
  }

  lemma GrownByOne(keysBefore: set<Text>, usesBefore: seq<Text>, batch: seq<Text>, i: nat, c: Cache, uses: seq<Text>,
                   vectorOf: Text -> Vector)
    requires i < |batch| && Grown(keysBefore, usesBefore, batch[0..i], c, uses)
    ensures Grown(keysBefore, usesBefore, batch[0..i + 1], Stored(c, batch[i], vectorOf), uses + [batch[i]])
  {
    hide Members;
    ExtendByOne(usesBefore, batch, 0, i);
  }

  lemma TouchKeepsGood(c: Cache, uses: seq<Text>, t: Text, vectorOf: Text -> Vector, size: nat)
    requires Good(c, uses, vectorOf, size)
    ensures Good(Touch(c, t, vectorOf), uses + [t], vectorOf, size)
    ensures t in c.vectors ==> Touch(c, t, vectorOf).vectors == c.vectors
    ensures t !in c.vectors ==> Touch(c, t, vectorOf) == Stored(c, t, vectorOf)
  {
    TouchOrder(c.order, t);
    UseKeepsRecent(c.order, uses, t, size);
    TouchVectors(c, t, vectorOf);
  }

  lemma TouchOrder(order: seq<Text>, t: Text)
    requires Distinct(order)
    ensures Distinct(Except(order, {t}) + [t])
    ensures Members(Except(order, {t}) + [t]) == Members(order) + {t}
    ensures t !in Members(order) ==> Except(order, {t}) == order
  {
    ExceptMembers(order, {t});
    ExceptDistinct(order, {t});
    DistinctSnoc(Except(order, {t}), t);
    MovedMembers(order, t);
  }

  lemma TouchVectors(c: Cache, t: Text, vectorOf: Text -> Vector)
    requires Correct(c, vectorOf)
    ensures Correct(Touch(c, t, vectorOf), vectorOf)
    ensures Touch(c, t, vectorOf).vectors.Keys == c.vectors.Keys + {t}
    ensures t in c.vectors ==> Touch(c, t, vectorOf).vectors == c.vectors
  {
  }

  lemma UseKeepsRecent(order: seq<Text>, uses: seq<Text>, t: Text, size: nat)
    requires Distinct(order) && MostRecent(order, uses, size)
    ensures MostRecent(Except(order, {t}) + [t], uses + [t], size)
  {
    UseSnoc(uses, t);
    UseKeepsSuffix(order, ByLastUse(uses), t);
    ExceptOne(order, t);
  }

  lemma {:induction false} ExceptOne(order: seq<Text>, t: Text)
    requires Distinct(order)
    ensures |Except(order, {t})| >= |order| - 1
  {
    if order != [] {
      var n := |order| - 1;
      if order[n] == t {
        assert Except(order[..n], {t}) == order[..n] by {
          assert t !in Members(order[..n]);
          ExceptMembers(order[..n], {t});
        }
      } else {
        ExceptOne(order[..n], t);
      }
    }
  }

  lemma EvictKeepsGood(c: Cache, uses: seq<Text>, vectorOf: Text -> Vector, size: nat)
    requires Good(c, uses, vectorOf, size) && |c.order| > size
    ensures Good(Cache(c.order[1..], c.vectors - {c.order[0]}), uses, vectorOf, size)
  {
    DropOldest(c.order);
    SuffixTail(c.order, ByLastUse(uses));
  }

  lemma DropOldest(order: seq<Text>)
    requires Distinct(order) && order != []
    ensures Distinct(order[1..]) && Members(order[1..]) == Members(order) - {order[0]}
  {
    assert order == [order[0]] + order[1..];
    MembersConcat([order[0]], order[1..]);
  }

  lemma SuffixTail(a: seq<Text>, b: seq<Text>)
    requires Suffix(a, b) && a != []
    ensures Suffix(a[1..], b)
  {
  }

  lemma ExtendByOne(front: seq<Text>, s: seq<Text>, a: nat, i: nat)
    requires a <= i < |s|
    ensures front + s[a..i] + [s[i]] == front + s[a..i + 1]
    ensures Members(s[a..i + 1]) == Members(s[a..i]) + {s[i]}
  {
    assert s[a..i + 1] == s[a..i] + [s[i]];
    MembersSnoc(s[a..i], s[i]);
  }

  lemma ExtendBySlice(front: seq<Text>, s: seq<Text>, a: nat, b: nat)
    requires a <= b <= |s|
    ensures front + s[..a] + s[a..b] == front + s[..b]
    ensures Members(s[..b]) == Members(s[..a]) + Members(s[a..b])
  {
    assert s[..b] == s[..a] + s[a..b];
    MembersConcat(s[..a], s[a..b]);
  }

  lemma ExtendByPart(front: seq<Text>, s: seq<Text>, a: nat, b: nat, k: nat)
    requires a <= b <= |s| && k <= b - a
    ensures front + s[..a] + s[a..b][..k] == front + s[..a + k]
  {
    assert s[a..b][..k] == s[a..a + k] && s[..a + k] == s[..a] + s[a..a + k];
  }

  function Newest(order: seq<Text>, size: nat): seq<Text> {
    if |order| <= size then order else order[|order| - size..]
  }

  // The backend's vector for each cached text, and nothing else.
  ghost predicate Holds(c: Cache, vectorOf: Text -> Vector) {
    c.vectors == map t | t in c.order :: vectorOf(t)
  }

  // One vector per text, in order.
  ghost predicate IsEmbeddingOf(vectors: seq<Vector>, texts: seq<Text>, vectorOf: Text -> Vector) {
    |vectors| == |texts| && forall i :: 0 <= i < |texts| ==> vectors[i] == vectorOf(texts[i])
  }

  // Only the recency order of the uses matters.
  lemma SameRecency(order: seq<Text>, uses: seq<Text>, others: seq<Text>, size: nat)
    requires MostRecent(order, uses, size) && ByLastUse(uses) == ByLastUse(others)
    ensures MostRecent(order, others, size)
  {
  }

  class CoreEmbedding {
    const vectorOf: Text -> Vector
    const batchSize: nat
    const cacheSize: nat
    var cache: Cache
    // Every text sent to the backend so far.
    var sent: seq<Text>
    // Every text used so far: asked for by a call that succeeded, or stored by one that failed.
    ghost var uses: seq<Text>

    constructor (vectorOf: Text -> Vector, batchSize: nat, cacheSize: nat)
      requires batchSize > 0
      ensures Valid() && cache == Cache([], map[]) && sent == [] && uses == []
      ensures this.vectorOf == vectorOf && this.batchSize == batchSize && this.cacheSize == cacheSize
    {
      EmptyIsGood(vectorOf, cacheSize);
      this.vectorOf, this.batchSize, this.cacheSize := vectorOf, batchSize, cacheSize;
      cache, sent, uses := Cache([], map[]), [], [];
    }

    ghost predicate Valid()
      reads this
    {
      batchSize > 0 && Good(cache, uses, vectorOf, cacheSize)
    }

    // One vector per text, in order; each distinct miss is sent once; and afterwards the cache
    // holds exactly the `cacheSize` most recently used texts of all calls.
    method Embed(texts: seq<Text>, replies: seq<Reply>) returns (result: Option<seq<Vector>>)
      requires Valid()
      modifies this
      ensures Valid()
      ensures var misses := Misses(texts, old(cache).vectors.Keys);
              var fetch := Fetched(|misses|, batchSize, replies);
              && (result.Some? <==> fetch.ok)
              && fetch.stored <= fetch.sent <= |misses| && sent == old(sent) + misses[..fetch.sent]
              && (result.None? ==> uses == old(uses) + misses[..fetch.stored])
      ensures result.Some? ==> IsEmbeddingOf(result.value, texts, vectorOf)
      ensures result.Some? ==> uses == old(uses) + texts
      ensures result.Some? ==> cache.order == Newest(ByLastUse(uses), cacheSize) && Holds(cache, vectorOf)
    {
      hide Good, Distinct;
      var missing := FindMissing(texts);
      MissesAreDistinct(texts, cache.vectors.Keys);
      var ok := FetchAll(missing, replies);
      if !ok { return None; }
      var found := Serve(texts, missing, old(uses));
      result := Some(found);
    }

    // With every text cached: read the vectors, mark the texts as used, evict the oldest.
    method Serve(texts: seq<Text>, missing: seq<Text>, ghost before: seq<Text>) returns (found: seq<Vector>)
      requires Valid() && Members(texts) <= cache.vectors.Keys
      requires uses == before + missing && Members(missing) <= Members(texts)
      modifies this`cache, this`uses
      ensures Valid() && IsEmbeddingOf(found, texts, vectorOf)
      ensures uses == before + texts
      ensures cache.order == Newest(ByLastUse(uses), cacheSize) && Holds(cache, vectorOf)
    {
      found := ReadAll(texts);
      UseAll(texts);
      MissesLeaveNoTrace(before, missing, texts);
      SameRecency(cache.order, uses, before + texts, cacheSize);
      uses := before + texts;
      Evict();
      TrimmedCacheIsTheNewest(cache, uses, vectorOf, cacheSize);
    }

    method FindMissing(texts: seq<Text>) returns (missing: seq<Text>)
      ensures missing == Misses(texts, cache.vectors.Keys)
    {
      missing := [];
      for i := 0 to |texts|
        invariant missing == Misses(texts[..i], cache.vectors.Keys)
      {
        assert texts[..i + 1][..i] == texts[..i];
        if texts[i] !in cache.vectors && texts[i] !in missing {
          missing := missing + [texts[i]];
        }
      }
      assert texts[..|texts|] == texts;
    }

    // Send the misses batch by batch and store what comes back.
    method FetchAll(missing: seq<Text>, replies: seq<Reply>) returns (ok: bool)
      requires Valid() && Distinct(missing) && Members(missing) !! cache.vectors.Keys
      modifies this
      ensures Valid()
      ensures var fetch := Fetched(|missing|, batchSize, replies);
              && ok == fetch.ok && fetch.stored <= fetch.sent <= |missing|
              && sent == old(sent) + missing[..fetch.sent] && uses == old(uses) + missing[..fetch.stored]
      ensures ok ==> Grown(old(cache).vectors.Keys, old(uses), missing, cache, uses)
    {
      hide Good, Distinct, Fetched;
      var start, turn := 0, 0;
      assert Later(Fetched(|missing|, batchSize, replies), 0) == Fetched(|missing|, batchSize, replies[0..]);
      while start < |missing|
        invariant 0 <= start <= |missing| && 0 <= turn <= |replies|
        invariant Valid()
        invariant sent == old(sent) + missing[..start]
        invariant Grown(old(cache).vectors.Keys, old(uses), missing[..start], cache, uses)
        invariant Fetched(|missing|, batchSize, replies) ==
                  Later(Fetched(|missing| - start, batchSize, replies[turn..]), start)
        decreases |missing| - start
      {
        var end := start + Smaller(batchSize, |missing| - start);
        var reply := if turn < |replies| then replies[turn] else Fails;
        NotYetStored(missing, start, end, old(cache).vectors.Keys);
        ExtendBySlice(old(sent), missing, start, end);
        ExtendBySlice(old(uses), missing, start, end);
        FetchedNext(|missing| - start, batchSize, replies, turn);
        var stored, complete := Send(missing[start..end], reply);
        if !complete {
          ExtendByPart(old(uses), missing, start, end, stored);
          return false;
        }
        start, turn := end, turn + 1;
      }
      FetchedNothing(batchSize, replies[turn..]);
      assert missing[..start] == missing;
      ok := true;
    }

    // One backend call. A batch answered in part is stored in part, and then refused.
    method Send(batch: seq<Text>, reply: Reply) returns (stored: nat, complete: bool)
      requires Valid() && Distinct(batch) && Members(batch) !! cache.vectors.Keys
      modifies this
      ensures Valid()
      ensures sent == old(sent) + batch
      ensures stored == StoredOf(reply, |batch|) && uses == old(uses) + batch[..stored]
      ensures complete <==> reply == Replies(|batch|)
      ensures complete ==> Grown(old(cache).vectors.Keys, old(uses), batch, cache, uses)
    {
      hide Good;
      stored := if reply == Fails then 0 else if reply.count < |batch| then reply.count else |batch|;
      complete := reply != Fails && reply.count == |batch|;
      sent := sent + batch;
      assert batch[..|batch|] == batch;
      assert batch == batch[..stored] + batch[stored..];
      MembersConcat(batch[..stored], batch[stored..]);
      Store(batch[..stored]);
    }

    method Store(batch: seq<Text>)
      requires Valid() && Distinct(batch) && Members(batch) !! cache.vectors.Keys
      modifies this`cache, this`uses
      ensures Valid()
      ensures Grown(old(cache).vectors.Keys, old(uses), batch, cache, uses)
    {
      hide Good, Distinct, Members, Grown;
      NothingGrown(old(cache), old(uses), batch);
      var i := 0;
      while i < |batch|
        invariant 0 <= i <= |batch|
        invariant Good(cache, uses, vectorOf, cacheSize)
        invariant Grown(old(cache).vectors.Keys, old(uses), batch[0..i], cache, uses)
      {
        StoreNext(cache, uses, batch, i, vectorOf, cacheSize, old(cache).vectors.Keys, old(uses));
        cache := Stored(cache, batch[i], vectorOf);
        uses := uses + [batch[i]];
        i := i + 1;
      }
      assert batch[0..i] == batch;
    }

    method ReadAll(texts: seq<Text>) returns (found: seq<Vector>)
      requires Correct(cache, vectorOf) && Members(texts) <= cache.vectors.Keys
      ensures IsEmbeddingOf(found, texts, vectorOf)
    {
      found := [];
      for i := 0 to |texts|
        invariant |found| == i && forall j :: 0 <= j < i ==> found[j] == vectorOf(texts[j])
      {
        assert texts[i] in Members(texts);
        found := found + [cache.vectors[texts[i]]];
      }
    }

    // move_to_end for every requested key.
    method UseAll(texts: seq<Text>)
      requires Valid() && Members(texts) <= cache.vectors.Keys
      modifies this`cache, this`uses
      ensures Valid()
      ensures uses == old(uses) + texts
    {
      hide Good;
      for i := 0 to |texts|
        invariant Valid() && cache.vectors == old(cache).vectors
        invariant uses == old(uses) + texts[0..i]
      {
        var text := texts[i];
        assert text in Members(texts);
        TouchKeepsGood(cache, uses, text, vectorOf, cacheSize);
        cache := cache.(order := Except(cache.order, {text}) + [text]);
        uses := uses + [text];
        ExtendByOne(old(uses), texts, 0, i);
      }
      assert texts[0..|texts|] == texts;
    }

    method Evict()
      requires Valid()
      modifies this`cache
      ensures Valid() && |cache.order| <= cacheSize
    {
      hide Good;
      while |cache.order| > cacheSize
        invariant Valid()
        decreases |cache.order|
      {
        EvictKeepsGood(cache, uses, vectorOf, cacheSize);
        cache := Cache(cache.order[1..], cache.vectors - {cache.order[0]});
      }
    }
  }

  lemma NotYetStored(missing: seq<Text>, a: nat, b: nat, cached: set<Text>)
    requires Distinct(missing) && a <= b <= |missing| && Members(missing) !! cached
    ensures Distinct(missing[a..b])
    ensures Members(missing[a..b]) !! cached + Members(missing[..a])
    ensures cached + Members(missing[..a]) + Members(missing[a..b]) == cached + Members(missing[..b])
  {
    assert missing == missing[..b] + missing[b..] && missing[..b] == missing[..a] + missing[a..b];
    MembersConcat(missing[..b], missing[b..]);
    MembersConcat(missing[..a], missing[a..b]);
  }

  lemma IsNew(batch: seq<Text>, i: nat, cached: set<Text>)
    requires Distinct(batch) && i < |batch| && Members(batch) !! cached
    ensures batch[i] !in cached + Members(batch[0..i])
  {
    assert batch[i] in Members(batch);
  }

  lemma CorrectHolds(c: Cache, vectorOf: Text -> Vector)
    requires Correct(c, vectorOf) && c.vectors.Keys == Members(c.order)
    ensures Holds(c, vectorOf)
  {
    assert forall t :: t in c.vectors <==> t in c.order;
  }

  // What a trimmed cache is: the whole recency order while it fits, its newest part otherwise.
  lemma {:induction false} TrimmedCacheIsTheNewest(c: Cache, uses: seq<Text>, vectorOf: Text -> Vector, size: nat)
    requires Good(c, uses, vectorOf, size) && |c.order| <= size
    ensures c.order == Newest(ByLastUse(uses), size)
    ensures Holds(c, vectorOf)
    ensures Members(c.order) <= Members(uses)
  {
    hide Distinct;
    var recent := ByLastUse(uses);
    assert Holds(c, vectorOf) by { CorrectHolds(c, vectorOf); }
    assert Members(c.order) <= Members(uses) by {
      hide Members, Good, ByLastUse;
      ByLastUseMembers(uses);
      assert recent == recent[..|recent| - |c.order|] + c.order;
      MembersConcat(recent[..|recent| - |c.order|], c.order);
    }
  }
}
