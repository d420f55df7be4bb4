/** Splitting an import into requests, and putting the answers back in order
    (message_import.go). */
module Chunking {
  import opened Ids

  const MAX_IMPORT_COUNT := 10
  const MAX_IMPORT_SIZE := 70 * 1024 * 1024
  const SUCCESS_CODE := 1000

  // ---------------------------------------------------------------------
  // ChunkSized

  function Total<T>(vals: seq<T>, size: T -> nat): nat {
    if vals == [] then 0 else size(vals[0]) + Total(vals[1..], size)
  }

  function Concat<T>(chunks: seq<seq<T>>): seq<T> {
    if chunks == [] then [] else chunks[0] + Concat(chunks[1..])
  }

  ghost predicate Fits<T>(chunk: seq<T>, maxLen: int, maxSize: int, size: T -> nat) {
    |chunk| <= maxLen && Total(chunk, size) <= maxSize
  }

  /** A way to cut `vals` into consecutive chunks within both bounds. */
  ghost predicate IsSplit<T>(chunks: seq<seq<T>>, vals: seq<T>, maxLen: int, maxSize: int, size: T -> nat) {
    Concat(chunks) == vals && forall c :: c in chunks ==> Fits(c, maxLen, maxSize, size)
  }

  lemma {:induction false} TotalConcat<T>(a: seq<T>, b: seq<T>, size: T -> nat)
    ensures Total(a + b, size) == Total(a, size) + Total(b, size)
  {
    if a == [] {
      assert a + b == b;
    } else {
      TotalConcat(a[1..], b, size);
      assert (a + b)[1..] == a[1..] + b;
    }
  }

  lemma {:induction false} ConcatAppend<T>(chunks: seq<seq<T>>, c: seq<T>)
    ensures Concat(chunks + [c]) == Concat(chunks) + c
  {
    if chunks == [] {
      assert chunks + [c] == [c] && Concat([c]) == c + [];
    } else {
      ConcatAppend(chunks[1..], c);
      assert (chunks + [c])[1..] == chunks[1..] + [c];
    }
  }

  /** How many elements the inner loop still takes when the current chunk
      already holds `len` elements of total size `cur`. */
  function Fill<T>(vals: seq<T>, len: nat, cur: nat, maxLen: int, maxSize: int, size: T -> nat): (n: nat)
    ensures n <= |vals|
  {
    if vals == [] || len >= maxLen || cur >= maxSize || cur + size(vals[0]) > maxSize then 0
    else 1 + Fill(vals[1..], len + 1, cur + size(vals[0]), maxLen, maxSize, size)
  }

  /** The chunks of the outer loop. The second branch is where the loop
      would spin for ever on an element larger than `maxSize`. */
  function Greedy<T>(vals: seq<T>, maxLen: int, maxSize: int, size: T -> nat): (chunks: seq<seq<T>>)
  {
    var n := Fill(vals, 0, 0, maxLen, maxSize, size);
    if n == 0 then [] else [vals[..n]] + Greedy(vals[n..], maxLen, maxSize, size)
  }

  lemma {:induction false} FillFits<T>(vals: seq<T>, len: nat, cur: nat, maxLen: int, maxSize: int, size: T -> nat)
    requires len <= maxLen && cur <= maxSize
    ensures var n := Fill(vals, len, cur, maxLen, maxSize, size);
      len + n <= maxLen && cur + Total(vals[..n], size) <= maxSize
  {
    var n := Fill(vals, len, cur, maxLen, maxSize, size);
    if n > 0 {
      FillFits(vals[1..], len + 1, cur + size(vals[0]), maxLen, maxSize, size);
      assert vals[..n][1..] == vals[1..][..n - 1];
    }
  }

  lemma {:induction false} GreedyIsSplit<T>(vals: seq<T>, maxLen: int, maxSize: int, size: T -> nat)
    requires 1 <= maxLen && 1 <= maxSize
    requires forall v :: v in vals ==> size(v) <= maxSize
    ensures IsSplit(Greedy(vals, maxLen, maxSize, size), vals, maxLen, maxSize, size)
    ensures forall c :: c in Greedy(vals, maxLen, maxSize, size) ==> c != []
  {
    if vals != [] {
      assert vals[0] in vals;
      var n := Fill(vals, 0, 0, maxLen, maxSize, size);
      FillFits(vals, 0, 0, maxLen, maxSize, size);
      GreedyIsSplit(vals[n..], maxLen, maxSize, size);
      assert vals == vals[..n] + vals[n..];
    }
  }

  /** The import splitter. Its comment asks for elements not above `maxSize`. */
  method ChunkSized<T>(vals: seq<T>, maxLen: int, maxSize: int, size: T -> nat) returns (chunks: seq<seq<T>>)
    requires 1 <= maxLen && 1 <= maxSize
    requires forall v :: v in vals ==> size(v) <= maxSize
    ensures IsSplit(chunks, vals, maxLen, maxSize, size)
    ensures forall c :: c in chunks ==> c != []
    ensures chunks == Greedy(vals, maxLen, maxSize, size)
  {
    hide Greedy, IsSplit;
    chunks := [];
    var rest := vals;
    while |rest| > 0
      invariant forall v :: v in rest ==> v in vals
      invariant Greedy(vals, maxLen, maxSize, size) == chunks + Greedy(rest, maxLen, maxSize, size)
      decreases |rest|
    {
      var curChunk: seq<T>, curSize: nat := [], 0;
      ghost var start := rest;
      assert rest[0] in vals;
      while |rest| > 0 && |curChunk| < maxLen && curSize < maxSize
        invariant start == curChunk + rest
        invariant Fill(start, 0, 0, maxLen, maxSize, size) ==
          |curChunk| + Fill(rest, |curChunk|, curSize, maxLen, maxSize, size)
        decreases |rest|
      {
        var val, s := rest[0], size(rest[0]);
        if curSize + s > maxSize {
          break;
        }
        MoveOne(curChunk, rest);
        curChunk := curChunk + [val];
        curSize := curSize + s;
        rest := rest[1..];
      }
      GreedyStep(start, curChunk, rest, maxLen, maxSize, size);
      AppendTwice(chunks, [curChunk], Greedy(rest, maxLen, maxSize, size));
      chunks := chunks + [curChunk];
    }
    GreedyNothing(rest, maxLen, maxSize, size);
    assert chunks + [] == chunks;
    GreedyIsSplit(vals, maxLen, maxSize, size);
  }

  lemma GreedyNothing<T>(vals: seq<T>, maxLen: int, maxSize: int, size: T -> nat)
    requires vals == []
    ensures Greedy(vals, maxLen, maxSize, size) == []
  {}

  lemma MoveOne<T>(chunk: seq<T>, rest: seq<T>)
    requires rest != []
    ensures chunk + rest == (chunk + [rest[0]]) + rest[1..]
  {}

  /** What the inner loop took is the first chunk. */
  lemma GreedyStep<T>(start: seq<T>, chunk: seq<T>, rest: seq<T>, maxLen: int, maxSize: int, size: T -> nat)
    requires start == chunk + rest && |chunk| == Fill(start, 0, 0, maxLen, maxSize, size) > 0
    ensures Greedy(start, maxLen, maxSize, size) == [chunk] + Greedy(rest, maxLen, maxSize, size)
  {
    assert start[..|chunk|] == chunk && start[|chunk|..] == rest;
  }

  /** The element that closes the chunk is not empty. It can be only if the
      chunk is full and shorter than `maxLen`. */
  predicate ClosedByWeight<T>(vals: seq<T>, n: nat, len: nat, maxLen: int, size: T -> nat) {
    n < |vals| && len + n < maxLen ==> size(vals[n]) > 0
  }

  /** The inner loop takes every prefix that fits, unless it stops at an empty
      element because the chunk is full. */
  lemma {:induction false} FillIsMaximal<T>(vals: seq<T>, m: nat, len: nat, cur: nat, maxLen: int, maxSize: int, size: T -> nat)
    requires m <= |vals|
    requires ClosedByWeight(vals, Fill(vals, len, cur, maxLen, maxSize, size), len, maxLen, size)
    requires len + m <= maxLen && cur + Total(vals[..m], size) <= maxSize
    ensures Fill(vals, len, cur, maxLen, maxSize, size) >= m
  {
    if m > 0 {
      assert vals[..m][1..] == vals[1..][..m - 1];
      if cur < maxSize {
        FillIsMaximal(vals[1..], m - 1, len + 1, cur + size(vals[0]), maxLen, maxSize, size);
      }
    }
  }

  /** No chunk of the greedy split is closed by an empty element. */
  predicate NoEmptyAfterFull<T>(vals: seq<T>, maxLen: int, maxSize: int, size: T -> nat) {
    var n := Fill(vals, 0, 0, maxLen, maxSize, size);
    n > 0 ==> ClosedByWeight(vals, n, 0, maxLen, size) && NoEmptyAfterFull(vals[n..], maxLen, maxSize, size)
  }

  lemma {:induction false} PositiveSizes<T>(vals: seq<T>, maxLen: int, maxSize: int, size: T -> nat)
    requires forall v :: v in vals ==> size(v) > 0
    ensures NoEmptyAfterFull(vals, maxLen, maxSize, size)
  {
    var n := Fill(vals, 0, 0, maxLen, maxSize, size);
    if n > 0 {
      PositiveSizes(vals[n..], maxLen, maxSize, size);
    }
  }

  /** If another split's first chunk reaches beyond `i`, greedy from `i` takes
      at least as much. */
  lemma FillReaches<T>(vals: seq<T>, i: nat, j: nat, k: nat, maxLen: int, maxSize: int, size: T -> nat)
    requires j <= i < k <= |vals| && Fits(vals[j..k], maxLen, maxSize, size)
    requires ClosedByWeight(vals[i..], Fill(vals[i..], 0, 0, maxLen, maxSize, size), 0, maxLen, size)
    ensures i + Fill(vals[i..], 0, 0, maxLen, maxSize, size) >= k
  {
    JoinSlices(vals, j, i, k);
    TotalConcat(vals[j..i], vals[i..k], size);
    SliceOfRest(vals, i, 0, k - i);
    FillIsMaximal(vals[i..], k - i, 0, 0, maxLen, maxSize, size);
  }

  /** The first chunk of a split, as a slice. */
  lemma FirstChunk<T>(vals: seq<T>, j: nat, other: seq<seq<T>>, maxLen: int, maxSize: int, size: T -> nat)
    requires j <= |vals| && other != [] && IsSplit(other, vals[j..], maxLen, maxSize, size)
    ensures var k := j + |other[0]|;
      k <= |vals| && Fits(vals[j..k], maxLen, maxSize, size) && IsSplit(other[1..], vals[k..], maxLen, maxSize, size)
  {
    var c := other[0];
    assert vals[j..] == c + Concat(other[1..]);
    assert c == vals[j..][..|c|] == vals[j..j + |c|];
    assert vals[j..][|c|..] == vals[j + |c|..] == Concat(other[1..]);
    assert c in other;
  }

  /** The next greedy chunk, as a step along the values. */
  lemma GreedyAt<T>(vals: seq<T>, i: nat, maxLen: int, maxSize: int, size: T -> nat)
    requires i <= |vals| && NoEmptyAfterFull(vals[i..], maxLen, maxSize, size)
    ensures var n := Fill(vals[i..], 0, 0, maxLen, maxSize, size);
      if n == 0 then Greedy(vals[i..], maxLen, maxSize, size) == []
      else
        && |Greedy(vals[i..], maxLen, maxSize, size)| == 1 + |Greedy(vals[i + n..], maxLen, maxSize, size)|
        && ClosedByWeight(vals[i..], n, 0, maxLen, size) && NoEmptyAfterFull(vals[i + n..], maxLen, maxSize, size)
  {
    var n := Fill(vals[i..], 0, 0, maxLen, maxSize, size);
    assert vals[i..][n..] == vals[i + n..];
  }

  /** Greedy stays ahead: starting no earlier than another split, it needs no
      more chunks for what is left. */
  lemma {:induction false} StaysAhead<T>(vals: seq<T>, i: nat, j: nat, other: seq<seq<T>>, maxLen: int, maxSize: int, size: T -> nat)
    requires j <= i <= |vals|
    requires NoEmptyAfterFull(vals[i..], maxLen, maxSize, size)
    requires IsSplit(other, vals[j..], maxLen, maxSize, size)
    ensures |Greedy(vals[i..], maxLen, maxSize, size)| <= |other|
    decreases |other|
  {
    if other == [] {
      NothingLeft(vals, i, j, maxLen, maxSize, size);
    } else {
      hide *;
      var n := Fill(vals[i..], 0, 0, maxLen, maxSize, size);
      GreedyAt(vals, i, maxLen, maxSize, size);
      if n > 0 {
        var k := j + |other[0]|;
        FirstChunk(vals, j, other, maxLen, maxSize, size);
        if k > i {
          FillReaches(vals, i, j, k, maxLen, maxSize, size);
        }
        StaysAhead(vals, i + n, k, other[1..], maxLen, maxSize, size);
      }
    }
  }

  lemma NothingLeft<T>(vals: seq<T>, i: nat, j: nat, maxLen: int, maxSize: int, size: T -> nat)
    requires j <= i <= |vals| && IsSplit([], vals[j..], maxLen, maxSize, size)
    ensures Greedy(vals[i..], maxLen, maxSize, size) == []
  {
    assert |vals[j..]| == 0 && vals[i..] == [];
  }

  /** No split of the same values within the same bounds uses fewer chunks,
      unless a full chunk is closed by an empty element. */
  lemma GreedyIsOptimal<T>(vals: seq<T>, other: seq<seq<T>>, maxLen: int, maxSize: int, size: T -> nat)
    requires NoEmptyAfterFull(vals, maxLen, maxSize, size)
    requires IsSplit(other, vals, maxLen, maxSize, size)
    ensures |Greedy(vals, maxLen, maxSize, size)| <= |other|
  {
    assert vals[0..] == vals;
    StaysAhead(vals, 0, 0, other, maxLen, maxSize, size);
  }

  /** Then it can: an element that fills the chunk is closed before an empty one. */
  lemma EmptyElementsBreakOptimality<T>(full: T, empty: T, maxLen: int, maxSize: int, size: T -> nat)
    requires maxLen >= 2 && size(full) == maxSize >= 1 && size(empty) == 0
    ensures |Greedy([full, empty], maxLen, maxSize, size)| == 2
    ensures IsSplit([[full, empty]], [full, empty], maxLen, maxSize, size)
  {
    var v, w := [full, empty], [empty];
    assert v[1..] == w && w[1..] == [];
    assert Fill(w, 0, 0, maxLen, maxSize, size) == 1;
    assert Greedy(w, maxLen, maxSize, size) == [w[..1]] + Greedy(w[1..], maxLen, maxSize, size);
    assert Fill(v, 0, 0, maxLen, maxSize, size) == 1;
    assert Greedy(v, maxLen, maxSize, size) == [v[..1]] + Greedy(w, maxLen, maxSize, size);
    assert Total(v, size) == size(full) + Total(w, size);
    assert [v][1..] == [] && Concat([v]) == v + Concat<T>([]) == v;
  }

  // ---------------------------------------------------------------------
  // importMessages and ImportMessages

  datatype ImportRes = ImportRes(code: int, messageID: Id)

  /** What a missing entry of the response map reads as. */
  const NO_RESPONSE := ImportRes(0, NoId)

  /** The responses name every request of the chunk and answer it, in any
      order and any number of times. */
  ghost predicate AnswersAll<Req(!new)>(responses: seq<(nat, ImportRes)>, chunk: seq<Req>, answer: Req -> ImportRes) {
    && (forall r :: r in responses ==> r.0 < |chunk| && r.1 == answer(chunk[r.0]))
    && (forall i | 0 <= i < |chunk| :: (i, answer(chunk[i])) in responses)
  }

  /** What the map of named responses holds for a name: its last response. */
  function LastNamed(responses: seq<(nat, ImportRes)>, name: nat): ImportRes {
    if responses == [] then NO_RESPONSE
    else if responses[|responses| - 1].0 == name then responses[|responses| - 1].1
    else LastNamed(responses[..|responses| - 1], name)
  }

  /** The answers to one chunk, in request order. */
  function InOrder(responses: seq<(nat, ImportRes)>, n: nat): (res: seq<ImportRes>)
    ensures |res| == n && forall i | 0 <= i < n :: res[i] == LastNamed(responses, i)
  {
    seq(n, (i: nat) => LastNamed(responses, i))
  }

  /** Sends one chunk; requests are named by their index in it. Responses may
      come in any order, miss a request or name an unknown one. */
  method ImportChunk<Req>(chunk: seq<Req>, responses: seq<(nat, ImportRes)>) returns (res: seq<ImportRes>)
    ensures res == InOrder(responses, |chunk|)
  {
    var namedRes: map<nat, ImportRes> := map[];
    for k := 0 to |responses|
      invariant forall n: nat :: LastNamed(responses[..k], n) == if n in namedRes then namedRes[n] else NO_RESPONSE
    {
      namedRes := namedRes[responses[k].0 := responses[k].1];
      assert responses[..k + 1][..k] == responses[..k];
    }
    assert responses[..|responses|] == responses;
    res := [];
    for i := 0 to |chunk|
      invariant |res| == i && forall m | 0 <= m < i :: res[m] == LastNamed(responses, m)
    {
      res := res + [if i in namedRes then namedRes[i] else NO_RESPONSE];
    }
  }

  /** If the responses answer every request of the chunk, each gets its own answer. */
  lemma {:induction false} AnswersAreFound<Req(!new)>(responses: seq<(nat, ImportRes)>, chunk: seq<Req>, answer: Req -> ImportRes, i: nat)
    requires i < |chunk| && (forall r :: r in responses ==> r.0 < |chunk| && r.1 == answer(chunk[r.0]))
    requires (i, answer(chunk[i])) in responses
    ensures LastNamed(responses, i) == answer(chunk[i])
  {
    var n := |responses| - 1;
    assert responses[n] in responses;
    if responses[n].0 != i {
      assert responses == responses[..n] + [responses[n]];
      AnswersAreFound(responses[..n], chunk, answer, i);
    }
  }

  predicate Accepted(res: seq<ImportRes>) { forall i | 0 <= i < |res| :: res[i].code == SUCCESS_CODE }

  /** The answers to all chunks, one after the other. */
  function AllInOrder<Req>(chunks: seq<seq<Req>>, respond: seq<Req> -> seq<(nat, ImportRes)>): seq<ImportRes> {
    if chunks == [] then [] else InOrder(respond(chunks[0]), |chunks[0]|) + AllInOrder(chunks[1..], respond)
  }

  /** The whole import: chunk, send each chunk, flatten. It succeeds exactly if
      every message fits and every answer read is a success. */
  method ImportMessages<Req>(reqs: seq<Req>, size: Req -> nat, respond: seq<Req> -> seq<(nat, ImportRes)>)
      returns (res: Result<seq<ImportRes>>)
    ensures var answers := AllInOrder(Greedy(reqs, MAX_IMPORT_COUNT, MAX_IMPORT_SIZE, size), respond);
      && (res.Ok? <==> (forall r :: r in reqs ==> size(r) <= MAX_IMPORT_SIZE) && Accepted(answers))
      && (res.Ok? ==> res.value == answers)
  {
    if i :| 0 <= i < |reqs| && size(reqs[i]) > MAX_IMPORT_SIZE {
      return Err;
    }
    var chunks := ChunkSized(reqs, MAX_IMPORT_COUNT, MAX_IMPORT_SIZE, size);
    hide Greedy, IsSplit;
    ghost var answers := AllInOrder(chunks, respond);
    var all := [];
    for k := 0 to |chunks|
      invariant answers == all + AllInOrder(chunks[k..], respond) && Accepted(all)
    {
      var batch := ImportChunk(chunks[k], respond(chunks[k]));
      assert chunks[k..][1..] == chunks[k + 1..];
      AppendTwice(all, batch, AllInOrder(chunks[k + 1..], respond));
      if i :| 0 <= i < |batch| && batch[i].code != SUCCESS_CODE {
        assert answers[|all| + i] == batch[i];
        return Err;
      }
      all := all + batch;
    }
    assert chunks[|chunks|..] == [];
    res := Ok(all);
  }

  /** With a server that answers every request of a chunk, the answers are those
      of the requests, in request order. */
  lemma {:induction false} AnswersAreAligned<Req(!new)>(chunks: seq<seq<Req>>, respond: seq<Req> -> seq<(nat, ImportRes)>, answer: Req -> ImportRes)
    requires forall c :: c in chunks ==> AnswersAll(respond(c), c, answer)
    ensures var reqs, answers := Concat(chunks), AllInOrder(chunks, respond);
      |answers| == |reqs| && forall i | 0 <= i < |reqs| :: answers[i] == answer(reqs[i])
  {
    if chunks != [] {
      var c := chunks[0];
      AnswersAreAligned(chunks[1..], respond, answer);
      forall i | 0 <= i < |c| ensures LastNamed(respond(c), i) == answer(c[i]) {
        AnswersAreFound(respond(c), c, answer, i);
      }
    }
  }

  /** So the import gives the answer to each request in its place. */
  lemma ImportIsAligned<Req(!new)>(reqs: seq<Req>, size: Req -> nat, respond: seq<Req> -> seq<(nat, ImportRes)>, answer: Req -> ImportRes)
    requires forall r :: r in reqs ==> size(r) <= MAX_IMPORT_SIZE
    requires forall chunk :: AnswersAll(respond(chunk), chunk, answer)
    ensures var answers := AllInOrder(Greedy(reqs, MAX_IMPORT_COUNT, MAX_IMPORT_SIZE, size), respond);
      |answers| == |reqs| && forall i | 0 <= i < |reqs| :: answers[i] == answer(reqs[i])
  {
    var chunks := Greedy(reqs, MAX_IMPORT_COUNT, MAX_IMPORT_SIZE, size);
    GreedyIsSplit(reqs, MAX_IMPORT_COUNT, MAX_IMPORT_SIZE, size);
    AnswersAreAligned(chunks, respond, answer);
  }
}
