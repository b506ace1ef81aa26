/** Access bindings of one cloud: batched updates and paged reads (yandex/iam_cloud.go). */
module IamCloud {
  import opened GoText

  datatype Binding = Binding(role: string, subjectType: string, subjectId: string)

  type Policy = seq<Binding>

  datatype Delta = Add(binding: Binding) | Remove(binding: Binding)

  // ---------- what the server does with deltas ----------

  function Without(p: Policy, b: Binding): Policy {
    if p == [] then []
    else if p[0] == b then Without(p[1..], b)
    else [p[0]] + Without(p[1..], b)
  }

  function ApplyDelta(p: Policy, d: Delta): Policy {
    match d
    case Add(b) => if b in p then p else p + [b]
    case Remove(b) => Without(p, b)
  }

  function ApplyAll(p: Policy, deltas: seq<Delta>): Policy {
    if deltas == [] then p
    else ApplyDelta(ApplyAll(p, deltas[..|deltas| - 1]), deltas[|deltas| - 1])
  }

  /** After a delta its binding is there or not, as it says, and no other is affected. */
  lemma DeltaExact(p: Policy, d: Delta)
    ensures forall b :: b in ApplyDelta(p, d) <==> if b == d.binding then d.Add? else b in p
  {
    if d.Remove? {
      WithoutExact(p, d.binding);
    }
  }

  lemma {:induction false} WithoutExact(p: Policy, x: Binding)
    ensures forall b :: b in Without(p, x) <==> b in p && b != x
  {
    if p != [] {
      WithoutExact(p[1..], x);
      assert p == [p[0]] + p[1..];
    }
  }

  lemma {:induction false} ApplyAllConcat(p: Policy, a: seq<Delta>, b: seq<Delta>)
    ensures ApplyAll(p, a + b) == ApplyAll(ApplyAll(p, a), b)
    decreases |b|
  {
    if b == [] {
      assert a + b == a;
    } else {
      assert (a + b)[..|a + b| - 1] == a + b[..|b| - 1];
      ApplyAllConcat(p, a, b[..|b| - 1]);
    }
  }

  // ---------- batches ----------

  const BATCH_SIZE: nat := 1000

  /** countBatches */
  function CountBatches(size: nat, batchSize: nat): nat
    requires batchSize > 0
  {
    size / batchSize + if size % batchSize > 0 then 1 else 0
  }

  function BatchEnd(size: nat, i: nat): (end: nat)
    ensures end <= size
  {
    if (i + 1) * BATCH_SIZE <= size then (i + 1) * BATCH_SIZE else size
  }

  function Batch(deltas: seq<Delta>, i: nat): seq<Delta>
    requires i < CountBatches(|deltas|, BATCH_SIZE)
  {
    deltas[i * BATCH_SIZE..BatchEnd(|deltas|, i)]
  }

  /** The deltas of the first n batches. */
  function Sent(deltas: seq<Delta>, n: nat): seq<Delta>
    requires n <= CountBatches(|deltas|, BATCH_SIZE)
  {
    if n == 0 then [] else Sent(deltas, n - 1) + Batch(deltas, n - 1)
  }

  /** Every batch holds between 1 and 1000 deltas, and the batches in turn are the deltas: the first
      n of them are a prefix, all of them the whole list. */
  lemma {:induction false} BatchesPartition(deltas: seq<Delta>, n: nat)
    requires n <= CountBatches(|deltas|, BATCH_SIZE)
    ensures forall i: nat | i < n :: 1 <= |Batch(deltas, i)| <= 1000
    ensures forall i: nat | i + 1 < n :: |Batch(deltas, i)| == 1000
    ensures Sent(deltas, n) == deltas[..if n * BATCH_SIZE <= |deltas| then n * BATCH_SIZE else |deltas|]
    ensures n == CountBatches(|deltas|, BATCH_SIZE) ==> Sent(deltas, n) == deltas
    ensures n < CountBatches(|deltas|, BATCH_SIZE) ==> n * BATCH_SIZE < |deltas|
  {
    if n > 0 {
      BatchesPartition(deltas, n - 1);
    }
  }

  /** The server's side of one cloud. A call may fail, and may fail after the change was made. */
  class CloudServer {
    var policy: Policy
    ghost var sent: seq<seq<Delta>>
    /** What each request that changes bindings was answered. */
    ghost var answers: seq<bool>

    method UpdateAccessBindings(batch: seq<Delta>) returns (ok: bool)
      modifies this
      ensures sent == old(sent) + [batch] && answers == old(answers) + [ok]
      ensures policy == old(policy) || policy == ApplyAll(old(policy), batch)
      ensures ok ==> policy == ApplyAll(old(policy), batch)
    {
      ok := false;
      if * {
        policy := ApplyAll(policy, batch);
        ok := *;
      }
      sent, answers := sent + [batch], answers + [ok];
    }

    method SetAccessBindings(p: Policy) returns (ok: bool)
      modifies this
      ensures sent == old(sent) && answers == old(answers) + [ok]
      ensures policy == old(policy) || policy == p
      ensures ok ==> policy == p
    {
      ok := false;
      if * {
        policy := p;
        ok := *;
      }
      answers := answers + [ok];
    }
  }

  ghost function FirstBatches(deltas: seq<Delta>, n: nat): seq<seq<Delta>>
    requires n <= CountBatches(|deltas|, BATCH_SIZE)
  {
    if n == 0 then [] else FirstBatches(deltas, n - 1) + [Batch(deltas, n - 1)]
  }

  /** n requests, all granted but perhaps the last. */
  ghost function Answers(n: nat, ok: bool): seq<bool> {
    if n == 0 then [] else seq(n - 1, i => true) + [ok]
  }

  /** The batches go out in order until one fails, and the call fails exactly when one does. On success
      the server has applied every delta; on failure, the deltas of the completed batches and perhaps
      of the one that failed. */
  method UpdateResourceIamPolicy(server: CloudServer, deltas: seq<Delta>)
    returns (ok: bool, ghost sent: nat, ghost applied: nat)
    modifies server
    ensures applied <= sent <= applied + 1 && sent <= CountBatches(|deltas|, BATCH_SIZE)
    ensures server.sent == old(server.sent) + FirstBatches(deltas, sent)
    ensures server.answers == old(server.answers) + Answers(sent, ok)
    ensures if ok then sent == CountBatches(|deltas|, BATCH_SIZE) else sent > 0
    ensures server.policy == ApplyAll(old(server.policy), Sent(deltas, applied))
    ensures ok ==> applied == CountBatches(|deltas|, BATCH_SIZE)
    ensures ok ==> server.policy == ApplyAll(old(server.policy), deltas)
  {
    var dLen := |deltas|;
    sent, applied := 0, 0;
    for i := 0 to CountBatches(dLen, BATCH_SIZE)
      invariant sent == applied == i
      invariant server.sent == old(server.sent) + FirstBatches(deltas, i)
      invariant server.answers == old(server.answers) + Answers(i, true)
      invariant server.policy == ApplyAll(old(server.policy), Sent(deltas, i))
    {
      var done, didApply := SendBatch(server, deltas, i);
      NextBatch(old(server.policy), old(server.sent), deltas, i);
      NextAnswer(old(server.answers), i, done);
      sent := i + 1;
      applied := if didApply then i + 1 else i;
      if !done {
        return false, sent, applied;
      }
    }
    BatchesPartition(deltas, CountBatches(dLen, BATCH_SIZE));
    return true, sent, applied;
  }

  method SendBatch(server: CloudServer, deltas: seq<Delta>, i: nat) returns (ok: bool, ghost applied: bool)
    requires i < CountBatches(|deltas|, BATCH_SIZE)
    modifies server
    ensures server.sent == old(server.sent) + [Batch(deltas, i)] && server.answers == old(server.answers) + [ok]
    ensures server.policy == if applied then ApplyAll(old(server.policy), Batch(deltas, i)) else old(server.policy)
    ensures ok ==> applied
  {
    BatchesPartition(deltas, i + 1);
    var end := if (i + 1) * BATCH_SIZE < |deltas| then (i + 1) * BATCH_SIZE else |deltas|;
    ok := server.UpdateAccessBindings(deltas[i * BATCH_SIZE..end]);
    applied := server.policy == ApplyAll(old(server.policy), Batch(deltas, i));
  }

  lemma NextBatch(p: Policy, sent: seq<seq<Delta>>, deltas: seq<Delta>, i: nat)
    requires i < CountBatches(|deltas|, BATCH_SIZE)
    ensures ApplyAll(ApplyAll(p, Sent(deltas, i)), Batch(deltas, i)) == ApplyAll(p, Sent(deltas, i + 1))
    ensures (sent + FirstBatches(deltas, i)) + [Batch(deltas, i)] == sent + FirstBatches(deltas, i + 1)
  {
    ApplyAllConcat(p, Sent(deltas, i), Batch(deltas, i));
  }

  lemma NextAnswer(answers: seq<bool>, i: nat, ok: bool)
    ensures (answers + Answers(i, true)) + [ok] == answers + Answers(i + 1, ok)
  {
    assert Answers(i, true) == seq(i, j => true);
  }

  // ---------- pages ----------

  datatype Response = Failure | Page(bindings: seq<Binding>, next: string)

  /** `tokens` are the page tokens the server hands out, one after the other, from `token` to a page
      without a successor or a failing request. */
  ghost predicate PageChain(pages: map<string, Response>, token: string, tokens: seq<string>)
    decreases |tokens|
  {
    && tokens != [] && tokens[0] == token && token in pages
    && if pages[token].Page? && pages[token].next != "" then PageChain(pages, pages[token].next, tokens[1..])
       else |tokens| == 1
  }

  ghost predicate AllPages(pages: map<string, Response>, tokens: seq<string>) {
    forall t | t in tokens :: t in pages && pages[t].Page?
  }

  /** The bindings of the pages, in page order. */
  function AllBindings(pages: map<string, Response>, tokens: seq<string>): seq<Binding>
    requires forall t | t in tokens :: t in pages && pages[t].Page?
  {
    if tokens == [] then [] else pages[tokens[0]].bindings + AllBindings(pages, tokens[1..])
  }

  /** The pages, if they all come, are a reading of the policy p. */
  ghost predicate Serves(pages: map<string, Response>, tokens: seq<string>, p: Policy) {
    AllPages(pages, tokens) ==> AllBindings(pages, tokens) == p
  }

  /** The bindings of pages in a row are those of the first ones, then those of the rest. */
  lemma {:induction false} PagesInOrder(pages: map<string, Response>, a: seq<string>, b: seq<string>)
    requires AllPages(pages, a) && AllPages(pages, b)
    ensures AllPages(pages, a + b)
    ensures AllBindings(pages, a + b) == AllBindings(pages, a) + AllBindings(pages, b)
    ensures |a| == 1 ==> AllBindings(pages, a) == pages[a[0]].bindings
  {
    if a == [] {
      assert a + b == b;
    } else {
      assert (a + b)[0] == a[0] && (a + b)[1..] == a[1..] + b;
      PagesInOrder(pages, a[1..], b);
      assert AllPages(pages, a + b);
    }
  }

  /** The read ends on every finite chain of pages, returns each page's bindings once and in order,
      and returns no partial list after a failure. */
  method GetCloudAccessBindings(pages: map<string, Response>, ghost tokens: seq<string>)
    returns (r: Result<seq<Binding>>)
    requires PageChain(pages, "", tokens)
    ensures r.Ok? <==> AllPages(pages, tokens)
    ensures r.Ok? ==> r.value == AllBindings(pages, tokens)
  {
    var bindings: seq<Binding> := [];
    var pageToken := "";
    ghost var rest := tokens;
    while true
      invariant PageChain(pages, pageToken, rest)
      invariant AllPages(pages, tokens) <==> AllPages(pages, rest)
      invariant AllPages(pages, tokens) ==> AllBindings(pages, tokens) == bindings + AllBindings(pages, rest)
      decreases |rest|
    {
      var resp := pages[pageToken];
      assert rest == [pageToken] + rest[1..];
      if resp.Failure? {
        return Err(Other);
      }
      bindings := bindings + resp.bindings;
      if resp.next == "" {
        assert rest[1..] == [];
        return Ok(bindings);
      }
      pageToken := resp.next;
      rest := rest[1..];
    }
  }
}
