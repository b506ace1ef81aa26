/** What every run of the access-binding protocol guarantees. */
module IamSerial {
  import opened GoText
  import opened IamCloud
  import opened IamProtocol

  // ---------- one client on its own ----------

  /** What a client that finished did to the policy it found: all of its change on success; on
      failure nothing, the change whose write was reported as failed, or the first batches. */
  ghost predicate SoloOutcome(op: Op, ok: bool, before: Policy, after: Policy) {
    match op
    case SetOp(change) => change(before) == Some(after) || (!ok && after == before)
    case UpdateOp(deltas) =>
      if ok then after == ApplyAll(before, deltas)
      else exists n: nat :: n <= BatchCount(deltas) && after == ApplyAll(before, Sent(deltas, n))
  }

  lemma {:induction false} BatchesRunAsSent(p: Policy, deltas: seq<Delta>, n: nat)
    requires n <= BatchCount(deltas)
    ensures RunEffects(p, BatchEffects(deltas, n)) == Some(ApplyAll(p, Sent(deltas, n)))
  {
    if n > 0 {
      var done, last := Sent(deltas, n - 1), Batch(deltas, n - 1);
      BatchesRunAsSent(p, deltas, n - 1);
      RunOneMore(p, BatchEffects(deltas, n - 1), Deltas(last));
      ApplyAllConcat(p, done, last);
      assert Sent(deltas, n) == done + last;
    }
  }

  lemma RunOneMore(p: Policy, effects: seq<Effect>, e: Effect)
    requires RunEffects(p, effects).Some?
    ensures RunEffects(p, effects + [e]) == RunEffect(RunEffects(p, effects).value, e)
  {
    assert (effects + [e])[..|effects|] == effects;
  }

  lemma FinishedEffects(op: Op, ok: bool, wrote: seq<Effect>, before: Policy, after: Policy)
    requires WroteAtEnd(op, ok, wrote) && RunEffects(before, wrote) == Some(after)
    ensures SoloOutcome(op, ok, before, after)
  {
    match op {
      case SetOp(change) =>
        RunOneEffect(before, Replace(change));
      case UpdateOp(deltas) =>
        var n: nat :| n <= BatchCount(deltas) && wrote == BatchEffects(deltas, n);
        BatchesRunAsSent(before, deltas, n);
        BatchesPartition(deltas, BatchCount(deltas));
        if ok {
          BatchesRunAsSent(before, deltas, BatchCount(deltas));
        }
    }
  }

  // ---------- serialisability ----------

  lemma {:induction false} ReplayPrefix(p: Policy, order: seq<nat>, clients: seq<Client>, j: nat)
    requires AllBelow(order, |clients|) && j <= |order| && Replay(p, order, clients).Some?
    ensures Replay(p, order[..j], clients).Some?
    ensures j < |order| ==> Replay(p, order[..j + 1], clients) ==
                            RunEffects(Replay(p, order[..j], clients).value, clients[order[j]].wrote)
    decreases |order|
  {
    if j == |order| {
      assert order[..j] == order;
    } else if j + 1 == |order| {
      assert order[..j + 1] == order;
    } else {
      var front := order[..|order| - 1];
      ReplayPrefix(p, front, clients, j);
      assert front[..j] == order[..j] && front[..j + 1] == order[..j + 1];
    }
  }

  lemma ReachableInv(s0: State, actions: seq<Action>, s: State)
    requires Initial(s0) && Run(s0, actions) == Some(s)
    ensures Inv(s0, s)
  {
    InitialHasInv(s0);
    RunKeepsInv(s0, s0, actions);
  }

  /** The j-th client to take the mutex of r has its own outcome on what the ones before it left. */
  ghost predicate SoloAt(s0: State, s: State, r: string, j: nat)
    requires r in s0.policies && r in s.order && j < |s.order[r]| && AllBelow(s.order[r], |s.clients|)
    requires s.clients[s.order[r][j]].pc.Done?
  {
    var before := Replay(s0.policies[r], s.order[r][..j], s.clients);
    var after := Replay(s0.policies[r], s.order[r][..j + 1], s.clients);
    var client := s.clients[s.order[r][j]];
    before.Some? && after.Some? && SoloOutcome(client.op, client.pc.ok, before.value, after.value)
  }

  /** Every run is serialisable: the stored policy of each cloud is the original one changed by the
      clients of that cloud one after the other, in the order in which they took its mutex, each
      finished client having its own outcome on what the one before it left. No client is listed
      twice and every client that started is listed, so no update is lost. */
  lemma RunsAreSerialisable(s0: State, actions: seq<Action>, s: State, r: string)
    requires Initial(s0) && Run(s0, actions) == Some(s) && r in s0.policies
    ensures r in s.policies && r in s.order
    ensures forall c | 0 <= c < |s.clients| ::
              c in s.order[r] <==> s.clients[c].cloudId == r && !s.clients[c].pc.Start?
    ensures forall i, j | 0 <= i < j < |s.order[r]| :: s.order[r][i] != s.order[r][j]
    ensures AllBelow(s.order[r], |s.clients|)
    ensures Replay(s0.policies[r], s.order[r], s.clients) == Some(s.policies[r])
    ensures forall j | 0 <= j < |s.order[r]| && s.clients[s.order[r][j]].pc.Done? :: SoloAt(s0, s, r, j)
  {
    ReachableInv(s0, actions, s);
    OrderFacts(s0, s, r);
    forall j | 0 <= j < |s.order[r]| && s.clients[s.order[r][j]].pc.Done?
      ensures SoloAt(s0, s, r, j)
    {
      FinishedSection(s0, s, r, j);
    }
  }

  lemma OrderFacts(s0: State, s: State, r: string)
    requires SameClients(s0, s) && OrderOk(s) && PoliciesOk(s0, s) && r in s0.policies
    ensures r in s.policies && r in s.order && CloudOrderOk(s, r, s.order[r]) && CloudPolicyOk(s0, s, r)
    ensures forall c | 0 <= c < |s.clients| ::
              c in s.order[r] <==> s.clients[c].cloudId == r && !s.clients[c].pc.Start?
  {
    assert CloudOrderOk(s, r, s.order[r]);
    forall c | c in s.order[r]
      ensures s.clients[c].cloudId == r && !s.clients[c].pc.Start?
    {
      var j :| 0 <= j < |s.order[r]| && s.order[r][j] == c;
    }
  }

  lemma FinishedSection(s0: State, s: State, r: string, j: nat)
    requires HistoryOk(s) && r in s0.policies && r in s.order && r in s.policies && CloudPolicyOk(s0, s, r)
    requires j < |s.order[r]| && s.clients[s.order[r][j]].pc.Done?
    ensures SoloAt(s0, s, r, j)
  {
    var order, clients := s.order[r], s.clients;
    ReplayPrefix(s0.policies[r], order, clients, j);
    ReplayPrefix(s0.policies[r], order, clients, j + 1);
    var client := clients[order[j]];
    assert WroteFits(client);
    FinishedEffects(client.op, client.pc.ok, client.wrote,
                    Replay(s0.policies[r], order[..j], clients).value,
                    Replay(s0.policies[r], order[..j + 1], clients).value);
  }

  /** The changes of successful clients, one after the other. */
  function SerialRun(p: Policy, order: seq<nat>, clients: seq<Client>): Option<Policy>
    requires AllBelow(order, |clients|)
  {
    if order == [] then Some(p)
    else
      match SerialRun(p, order[..|order| - 1], clients)
      case None => None
      case Some(q) =>
        match clients[order[|order| - 1]].op
        case SetOp(change) => change(q)
        case UpdateOp(deltas) => Some(ApplyAll(q, deltas))
  }

  /** When every client of a cloud succeeded, its policy is the result of running their changes
      alone, one after the other in lock order. */
  lemma AllSucceededIsSerialRun(s0: State, actions: seq<Action>, s: State, r: string)
    requires Initial(s0) && Run(s0, actions) == Some(s) && r in s0.policies
    requires forall c | 0 <= c < |s.clients| && s.clients[c].cloudId == r :: s.clients[c].pc == Done(true)
    ensures r in s.order && r in s.policies && AllBelow(s.order[r], |s.clients|)
    ensures SerialRun(s0.policies[r], s.order[r], s.clients) == Some(s.policies[r])
  {
    RunsAreSerialisable(s0, actions, s, r);
    SerialPrefix(s0, s, r, |s.order[r]|);
    assert s.order[r][..|s.order[r]|] == s.order[r];
  }

  lemma {:induction false} SerialPrefix(s0: State, s: State, r: string, n: nat)
    requires r in s.order && r in s0.policies && n <= |s.order[r]| && AllBelow(s.order[r], |s.clients|)
    requires forall j | 0 <= j < |s.order[r]| :: s.clients[s.order[r][j]].pc == Done(true)
    requires forall j | 0 <= j < |s.order[r]| :: SoloAt(s0, s, r, j)
    ensures SerialRun(s0.policies[r], s.order[r][..n], s.clients) ==
            Replay(s0.policies[r], s.order[r][..n], s.clients)
  {
    if n > 0 {
      SerialPrefix(s0, s, r, n - 1);
      assert s.order[r][..n][..n - 1] == s.order[r][..n - 1];
      assert SoloAt(s0, s, r, n - 1);
    }
  }

  /** The step is a request of client c that fails, or its finding that the change does not apply. */
  predicate IsFailure(s: State, a: Action, c: nat) {
    && a.c == c < |s.clients|
    && match a
       case Get(_, _, ok) => !ok
       case Write(_, _, ok) => !ok
       case Local(_) =>
         var client := s.clients[c];
         client.op.SetOp? && client.pc.HasRead? && client.op.change(client.pc.policy).None?
       case _ => false
  }

  predicate FailureIn(s: State, actions: seq<Action>, c: nat)
    requires Run(s, actions).Some?
    decreases |actions|
  {
    actions != [] &&
    (IsFailure(s, actions[0], c) || FailureIn(Step(s, actions[0]).value, actions[1..], c))
  }

  predicate HasFailed(pc: Pc) {
    (pc.Leaving? || pc.Done?) && !pc.ok
  }

  lemma StepFails(s: State, a: Action, t: State, c: nat)
    requires Step(s, a) == Some(t) && c < |s.clients|
    ensures c < |t.clients|
    ensures HasFailed(t.clients[c].pc) <==> HasFailed(s.clients[c].pc) || IsFailure(s, a, c)
  {
  }

  lemma {:induction false} RunFails(s: State, actions: seq<Action>, c: nat)
    requires Run(s, actions).Some? && c < |s.clients|
    ensures var t := Run(s, actions).value;
            c < |t.clients| &&
            (HasFailed(t.clients[c].pc) <==> HasFailed(s.clients[c].pc) || FailureIn(s, actions, c))
    decreases |actions|
  {
    if actions != [] {
      var s1 := Step(s, actions[0]).value;
      StepFails(s, actions[0], s1, c);
      RunFails(s1, actions[1..], c);
    }
  }

  /** A client fails exactly when one of its requests did or its change did not apply. */
  lemma FailsOnlyForCause(s0: State, actions: seq<Action>, s: State, c: nat)
    requires Initial(s0) && Run(s0, actions) == Some(s) && c < |s.clients| && s.clients[c].pc.Done?
    ensures s.clients[c].pc.ok <==> !FailureIn(s0, actions, c)
  {
    ReachableInv(s0, actions, s);
    RunFails(s0, actions, c);
  }

  /** At no time are two clients between lock and unlock of the same cloud. */
  lemma OneClientInside(s0: State, actions: seq<Action>, s: State, c: nat, d: nat)
    requires Initial(s0) && Run(s0, actions) == Some(s) && c < |s.clients| && d < |s.clients|
    requires s.clients[c].cloudId == s.clients[d].cloudId
    requires InSection(s.clients[c].pc) && InSection(s.clients[d].pc)
    ensures c == d
  {
    ReachableInv(s0, actions, s);
    AloneInSection(s, c, d);
  }

  /** The pages that have come in are the beginning of the policy that is stored, although they were
      read at different times. */
  lemma PagesFitTogether(s0: State, actions: seq<Action>, s: State, c: nat)
    requires Initial(s0) && Run(s0, actions) == Some(s) && c < |s.clients| && s.clients[c].pc.Reading?
    ensures var r, soFar := s.clients[c].cloudId, s.clients[c].pc.soFar;
            r in s.policies && |soFar| <= |s.policies[r]| && soFar == s.policies[r][..|soFar|]
  {
    ReachableInv(s0, actions, s);
    ClientFits(s, c);
  }

  /** A client that has read the policy has seen the finished work of those before it and nothing
      else: all of them are done, so no part of a successful update is ever seen without the rest.
      And what it read is still what is stored. */
  lemma ReadsSeeFinishedWork(s0: State, actions: seq<Action>, s: State, c: nat)
    requires Initial(s0) && Run(s0, actions) == Some(s)
    requires c < |s.clients| && s.clients[c].pc.HasRead?
    ensures var r := s.clients[c].cloudId;
            && r in s0.policies && r in s.policies && r in s.order && s.order[r] != []
            && AllBelow(s.order[r], |s.clients|)
            && var before := s.order[r][..|s.order[r]| - 1];
               && c !in before
               && (forall d | d in before :: s.clients[d].pc.Done?)
               && Replay(s0.policies[r], before, s.clients) == Some(s.clients[c].pc.policy)
               && s.policies[r] == s.clients[c].pc.policy
  {
    ReachableInv(s0, actions, s);
    ClientFits(s, c);
    OrderFacts(s0, s, s.clients[c].cloudId);
    OwnSectionIsLast(s, c);
    ReaderReplay(s0, s, c);
  }

  lemma ReaderReplay(s0: State, s: State, c: nat)
    requires Known(s, c) && s.clients[c].pc.HasRead? && s.clients[c].wrote == []
    requires var r := s.clients[c].cloudId;
             && r in s0.policies && CloudOrderOk(s, r, s.order[r]) && CloudPolicyOk(s0, s, r)
             && s.order[r] != [] && s.order[r][|s.order[r]| - 1] == c
    ensures var r := s.clients[c].cloudId;
            var before := s.order[r][..|s.order[r]| - 1];
            && (forall d | d in before :: s.clients[d].pc.Done?)
            && Replay(s0.policies[r], before, s.clients) == Some(s.policies[r])
  {
  }

  // ---------- no client waits for ever ----------

  predicate AllDone(s: State) {
    forall c | 0 <= c < |s.clients| :: s.clients[c].pc.Done?
  }

  /** An action for a client inside its section. */
  function InnerAction(client: Client, c: nat): Action {
    match client.pc
    case Reading(_, soFar) => Get(c, |soFar|, true)
    case HasRead(_) => Local(c)
    case Modified(_) => Write(c, true, true)
    case Sending(n) =>
      if client.op.UpdateOp? && n < BatchCount(client.op.deltas) then Write(c, true, true) else Local(c)
    case _ => Unlock(c)
  }

  lemma InnerActionEnabled(s: State, c: nat)
    requires Known(s, c) && InSection(s.clients[c].pc) && WroteFits(s.clients[c])
    requires Knows(s.clients[c], s.policies[s.clients[c].cloudId])
    ensures Step(s, InnerAction(s.clients[c], c)).Some?
  {
  }

  /** As long as some client is not done, some client can take a step. */
  lemma SomeStepIsEnabled(s0: State, actions: seq<Action>, s: State)
    requires Initial(s0) && Run(s0, actions) == Some(s) && !AllDone(s)
    ensures exists a :: Step(s, a).Some?
  {
    ReachableInv(s0, actions, s);
    EnabledStep(s0, s);
  }

  lemma EnabledStep(s0: State, s: State)
    requires SameClients(s0, s) && HistoryOk(s) && KnowledgeOk(s) && LocksOk(s) && !AllDone(s)
    ensures exists a :: Step(s, a).Some?
  {
    var c :| 0 <= c < |s.clients| && !s.clients[c].pc.Done?;
    if s.clients[c].pc.Start? {
      var key := MutexKey(s.clients[c].cloudId);
      if key in s.locks {
        var d := s.locks[key];
        ClientFits(s, d);
        InnerActionEnabled(s, d);
      } else {
        assert Step(s, Lock(c)).Some?;
      }
    } else {
      ClientFits(s, c);
      InnerActionEnabled(s, c);
    }
  }

  /** The steps a client still has to take, at most. */
  function StepsLeft(client: Client): nat {
    var batches := if client.op.UpdateOp? then BatchCount(client.op.deltas) else 0;
    match client.pc
    case Start => batches + client.pages + 6
    case Reading(n, _) => batches + 4 + if n < client.pages then client.pages - n else 1
    case HasRead(_) => batches + 4
    case Modified(_) => batches + 3
    case Sending(n) => if n <= batches then batches - n + 2 else 2
    case Leaving(_) => 1
    case Done(_) => 0
  }

  function TotalLeft(clients: seq<Client>): nat {
    if clients == [] then 0 else StepsLeft(clients[0]) + TotalLeft(clients[1..])
  }

  lemma {:induction false} TotalLeftUpdate(clients: seq<Client>, c: nat, client: Client)
    requires c < |clients|
    ensures TotalLeft(clients[c := client]) + StepsLeft(clients[c]) == TotalLeft(clients) + StepsLeft(client)
    decreases |clients|
  {
    if c == 0 {
      assert clients[0 := client][1..] == clients[1..];
    } else {
      TotalLeftUpdate(clients[1..], c - 1, client);
      assert clients[c := client][1..] == clients[1..][c - 1 := client];
    }
  }

  lemma StepUsesUp(s: State, a: Action, t: State)
    requires Step(s, a) == Some(t)
    ensures TotalLeft(t.clients) < TotalLeft(s.clients)
  {
    StepMovesOne(s, a, t);
    TotalLeftUpdate(s.clients, a.c, t.clients[a.c]);
  }

  lemma StepMovesOne(s: State, a: Action, t: State)
    requires Step(s, a) == Some(t)
    ensures a.c < |s.clients| == |t.clients| && t.clients == s.clients[a.c := t.clients[a.c]]
    ensures StepsLeft(t.clients[a.c]) < StepsLeft(s.clients[a.c])
  {
  }

  /** No run is longer than a bound known at the start, so with SomeStepIsEnabled every run that goes
      on as long as it can ends with all clients done. */
  lemma {:induction false} RunsAreBounded(s: State, actions: seq<Action>)
    requires Run(s, actions).Some?
    ensures |actions| + TotalLeft(Run(s, actions).value.clients) <= TotalLeft(s.clients)
    decreases |actions|
  {
    if actions != [] {
      var s1 := Step(s, actions[0]).value;
      StepUsesUp(s, actions[0], s1);
      RunsAreBounded(s1, actions[1..]);
    }
  }

  /** Every way out releases the mutex: a client that is done holds none, and when all are done no
      mutex is held. */
  lemma DoneClientsHoldNoMutex(s0: State, actions: seq<Action>, s: State)
    requires Initial(s0) && Run(s0, actions) == Some(s)
    ensures forall k | k in s.locks :: s.locks[k] < |s.clients| && !s.clients[s.locks[k]].pc.Done?
    ensures AllDone(s) ==> s.locks == map[]
  {
    ReachableInv(s0, actions, s);
    HoldersAreInside(s);
  }

  lemma HoldersAreInside(s: State)
    requires LocksOk(s)
    ensures forall k | k in s.locks :: s.locks[k] < |s.clients| && !s.clients[s.locks[k]].pc.Done?
    ensures AllDone(s) ==> s.locks == map[]
  {
  }
}
