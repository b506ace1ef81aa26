/** Many clients changing access bindings at once (yandex/iam.go over yandex/iam_cloud.go). Each
    client locks the mutex of its cloud, reads the policy page by page, changes it and writes it back,
    or sends batches of deltas, and releases the mutex on every way out. The steps of different clients
    interleave freely; a request may fail, and a write may fail after the server made the change. */
module IamProtocol {
  import opened GoText
  import opened IamCloud

  datatype Op = SetOp(change: Policy -> Option<Policy>) | UpdateOp(deltas: seq<Delta>)

  /** Where a client is. Reading(n, soFar): n pages have come in. Sending(n): n batches are done.
      Leaving: only the deferred unlock is left. */
  datatype Pc =
    | Start | Reading(n: nat, soFar: Policy) | HasRead(policy: Policy) | Modified(policy: Policy) | Sending(n: nat)
    | Leaving(ok: bool) | Done(ok: bool)

  /** What one write does to a policy. */
  datatype Effect = Replace(change: Policy -> Option<Policy>) | Deltas(deltas: seq<Delta>)

  /** The server answers the client's reading in `pages` pages, cut anywhere. `wrote` records the
      client's writes that reached the server; no step looks at it. */
  datatype Client = Client(cloudId: string, op: Op, pages: nat, pc: Pc, wrote: seq<Effect>)

  /** `order` records, per cloud, which clients took the mutex and in which order; no step looks at
      it. */
  datatype State = State(
    clients: seq<Client>,
    locks: map<string, nat>,
    policies: map<string, Policy>,
    order: map<string, seq<nat>>
  )

  // ---------- one step ----------

  /** GetMutexKey */
  function MutexKey(cloudId: string): string {
    "iam-cloud-" + cloudId
  }

  lemma MutexKeyInjective(a: string, b: string)
    ensures MutexKey(a) == MutexKey(b) <==> a == b
  {
    assert a == MutexKey(a)[|"iam-cloud-"|..];
    assert b == MutexKey(b)[|"iam-cloud-"|..];
  }

  datatype Action =
    | Lock(c: nat)
    | Get(c: nat, upto: nat, ok: bool)
    | Local(c: nat)
    | Write(c: nat, applied: bool, ok: bool)
    | Unlock(c: nat)

  predicate InSection(pc: Pc) {
    pc.Reading? || pc.HasRead? || pc.Modified? || pc.Sending? || pc.Leaving?
  }

  function BatchCount(deltas: seq<Delta>): nat {
    CountBatches(|deltas|, BATCH_SIZE)
  }

  /** Where a client inside its section goes next, or None when it cannot take the action. */
  function NextPc(client: Client, a: Action, stored: Policy): Option<Pc> {
    match client.pc
    case Reading(n, soFar) =>
      if !a.Get? then None
      else if !a.ok then Some(Leaving(false))
      else if n + 1 < client.pages then
        if |soFar| <= a.upto <= |stored| then Some(Reading(n + 1, soFar + stored[|soFar|..a.upto])) else None
      else if |soFar| <= |stored| then Some(HasRead(soFar + stored[|soFar|..]))
      else None
    case HasRead(p) =>
      if !a.Local? then None
      else if client.op.UpdateOp? then Some(Sending(0))
      else if client.op.change(p).Some? then Some(Modified(client.op.change(p).value))
      else Some(Leaving(false))
    case Modified(_) =>
      if a.Write? && client.op.SetOp? && (a.ok ==> a.applied) then Some(Leaving(a.ok)) else None
    case Sending(n) =>
      if !client.op.UpdateOp? then None
      else if n < BatchCount(client.op.deltas) then
        if a.Write? && (a.ok ==> a.applied) then Some(if a.ok then Sending(n + 1) else Leaving(false)) else None
      else if a.Local? then Some(Leaving(true)) else None
    case _ => None
  }

  /** The policy the server stores if the client's current write reaches it: the one the client
      computed from its own reading, or the current one with the batch applied. */
  function PolicyWritten(client: Client, stored: Policy): Policy {
    match client.pc
    case Modified(p) => p
    case Sending(n) =>
      if client.op.UpdateOp? && n < BatchCount(client.op.deltas)
      then ApplyAll(stored, Batch(client.op.deltas, n)) else stored
    case _ => stored
  }

  function WriteMade(client: Client): seq<Effect> {
    match client.pc
    case Modified(_) => if client.op.SetOp? then [Replace(client.op.change)] else []
    case Sending(n) =>
      if client.op.UpdateOp? && n < BatchCount(client.op.deltas)
      then [Deltas(Batch(client.op.deltas, n))] else []
    case _ => []
  }

  function Reaches(a: Action): bool {
    a.Write? && a.applied
  }

  function Moved(s: State, c: nat, client: Client, policy: Policy): State
    requires c < |s.clients|
  {
    s.(clients := s.clients[c := client], policies := s.policies[client.cloudId := policy])
  }

  predicate Known(s: State, c: nat) {
    c < |s.clients| && s.clients[c].cloudId in s.policies && s.clients[c].cloudId in s.order
  }

  /** The state after the action, or None when the client cannot take it now. */
  function Step(s: State, a: Action): Option<State> {
    if !Known(s, a.c) then None
    else
      var c, client := a.c, s.clients[a.c];
      var r := client.cloudId;
      match a
      case Lock(_) =>
        if client.pc.Start? && MutexKey(r) !in s.locks then
          Some(s.(clients := s.clients[c := client.(pc := Reading(0, []))],
                  locks := s.locks[MutexKey(r) := c],
                  order := s.order[r := s.order[r] + [c]]))
        else None
      case Unlock(_) =>
        if client.pc.Leaving? then
          Some(s.(clients := s.clients[c := client.(pc := Done(client.pc.ok))],
                  locks := s.locks - {MutexKey(r)}))
        else None
      case _ =>
        var pc := NextPc(client, a, s.policies[r]);
        if pc.None? then None
        else if Reaches(a) then
          Some(Moved(s, c, client.(pc := pc.value, wrote := client.wrote + WriteMade(client)),
                     PolicyWritten(client, s.policies[r])))
        else Some(Moved(s, c, client.(pc := pc.value), s.policies[r]))
  }

  function Run(s: State, actions: seq<Action>): Option<State>
    decreases |actions|
  {
    if actions == [] then Some(s)
    else
      match Step(s, actions[0])
      case None => None
      case Some(s1) => Run(s1, actions[1..])
  }

  ghost predicate Initial(s: State) {
    && s.locks == map[]
    && s.order.Keys == s.policies.Keys
    && (forall r | r in s.order :: s.order[r] == [])
    && (forall c | 0 <= c < |s.clients| ::
          s.clients[c].pc.Start? && s.clients[c].wrote == [] && s.clients[c].cloudId in s.policies)
  }

  // ---------- what a run means ----------

  /** None: the change does not apply to this policy. */
  function RunEffect(p: Policy, e: Effect): Option<Policy> {
    match e
    case Replace(change) => change(p)
    case Deltas(deltas) => Some(ApplyAll(p, deltas))
  }

  function RunEffects(p: Policy, effects: seq<Effect>): Option<Policy> {
    if effects == [] then Some(p)
    else
      match RunEffects(p, effects[..|effects| - 1])
      case None => None
      case Some(q) => RunEffect(q, effects[|effects| - 1])
  }

  predicate AllBelow(order: seq<nat>, n: nat) {
    forall i | 0 <= i < |order| :: order[i] < n
  }

  /** The clients' writes one client after the other, nothing in between. */
  function Replay(p: Policy, order: seq<nat>, clients: seq<Client>): Option<Policy>
    requires AllBelow(order, |clients|)
  {
    if order == [] then Some(p)
    else
      match Replay(p, order[..|order| - 1], clients)
      case None => None
      case Some(q) => RunEffects(q, clients[order[|order| - 1]].wrote)
  }

  function BatchEffects(deltas: seq<Delta>, n: nat): seq<Effect>
    requires n <= BatchCount(deltas)
  {
    if n == 0 then [] else BatchEffects(deltas, n - 1) + [Deltas(Batch(deltas, n - 1))]
  }

  ghost predicate SomeBatches(deltas: seq<Delta>, effects: seq<Effect>) {
    exists n: nat :: n <= BatchCount(deltas) && effects == BatchEffects(deltas, n)
  }

  /** The writes a client has made by the time it is where it is. */
  ghost predicate WroteFits(client: Client) {
    match client.pc
    case Start => client.wrote == []
    case Reading(_, _) => client.wrote == []
    case HasRead(_) => client.wrote == []
    case Modified(_) => client.wrote == [] && client.op.SetOp?
    case Sending(n) =>
      && client.op.UpdateOp? && n <= BatchCount(client.op.deltas)
      && client.wrote == BatchEffects(client.op.deltas, n)
    case Leaving(ok) => WroteAtEnd(client.op, ok, client.wrote)
    case Done(ok) => WroteAtEnd(client.op, ok, client.wrote)
  }

  /** On success the whole change; on failure nothing, or the change that was reported as failed, or
      the batches done so far. */
  ghost predicate WroteAtEnd(op: Op, ok: bool, wrote: seq<Effect>) {
    match op
    case SetOp(change) => wrote == [Replace(change)] || (!ok && wrote == [])
    case UpdateOp(deltas) =>
      if ok then wrote == BatchEffects(deltas, BatchCount(deltas)) else SomeBatches(deltas, wrote)
  }

  // ---------- the invariant ----------

  /** Clients never change what they are, only where they are. */
  ghost predicate SameClients(s0: State, s: State) {
    && |s.clients| == |s0.clients|
    && (forall c | 0 <= c < |s.clients| ::
          s.clients[c].cloudId == s0.clients[c].cloudId && s.clients[c].op == s0.clients[c].op)
    && s.policies.Keys == s.order.Keys == s0.policies.Keys
    && (forall c | 0 <= c < |s.clients| :: s.clients[c].cloudId in s.policies)
  }

  ghost predicate HistoryOk(s: State) {
    forall c | 0 <= c < |s.clients| :: WroteFits(s.clients[c])
  }

  /** Exactly the clients between lock and unlock hold a mutex, the one of their cloud. */
  ghost predicate LocksOk(s: State) {
    && (forall k | k in s.locks ::
          s.locks[k] < |s.clients| && InSection(s.clients[s.locks[k]].pc)
          && MutexKey(s.clients[s.locks[k]].cloudId) == k)
    && (forall c | 0 <= c < |s.clients| && InSection(s.clients[c].pc) ::
          MutexKey(s.clients[c].cloudId) in s.locks && s.locks[MutexKey(s.clients[c].cloudId)] == c)
  }

  /** The order of a cloud lists its clients that have started, each once, and a client still inside
      its section comes last. */
  ghost predicate OrderOk(s: State) {
    forall r | r in s.order :: CloudOrderOk(s, r, s.order[r])
  }

  ghost predicate CloudOrderOk(s: State, r: string, order: seq<nat>) {
    && (forall j | 0 <= j < |order| ::
          order[j] < |s.clients| && s.clients[order[j]].cloudId == r && !s.clients[order[j]].pc.Start?)
    && (forall c | 0 <= c < |s.clients| && s.clients[c].cloudId == r && !s.clients[c].pc.Start? :: c in order)
    && (forall i, j | 0 <= i < j < |order| :: order[i] != order[j])
    && (forall j | 0 <= j < |order| && InSection(s.clients[order[j]].pc) :: j == |order| - 1)
  }

  /** The stored policy is the original one changed by the sections in lock order. */
  ghost predicate PoliciesOk(s0: State, s: State) {
    forall r | r in s.order :: CloudPolicyOk(s0, s, r)
  }

  ghost predicate CloudPolicyOk(s0: State, s: State, r: string)
    requires r in s.order
  {
    && r in s0.policies && r in s.policies
    && AllBelow(s.order[r], |s.clients|)
    && Replay(s0.policies[r], s.order[r], s.clients) == Some(s.policies[r])
  }

  /** What a client in its section knows of the policy is still true of the stored one. */
  ghost predicate Knows(client: Client, stored: Policy) {
    match client.pc
    case Reading(_, soFar) => |soFar| <= |stored| && soFar == stored[..|soFar|]
    case HasRead(p) => p == stored
    case Modified(q) => client.op.SetOp? && client.op.change(stored) == Some(q)
    case _ => true
  }

  ghost predicate KnowledgeOk(s: State) {
    forall c | 0 <= c < |s.clients| && s.clients[c].cloudId in s.policies ::
      Knows(s.clients[c], s.policies[s.clients[c].cloudId])
  }

  ghost predicate Inv(s0: State, s: State) {
    SameClients(s0, s) && HistoryOk(s) && LocksOk(s) && OrderOk(s) && PoliciesOk(s0, s) && KnowledgeOk(s)
  }

  lemma InitialHasInv(s: State)
    requires Initial(s)
    ensures Inv(s, s)
  {
  }

  // ---------- steps inside a critical section ----------

  /** No other client is inside a section of the same cloud. */
  lemma AloneInSection(s: State, c: nat, d: nat)
    requires LocksOk(s) && c < |s.clients| && d < |s.clients|
    requires InSection(s.clients[c].pc) && InSection(s.clients[d].pc)
    requires s.clients[c].cloudId == s.clients[d].cloudId
    ensures c == d
  {
  }

  lemma {:induction false} RunEffectsConcat(p: Policy, a: seq<Effect>, b: seq<Effect>)
    ensures RunEffects(p, a + b) ==
            match RunEffects(p, a)
            case None => None
            case Some(q) => RunEffects(q, b)
    decreases |b|
  {
    if b == [] {
      assert a + b == a;
    } else {
      assert (a + b)[..|a + b| - 1] == a + b[..|b| - 1];
      RunEffectsConcat(p, a, b[..|b| - 1]);
    }
  }

  /** Replaying looks only at what the listed clients wrote. */
  lemma {:induction false} ReplayFrame(p: Policy, order: seq<nat>, a: seq<Client>, b: seq<Client>)
    requires |a| == |b| && AllBelow(order, |a|)
    requires forall i | 0 <= i < |order| :: a[order[i]].wrote == b[order[i]].wrote
    ensures Replay(p, order, a) == Replay(p, order, b)
  {
    if order != [] {
      ReplayFrame(p, order[..|order| - 1], a, b);
    }
  }

  lemma OwnSectionIsLast(s: State, c: nat)
    requires OrderOk(s) && Known(s, c) && InSection(s.clients[c].pc)
    ensures var order := s.order[s.clients[c].cloudId];
            order != [] && order[|order| - 1] == c && c !in order[..|order| - 1]
  {
  }

  /** The client goes on to another place inside its section, having made the writes `made`. */
  ghost predicate IsMove(s: State, c: nat, client: Client, made: seq<Effect>, t: State) {
    && Known(s, c) && InSection(s.clients[c].pc) && InSection(client.pc)
    && client.cloudId == s.clients[c].cloudId && client.op == s.clients[c].op
    && client.wrote == s.clients[c].wrote + made
    && RunEffects(s.policies[client.cloudId], made).Some?
    && t == Moved(s, c, client, RunEffects(s.policies[client.cloudId], made).value)
  }

  lemma MoveKeepsLocks(s: State, c: nat, client: Client, made: seq<Effect>, t: State)
    requires LocksOk(s) && IsMove(s, c, client, made, t)
    ensures LocksOk(t)
  {
  }

  lemma MoveKeepsOrder(s: State, c: nat, client: Client, made: seq<Effect>, t: State)
    requires OrderOk(s) && IsMove(s, c, client, made, t)
    ensures OrderOk(t)
  {
    forall r | r in t.order
      ensures CloudOrderOk(t, r, t.order[r])
    {
      assert CloudOrderOk(s, r, s.order[r]);
    }
  }

  lemma MoveKeepsPolicies(s0: State, s: State, c: nat, client: Client, made: seq<Effect>, t: State)
    requires OrderOk(s) && PoliciesOk(s0, s) && IsMove(s, c, client, made, t)
    ensures PoliciesOk(s0, t)
  {
    OwnSectionIsLast(s, c);
    forall r | r in t.order
      ensures CloudPolicyOk(s0, t, r)
    {
      assert CloudPolicyOk(s0, s, r) && CloudOrderOk(s, r, s.order[r]);
      if r == client.cloudId {
        MoveKeepsOwnPolicy(s0, s, c, client, made, t);
      } else {
        ReplayFrame(s0.policies[r], s.order[r], s.clients, t.clients);
      }
    }
  }

  lemma MoveKeepsOwnPolicy(s0: State, s: State, c: nat, client: Client, made: seq<Effect>, t: State)
    requires IsMove(s, c, client, made, t) && CloudPolicyOk(s0, s, client.cloudId)
    requires var order := s.order[client.cloudId];
             order != [] && order[|order| - 1] == c && c !in order[..|order| - 1]
    ensures CloudPolicyOk(s0, t, client.cloudId)
  {
    var r := client.cloudId;
    var order := s.order[r];
    var front := order[..|order| - 1];
    forall i | 0 <= i < |front|
      ensures s.clients[front[i]].wrote == t.clients[front[i]].wrote
    {
      assert front[i] in front;
    }
    ReplayFrame(s0.policies[r], front, s.clients, t.clients);
    RunEffectsConcat(Replay(s0.policies[r], front, s.clients).value, s.clients[c].wrote, made);
  }

  lemma MoveKeepsKnowledge(s: State, c: nat, client: Client, made: seq<Effect>, t: State)
    requires LocksOk(s) && KnowledgeOk(s) && IsMove(s, c, client, made, t)
    requires Knows(client, t.policies[client.cloudId])
    ensures KnowledgeOk(t)
  {
  }

  lemma MoveKeepsClients(s0: State, s: State, c: nat, client: Client, made: seq<Effect>, t: State)
    requires SameClients(s0, s) && HistoryOk(s) && IsMove(s, c, client, made, t) && WroteFits(client)
    ensures SameClients(s0, t) && HistoryOk(t)
  {
  }

  lemma MoveKeepsInv(s0: State, s: State, c: nat, client: Client, made: seq<Effect>, t: State)
    requires Inv(s0, s) && IsMove(s, c, client, made, t)
    requires WroteFits(client) && Knows(client, t.policies[client.cloudId])
    ensures Inv(s0, t)
  {
    MoveKeepsClients(s0, s, c, client, made, t);
    MoveKeepsLocks(s, c, client, made, t);
    MoveKeepsOrder(s, c, client, made, t);
    MoveKeepsPolicies(s0, s, c, client, made, t);
    MoveKeepsKnowledge(s, c, client, made, t);
  }

  // ---------- every step keeps the invariant ----------

  lemma LockKeepsOrder(s: State, c: nat, t: State)
    requires LocksOk(s) && OrderOk(s) && Step(s, Lock(c)) == Some(t)
    ensures OrderOk(t)
  {
    var own := s.clients[c].cloudId;
    forall r | r in t.order
      ensures CloudOrderOk(t, r, t.order[r])
    {
      assert CloudOrderOk(s, r, s.order[r]);
      if r == own {
        assert c !in s.order[r];
        assert forall j | 0 <= j < |s.order[r]| :: !InSection(s.clients[s.order[r][j]].pc);
      }
    }
  }

  lemma LockKeepsPolicies(s0: State, s: State, c: nat, t: State)
    requires HistoryOk(s) && OrderOk(s) && PoliciesOk(s0, s) && Step(s, Lock(c)) == Some(t)
    ensures PoliciesOk(s0, t)
  {
    var own := s.clients[c].cloudId;
    assert WroteFits(s.clients[c]);
    forall r | r in t.order
      ensures CloudPolicyOk(s0, t, r)
    {
      assert CloudPolicyOk(s0, s, r);
      ReplayFrame(s0.policies[r], s.order[r], s.clients, t.clients);
      if r == own {
        assert t.order[r][..|t.order[r]| - 1] == s.order[r];
      }
    }
  }

  lemma LockKeepsLocks(s: State, c: nat, t: State)
    requires LocksOk(s) && Step(s, Lock(c)) == Some(t)
    ensures LocksOk(t)
  {
  }

  lemma LockKeepsClients(s0: State, s: State, c: nat, t: State)
    requires SameClients(s0, s) && HistoryOk(s) && KnowledgeOk(s) && Step(s, Lock(c)) == Some(t)
    ensures SameClients(s0, t) && HistoryOk(t) && KnowledgeOk(t)
  {
  }

  lemma LockKeepsInv(s0: State, s: State, c: nat, t: State)
    requires Inv(s0, s) && Step(s, Lock(c)) == Some(t)
    ensures Inv(s0, t)
  {
    LockKeepsClients(s0, s, c, t);
    LockKeepsLocks(s, c, t);
    LockKeepsOrder(s, c, t);
    LockKeepsPolicies(s0, s, c, t);
  }

  lemma UnlockKeepsLocks(s: State, c: nat, t: State)
    requires LocksOk(s) && Step(s, Unlock(c)) == Some(t)
    ensures LocksOk(t)
  {
  }

  lemma UnlockKeepsPolicies(s0: State, s: State, c: nat, t: State)
    requires OrderOk(s) && PoliciesOk(s0, s) && Step(s, Unlock(c)) == Some(t)
    ensures PoliciesOk(s0, t)
  {
    forall r | r in t.order
      ensures CloudPolicyOk(s0, t, r)
    {
      assert CloudPolicyOk(s0, s, r);
      ReplayFrame(s0.policies[r], s.order[r], s.clients, t.clients);
    }
  }

  lemma UnlockKeepsOrder(s: State, c: nat, t: State)
    requires OrderOk(s) && Step(s, Unlock(c)) == Some(t)
    ensures OrderOk(t)
  {
    forall r | r in t.order
      ensures CloudOrderOk(t, r, t.order[r])
    {
      assert CloudOrderOk(s, r, s.order[r]);
    }
  }

  lemma UnlockKeepsClients(s0: State, s: State, c: nat, t: State)
    requires SameClients(s0, s) && HistoryOk(s) && KnowledgeOk(s) && Step(s, Unlock(c)) == Some(t)
    ensures SameClients(s0, t) && HistoryOk(t) && KnowledgeOk(t)
  {
  }

  lemma UnlockKeepsInv(s0: State, s: State, c: nat, t: State)
    requires Inv(s0, s) && Step(s, Unlock(c)) == Some(t)
    ensures Inv(s0, t)
  {
    UnlockKeepsClients(s0, s, c, t);
    UnlockKeepsLocks(s, c, t);
    UnlockKeepsOrder(s, c, t);
    UnlockKeepsPolicies(s0, s, c, t);
  }

  /** A client that goes on as the code says has written what it should have, and what it knows stays
      true of the policy it leaves behind: a policy read under the lock is still the stored one when
      the client's own policy is written over it. */
  lemma NextPcFits(client: Client, a: Action, stored: Policy)
    requires NextPc(client, a, stored).Some? && WroteFits(client) && Knows(client, stored)
    ensures var pc := NextPc(client, a, stored).value;
            && InSection(client.pc) && InSection(pc)
            && if Reaches(a) then
                 && RunEffects(stored, WriteMade(client)) == Some(PolicyWritten(client, stored))
                 && WroteFits(client.(pc := pc, wrote := client.wrote + WriteMade(client)))
                 && Knows(client.(pc := pc), PolicyWritten(client, stored))
               else
                 WroteFits(client.(pc := pc)) && Knows(client.(pc := pc), stored)
  {
    match client.pc {
      case Reading(n, soFar) =>
        EmptyIsSomeBatches(client.op);
        if a.ok && n + 1 < client.pages {
          assert soFar + stored[|soFar|..a.upto] == stored[..a.upto];
        } else {
          assert soFar + stored[|soFar|..] == stored;
        }
      case HasRead(p) =>
        EmptyIsSomeBatches(client.op);
      case Modified(q) =>
        RunOneEffect(stored, Replace(client.op.change));
      case Sending(n) =>
        SendingFits(client, a, stored);
      case _ =>
    }
  }

  lemma SendingFits(client: Client, a: Action, stored: Policy)
    requires client.pc.Sending? && NextPc(client, a, stored).Some? && WroteFits(client)
    ensures var pc := NextPc(client, a, stored).value;
            if Reaches(a) then
              && RunEffects(stored, WriteMade(client)) == Some(PolicyWritten(client, stored))
              && WroteFits(client.(pc := pc, wrote := client.wrote + WriteMade(client)))
            else WroteFits(client.(pc := pc))
  {
    var deltas, n := client.op.deltas, client.pc.n;
    if n < BatchCount(deltas) {
      RunOneEffect(stored, Deltas(Batch(deltas, n)));
      assert SomeBatches(deltas, BatchEffects(deltas, n));
      assert SomeBatches(deltas, BatchEffects(deltas, n + 1));
    }
  }

  lemma RunOneEffect(p: Policy, e: Effect)
    ensures RunEffects(p, [e]) == RunEffect(p, e)
  {
  }

  lemma EmptyIsSomeBatches(op: Op)
    ensures op.UpdateOp? ==> SomeBatches(op.deltas, [])
  {
    if op.UpdateOp? {
      assert BatchEffects(op.deltas, 0) == [];
    }
  }

  lemma InnerStepMoves(s: State, a: Action, t: State, made: seq<Effect>)
    requires Step(s, a) == Some(t) && (a.Get? || a.Local? || a.Write?)
    requires made == if Reaches(a) then WriteMade(s.clients[a.c]) else []
    requires WroteFits(s.clients[a.c]) && Knows(s.clients[a.c], s.policies[s.clients[a.c].cloudId])
    ensures var client := t.clients[a.c];
            && IsMove(s, a.c, client, made, t)
            && WroteFits(client) && Knows(client, t.policies[client.cloudId])
  {
    var client := s.clients[a.c];
    NextPcFits(client, a, s.policies[client.cloudId]);
    assert client.wrote + [] == client.wrote;
  }

  lemma InnerStepKeepsInv(s0: State, s: State, a: Action, t: State)
    requires Inv(s0, s) && Step(s, a) == Some(t) && (a.Get? || a.Local? || a.Write?)
    ensures Inv(s0, t)
  {
    var made := if Reaches(a) then WriteMade(s.clients[a.c]) else [];
    ClientFits(s, a.c);
    InnerStepMoves(s, a, t, made);
    MoveKeepsInv(s0, s, a.c, t.clients[a.c], made, t);
  }

  lemma ClientFits(s: State, c: nat)
    requires HistoryOk(s) && KnowledgeOk(s) && Known(s, c)
    ensures WroteFits(s.clients[c]) && Knows(s.clients[c], s.policies[s.clients[c].cloudId])
  {
  }

  lemma StepKeepsInv(s0: State, s: State, a: Action, t: State)
    requires Inv(s0, s) && Step(s, a) == Some(t)
    ensures Inv(s0, t)
  {
    match a {
      case Lock(c) => LockKeepsInv(s0, s, c, t);
      case Unlock(c) => UnlockKeepsInv(s0, s, c, t);
      case _ => InnerStepKeepsInv(s0, s, a, t);
    }
  }

  lemma {:induction false} RunKeepsInv(s0: State, s: State, actions: seq<Action>)
    requires Inv(s0, s) && Run(s, actions).Some?
    ensures Inv(s0, Run(s, actions).value)
    decreases |actions|
  {
    if actions != [] {
      var s1 := Step(s, actions[0]).value;
      StepKeepsInv(s0, s, actions[0], s1);
      RunKeepsInv(s0, s1, actions[1..]);
    }
  }
}
