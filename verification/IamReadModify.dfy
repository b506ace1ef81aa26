/** The two ways a resource changes access bindings (yandex/iam.go), run by one client: what they do
    to the server is one of the outcomes the protocol allows a client on its own. */
module IamReadModify {
  import opened GoText
  import opened IamCloud
  import opened IamProtocol
  import opened IamSerial

  /** The keyed mutexes held in this process. */
  class MutexKV {
    var held: set<string>

    constructor ()
      ensures held == {}
    {
      held := {};
    }

    /** Waiting for another holder is the business of the protocol. */
    method Lock(key: string)
      requires key !in held
      modifies this
      ensures held == old(held) + {key}
    {
      held := held + {key};
    }

    method Unlock(key: string)
      requires key in held
      modifies this
      ensures held == old(held) - {key}
    {
      held := held - {key};
    }
  }

  /** Under the mutex the policy stays as it is while its pages are read. */
  method GetResourceIamPolicy(server: CloudServer, pages: map<string, Response>, ghost tokens: seq<string>)
    returns (r: Result<Policy>)
    requires PageChain(pages, "", tokens) && Serves(pages, tokens, server.policy)
    ensures r.Ok? <==> AllPages(pages, tokens)
    ensures r.Ok? ==> r.value == server.policy
  {
    r := GetCloudAccessBindings(pages, tokens);
  }

  method IamPolicyReadModifySet(mutexKV: MutexKV, cloudId: string, server: CloudServer,
                                pages: map<string, Response>, ghost tokens: seq<string>,
                                change: Policy -> Option<Policy>)
    returns (ok: bool)
    requires MutexKey(cloudId) !in mutexKV.held
    requires PageChain(pages, "", tokens) && Serves(pages, tokens, server.policy)
    modifies mutexKV, server
    ensures mutexKV.held == old(mutexKV.held)
    ensures SoloOutcome(SetOp(change), ok, old(server.policy), server.policy)
    ensures server.sent == old(server.sent)
    ensures var asks := AllPages(pages, tokens) && change(old(server.policy)).Some?;
            && server.answers == old(server.answers) + (if asks then [ok] else [])
            && (!asks ==> !ok && server.policy == old(server.policy))
  {
    var mutexKey := MutexKey(cloudId);
    mutexKV.Lock(mutexKey);
    ok := false;
    var p := GetResourceIamPolicy(server, pages, tokens);
    if p.Ok? {
      var changed := change(p.value);
      if changed.Some? {
        ok := server.SetAccessBindings(changed.value);
      }
    }
    mutexKV.Unlock(mutexKey);
  }

  method IamPolicyReadModifyUpdate(mutexKV: MutexKV, cloudId: string, server: CloudServer,
                                   pages: map<string, Response>, ghost tokens: seq<string>, deltas: seq<Delta>)
    returns (ok: bool)
    requires MutexKey(cloudId) !in mutexKV.held
    requires PageChain(pages, "", tokens) && Serves(pages, tokens, server.policy)
    modifies mutexKV, server
    ensures mutexKV.held == old(mutexKV.held)
    ensures SoloOutcome(UpdateOp(deltas), ok, old(server.policy), server.policy)
    ensures !AllPages(pages, tokens) ==>
              !ok && server.policy == old(server.policy)
              && server.sent == old(server.sent) && server.answers == old(server.answers)
    ensures AllPages(pages, tokens) ==>
              exists n: nat ::
                && n <= BatchCount(deltas) && (if ok then n == BatchCount(deltas) else n > 0)
                && server.sent == old(server.sent) + FirstBatches(deltas, n)
                && server.answers == old(server.answers) + Answers(n, ok)
  {
    var mutexKey := MutexKey(cloudId);
    mutexKV.Lock(mutexKey);
    ok := false;
    ghost var applied: nat := 0;
    assert Sent(deltas, 0) == [];
    var p := GetResourceIamPolicy(server, pages, tokens);
    if p.Ok? {
      ghost var sent;
      ok, sent, applied := UpdateResourceIamPolicy(server, deltas);
    }
    assert server.policy == ApplyAll(old(server.policy), Sent(deltas, applied));
    mutexKV.Unlock(mutexKey);
  }
}
