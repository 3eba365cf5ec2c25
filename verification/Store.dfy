/** The in-memory fleet store: agent records and push histories behind one lock. */
module Store {
  import opened Common
  import opened Agents

  type Records = map<Uid, Agent>

  type Histories = map<Uid, seq<ConfigPush>>

  /** The record an upsert hands to its mutator: the stored one or a fresh one, under this uid. */
  function Record(agents: Records, uid: Uid): Agent {
    (if uid in agents then agents[uid] else FRESH).(instanceUid := uid)
  }

  function History(pushes: Histories, uid: Uid): seq<ConfigPush> {
    if uid in pushes then pushes[uid] else []
  }

  function Appended(pushes: Histories, push: ConfigPush): Histories {
    pushes[push.agentUid := History(pushes, push.agentUid) + [push]]
  }

  /** Sets the outcome of the first push with this id. */
  function Resolved(list: seq<ConfigPush>, id: string, succeeded: bool, err: string): seq<ConfigPush> {
    if list == [] then []
    else if list[0].id == id then [list[0].(succeeded := succeeded, errorMessage := err)] + list[1..]
    else [list[0]] + Resolved(list[1..], id, succeeded, err)
  }

  lemma {:induction false} ResolvedAt(list: seq<ConfigPush>, n: nat, id: string, succeeded: bool, err: string)
    requires n <= |list| && forall i :: 0 <= i < n ==> list[i].id != id
    ensures n < |list| && list[n].id == id ==>
              Resolved(list, id, succeeded, err) == list[n := list[n].(succeeded := succeeded, errorMessage := err)]
    ensures n == |list| ==> Resolved(list, id, succeeded, err) == list
  {
    if n > 0 { ResolvedAt(list[1..], n - 1, id, succeeded, err); }
  }

  class MemoryStore {
    var agents: Records
    var pushes: Histories

    constructor ()
      ensures agents == map[] && pushes == map[]
    {
      agents, pushes := map[], map[];
    }

    /** Read, modify and write in one critical section. */
    method UpsertAgent(uid: Uid, mutate: Agent -> Agent) returns (a: Agent)
      modifies this`agents
      ensures a == mutate(Record(old(agents), uid))
      ensures agents == old(agents)[uid := a]
    {
      a := if uid in agents then agents[uid] else FRESH;
      a := a.(instanceUid := uid);
      a := mutate(a);
      agents := agents[uid := a];
    }

    method GetAgent(uid: Uid) returns (a: Option<Agent>)
      ensures a == if uid in agents then Some(agents[uid]) else None
    {
      a := if uid in agents then Some(agents[uid]) else None;
    }

    /** Every record once; `uids[i]` is the key of `out[i]`. */
    method ListAgents() returns (out: seq<Agent>, ghost uids: seq<Uid>)
      ensures |uids| == |out| && (forall i, j :: 0 <= i < j < |uids| ==> uids[i] != uids[j])
      ensures forall i :: 0 <= i < |out| ==> uids[i] in agents && out[i] == agents[uids[i]]
      ensures forall uid :: uid in agents ==> uid in uids
      ensures |out| == |agents|
    {
      out, uids := [], [];
      var todo := agents.Keys;
      while todo != {}
        invariant todo <= agents.Keys && |uids| == |out|
        invariant forall i, j :: 0 <= i < j < |uids| ==> uids[i] != uids[j]
        invariant forall i :: 0 <= i < |out| ==> uids[i] in agents && uids[i] !in todo && out[i] == agents[uids[i]]
        invariant forall uid :: uid in agents ==> uid in todo || uid in uids
        invariant |out| + |todo| == |agents.Keys|
        decreases todo
      {
        var uid :| uid in todo;
        out, uids := out + [agents[uid]], uids + [uid];
        todo := todo - {uid};
      }
    }

    method DeleteAgent(uid: Uid)
      modifies this
      ensures agents == old(agents) - {uid} && pushes == old(pushes) - {uid}
    {
      agents := agents - {uid};
      pushes := pushes - {uid};
    }

    method AppendConfigPush(push: ConfigPush)
      modifies this`pushes
      ensures pushes == Appended(old(pushes), push)
    {
      var list := if push.agentUid in pushes then pushes[push.agentUid] else [];
      pushes := pushes[push.agentUid := list + [push]];
    }

    method UpdateConfigPushResult(uid: Uid, id: string, succeeded: bool, err: string)
      modifies this`pushes
      ensures forall u :: u != uid ==> History(pushes, u) == History(old(pushes), u)
      ensures History(pushes, uid) == Resolved(History(old(pushes), uid), id, succeeded, err)
    {
      var list := if uid in pushes then pushes[uid] else [];
      for i := 0 to |list|
        invariant pushes == old(pushes)
        invariant forall j :: 0 <= j < i ==> list[j].id != id
      {
        if list[i].id == id {
          ResolvedAt(list, i, id, succeeded, err);
          pushes := pushes[uid := list[i := list[i].(succeeded := succeeded, errorMessage := err)]];
          return;
        }
      }
      ResolvedAt(list, |list|, id, succeeded, err);
    }

    method ListConfigPushes(uid: Uid) returns (out: seq<ConfigPush>)
      ensures out == History(pushes, uid)
    {
      out := if uid in pushes then pushes[uid] else [];
    }
  }
}
