/**
 * The agent endpoints of the events controller: the Redis hash `agents` (agent id to state)
 * and the channel `sse:messages` on which every change is published.
 */
module Agents {
  import opened Wrappers
  import opened AgentJson

  const RUNNING := "running"
  const PAUSED := "paused"
  const INVALID_STATE := "Invalid state. Must be 'running' or 'paused'."

  /** AddAgentDto: the id is optional. */
  datatype AddAgentRequest = AddAgentRequest(agentId: Option<string>)

  /** UpdateStateDto: the body may leave the state out (null). */
  datatype UpdateStateRequest = UpdateStateRequest(state: Option<string>)

  /** The IActionResult of an endpoint: 200 with a body, 201 with a location, or 400. */
  datatype Response =
    | Ok(agent: AgentStatus)
    | Created(location: string, agent: AgentStatus)
    | BadRequest(message: string)

  /** A step the controller takes on Redis, in the order it takes them. */
  datatype RedisCall =
    | HashSet(field: string, value: string)
    | Publish(message: string)

  predicate IsAgentState(s: string) {
    s == RUNNING || s == PAUSED
  }

  /** ToLowerInvariant on one character, for the ASCII letters. */
  function LowerChar(c: char): char {
    if 'A' <= c && c <= 'Z' then (c as int - 'A' as int + 'a' as int) as char else c
  }

  function LowerInvariant(s: string): (r: string)
    ensures |r| == |s|
    ensures forall i :: 0 <= i < |s| ==> r[i] == LowerChar(s[i])
  {
    if s == [] then [] else [LowerChar(s[0])] + LowerInvariant(s[1..])
  }

  /** `a` and `b` are the same text up to the case of letters. */
  predicate SameIgnoringCase(a: string, b: string) {
    |a| == |b| && forall i :: 0 <= i < |a| ==> LowerChar(a[i]) == LowerChar(b[i])
  }

  /** A word written in lower case compares equal to its own lowering. */
  lemma LowerMatches(s: string, word: string)
    requires forall i :: 0 <= i < |word| ==> LowerChar(word[i]) == word[i]
    ensures LowerInvariant(s) == word <==> SameIgnoringCase(s, word)
  {
    if SameIgnoringCase(s, word) {
      var r := LowerInvariant(s);
      assert forall i :: 0 <= i < |r| ==> r[i] == word[i];
    }
  }

  /**
   * The check UpdateAgentState makes: the requested state, lower-cased, must be `running`
   * or `paused`; the result is the lower-cased state, or None for a rejection.
   */
  function ValidateState(requested: Option<string>): (r: Option<string>)
    ensures r.Some? <==> requested.Some? && (SameIgnoringCase(requested.value, RUNNING) || SameIgnoringCase(requested.value, PAUSED))
    ensures r.Some? ==> IsAgentState(r.value) && SameIgnoringCase(requested.value, r.value)
  {
    if requested.None? then None
    else
      var state := LowerInvariant(requested.value);
      LowerMatches(requested.value, RUNNING);
      LowerMatches(requested.value, PAUSED);
      if state == RUNNING || state == PAUSED then Some(state) else None
  }

  /** The state check refuses other words and a missing state. */
  lemma RefusedStates()
    ensures ValidateState(Some("archived")) == None
    ensures ValidateState(None) == None
  {
    assert LowerChar('a') != LowerChar('r') && LowerChar('a') != LowerChar('p');
    assert !SameIgnoringCase("archived", RUNNING) && !SameIgnoringCase("archived", PAUSED);
  }

  /** A state written in any case is accepted as the lower-case word it spells. */
  lemma AcceptedInAnyCase(requested: string, word: string)
    requires IsAgentState(word) && SameIgnoringCase(requested, word)
    ensures ValidateState(Some(requested)) == Some(word)
  {
    var r := ValidateState(Some(requested));
    assert |RUNNING| != |PAUSED|;
    assert r.Some? && |r.value| == |requested| == |word|;
  }

  /** The state check ignores the case of letters and answers with the lower-case word. */
  lemma AcceptedStates()
    ensures ValidateState(Some("PAUSED")) == Some(PAUSED)
    ensures ValidateState(Some("Running")) == Some(RUNNING)
  {
    AcceptedInAnyCase("PAUSED", PAUSED);
    AcceptedInAnyCase("Running", RUNNING);
  }

  /** Redis, as far as the controller uses it. */
  class AgentStore {
    /** The hash `agents`: agent id to state. */
    var agents: map<string, string>
    /** Every message published on `sse:messages`, oldest first. */
    var published: seq<string>
    /** The calls made on Redis, in order. */
    ghost var calls: seq<RedisCall>

    /** Every state stored is one the endpoints accept. */
    ghost predicate Valid()
      reads this
    {
      forall id :: id in agents ==> IsAgentState(agents[id])
    }

    constructor (initial: map<string, string>)
      ensures agents == initial && published == [] && calls == []
    {
      agents := initial;
      published := [];
      calls := [];
    }

    /** HashSetAsync: create or overwrite one field of the hash. */
    method HashSet(field: string, value: string)
      modifies this`agents, this`calls
      ensures agents == old(agents)[field := value]
      ensures calls == old(calls) + [RedisCall.HashSet(field, value)]
    {
      agents := agents[field := value];
      calls := calls + [RedisCall.HashSet(field, value)];
    }

    /** PublishAsync on `sse:messages`. */
    method Publish(message: string)
      modifies this`published, this`calls
      ensures published == old(published) + [message]
      ensures calls == old(calls) + [RedisCall.Publish(message)]
    {
      published := published + [message];
      calls := calls + [RedisCall.Publish(message)];
    }

    /**
     * POST /agents: the supplied id, or the generated one when none (or an empty one) is
     * supplied, is set to `running`, and then that status is published.
     */
    method AddAgent(request: AddAgentRequest, generatedId: string) returns (response: Response)
      modifies this
      ensures var id := if request.agentId.None? || request.agentId.value == "" then generatedId else request.agentId.value;
        && agents == old(agents)[id := RUNNING]
        && published == old(published) + [Serialize(AgentStatus(id, RUNNING))]
        && calls == old(calls) + [RedisCall.HashSet(id, RUNNING)] + [RedisCall.Publish(Serialize(AgentStatus(id, RUNNING)))]
        && response == Created("/agents/" + id, AgentStatus(id, RUNNING))
      ensures old(Valid()) ==> Valid()
      ensures published == old(published) + [Serialize(response.agent)]
    {
      var agentId := if request.agentId.None? || request.agentId.value == "" then generatedId else request.agentId.value;
      var initialState := RUNNING;
      HashSet(agentId, initialState);
      var payload := Serialize(AgentStatus(agentId, initialState));
      Publish(payload);
      response := Created("/agents/" + agentId, AgentStatus(agentId, initialState));
    }

    /**
     * POST /agents/{agentId}/state: a state that is not `running` or `paused` (in any case)
     * is refused before Redis is touched; otherwise the lower-cased state is stored and then
     * published. The id is not looked up: an unknown id is created.
     */
    method UpdateAgentState(agentId: string, request: UpdateStateRequest) returns (response: Response)
      modifies this
      ensures ValidateState(request.state).None? ==>
        && response == BadRequest(INVALID_STATE)
        && agents == old(agents) && published == old(published) && calls == old(calls)
      ensures ValidateState(request.state).Some? ==>
        var state := ValidateState(request.state).value;
        && agents == old(agents)[agentId := state]
        && published == old(published) + [Serialize(AgentStatus(agentId, state))]
        && calls == old(calls) + [RedisCall.HashSet(agentId, state)] + [RedisCall.Publish(Serialize(AgentStatus(agentId, state)))]
        && response == Ok(AgentStatus(agentId, state))
        && published == old(published) + [Serialize(response.agent)]
      ensures old(Valid()) ==> Valid()
    {
      var state := ValidateState(request.state);
      if state.None? {
        return BadRequest(INVALID_STATE);
      }
      HashSet(agentId, state.value);
      var payload := Serialize(AgentStatus(agentId, state.value));
      Publish(payload);
      response := Ok(AgentStatus(agentId, state.value));
    }

    /** GET /agents: one status per field of the hash, in no particular order. */
    method GetAllAgents() returns (list: seq<AgentStatus>)
      ensures |list| == |agents|
      ensures forall a :: a in list <==> a.agentId in agents && agents[a.agentId] == a.state
      ensures forall i, j :: 0 <= i < j < |list| ==> list[i].agentId != list[j].agentId
      ensures Valid() ==> forall a :: a in list ==> IsAgentState(a.state)
    {
      var remaining := agents.Keys;
      list := [];
      while remaining != {}
        invariant remaining <= agents.Keys
        invariant |list| + |remaining| == |agents.Keys|
        invariant forall a :: a in list <==> a.agentId in agents.Keys - remaining && agents[a.agentId] == a.state
        invariant forall i, j :: 0 <= i < j < |list| ==> list[i].agentId != list[j].agentId
        decreases remaining
      {
        var id :| id in remaining;
        list := list + [AgentStatus(id, agents[id])];
        remaining := remaining - {id};
      }
    }
  }
}
