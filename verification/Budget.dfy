/** What an agent run may spend, and the registry of call ids it has used. */
module Budget {
  import opened Protocol
  import opened Invocation

  datatype BudgetKind = InvalidLimits | RoundsExhausted | CallsExhausted | Elapsed | BytesExhausted

  function BudgetCode(kind: BudgetKind): string {
    match kind
    case InvalidLimits => "invalid_agent_limits"
    case RoundsExhausted => "provider_round_budget_exhausted"
    case CallsExhausted => "tool_call_budget_exhausted"
    case Elapsed => "elapsed_budget_exhausted"
    case BytesExhausted => "tool_result_budget_exhausted"
  }

  function BudgetFailure(inv: ToolInvocation, kind: BudgetKind): ToolResult {
    ResultFor(inv, Failed, BudgetCode(kind))
  }

  lemma BudgetCodeValid(kind: BudgetKind)
    requires kind in {InvalidLimits, Elapsed}
    ensures ValidCode(BudgetCode(kind))
    ensures BudgetCode(kind) == if kind == Elapsed then "elapsed_budget_exhausted" else "invalid_agent_limits"
  {
  }

  lemma ExhaustedCodeValid(kind: BudgetKind)
    requires kind in {RoundsExhausted, CallsExhausted}
    ensures ValidCode(BudgetCode(kind))
    ensures BudgetCode(kind)
         == if kind == CallsExhausted then "tool_call_budget_exhausted" else "provider_round_budget_exhausted"
  {
  }

  lemma BytesCodeValid()
    ensures ValidCode(BudgetCode(BytesExhausted)) && BudgetCode(BytesExhausted) == "tool_result_budget_exhausted"
  {
  }

  lemma BudgetFailureValid(inv: ToolInvocation, kind: BudgetKind)
    requires inv.call.Valid()
    ensures CheckResult(inv, BudgetFailure(inv, kind)).None?
    ensures BudgetFailure(inv, kind).status == Failed && BudgetFailure(inv, kind).output.None?
  {
    hide ValidCode, BudgetCode;
    if kind in {InvalidLimits, Elapsed} {
      BudgetCodeValid(kind);
    } else if kind in {RoundsExhausted, CallsExhausted} {
      ExhaustedCodeValid(kind);
    } else {
      BytesCodeValid();
    }
  }

  /** `now.saturating_sub(startedAt) > maxElapsedMs`. */
  predicate TimeIsUp(limits: AgentLimits, startedAt: nat, now: nat) {
    now > startedAt && now - startedAt > limits.maxElapsedMs
  }

  class AgentBudget {
    const limits: AgentLimits
    const startedAt: nat
    var providerRounds: nat
    var toolCalls: nat
    var toolResultBytes: nat
    ghost var accepted: seq<nat>

    /** No counter passes its limit, and the byte counter is the sum of every accepted result. */
    ghost predicate Valid()
      reads this
    {
      && limits.Valid()
      && providerRounds <= limits.maxProviderRounds
      && toolCalls <= limits.maxToolCalls
      && toolResultBytes == Sum(accepted) <= limits.maxToolResultBytes
    }

    constructor (limits: AgentLimits, startedAt: nat)
      requires limits.Valid()
      ensures Valid() && this.limits == limits && this.startedAt == startedAt
      ensures providerRounds == toolCalls == toolResultBytes == 0
    {
      this.limits, this.startedAt := limits, startedAt;
      providerRounds, toolCalls, toolResultBytes, accepted := 0, 0, 0, [];
    }

    method ConsumeProviderRound(now: nat) returns (error: Option<BudgetKind>)
      requires Valid()
      modifies this`providerRounds
      ensures Valid()
      ensures error == if TimeIsUp(limits, startedAt, now) then Some(Elapsed)
                       else if old(providerRounds) == limits.maxProviderRounds then Some(RoundsExhausted)
                       else None
      ensures providerRounds == old(providerRounds) + if error.None? then 1 else 0
    {
      if TimeIsUp(limits, startedAt, now) {
        return Some(Elapsed);
      }
      if providerRounds >= limits.maxProviderRounds {
        return Some(RoundsExhausted);
      }
      providerRounds := providerRounds + 1;
      return None;
    }

    method ConsumeToolCall(now: nat) returns (error: Option<BudgetKind>)
      requires Valid()
      modifies this`toolCalls
      ensures Valid()
      ensures error == if TimeIsUp(limits, startedAt, now) then Some(Elapsed)
                       else if old(toolCalls) == limits.maxToolCalls then Some(CallsExhausted)
                       else None
      ensures toolCalls == old(toolCalls) + if error.None? then 1 else 0
    {
      if TimeIsUp(limits, startedAt, now) {
        return Some(Elapsed);
      }
      if toolCalls >= limits.maxToolCalls {
        return Some(CallsExhausted);
      }
      toolCalls := toolCalls + 1;
      return None;
    }

    method ConsumeResultBytes(bytes: nat, now: nat) returns (error: Option<BudgetKind>)
      requires Valid()
      modifies this`toolResultBytes, this`accepted
      ensures Valid()
      ensures error == if TimeIsUp(limits, startedAt, now) then Some(Elapsed)
                       else if old(toolResultBytes) + bytes > limits.maxToolResultBytes then Some(BytesExhausted)
                       else None
      ensures toolResultBytes == old(toolResultBytes) + if error.None? then bytes else 0
      ensures accepted == old(accepted) + if error.None? then [bytes] else []
    {
      if TimeIsUp(limits, startedAt, now) {
        return Some(Elapsed);
      }
      if toolResultBytes + bytes > MAX_U64 || toolResultBytes + bytes > limits.maxToolResultBytes {
        return Some(BytesExhausted);
      }
      toolResultBytes := toolResultBytes + bytes;
      accepted := accepted + [bytes];
      return None;
    }
  }

  class InvocationRegistry {
    var callIds: set<CallId>

    constructor ()
      ensures callIds == {}
    {
      callIds := {};
    }

    method Register(inv: ToolInvocation) returns (error: Option<InvocationError>)
      modifies this
      ensures error == if inv.call.callId in old(callIds) then Some(DuplicateCallId) else None
      ensures callIds == old(callIds) + {inv.call.callId}
    {
      if inv.call.callId in callIds {
        return Some(DuplicateCallId);
      }
      callIds := callIds + {inv.call.callId};
      return None;
    }
  }
}
