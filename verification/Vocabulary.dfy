/** Value objects shared by every subsystem of the gateway. */
module Vocabulary {

  datatype Option<+T> = None | Some(value: T)

  datatype Role = System | User | Assistant | Tool

  /** Cost tier of a provider; an integer, so that tiers compare with `<=`. */
  type Tier = t: int | 0 <= t < 4
  const FREE: Tier := 0

  datatype ErrorClass = RateLimit | Quota | Auth | Transient | Invalid | Content

  datatype Capability = Tools | Streaming | Vision | JsonMode

  datatype Usage = Usage(prompt: int, completion: int) {
    function Total(): int { prompt + completion }

    function Plus(other: Usage): Usage {
      Usage(prompt + other.prompt, completion + other.completion)
    }
  }

  datatype ToolSpec = ToolSpec(name: string, description: string, parameters: string)

  /** `arguments` is the serialised argument object. */
  datatype ToolCall = ToolCall(id: string, name: string, arguments: string)

  datatype ToolResult = ToolResult(callId: string, content: string, isError: bool)

  datatype Message = Message(role: Role, content: Option<string>, toolCalls: seq<ToolCall>,
                             toolResult: Option<ToolResult>)

  datatype Request = Request(messages: seq<Message>, tenant: string, tools: seq<ToolSpec>, tierHint: Option<Tier>)

  datatype Response = Response(message: Message, usage: Usage, providerName: string, tier: Tier)

  datatype Provider = Provider(name: string, tier: Tier, capabilities: set<Capability>)

  datatype TenantQuota = TenantQuota(requestsPerMin: int, tokensPerMin: int, tokensPerDay: int, softLimitRatio: real)

  datatype Tenant = Tenant(id: string, quota: TenantQuota, isZeroSetup: bool, metadata: map<string, string>)

  /** The order the router hands candidates over in. */
  ghost predicate CheapestFirst(candidates: seq<Provider>) {
    forall i, j :: 0 <= i < j < |candidates| ==> candidates[i].tier <= candidates[j].tier
  }
}
