/** The typed shapes the engine is built from: node specs, runtime state, envelopes, budgets. */
module AgyTypes {

  datatype Option<+T> = None | Some(value: T)

  type NodeId = string

  type Key = string

  datatype NodeStatus =
    | Pending | Ready | Reserved | Running
    | Succeeded | Failed | Skipped | Cancelled

  datatype FailureClass = Transient | Deterministic | OverBudget

  datatype ErrorClass =
    | NoError | SchemaInvalid | Transport | Auth
    | Timeout | BudgetError | Tool | Unknown

  datatype EnvelopeStatus = EnvSucceeded | EnvFailed | EnvCancelled | EnvTimedOut

  datatype Accounting = Exact | Opaque

  type Usd = x: real | 0.0 <= x

  /** A budget vector. Dollars are exact reals: float rounding is not modelled. */
  datatype Dims = Dims(tokens: int, usd: real) {
    function Add(other: Dims): Dims {
      Dims(tokens + other.tokens, usd + other.usd)
    }

    function Sub(other: Dims): Dims {
      Dims(tokens - other.tokens, usd - other.usd)
    }

    /** Below the cap in every dimension. */
    predicate FitsWithin(cap: Dims) {
      tokens <= cap.tokens && usd <= cap.usd
    }

    /** Above the cap in some dimension. */
    predicate Exceeds(cap: Dims) {
      tokens > cap.tokens || usd > cap.usd
    }

    static function Max(a: Dims, b: Dims): Dims {
      Dims(if a.tokens >= b.tokens then a.tokens else b.tokens, if a.usd >= b.usd then a.usd else b.usd)
    }
  }

  const ZERO := Dims(0, 0.0)

  datatype Caps = Caps(maxOutputTokens: nat, maxThinkingTokens: nat)

  /** The static contract of a node. `content` stands for the other hashed fields. */
  datatype NodeSpec = NodeSpec(
    id: NodeId,
    role: string,
    dependencies: seq<NodeId>,
    inputs: seq<string>,
    caps: Caps,
    maxSchemaRetries: int,
    retryableErrors: seq<ErrorClass>,
    content: string)

  datatype Runtime = Runtime(
    status: NodeStatus,
    attempt: int,
    remainingRetries: int,
    consumed: Dims,
    errorClass: ErrorClass)

  const FRESH := Runtime(Pending, 0, 0, ZERO, NoError)

  /** What an attempt returns. `output` and `thinking` are its two token counts. */
  datatype Envelope = Envelope(
    nodeId: NodeId,
    key: Key,
    status: EnvelopeStatus,
    attempt: int,
    adapter: string,
    errorClass: ErrorClass,
    failureClass: Option<FailureClass>,
    artifact: map<string, string>,
    output: nat,
    thinking: nat,
    cost: Usd)

  datatype Epoch = Epoch(seqNo: int, id: string)

  predicate IsTerminal(s: NodeStatus) {
    s in {Succeeded, Failed, Skipped, Cancelled}
  }

  /** The ids of a list of nodes, in order. */
  function Ids(nodes: seq<NodeSpec>): (r: seq<NodeId>)
    ensures |r| == |nodes|
    ensures forall i :: 0 <= i < |nodes| ==> r[i] == nodes[i].id
  {
    seq(|nodes|, i requires 0 <= i < |nodes| => nodes[i].id)
  }

  function IdSet(nodes: seq<NodeSpec>): set<NodeId> {
    set i | 0 <= i < |nodes| :: nodes[i].id
  }

  ghost predicate UniqueIds(nodes: seq<NodeSpec>) {
    forall i, j :: 0 <= i < j < |nodes| ==> nodes[i].id != nodes[j].id
  }

  ghost predicate Resolvable(nodes: seq<NodeSpec>) {
    forall i, d :: 0 <= i < |nodes| && d in nodes[i].dependencies ==> d in IdSet(nodes)
  }

  /** What plan-time validation establishes about ids and dependencies, cycles aside. */
  ghost predicate WellFormed(nodes: seq<NodeSpec>) {
    UniqueIds(nodes) && Resolvable(nodes)
  }

  function NodesById(nodes: seq<NodeSpec>): (m: map<NodeId, NodeSpec>)
    ensures m.Keys == IdSet(nodes)
    ensures forall id :: id in m ==> m[id] in nodes && m[id].id == id
    ensures UniqueIds(nodes) ==> forall n :: n in nodes ==> n.id in m && m[n.id] == n
  {
    if nodes == [] then map[]
    else
      var n := nodes[|nodes| - 1];
      assert nodes == nodes[..|nodes| - 1] + [n];
      assert IdSet(nodes) == IdSet(nodes[..|nodes| - 1]) + {n.id};
      NodesById(nodes[..|nodes| - 1])[n.id := n]
  }
}
