// Canvas nodes as the scheduler reads them: type, creative role, execution status, price.

module Canvas {
  import opened Collections

  datatype NodeType = Text | Image | Video | Audio | Compose | Director | OtherType(name: string)

  datatype Creative =
    Script | Character | Shot | Keyframe | Clip | Voice | Composite | NoCreative | OtherCreative(name: string)

  datatype Status =
    | Idle | Stale
    | Ready | Succeeded | Success
    | Queued | Running | Generating | Pending
    | Failed
    | OtherStatus(name: string)

  datatype Node = Node(id: int, ntype: NodeType, creative: Creative, status: Status, x: real, y: real)

  function Ids(nodes: seq<Node>): (r: seq<int>)
    ensures |r| == |nodes| && forall k :: 0 <= k < |nodes| ==> r[k] == nodes[k].id
  {
    if nodes == [] then [] else Ids(nodes[..|nodes| - 1]) + [nodes[|nodes| - 1].id]
  }

  // Entries by id; a repeated id keeps its last entry.
  function NodeMap(nodes: seq<Node>): (nm: map<int, Node>)
    ensures forall i :: i in nm ==> nm[i].id == i && nm[i] in nodes
    ensures forall n :: n in nodes ==> n.id in nm
  {
    if nodes == [] then map[]
    else
      var last := nodes[|nodes| - 1];
      assert nodes == nodes[..|nodes| - 1] + [last];
      NodeMap(nodes[..|nodes| - 1])[last.id := last]
  }

  ghost predicate UniqueIds(nodes: seq<Node>) {
    forall i, j :: 0 <= i < j < |nodes| ==> nodes[i].id != nodes[j].id
  }

  lemma UniqueEntry(nodes: seq<Node>, n: Node)
    requires UniqueIds(nodes) && n in nodes
    ensures NodeMap(nodes)[n.id] == n
  {
    var m := NodeMap(nodes)[n.id];
    var i, j :| 0 <= i < |nodes| && nodes[i] == n && 0 <= j < |nodes| && nodes[j] == m;
  }

  predicate ReadyStatus(s: Status) {
    s.Ready? || s.Succeeded? || s.Success?
  }

  predicate ActiveStatus(s: Status) {
    s.Queued? || s.Running? || s.Generating? || s.Pending?
  }

  predicate Generatable(t: NodeType) {
    t.Text? || t.Image? || t.Video? || t.Audio?
  }

  predicate Executable(t: NodeType) {
    Generatable(t) || t.Compose?
  }

  // Neither ready, nor in flight, nor failed, and of a type that can run.
  predicate Submittable(n: Node) {
    !ReadyStatus(n.status) && !ActiveStatus(n.status) && !n.status.Failed? && Executable(n.ntype)
  }

  function ModelType(n: Node): NodeType {
    if n.ntype.Compose? then Video
    else match n.creative
      case Keyframe => Image
      case Clip | Composite => Video
      case Voice => Audio
      case Script | Shot | Character => Text
      case _ => if Generatable(n.ntype) then n.ntype else Image
  }

  // DEFAULT_COST, 10 for a type outside the table.
  function DefaultCost(t: NodeType): nat {
    match t
    case Text => 8
    case Image => 8
    case Video => 30
    case Audio => 10
    case Compose => 15
    case _ => 10
  }

  datatype Tool = ComposeFinal | SubmitGeneration

  datatype Submission = Submission(tool: Tool, nodeId: int, model: NodeType, cost: nat)

  // plan_submit_for_node; `videoPrice` is what the remote price list asks for one video.
  function PlanSubmit(n: Node, videoPrice: nat): Option<Submission> {
    if !Submittable(n) then None
    else if n.ntype.Compose? then Some(Submission(ComposeFinal, n.id, Compose, DefaultCost(Compose)))
    else if ModelType(n).Video? then Some(Submission(SubmitGeneration, n.id, Video, videoPrice))
    else Some(Submission(SubmitGeneration, n.id, ModelType(n), DefaultCost(ModelType(n))))
  }
}
