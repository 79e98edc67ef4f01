/**
 * The workflow document: the eight procurement step types and their display
 * metadata, the shapes of node data, nodes, edges and whole workflows, and the
 * validator that turns a parsed JSON value into a typed workflow or rejects it.
 * Only the declared fields are looked at; any other key is ignored.
 */
module Schema {
  import opened Wrappers
  import opened Json

  // ---------------------------------------------------------------------------
  // Step types and their metadata
  // ---------------------------------------------------------------------------

  datatype NodeType =
    | PurchaseRequest
    | ManagerApproval
    | BudgetValidation
    | VendorSelection
    | PoCreation
    | GoodsReceipt
    | InvoiceProcessing
    | PaymentRelease

  /** The step types in declaration order, which is also the order of the metadata record. */
  const NodeTypes: seq<NodeType> := [
    PurchaseRequest, ManagerApproval, BudgetValidation, VendorSelection,
    PoCreation, GoodsReceipt, InvoiceProcessing, PaymentRelease
  ]

  /** The tag strings a document may carry in a node's `data.type`. */
  const NodeTypeTags: seq<string> := [
    "purchase_request", "manager_approval", "budget_validation", "vendor_selection",
    "po_creation", "goods_receipt", "invoice_processing", "payment_release"
  ]

  function Tag(t: NodeType): string {
    match t
    case PurchaseRequest => "purchase_request"
    case ManagerApproval => "manager_approval"
    case BudgetValidation => "budget_validation"
    case VendorSelection => "vendor_selection"
    case PoCreation => "po_creation"
    case GoodsReceipt => "goods_receipt"
    case InvoiceProcessing => "invoice_processing"
    case PaymentRelease => "payment_release"
  }

  datatype Metadata = Metadata(labelText: string, description: string, category: string)

  /** The five categories a step may belong to. */
  const Categories: seq<string> := ["Request", "Approval", "Validation", "Operations", "Finance"]

  /** `nodeMetadata`: total over the step types. */
  function MetadataOf(t: NodeType): Metadata {
    match t
    case PurchaseRequest => Metadata("Purchase Request", "Initiate procurement process", "Request")
    case ManagerApproval => Metadata("Manager Approval", "Management review and approval", "Approval")
    case BudgetValidation => Metadata("Budget Validation", "Validate budget availability", "Validation")
    case VendorSelection => Metadata("Vendor Selection", "Choose and qualify vendor", "Operations")
    case PoCreation => Metadata("PO Creation", "Generate purchase order", "Operations")
    case GoodsReceipt => Metadata("Goods Receipt", "Confirm delivery of goods", "Operations")
    case InvoiceProcessing => Metadata("Invoice Processing", "Process vendor invoice", "Finance")
    case PaymentRelease => Metadata("Payment Release", "Release payment to vendor", "Finance")
  }

  /** The registry lists every step type once, under the tag declared for it, in a known category. */
  lemma RegistryFacts()
    ensures |NodeTypes| == 8 && |NodeTypeTags| == 8
    ensures forall t: NodeType :: t in NodeTypes
    ensures forall i, j :: 0 <= i < j < |NodeTypes| ==> NodeTypes[i] != NodeTypes[j]
    ensures forall i :: 0 <= i < |NodeTypes| ==> Tag(NodeTypes[i]) == NodeTypeTags[i]
    ensures forall t: NodeType :: MetadataOf(t).category in Categories
  {
    forall t: NodeType
      ensures t in NodeTypes
    {
      match t
      case PurchaseRequest => assert NodeTypes[0] == t;
      case ManagerApproval => assert NodeTypes[1] == t;
      case BudgetValidation => assert NodeTypes[2] == t;
      case VendorSelection => assert NodeTypes[3] == t;
      case PoCreation => assert NodeTypes[4] == t;
      case GoodsReceipt => assert NodeTypes[5] == t;
      case InvoiceProcessing => assert NodeTypes[6] == t;
      case PaymentRelease => assert NodeTypes[7] == t;
    }
  }

  /**
   * `z.enum(nodeTypes)`: a string names a step type exactly when it is one of
   * the eight declared tags, and then it names the step type with that tag.
   */
  function ParseNodeType(s: string): (r: Option<NodeType>)
    ensures r.Some? <==> s in NodeTypeTags
    ensures forall t: NodeType :: r == Some(t) <==> s == Tag(t)
  {
    LookupTagFinds(s, 0);
    TagsDeclared();
    assert NodeTypeTags[0..] == NodeTypeTags;
    LookupTag(s, 0)
  }

  /** Every step type's tag is one of the declared tags, and no two step types share a tag. */
  lemma TagsDeclared()
    ensures forall t: NodeType :: Tag(t) in NodeTypeTags
    ensures forall t: NodeType, u: NodeType :: Tag(t) == Tag(u) ==> t == u
  {
  }

  function LookupTag(s: string, i: nat): Option<NodeType>
    requires i <= |NodeTypes|
    decreases |NodeTypes| - i
  {
    if i == |NodeTypes| then None
    else if Tag(NodeTypes[i]) == s then Some(NodeTypes[i])
    else LookupTag(s, i + 1)
  }

  lemma {:induction false} LookupTagFinds(s: string, i: nat)
    requires i <= |NodeTypes|
    ensures LookupTag(s, i).Some? <==> s in NodeTypeTags[i..]
    ensures LookupTag(s, i).Some? ==> Tag(LookupTag(s, i).value) == s
    decreases |NodeTypes| - i
  {
    RegistryFacts();
    if i < |NodeTypes| {
      LookupTagFinds(s, i + 1);
      assert NodeTypeTags[i..] == [NodeTypeTags[i]] + NodeTypeTags[i + 1..];
    }
  }

  // ---------------------------------------------------------------------------
  // Typed documents
  // ---------------------------------------------------------------------------

  datatype NodeData = NodeData(
    stepType: NodeType,
    labelText: string,
    description: Option<string>,
    assignedDepartment: Option<string>,
    assignedApprover: Option<string>,
    slaDays: Option<real>,
    conditions: Option<string>)

  datatype Position = Position(x: real, y: real)

  /** A canvas node; its `type` discriminator is always `NodeKind`, so it is not stored. */
  datatype Node = Node(id: string, position: Position, data: NodeData)

  const NodeKind: string := "workflowNode"

  datatype Edge = Edge(
    id: string,
    source: string,
    target: string,
    edgeType: Option<string>,
    labelText: Option<string>,
    animated: Option<bool>)

  datatype Workflow = Workflow(name: string, nodes: seq<Node>, edges: seq<Edge>)

  /** The one value constraint: an SLA, when given, is not negative. */
  predicate ValidData(d: NodeData) {
    d.slaDays.Some? ==> d.slaDays.value >= 0.0
  }

  predicate ValidWorkflow(w: Workflow) {
    forall i :: 0 <= i < |w.nodes| ==> ValidData(w.nodes[i].data)
  }

  // ---------------------------------------------------------------------------
  // The accepted shapes, stated field by field
  // ---------------------------------------------------------------------------

  predicate HasString(o: map<string, JValue>, k: string) {
    k in o && o[k].JStr?
  }

  predicate HasNumber(o: map<string, JValue>, k: string) {
    k in o && o[k].JNum?
  }

  predicate OptString(o: map<string, JValue>, k: string) {
    k in o ==> o[k].JStr?
  }

  predicate OptBool(o: map<string, JValue>, k: string) {
    k in o ==> o[k].JBool?
  }

  predicate IsNodeData(v: JValue) {
    && v.JObj?
    && HasString(v.fields, "type") && v.fields["type"].s in NodeTypeTags
    && HasString(v.fields, "label")
    && OptString(v.fields, "description")
    && OptString(v.fields, "assignedDepartment")
    && OptString(v.fields, "assignedApprover")
    && ("slaDays" in v.fields ==> v.fields["slaDays"].JNum? && v.fields["slaDays"].n >= 0.0)
    && OptString(v.fields, "conditions")
  }

  predicate IsNode(v: JValue) {
    && v.JObj?
    && HasString(v.fields, "id")
    && "type" in v.fields && v.fields["type"] == JStr(NodeKind)
    && "position" in v.fields && v.fields["position"].JObj?
    && HasNumber(v.fields["position"].fields, "x")
    && HasNumber(v.fields["position"].fields, "y")
    && "data" in v.fields && IsNodeData(v.fields["data"])
  }

  predicate IsEdge(v: JValue) {
    && v.JObj?
    && HasString(v.fields, "id")
    && HasString(v.fields, "source")
    && HasString(v.fields, "target")
    && OptString(v.fields, "type")
    && OptString(v.fields, "label")
    && OptBool(v.fields, "animated")
  }

  predicate IsWorkflow(v: JValue) {
    && v.JObj?
    && HasString(v.fields, "name")
    && "nodes" in v.fields && v.fields["nodes"].JArr?
    && (forall i :: 0 <= i < |v.fields["nodes"].items| ==> IsNode(v.fields["nodes"].items[i]))
    && "edges" in v.fields && v.fields["edges"].JArr?
    && (forall i :: 0 <= i < |v.fields["edges"].items| ==> IsEdge(v.fields["edges"].items[i]))
  }

  /** The string under `k`, when the object has the key. */
  function OptStringValue(o: map<string, JValue>, k: string): Option<string> {
    if k in o && o[k].JStr? then Some(o[k].s) else None
  }

  /** The number under `k`, when the object has the key. */
  function OptNumberValue(o: map<string, JValue>, k: string): Option<real> {
    if k in o && o[k].JNum? then Some(o[k].n) else None
  }

  /** The boolean under `k`, when the object has the key. */
  function OptBoolValue(o: map<string, JValue>, k: string): Option<bool> {
    if k in o && o[k].JBool? then Some(o[k].b) else None
  }

  // ---------------------------------------------------------------------------
  // The validator
  // ---------------------------------------------------------------------------

  function RequiredString(o: map<string, JValue>, k: string): Result<string, string> {
    if HasString(o, k) then Success(o[k].s) else Failure(k + ": expected string")
  }

  function RequiredNumber(o: map<string, JValue>, k: string): Result<real, string> {
    if HasNumber(o, k) then Success(o[k].n) else Failure(k + ": expected number")
  }

  function OptionalString(o: map<string, JValue>, k: string): Result<Option<string>, string> {
    if k !in o then Success(None)
    else if o[k].JStr? then Success(Some(o[k].s))
    else Failure(k + ": expected string")
  }

  function OptionalBool(o: map<string, JValue>, k: string): Result<Option<bool>, string> {
    if k !in o then Success(None)
    else if o[k].JBool? then Success(Some(o[k].b))
    else Failure(k + ": expected boolean")
  }

  /** `z.enum(nodeTypes)` on a required field. */
  function RequiredNodeType(o: map<string, JValue>, k: string): Result<NodeType, string> {
    if !HasString(o, k) then Failure(k + ": expected string")
    else
      match ParseNodeType(o[k].s)
      case Some(t) => Success(t)
      case None => Failure(k + ": invalid enum value")
  }

  /** `z.number().min(0).optional()`. */
  function OptionalNonNegative(o: map<string, JValue>, k: string): Result<Option<real>, string> {
    if k !in o then Success(None)
    else if !o[k].JNum? then Failure(k + ": expected number")
    else if o[k].n < 0.0 then Failure(k + ": must be greater than or equal to 0")
    else Success(Some(o[k].n))
  }

  /** `workflowNodeDataSchema`. */
  function ValidateNodeData(v: JValue): (r: Result<NodeData, string>)
    ensures r.Success? <==> IsNodeData(v)
    ensures r.Success? ==> ValidData(r.value)
    ensures r.Success? ==> Tag(r.value.stepType) == v.fields["type"].s && r.value.labelText == v.fields["label"].s
    ensures r.Success? ==>
      && r.value.description == OptStringValue(v.fields, "description")
      && r.value.assignedDepartment == OptStringValue(v.fields, "assignedDepartment")
      && r.value.assignedApprover == OptStringValue(v.fields, "assignedApprover")
      && r.value.slaDays == OptNumberValue(v.fields, "slaDays")
      && r.value.conditions == OptStringValue(v.fields, "conditions")
  {
    if !v.JObj? then Failure("data: expected object")
    else
      var o := v.fields;
      var stepType :- RequiredNodeType(o, "type");
      var labelText :- RequiredString(o, "label");
      var description :- OptionalString(o, "description");
      var department :- OptionalString(o, "assignedDepartment");
      var approver :- OptionalString(o, "assignedApprover");
      var sla :- OptionalNonNegative(o, "slaDays");
      var conditions :- OptionalString(o, "conditions");
      Success(NodeData(stepType, labelText, description, department, approver, sla, conditions))
  }

  /** `reactFlowNodeSchema`. */
  function ValidateNode(v: JValue): (r: Result<Node, string>)
    ensures r.Success? <==> IsNode(v)
    ensures r.Success? ==> r.value.id == v.fields["id"].s && ValidData(r.value.data)
    ensures r.Success? ==>
      r.value.position == Position(v.fields["position"].fields["x"].n, v.fields["position"].fields["y"].n)
    ensures r.Success? ==> ValidateNodeData(v.fields["data"]) == Success(r.value.data)
  {
    if !v.JObj? then Failure("node: expected object")
    else
      var o := v.fields;
      var id :- RequiredString(o, "id");
      var _ :- if "type" in o && o["type"] == JStr(NodeKind) then Success(()) else Failure("type: expected \"workflowNode\"");
      var position :- if "position" in o && o["position"].JObj? then Success(o["position"].fields) else Failure("position: expected object");
      var x :- RequiredNumber(position, "x");
      var y :- RequiredNumber(position, "y");
      var data :- if "data" in o then ValidateNodeData(o["data"]) else Failure("data: required");
      Success(Node(id, Position(x, y), data))
  }

  /** `reactFlowEdgeSchema`: nothing here looks at whether `source` and `target` name a node. */
  function ValidateEdge(v: JValue): (r: Result<Edge, string>)
    ensures r.Success? <==> IsEdge(v)
    ensures r.Success? ==> r.value.source == v.fields["source"].s && r.value.target == v.fields["target"].s
    ensures r.Success? ==>
      && r.value.id == v.fields["id"].s
      && r.value.edgeType == OptStringValue(v.fields, "type")
      && r.value.labelText == OptStringValue(v.fields, "label")
      && r.value.animated == OptBoolValue(v.fields, "animated")
  {
    if !v.JObj? then Failure("edge: expected object")
    else
      var o := v.fields;
      var id :- RequiredString(o, "id");
      var source :- RequiredString(o, "source");
      var target :- RequiredString(o, "target");
      var edgeType :- OptionalString(o, "type");
      var labelText :- OptionalString(o, "label");
      var animated :- OptionalBool(o, "animated");
      Success(Edge(id, source, target, edgeType, labelText, animated))
  }

  /** `z.array(s)`: every element must pass; the first failure rejects the whole array. */
  function ValidateAll<T>(vs: seq<JValue>, f: JValue -> Result<T, string>): (r: Result<seq<T>, string>)
    ensures r.Success? <==> forall i :: 0 <= i < |vs| ==> f(vs[i]).Success?
    ensures r.Success? ==> |r.value| == |vs| && forall i :: 0 <= i < |vs| ==> f(vs[i]) == Success(r.value[i])
  {
    if vs == [] then Success([])
    else
      var head :- f(vs[0]);
      var tail :- ValidateAll(vs[1..], f);
      assert forall i :: 1 <= i < |vs| ==> vs[i] == vs[1..][i - 1];
      Success([head] + tail)
  }

  /** `workflowSchema.parse`. */
  function ValidateWorkflow(v: JValue): (r: Result<Workflow, string>)
    ensures r.Success? <==> IsWorkflow(v)
    ensures r.Success? ==> ValidWorkflow(r.value)
    ensures r.Success? ==> r.value.name == v.fields["name"].s
    ensures r.Success? ==> |r.value.nodes| == |v.fields["nodes"].items| && |r.value.edges| == |v.fields["edges"].items|
    ensures r.Success? ==> forall i :: 0 <= i < |r.value.nodes| ==>
      ValidateNode(v.fields["nodes"].items[i]) == Success(r.value.nodes[i])
    ensures r.Success? ==> forall i :: 0 <= i < |r.value.edges| ==>
      ValidateEdge(v.fields["edges"].items[i]) == Success(r.value.edges[i])
  {
    if !v.JObj? then Failure("workflow: expected object")
    else
      var o := v.fields;
      var name :- RequiredString(o, "name");
      var nodes :- if "nodes" in o && o["nodes"].JArr? then ValidateAll(o["nodes"].items, ValidateNode) else Failure("nodes: expected array");
      var edges :- if "edges" in o && o["edges"].JArr? then ValidateAll(o["edges"].items, ValidateEdge) else Failure("edges: expected array");
      Success(Workflow(name, nodes, edges))
  }

  // ---------------------------------------------------------------------------
  // The document a typed workflow is written as
  // ---------------------------------------------------------------------------

  function Put(m: map<string, JValue>, k: string, o: Option<JValue>): map<string, JValue> {
    if o.Some? then m[k := o.value] else m
  }

  function StrValue(o: Option<string>): Option<JValue> {
    if o.Some? then Some(JStr(o.value)) else None
  }

  function EncodeNodeData(d: NodeData): JValue {
    var m := map["type" := JStr(Tag(d.stepType)), "label" := JStr(d.labelText)];
    var m := Put(m, "description", StrValue(d.description));
    var m := Put(m, "assignedDepartment", StrValue(d.assignedDepartment));
    var m := Put(m, "assignedApprover", StrValue(d.assignedApprover));
    var m := Put(m, "slaDays", if d.slaDays.Some? then Some(JNum(d.slaDays.value)) else None);
    var m := Put(m, "conditions", StrValue(d.conditions));
    JObj(m)
  }

  function EncodeNode(n: Node): JValue {
    JObj(map[
      "id" := JStr(n.id),
      "type" := JStr(NodeKind),
      "position" := JObj(map["x" := JNum(n.position.x), "y" := JNum(n.position.y)]),
      "data" := EncodeNodeData(n.data)])
  }

  function EncodeEdge(e: Edge): JValue {
    var m := map["id" := JStr(e.id), "source" := JStr(e.source), "target" := JStr(e.target)];
    var m := Put(m, "type", StrValue(e.edgeType));
    var m := Put(m, "label", StrValue(e.labelText));
    var m := Put(m, "animated", if e.animated.Some? then Some(JBool(e.animated.value)) else None);
    JObj(m)
  }

  function EncodeAll<T>(xs: seq<T>, enc: T -> JValue): seq<JValue> {
    seq(|xs|, i requires 0 <= i < |xs| => enc(xs[i]))
  }

  /**
   * The document `JSON.stringify` writes for a workflow, as `JSON.parse` reads
   * it back. It validates exactly when no SLA in the workflow is negative, and
   * then validates back to the same workflow.
   */
  function EncodeWorkflow(w: Workflow): (v: JValue)
    ensures ValidateWorkflow(v).Success? <==> ValidWorkflow(w)
    ensures ValidWorkflow(w) ==> ValidateWorkflow(v) == Success(w)
  {
    EncodedElementsValidate(w);
    JObj(map[
      "name" := JStr(w.name),
      "nodes" := JArr(EncodeAll(w.nodes, EncodeNode)),
      "edges" := JArr(EncodeAll(w.edges, EncodeEdge))])
  }

  // ---------------------------------------------------------------------------
  // Round trips
  // ---------------------------------------------------------------------------

  /** The value under `k`, when the object has one. */
  function Get(o: map<string, JValue>, k: string): Option<JValue> {
    if k in o then Some(o[k]) else None
  }

  lemma EncodedDataFields(d: NodeData)
    ensures Get(EncodeNodeData(d).fields, "type") == Some(JStr(Tag(d.stepType)))
    ensures Get(EncodeNodeData(d).fields, "label") == Some(JStr(d.labelText))
    ensures Get(EncodeNodeData(d).fields, "description") == StrValue(d.description)
    ensures Get(EncodeNodeData(d).fields, "assignedDepartment") == StrValue(d.assignedDepartment)
    ensures Get(EncodeNodeData(d).fields, "assignedApprover") == StrValue(d.assignedApprover)
    ensures Get(EncodeNodeData(d).fields, "slaDays") == if d.slaDays.Some? then Some(JNum(d.slaDays.value)) else None
    ensures Get(EncodeNodeData(d).fields, "conditions") == StrValue(d.conditions)
  {
  }

  lemma NodeDataRoundTrip(d: NodeData)
    requires ValidData(d)
    ensures ValidateNodeData(EncodeNodeData(d)) == Success(d)
  {
    EncodedDataFields(d);
    var o := EncodeNodeData(d).fields;
    assert RequiredNodeType(o, "type") == Success(d.stepType);
    assert RequiredString(o, "label") == Success(d.labelText);
    assert OptionalString(o, "description") == Success(d.description);
    assert OptionalString(o, "assignedDepartment") == Success(d.assignedDepartment);
    assert OptionalString(o, "assignedApprover") == Success(d.assignedApprover);
    assert OptionalNonNegative(o, "slaDays") == Success(d.slaDays);
    assert OptionalString(o, "conditions") == Success(d.conditions);
  }

  lemma NodeRoundTrip(n: Node)
    requires ValidData(n.data)
    ensures ValidateNode(EncodeNode(n)) == Success(n)
  {
    NodeDataRoundTrip(n.data);
  }

  lemma EdgeRoundTrip(e: Edge)
    ensures ValidateEdge(EncodeEdge(e)) == Success(e)
  {
  }

  lemma {:induction false} ValidateAllEncoded<T>(xs: seq<T>, enc: T -> JValue, f: JValue -> Result<T, string>)
    requires forall i :: 0 <= i < |xs| ==> f(enc(xs[i])) == Success(xs[i])
    ensures ValidateAll(EncodeAll(xs, enc), f) == Success(xs)
  {
    var r := ValidateAll(EncodeAll(xs, enc), f);
    assert r.Success?;
    assert r.value == xs;
  }

  /**
   * The written nodes validate back to the nodes when no SLA is negative, and
   * are rejected otherwise; the written edges always validate back to the edges.
   */
  lemma EncodedElementsValidate(w: Workflow)
    ensures ValidWorkflow(w) ==> ValidateAll(EncodeAll(w.nodes, EncodeNode), ValidateNode) == Success(w.nodes)
    ensures !ValidWorkflow(w) ==> ValidateAll(EncodeAll(w.nodes, EncodeNode), ValidateNode).Failure?
    ensures ValidateAll(EncodeAll(w.edges, EncodeEdge), ValidateEdge) == Success(w.edges)
  {
    if ValidWorkflow(w) {
      forall i | 0 <= i < |w.nodes|
        ensures ValidateNode(EncodeNode(w.nodes[i])) == Success(w.nodes[i])
      {
        NodeRoundTrip(w.nodes[i]);
      }
      ValidateAllEncoded(w.nodes, EncodeNode, ValidateNode);
    } else {
      var i :| 0 <= i < |w.nodes| && !ValidData(w.nodes[i].data);
      var d := w.nodes[i].data;
      EncodedDataFields(d);
      assert OptionalNonNegative(EncodeNodeData(d).fields, "slaDays").Failure?;
      assert ValidateNodeData(EncodeNodeData(d)).Failure?;
      assert ValidateNode(EncodeNode(w.nodes[i])).Failure?;
      assert EncodeAll(w.nodes, EncodeNode)[i] == EncodeNode(w.nodes[i]);
    }
    forall i | 0 <= i < |w.edges|
      ensures ValidateEdge(EncodeEdge(w.edges[i])) == Success(w.edges[i])
    {
      EdgeRoundTrip(w.edges[i]);
    }
    ValidateAllEncoded(w.edges, EncodeEdge, ValidateEdge);
  }

  // ---------------------------------------------------------------------------
  // Acceptance and rejection
  // ---------------------------------------------------------------------------

  /** With every other field in order, `slaDays` is accepted exactly when it is a number that is not negative. */
  lemma SlaDaysRule(o: map<string, JValue>, sla: JValue)
    requires IsNodeData(JObj(o))
    ensures ValidateNodeData(JObj(o["slaDays" := sla])).Success? <==> sla.JNum? && sla.n >= 0.0
  {
    var o' := o["slaDays" := sla];
    assert forall k :: k != "slaDays" ==> (k in o' <==> k in o) && (k in o ==> o'[k] == o[k]);
  }

  /** Any `type` string other than the eight tags rejects the node data. */
  lemma UnknownTypeRejected(o: map<string, JValue>, tag: string)
    requires tag !in NodeTypeTags
    ensures ValidateNodeData(JObj(o["type" := JStr(tag)])).Failure?
  {
  }

  /** A single element that fails rejects the whole document. */
  lemma OneBadNodeRejects(v: JValue, i: nat)
    requires v.JObj? && "nodes" in v.fields && v.fields["nodes"].JArr?
    requires i < |v.fields["nodes"].items| && ValidateNode(v.fields["nodes"].items[i]).Failure?
    ensures ValidateWorkflow(v).Failure?
  {
  }

  /** Edges are accepted whatever their endpoints: even a document with no nodes at all. */
  lemma DanglingEdgesAccepted(name: string, edges: seq<Edge>)
    ensures ValidateWorkflow(EncodeWorkflow(Workflow(name, [], edges))).Success?
  {
  }
}
