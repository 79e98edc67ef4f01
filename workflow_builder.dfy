/**
 * The workflow editor: the state the builder page holds (name, nodes, edges,
 * the id counter, the selected node and whether the properties drawer is
 * open) and the handlers that change it, together with the browser storage
 * slot that the autosave rule keeps in step with the graph.
 *
 * The canvas library's own handlers (dragging, deleting) are not modelled;
 * its `addEdge` is a function parameter of `Connect`.
 */
module WorkflowBuilder {
  import opened Wrappers
  import opened Text
  import opened Schema
  import NodeSidebar

  const DefaultName: string := "Untitled Workflow"
  const NodeIdPrefix: string := "node-"

  // ---------------------------------------------------------------------------
  // Node ids and the recovery of the id counter
  // ---------------------------------------------------------------------------

  /** The id of the node created while the counter holds `n`. */
  function NodeId(n: nat): string {
    NodeIdPrefix + DecimalString(n)
  }

  /**
   * `parseInt(id.replace('node-', '')) || 0`: the first `node-`, wherever it
   * stands, is cut out and what remains is parsed; an id without `node-` is
   * parsed whole.
   */
  function SuffixValue(id: string): (v: int)
    ensures !Includes(id, NodeIdPrefix) ==> v == ParseIntOrZero(id)
  {
    ParseIntOrZero(ReplaceFirst(id, NodeIdPrefix, ""))
  }

  /** A generated id reads back as the counter value it was made from. */
  lemma SuffixOfNodeId(n: nat)
    ensures SuffixValue(NodeId(n)) == n
  {
    var id := NodeId(n);
    assert id[..|NodeIdPrefix|] == NodeIdPrefix;
    assert FirstAt(id, NodeIdPrefix, 0);
    assert id[|NodeIdPrefix|..] == DecimalString(n);
    assert ReplaceFirst(id, NodeIdPrefix, "") == DecimalString(n);
    ParseDecimalPrefix(n, []);
    assert DecimalString(n) + [] == DecimalString(n);
  }

  /** Distinct counter values give distinct ids, and their suffixes keep the counter's order. */
  lemma NodeIdsDistinct(a: nat, b: nat)
    ensures NodeId(a) == NodeId(b) <==> a == b
    ensures a < b ==> SuffixValue(NodeId(a)) < SuffixValue(NodeId(b))
  {
    SuffixOfNodeId(a);
    SuffixOfNodeId(b);
  }

  function Max(a: int, b: int): int {
    if a < b then b else a
  }

  /** `nodes.map(n => SuffixValue(n.id))`. */
  function Suffixes(nodes: seq<Node>): (vs: seq<int>)
    ensures |vs| == |nodes| && forall i :: 0 <= i < |nodes| ==> vs[i] == SuffixValue(nodes[i].id)
  {
    seq(|nodes|, i requires 0 <= i < |nodes| => SuffixValue(nodes[i].id))
  }

  /** `Math.max(0, ...vs)`: at least 0, no smaller than any value, and 0 or one of the values. */
  function MaxWithZero(vs: seq<int>): (m: int)
    ensures m >= 0
    ensures forall i :: 0 <= i < |vs| ==> vs[i] <= m
    ensures m == 0 || exists i :: 0 <= i < |vs| && vs[i] == m
  {
    if vs == [] then 0
    else
      var rest := MaxWithZero(vs[1..]);
      assert forall i :: 1 <= i < |vs| ==> vs[i] == vs[1..][i - 1];
      assert rest != 0 ==> exists i :: 1 <= i < |vs| && vs[i] == rest;
      Max(vs[0], rest)
  }

  /** `Math.max(0, ...nodes.map(n => SuffixValue(n.id)))`. */
  function MaxSuffix(nodes: seq<Node>): (m: int)
    ensures m >= 0
    ensures forall i :: 0 <= i < |nodes| ==> SuffixValue(nodes[i].id) <= m
    ensures m == 0 || exists i :: 0 <= i < |nodes| && SuffixValue(nodes[i].id) == m
  {
    MaxWithZero(Suffixes(nodes))
  }

  /**
   * The counter after a load: at least 1, above every node's suffix, and no
   * larger than it must be, that is one past the largest suffix when some
   * suffix is positive.
   */
  function RecoveredCounter(nodes: seq<Node>): (c: nat)
    ensures c >= 1
    ensures forall i :: 0 <= i < |nodes| ==> SuffixValue(nodes[i].id) < c
    ensures c == 1 || exists i :: 0 <= i < |nodes| && SuffixValue(nodes[i].id) == c - 1
  {
    MaxSuffix(nodes) + 1
  }

  /** Every node's suffix is below the counter, so no future id can be taken. */
  predicate BelowCounter(nodes: seq<Node>, counter: int) {
    forall i :: 0 <= i < |nodes| ==> SuffixValue(nodes[i].id) < counter
  }

  /** A node made from the counter keeps every suffix below the next counter value. */
  lemma BelowCounterExtend(nodes: seq<Node>, counter: nat, node: Node)
    requires BelowCounter(nodes, counter) && node.id == NodeId(counter)
    ensures BelowCounter(nodes + [node], counter + 1)
  {
    SuffixOfNodeId(counter);
  }

  /** While the suffixes stay below the counter, no node carries an id the counter will still produce. */
  lemma BelowCounterFresh(nodes: seq<Node>, counter: nat)
    requires BelowCounter(nodes, counter)
    ensures forall i, n: nat :: 0 <= i < |nodes| && counter <= n ==> nodes[i].id != NodeId(n)
  {
    forall i, n: nat | 0 <= i < |nodes| && counter <= n
      ensures nodes[i].id != NodeId(n)
    {
      SuffixOfNodeId(n);
    }
  }

  /** After a load no loaded id equals `node-n` for any `n` at or past the recovered counter. */
  lemma RecoveredCounterFresh(nodes: seq<Node>)
    ensures BelowCounter(nodes, RecoveredCounter(nodes))
    ensures forall i, n: nat :: 0 <= i < |nodes| && RecoveredCounter(nodes) <= n ==> nodes[i].id != NodeId(n)
  {
    BelowCounterFresh(nodes, RecoveredCounter(nodes));
  }

  /** The first `node-` is cut out wherever it stands, and what remains is parsed. */
  lemma SuffixCutsFirst(id: string, k: nat)
    requires FirstAt(id, NodeIdPrefix, k)
    ensures SuffixValue(id) == ParseIntOrZero(id[..k] + id[k + |NodeIdPrefix|..])
  {
    assert id[..k] + "" + id[k + |NodeIdPrefix|..] == id[..k] + id[k + |NodeIdPrefix|..];
  }

  /** A `node-` right after a first character that is not `n` is the first one. */
  lemma PrefixAtOne(id: string)
    requires |id| >= 6 && id[0] != 'n' && id[1..6] == NodeIdPrefix
    ensures FirstAt(id, NodeIdPrefix, 1)
  {
    assert id[0..5][0] == id[0];
  }

  /** Text that starts with a character that is neither white space, a sign nor a digit parses as 0. */
  lemma ParseNoDigitFirst(s: string)
    requires s != [] && !IsSpace(s[0]) && s[0] != '-' && s[0] != '+' && !('0' <= s[0] <= '9')
    ensures ParseIntOrZero(s) == 0
  {
    assert TrimStart(s) == s;
  }

  lemma ParseTwelve()
    ensures ParseIntOrZero("12") == 12
  {
    assert TrimStart("12") == "12";
    assert DigitRun("12", 10) == "12" by {
      assert "12"[1..] == "2" && "2"[1..] == "";
    }
    assert RadixValue("12", 10) == 12 by {
      assert "12"[..1] == "1" && "1"[..0] == "";
    }
  }

  /** The `node-` that is cut out need not lead the id: `1node-2` reads as 12. */
  lemma SuffixAfterDigit(id: string)
    requires id == "1node-2"
    ensures SuffixValue(id) == 12
  {
    PrefixAtOne(id);
    SuffixCutsFirst(id, 1);
    assert id[..1] + id[6..] == "12";
    ParseTwelve();
  }

  /** An id whose text before `node-` is not a digit reads as 0: `xnode-5` leaves `x5`. */
  lemma SuffixAfterLetter(id: string)
    requires id == "xnode-5"
    ensures SuffixValue(id) == 0
  {
    PrefixAtOne(id);
    SuffixCutsFirst(id, 1);
    assert id[..1] + id[6..] == "x5";
    ParseNoDigitFirst("x5");
  }

  /**
   * When node `j` has the largest suffix and it is not negative, the counter
   * recovers to one past it, wherever the node stands.
   */
  lemma RecoveredFromLargest(nodes: seq<Node>, j: nat)
    requires j < |nodes| && SuffixValue(nodes[j].id) >= 0
    requires forall i :: 0 <= i < |nodes| ==> SuffixValue(nodes[i].id) <= SuffixValue(nodes[j].id)
    ensures RecoveredCounter(nodes) == SuffixValue(nodes[j].id) + 1
  {
  }

  /** Loading `node-0`, `node-7` and `node-3`, in that order, sets the counter to 8. */
  lemma RecoveredFromThree(a: Node, b: Node, c: Node)
    requires a.id == NodeId(0) && b.id == NodeId(7) && c.id == NodeId(3)
    ensures RecoveredCounter([a, b, c]) == 8
  {
    SuffixOfNodeId(0);
    SuffixOfNodeId(7);
    SuffixOfNodeId(3);
    RecoveredFromLargest([a, b, c], 1);
  }

  // ---------------------------------------------------------------------------
  // Pure parts of the handlers
  // ---------------------------------------------------------------------------

  /** `getData(format)`: the empty string when nothing was stored under the format. */
  function GetData(transfer: map<string, string>, format: string): string {
    if format in transfer then transfer[format] else ""
  }

  /**
   * Dragging a palette card onto the canvas: the drop reads back the card's
   * tag, which is not empty and names the card's step type, so the drop adds
   * a node of that type.
   */
  lemma DragThenDrop(t: NodeType)
    ensures GetData(NodeSidebar.DragStart(t), NodeSidebar.DragFormat) == Tag(t)
    ensures GetData(NodeSidebar.DragStart(t), NodeSidebar.DragFormat) != ""
    ensures ParseNodeType(GetData(NodeSidebar.DragStart(t), NodeSidebar.DragFormat)) == Some(t)
  {
  }

  /**
   * The node a drop creates: of the dropped step type, at the drop position,
   * labelled and described from the step's metadata, and with no
   * department, approver, SLA or conditions.
   */
  function NewNode(t: NodeType, id: string, position: Position): (n: Node)
    ensures n.id == id && n.position == position && n.data.stepType == t
    ensures n.data.labelText == MetadataOf(t).labelText && n.data.description == Some(MetadataOf(t).description)
    ensures n.data.assignedDepartment == None && n.data.assignedApprover == None
    ensures n.data.slaDays == None && n.data.conditions == None
    ensures ValidData(n.data)
  {
    Node(id, position, NodeData(t, MetadataOf(t).labelText, Some(MetadataOf(t).description), None, None, None, None))
  }

  /** A dropped node, written out, is a document node that validates back to itself. */
  lemma NewNodeValidates(t: NodeType, id: string, position: Position)
    ensures ValidateNode(EncodeNode(NewNode(t, id, position))) == Success(NewNode(t, id, position))
  {
    NodeRoundTrip(NewNode(t, id, position));
  }

  /** `nds.map(node => node.id === id ? { ...node, data } : node)`. */
  function UpdateData(nodes: seq<Node>, id: string, d: NodeData): (r: seq<Node>)
    ensures |r| == |nodes|
    ensures forall i :: 0 <= i < |nodes| ==> r[i].id == nodes[i].id && r[i].position == nodes[i].position
    ensures forall i :: 0 <= i < |nodes| && nodes[i].id == id ==> r[i].data == d
    ensures forall i :: 0 <= i < |nodes| && nodes[i].id != id ==> r[i] == nodes[i]
  {
    seq(|nodes|, i requires 0 <= i < |nodes| => if nodes[i].id == id then nodes[i].(data := d) else nodes[i])
  }

  /** Updating an id no node carries leaves the nodes as they are. */
  lemma UpdateMissingIsIdentity(nodes: seq<Node>, id: string, d: NodeData)
    requires forall i :: 0 <= i < |nodes| ==> nodes[i].id != id
    ensures UpdateData(nodes, id, d) == nodes
  {
  }

  /** What the connect handler hands to the canvas library's `addEdge`. */
  datatype Connection = Connection(source: string, target: string, sourceHandle: Option<string>, targetHandle: Option<string>)
  datatype EdgeParams = EdgeParams(connection: Connection, edgeType: string, animated: bool)

  /** Every connection is requested as an animated `smoothstep` edge, its handles passed on unchanged. */
  function ConnectParams(c: Connection): (p: EdgeParams)
    ensures p.connection == c
    ensures p.edgeType == "smoothstep" && p.animated
  {
    EdgeParams(c, "smoothstep", true)
  }

  /** The storage entry: a workflow this editor wrote, or text `JSON.parse` rejects (or the empty string). */
  datatype Entry = Snapshot(workflow: Workflow) | Garbled

  /** The autosave rule: the graph is stored while it has a node or an edge, and the entry is removed otherwise. */
  function Persisted(name: string, nodes: seq<Node>, edges: seq<Edge>): Option<Entry> {
    if |nodes| > 0 || |edges| > 0 then Some(Snapshot(Workflow(name, nodes, edges))) else None
  }

  /** A file the save handler offers for download. */
  datatype Download = Download(fileName: string, content: Workflow)

  /** The whole of the editor's state, for stating what an operation leaves it in. */
  datatype EditorState = EditorState(
    name: string,
    nodes: seq<Node>,
    edges: seq<Edge>,
    counter: nat,
    selected: Option<Node>,
    propertiesOpen: bool,
    storage: Option<Entry>)

  const InitialState: EditorState := EditorState(DefaultName, [], [], 0, None, false, None)

  /**
   * The state the page is in once mounted over a storage entry: a stored
   * snapshot's graph with the counter recovered from it, or else the initial
   * state. Either way the counter is ahead of every suffix, the storage slot
   * obeys the autosave rule, and nothing is selected.
   */
  function Mounted(saved: Option<Entry>): (m: EditorState)
    ensures BelowCounter(m.nodes, m.counter) && m.storage == Persisted(m.name, m.nodes, m.edges)
    ensures m.selected == None && !m.propertiesOpen
  {
    if saved.Some? && saved.value.Snapshot? then
      var w := saved.value.workflow;
      EditorState(w.name, w.nodes, w.edges, RecoveredCounter(w.nodes), None, false, Persisted(w.name, w.nodes, w.edges))
    else InitialState
  }

  /**
   * What autosave stores, the next mount restores: the nodes and edges come
   * back, and so does the name and (recovered) counter of a graph that has a
   * node or an edge. An empty graph is stored as nothing, so a reload forgets
   * its name and counter.
   */
  lemma ReloadRestores(name: string, nodes: seq<Node>, edges: seq<Edge>)
    ensures Mounted(Persisted(name, nodes, edges)).nodes == nodes
    ensures Mounted(Persisted(name, nodes, edges)).edges == edges
    ensures |nodes| > 0 || |edges| > 0 ==>
      Mounted(Persisted(name, nodes, edges)).name == name &&
      Mounted(Persisted(name, nodes, edges)).counter == RecoveredCounter(nodes)
    ensures |nodes| == 0 && |edges| == 0 ==> Mounted(Persisted(name, nodes, edges)) == InitialState
  {
  }

  // ---------------------------------------------------------------------------
  // The editor
  // ---------------------------------------------------------------------------

  class Editor {
    var name: string
    var nodes: seq<Node>
    var edges: seq<Edge>
    var counter: nat
    var selected: Option<Node>
    var propertiesOpen: bool
    var storage: Option<Entry>

    /**
     * The counter is ahead of every node's suffix, and the storage slot holds
     * what the autosave rule says. So no node carries an id the counter will
     * still produce.
     */
    ghost predicate Valid()
      reads this
      ensures Valid() ==> forall i, n: nat :: 0 <= i < |nodes| && counter <= n ==> nodes[i].id != NodeId(n)
    {
      if BelowCounter(nodes, counter) then
        BelowCounterFresh(nodes, counter);
        storage == Persisted(name, nodes, edges)
      else false
    }

    function State(): EditorState
      reads this
    {
      EditorState(name, nodes, edges, counter, selected, propertiesOpen, storage)
    }

    /**
     * Mounting the page: the initial state, then the storage load (a stored
     * snapshot replaces the graph and recovers the counter; a missing or
     * unreadable entry changes nothing), then the autosave rule.
     */
    constructor (saved: Option<Entry>)
      ensures Valid()
      ensures selected == None && !propertiesOpen
      ensures saved.Some? && saved.value.Snapshot? ==>
        && name == saved.value.workflow.name
        && nodes == saved.value.workflow.nodes
        && edges == saved.value.workflow.edges
        && counter == RecoveredCounter(saved.value.workflow.nodes)
      ensures !(saved.Some? && saved.value.Snapshot?) ==> State() == InitialState
      ensures State() == Mounted(saved)
    {
      name := DefaultName;
      nodes := [];
      edges := [];
      counter := 0;
      selected := None;
      propertiesOpen := false;
      storage := saved;
      new;
      if saved.Some? && saved.value.Snapshot? {
        var w := saved.value.workflow;
        name := w.name;
        nodes := w.nodes;
        edges := w.edges;
        counter := RecoveredCounter(w.nodes);
        RecoveredCounterFresh(w.nodes);
      }
      Autosave();
      assert BelowCounter(nodes, counter) && storage == Persisted(name, nodes, edges);
    }

    /** The storage effect that runs after every change of name, nodes or edges. */
    method Autosave()
      modifies this`storage
      ensures storage == Persisted(name, nodes, edges)
    {
      if |nodes| > 0 || |edges| > 0 {
        storage := Some(Snapshot(Workflow(name, nodes, edges)));
      } else {
        storage := None;
      }
    }

    /** Typing in the name field. */
    method Rename(newName: string)
      requires Valid()
      modifies this
      ensures Valid()
      ensures State() == old(State()).(name := newName, storage := Persisted(newName, nodes, edges))
    {
      name := newName;
      Autosave();
    }

    /**
     * A drop on the canvas. An empty payload is ignored. Otherwise the id is
     * taken from the counter first, so a payload that names no step type
     * still advances the counter before the metadata lookup fails and nothing
     * else happens.
     */
    method Drop(transfer: map<string, string>, position: Position)
      requires Valid()
      modifies this
      ensures Valid()
      ensures GetData(transfer, NodeSidebar.DragFormat) == "" ==> State() == old(State())
      ensures GetData(transfer, NodeSidebar.DragFormat) != "" && ParseNodeType(GetData(transfer, NodeSidebar.DragFormat)).None? ==>
        State() == old(State()).(counter := old(counter) + 1)
      ensures GetData(transfer, NodeSidebar.DragFormat) != "" && ParseNodeType(GetData(transfer, NodeSidebar.DragFormat)).Some? ==>
        var t := ParseNodeType(GetData(transfer, NodeSidebar.DragFormat)).value;
        && nodes == old(nodes) + [NewNode(t, NodeId(old(counter)), position)]
        && counter == old(counter) + 1
        && name == old(name) && edges == old(edges)
        && selected == old(selected) && propertiesOpen == old(propertiesOpen)
      ensures forall i :: 0 <= i < |old(nodes)| ==> old(nodes)[i].id != NodeId(old(counter))
    {
      var payload := GetData(transfer, NodeSidebar.DragFormat);
      if payload == "" {
        return;
      }
      var id := NodeId(counter);
      counter := counter + 1;
      match ParseNodeType(payload)
      case None =>
        return;
      case Some(t) =>
        var node := NewNode(t, id, position);
        BelowCounterExtend(nodes, counter - 1, node);
        nodes := nodes + [node];
        Autosave();
    }

    /** Clicking a node selects it and opens the properties drawer. */
    method NodeClick(node: Node)
      requires Valid()
      modifies this
      ensures Valid()
      ensures State() == old(State()).(selected := Some(node), propertiesOpen := true)
    {
      selected := Some(node);
      propertiesOpen := true;
    }

    /** Clicking the empty canvas clears the selection and closes the drawer. */
    method PaneClick()
      requires Valid()
      modifies this
      ensures Valid()
      ensures State() == old(State()).(selected := None, propertiesOpen := false)
    {
      selected := None;
      propertiesOpen := false;
    }

    /** The drawer opening or closing on its own. */
    method SetPropertiesOpen(open: bool)
      requires Valid()
      modifies this
      ensures Valid()
      ensures State() == old(State()).(propertiesOpen := open)
    {
      propertiesOpen := open;
    }

    /**
     * Saving the drawer's form: every node with the id gets the new data and
     * keeps its id and position; the selection keeps the node as it was.
     */
    method UpdateNode(id: string, d: NodeData)
      requires Valid()
      modifies this
      ensures Valid()
      ensures nodes == UpdateData(old(nodes), id, d)
      ensures State() == old(State()).(nodes := nodes, storage := Persisted(name, nodes, edges))
    {
      nodes := UpdateData(nodes, id, d);
      Autosave();
    }

    /** Connecting two handles: the edges become whatever `addEdge` makes of the request and the old edges. */
    method Connect(c: Connection, addEdge: (EdgeParams, seq<Edge>) -> seq<Edge>)
      requires Valid()
      modifies this
      ensures Valid()
      ensures edges == addEdge(ConnectParams(c), old(edges))
      ensures State() == old(State()).(edges := edges, storage := Persisted(name, nodes, edges))
    {
      edges := addEdge(ConnectParams(c), edges);
      Autosave();
    }

    /**
     * The save handler: the current graph, offered as `<filename>.json`. The
     * file reads back as the same graph when no SLA in it is negative, and is
     * rejected otherwise.
     */
    method SaveWorkflow(filename: string) returns (download: Download)
      ensures download.fileName == filename + ".json"
      ensures download.content == Workflow(name, nodes, edges)
      ensures ValidateWorkflow(EncodeWorkflow(download.content)).Success? <==> ValidWorkflow(Workflow(name, nodes, edges))
      ensures ValidWorkflow(Workflow(name, nodes, edges)) ==>
        ValidateWorkflow(EncodeWorkflow(download.content)) == Success(Workflow(name, nodes, edges))
    {
      download := Download(filename + ".json", Workflow(name, nodes, edges));
    }

    /** Loading a workflow (from a file): the graph is replaced and the counter recovered; the selection is kept. */
    method LoadWorkflow(w: Workflow)
      requires Valid()
      modifies this
      ensures Valid()
      ensures State() == old(State()).(
        name := w.name, nodes := w.nodes, edges := w.edges,
        counter := RecoveredCounter(w.nodes), storage := Persisted(w.name, w.nodes, w.edges))
      ensures forall i, n: nat :: 0 <= i < |nodes| && counter <= n ==> nodes[i].id != NodeId(n)
    {
      name := w.name;
      nodes := w.nodes;
      edges := w.edges;
      RecoveredCounterFresh(w.nodes);
      counter := RecoveredCounter(w.nodes);
      Autosave();
    }

    /** Resetting returns to the initial state, whatever the state was, and removes the storage entry. */
    method Reset()
      requires Valid()
      modifies this
      ensures Valid()
      ensures State() == InitialState
    {
      nodes := [];
      edges := [];
      selected := None;
      propertiesOpen := false;
      name := DefaultName;
      counter := 0;
      storage := None;
      Autosave();
    }
  }
}
