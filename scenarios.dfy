/**
 * Client scenarios: editing sessions that go through the page, the palette
 * and both dialogs, with the facts each step's contract lets a caller rely on.
 */
module Scenarios {
  import opened Wrappers
  import opened Schema
  import opened WorkflowBuilder
  import NodeSidebar
  import SaveWorkflowDialog
  import LoadWorkflowDialog

  /**
   * A typical editing session: two cards dragged from the palette and dropped,
   * then a connection, with `addEdge` standing for the canvas library.
   */
  method Walkthrough()
  {
    var e := new Editor(None);
    assert e.counter == 0;
    var at := Position(100.0, 100.0);
    DragThenDrop(PurchaseRequest);
    DragThenDrop(ManagerApproval);
    e.Drop(NodeSidebar.DragStart(PurchaseRequest), at);
    assert e.nodes == [NewNode(PurchaseRequest, NodeId(0), at)];
    assert e.nodes[0].data.labelText == "Purchase Request";
    e.Drop(NodeSidebar.DragStart(ManagerApproval), Position(300.0, 100.0));
    assert e.nodes[1].id == NodeId(1) && e.counter == 2;
    var addEdge := (p: EdgeParams, eds: seq<Edge>) =>
      eds + [Edge("edge", p.connection.source, p.connection.target, Some(p.edgeType), None, Some(p.animated))];
    e.Connect(Connection(NodeId(0), NodeId(1), None, None), addEdge);
    assert |e.edges| == 1 && e.edges[0].source == NodeId(0) && e.edges[0].target == NodeId(1);
    assert e.storage == Some(Snapshot(Workflow(DefaultName, e.nodes, e.edges)));
  }

  /** Resetting any session clears the graph and the stored entry; a second reset changes nothing. */
  method ResetTwice(e: Editor)
    requires e.Valid()
    modifies e
  {
    e.Reset();
    assert e.nodes == [] && e.edges == [] && e.name == "Untitled Workflow" && e.storage == None;
    e.Reset();
    assert e.State() == InitialState;
  }

  /**
   * The save dialog is mounted with the page's first render, before the
   * storage restore runs, so it proposes the filename for the default name
   * even when a stored workflow is restored; renaming afterwards does not
   * change it either.
   */
  method RenameAfterMount(stored: Workflow)
  {
    var dialog := new SaveWorkflowDialog.SaveDialog(DefaultName);
    var editor := new Editor(Some(Snapshot(stored)));
    var proposed := dialog.filename;
    assert editor.name == stored.name;
    assert proposed == SaveWorkflowDialog.DefaultFilename(DefaultName);
    editor.Rename("Quarterly Purchasing");
    dialog.SetOpen(true);
    var saved := dialog.Save();
    var download := editor.SaveWorkflow(saved);
    assert saved == proposed;
    assert download.fileName == proposed + ".json";
    assert download.content.name == "Quarterly Purchasing";
  }

  /**
   * Saving a workflow: the downloaded file holds the session's graph, and it
   * reads back as that workflow.
   */
  method SaveThenRead()
  {
    var editor := new Editor(None);
    DragThenDrop(GoodsReceipt);
    editor.Drop(NodeSidebar.DragStart(GoodsReceipt), Position(0.0, 0.0));
    editor.Rename("Receiving");
    var download := editor.SaveWorkflow("receiving");
    var w := download.content;
    assert |w.nodes| == 1 && w.nodes[0].id == NodeId(0);
    assert ValidWorkflow(w);
    LoadWorkflowDialog.SavedFileReadsBack(download.fileName, w);
    assert LoadWorkflowDialog.ReadWorkflow(LoadWorkflowDialog.SavedFile(download.fileName, w)) == Success(w);
  }

  /**
   * Loading a saved file through the dialog: pressing Load with no file only
   * shows the error; after picking the file, the workflow comes back, the
   * dialog closes, and the editor takes the graph with its counter recovered
   * to one past the loaded `node-0`.
   */
  method LoadSavedFile(fileName: string, w: Workflow)
    requires ValidWorkflow(w) && |w.nodes| == 1 && w.nodes[0].id == NodeId(0)
  {
    LoadWorkflowDialog.SavedFileReadsBack(fileName, w);
    var dialog := new LoadWorkflowDialog.LoadDialog();
    dialog.Open();
    var missing := dialog.Load();
    assert missing == None && dialog.error == Some(LoadWorkflowDialog.NoFileMessage);
    dialog.PickFile([LoadWorkflowDialog.SavedFile(fileName, w)]);
    assert dialog.LoadEnabled();
    var loaded := dialog.Load();
    assert loaded == Some(w) && !dialog.open;

    var editor := new Editor(None);
    editor.LoadWorkflow(loaded.value);
    assert editor.name == w.name && editor.nodes == w.nodes && editor.edges == w.edges;
    SuffixOfNodeId(0);
    assert editor.counter == 1;
  }
}
