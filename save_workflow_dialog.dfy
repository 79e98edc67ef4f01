/**
 * The save dialog: the filename it proposes for a workflow name (lower case,
 * each run of white space turned into one `-`, `workflow` when that is empty)
 * and the filename field that typing changes and saving hands on.
 */
module SaveWorkflowDialog {
  import opened Text

  /** `s.replace(/\s+/g, "-")`. */
  function CollapseSpace(s: string): string
    decreases |s|
  {
    if s == [] then []
    else if IsSpace(s[0]) then TrimStartFacts(s[1..]); "-" + CollapseSpace(TrimStart(s[1..]))
    else [s[0]] + CollapseSpace(s[1..])
  }

  /**
   * `workflowName.toLowerCase().replace(/\s+/g, "-") || "workflow"`: the
   * proposed filename is never empty and holds no white space and no
   * upper-case letter.
   */
  function DefaultFilename(workflowName: string): (f: string)
    ensures f != []
    ensures NoSpace(f) && NoUpper(f)
  {
    CollapseSpaceFacts(Lower(workflowName));
    var s := CollapseSpace(Lower(workflowName));
    if s == [] then "workflow" else s
  }

  predicate NoSpace(s: string) {
    forall i :: 0 <= i < |s| ==> !IsSpace(s[i])
  }

  predicate NoUpper(s: string) {
    forall i :: 0 <= i < |s| ==> !IsUpper(s[i])
  }

  /** Collapsing leaves no white space, keeps lower case, and is empty only for the empty string. */
  lemma {:induction false} CollapseSpaceFacts(s: string)
    ensures NoSpace(CollapseSpace(s))
    ensures NoUpper(s) ==> NoUpper(CollapseSpace(s))
    ensures CollapseSpace(s) == [] <==> s == []
    decreases |s|
  {
    if s != [] {
      if IsSpace(s[0]) {
        var t := TrimStart(s[1..]);
        TrimStartFacts(s[1..]);
        CollapseSpaceFacts(t);
        assert NoUpper(s) ==> NoUpper(t) by {
          if NoUpper(s) {
            forall i | 0 <= i < |t|
              ensures !IsUpper(t[i])
            {
              assert t[i] == s[1..][|s[1..]| - |t| + i];
            }
          }
        }
      } else {
        CollapseSpaceFacts(s[1..]);
      }
    }
  }

  /** A string with no white space is left as it is. */
  lemma {:induction false} CollapseSpaceIdentity(s: string)
    requires NoSpace(s)
    ensures CollapseSpace(s) == s
  {
    if s != [] {
      CollapseSpaceIdentity(s[1..]);
    }
  }

  /** Collapsing a string that starts with white space: one `-`, then the rest after the whole leading run. */
  lemma CollapseSpaceLeading(s: string)
    requires s != [] && IsSpace(s[0])
    ensures CollapseSpace(s) == "-" + CollapseSpace(TrimStart(s[1..]))
  {
  }

  /** A run of white space at the front becomes one `-`. */
  lemma CollapseSpaceRunFront(w: string, b: string)
    requires w != [] && forall i :: 0 <= i < |w| ==> IsSpace(w[i])
    requires b == [] || !IsSpace(b[0])
    ensures CollapseSpace(w + b) == "-" + CollapseSpace(b)
  {
    var s := w + b;
    assert s[0] == w[0];
    CollapseSpaceLeading(s);
    assert s[1..] == w[1..] + b;
    TrimSpacesBefore(w[1..], b);
  }

  /**
   * A maximal run of white space, however long, becomes exactly one `-`: the
   * run sits between text that does not end and text that does not begin with
   * white space.
   */
  lemma {:induction false} CollapseSpaceRun(a: string, w: string, b: string)
    requires a == [] || !IsSpace(a[|a| - 1])
    requires w != [] && forall i :: 0 <= i < |w| ==> IsSpace(w[i])
    requires b == [] || !IsSpace(b[0])
    ensures CollapseSpace(a + w + b) == CollapseSpace(a) + "-" + CollapseSpace(b)
    decreases |a|
  {
    if a == [] {
      assert a + w + b == w + b;
      CollapseSpaceRunFront(w, b);
    } else if IsSpace(a[0]) {
      CollapseSpaceRunSpace(a, w, b);
    } else {
      var s := a + w + b;
      assert s[0] == a[0];
      assert s[1..] == a[1..] + w + b;
      CollapseSpaceRun(a[1..], w, b);
    }
  }

  /** The case of `CollapseSpaceRun` where the text before the run starts with white space. */
  lemma {:induction false} CollapseSpaceRunSpace(a: string, w: string, b: string)
    requires a != [] && IsSpace(a[0]) && !IsSpace(a[|a| - 1])
    requires w != [] && forall i :: 0 <= i < |w| ==> IsSpace(w[i])
    requires b == [] || !IsSpace(b[0])
    ensures CollapseSpace(a + w + b) == CollapseSpace(a) + "-" + CollapseSpace(b)
    decreases |a|, 0
  {
    var a' := a[1..];
    var t := TrimStart(a');
    assert 0 < |t| <= |a'| && !IsSpace(t[|t| - 1]) && TrimStart(a' + (w + b)) == t + (w + b) by {
      assert a'[|a'| - 1] == a[|a| - 1];
      TrimStartKeepsLast(a', w + b);
    }
    var s := a + w + b;
    assert CollapseSpace(s) == "-" + CollapseSpace(t + w + b) by {
      assert s[0] == a[0];
      assert s[1..] == a' + (w + b);
      CollapseSpaceLeading(s);
      assert t + (w + b) == t + w + b;
    }
    assert CollapseSpace(a) == "-" + CollapseSpace(t) by {
      CollapseSpaceLeading(a);
    }
    CollapseSpaceRun(t, w, b);
  }

  /** An empty name gives `workflow`; a name of white space only gives `-`. */
  lemma DefaultFilenameEdges(workflowName: string)
    ensures workflowName == [] ==> DefaultFilename(workflowName) == "workflow"
    ensures workflowName != [] && (forall i :: 0 <= i < |workflowName| ==> IsSpace(workflowName[i])) ==>
      DefaultFilename(workflowName) == "-"
  {
    var s := Lower(workflowName);
    if workflowName != [] && forall i :: 0 <= i < |workflowName| ==> IsSpace(workflowName[i]) {
      assert forall i :: 0 <= i < |s| ==> IsSpace(s[i]);
      assert IsSpace(s[0]);
      TrimSpacesBefore(s[1..], []);
      assert s[1..] + [] == s[1..];
      assert CollapseSpace(s) == "-" + CollapseSpace(TrimStart(s[1..]));
    }
  }

  /** Proposing a filename for a proposed filename gives it back. */
  lemma DefaultFilenameIdempotent(workflowName: string)
    ensures DefaultFilename(DefaultFilename(workflowName)) == DefaultFilename(workflowName)
  {
    var f := DefaultFilename(workflowName);
    assert Lower(f) == f;
    CollapseSpaceIdentity(f);
  }

  /**
   * The dialog. It is mounted once with the page, so its field starts from the
   * name the page had then; afterwards only typing changes it.
   */
  class SaveDialog {
    var open: bool
    var filename: string

    constructor (workflowName: string)
      ensures !open && filename == DefaultFilename(workflowName)
    {
      open := false;
      filename := DefaultFilename(workflowName);
    }

    /** The page opening or closing the dialog (Save button, Cancel, dismissal). */
    method SetOpen(o: bool)
      modifies this
      ensures open == o && filename == old(filename)
    {
      open := o;
    }

    /** Typing in the filename field. */
    method Edit(text: string)
      modifies this
      ensures filename == text && open == old(open)
    {
      filename := text;
    }

    /** Download: the current filename goes to the page's save handler and the dialog closes. */
    method Save() returns (saved: string)
      modifies this
      ensures saved == old(filename) && filename == old(filename) && !open
    {
      saved := filename;
      open := false;
    }
  }
}
