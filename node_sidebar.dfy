/**
 * The step palette: the cards for the step types, filtered by a search query
 * that is matched without regard to letter case against each step's label and
 * description, and the data a card puts on a drag.
 */
module NodeSidebar {
  import opened Wrappers
  import opened Text
  import opened Schema

  /** The data-transfer format a card's drag carries the step type in. */
  const DragFormat: string := "application/reactflow"

  /** `onDragStart`: the transfer data carries, under the format and nothing else, a string that names the card's step type. */
  function DragStart(t: NodeType): (m: map<string, string>)
    ensures m.Keys == {DragFormat}
    ensures ParseNodeType(m[DragFormat]) == Some(t)
  {
    map[DragFormat := Tag(t)]
  }

  datatype Icon = ShoppingCart | CheckCircle | Calculator | Users | FileText | Package | Receipt | DollarSign

  /** `nodeIcons`: one icon per step type, and the icon tells the step type apart from every other. */
  function IconOf(t: NodeType): (i: Icon)
    ensures StepOfIcon(i) == t
  {
    match t
    case PurchaseRequest => ShoppingCart
    case ManagerApproval => CheckCircle
    case BudgetValidation => Calculator
    case VendorSelection => Users
    case PoCreation => FileText
    case GoodsReceipt => Package
    case InvoiceProcessing => Receipt
    case PaymentRelease => DollarSign
  }

  /** The step type an icon stands for. */
  function StepOfIcon(i: Icon): NodeType {
    match i
    case ShoppingCart => PurchaseRequest
    case CheckCircle => ManagerApproval
    case Calculator => BudgetValidation
    case Users => VendorSelection
    case FileText => PoCreation
    case Package => GoodsReceipt
    case Receipt => InvoiceProcessing
    case DollarSign => PaymentRelease
  }

  /** Every step type has an icon of its own. */
  lemma IconsDistinct(a: NodeType, b: NodeType)
    ensures IconOf(a) == IconOf(b) <==> a == b
  {
  }

  /** A step matches a lowered query when its lowered label or lowered description contains it. */
  predicate MatchesLowered(t: NodeType, lowered: string) {
    Includes(Lower(MetadataOf(t).labelText), lowered) || Includes(Lower(MetadataOf(t).description), lowered)
  }

  predicate Matches(t: NodeType, query: string) {
    MatchesLowered(t, Lower(query))
  }

  function FilterTypes(types: seq<NodeType>, lowered: string): seq<NodeType> {
    if types == [] then []
    else if MatchesLowered(types[0], lowered) then [types[0]] + FilterTypes(types[1..], lowered)
    else FilterTypes(types[1..], lowered)
  }

  /**
   * `filteredNodes`: a step is listed exactly when its lowered label or lowered
   * description contains the lowered query; the list keeps the registry's
   * order and names no step twice.
   */
  function FilteredNodes(query: string): (r: seq<NodeType>)
    ensures forall t :: t in r <==> Matches(t, query)
    ensures IsSubsequence(r, NodeTypes)
    ensures NoDuplicates(r)
  {
    RegistryFacts();
    FilterMembership(NodeTypes, Lower(query));
    FilterOrder(NodeTypes, Lower(query));
    FilterTypes(NodeTypes, Lower(query))
  }

  datatype View = Cards(types: seq<NodeType>) | NoStepsFound

  /**
   * The palette shows "No steps found" exactly when no step matches the query;
   * otherwise it shows a card for each matching step and for no other, in
   * registry order, each once.
   */
  function Render(query: string): (v: View)
    ensures v == NoStepsFound <==> forall t :: !Matches(t, query)
    ensures v.Cards? ==> forall t :: t in v.types <==> Matches(t, query)
    ensures v.Cards? ==> IsSubsequence(v.types, NodeTypes) && NoDuplicates(v.types)
  {
    var found := FilteredNodes(query);
    assert |found| > 0 ==> found[0] in found && Matches(found[0], query);
    if |found| > 0 then Cards(found) else NoStepsFound
  }

  lemma {:induction false} FilterMembership(types: seq<NodeType>, lowered: string)
    ensures forall t :: t in FilterTypes(types, lowered) <==> t in types && MatchesLowered(t, lowered)
  {
    if types != [] {
      FilterMembership(types[1..], lowered);
      assert types == [types[0]] + types[1..];
    }
  }

  /** `a` is `b` with some elements left out, the rest in the same order. */
  predicate IsSubsequence(a: seq<NodeType>, b: seq<NodeType>)
    decreases |b|
  {
    a == [] ||
    (b != [] && ((a[0] == b[0] && IsSubsequence(a[1..], b[1..])) || IsSubsequence(a, b[1..])))
  }

  predicate NoDuplicates(s: seq<NodeType>) {
    forall i, j :: 0 <= i < j < |s| ==> s[i] != s[j]
  }

  lemma {:induction false} FilterOrder(types: seq<NodeType>, lowered: string)
    ensures IsSubsequence(FilterTypes(types, lowered), types)
    ensures NoDuplicates(types) ==> NoDuplicates(FilterTypes(types, lowered))
  {
    if types != [] {
      var rest := FilterTypes(types[1..], lowered);
      FilterOrder(types[1..], lowered);
      if NoDuplicates(types) && MatchesLowered(types[0], lowered) {
        var r := FilterTypes(types, lowered);
        forall i, j | 0 <= i < j < |r|
          ensures r[i] != r[j]
        {
          if i == 0 {
            FilterMembership(types[1..], lowered);
            assert r[j] == rest[j - 1];
            assert r[j] in types[1..];
          } else {
            assert r[i] == rest[i - 1] && r[j] == rest[j - 1];
          }
        }
      }
    }
  }

  lemma {:induction false} FilterAllMatch(types: seq<NodeType>, lowered: string)
    requires forall i :: 0 <= i < |types| ==> MatchesLowered(types[i], lowered)
    ensures FilterTypes(types, lowered) == types
  {
    if types != [] {
      FilterAllMatch(types[1..], lowered);
    }
  }

  /** An empty query lists all eight steps. */
  lemma EmptyQueryListsAll()
    ensures FilteredNodes("") == NodeTypes
  {
    forall i | 0 <= i < |NodeTypes|
      ensures MatchesLowered(NodeTypes[i], "")
    {
      IncludesEmpty(Lower(MetadataOf(NodeTypes[i]).labelText));
    }
    assert Lower("") == "";
    FilterAllMatch(NodeTypes, Lower(""));
  }

  /** Queries that differ only in the case of their letters list the same steps. */
  lemma CaseInsensitive(q1: string, q2: string)
    requires Lower(q1) == Lower(q2)
    ensures FilteredNodes(q1) == FilteredNodes(q2)
  {
  }

  /** Lower-casing the query first lists the same steps. */
  lemma {:induction false} LoweredQuerySame(query: string)
    ensures FilteredNodes(Lower(query)) == FilteredNodes(query)
  {
    LowerIdempotent(query);
  }

  /** Extending the query can only narrow the list. */
  lemma Monotonic(q: string, q': string, t: NodeType)
    requires Includes(q', q)
    requires t in FilteredNodes(q')
    ensures t in FilteredNodes(q)
  {
    LowerPreservesIncludes(q', q);
    if Includes(Lower(MetadataOf(t).labelText), Lower(q')) {
      IncludesTransitive(Lower(MetadataOf(t).labelText), Lower(q'), Lower(q));
    } else {
      IncludesTransitive(Lower(MetadataOf(t).description), Lower(q'), Lower(q));
    }
  }
}
