/**
 * The fixed containment tree of the world (src/simulation/world/EnvironmentTree.ts):
 * the Think Tank, its ten locations and their objects; a pre-order search
 * by id, and the natural-language description handed to the agents.
 */
module EnvironmentTrees {
  import opened Wrappers
  import JsText

  datatype NodeKind = World | Location | Object

  datatype EnvNode = EnvNode(id: string, name: string, kind: NodeKind, children: seq<EnvNode>)

  function Leaf(id: string, name: string): EnvNode {
    EnvNode(id, name, Object, [])
  }

  const ThinkTank: EnvNode := EnvNode("think_tank", "The Think Tank", World, [
    EnvNode("boardroom", "The Boardroom", Location,
      [Leaf("conference_table", "conference table"), Leaf("projector_screen", "projector screen"), Leaf("chairs", "chairs")]),
    EnvNode("whiteboard", "The Whiteboard Corner", Location,
      [Leaf("whiteboard_board", "whiteboard"), Leaf("markers", "markers")]),
    EnvNode("library", "The Library", Location,
      [Leaf("bookshelves", "bookshelves"), Leaf("reading_desk", "reading desk"), Leaf("research_terminal", "research terminal")]),
    EnvNode("breakroom", "The Break Room", Location,
      [Leaf("coffee_machine", "coffee machine"), Leaf("snack_table", "snack table"), Leaf("couch", "couch")]),
    EnvNode("office_visionary", "Office: Visionary", Location,
      [Leaf("visionary_desk", "desk"), Leaf("vision_board", "vision board")]),
    EnvNode("office_skeptic", "Office: Skeptic", Location,
      [Leaf("skeptic_desk", "desk"), Leaf("spreadsheet_monitor", "spreadsheet monitor")]),
    EnvNode("office_builder", "Office: Builder", Location,
      [Leaf("builder_desk", "desk"), Leaf("code_terminal", "code terminal")]),
    EnvNode("office_whisperer", "Office: Customer Whisperer", Location,
      [Leaf("whisperer_desk", "desk"), Leaf("feedback_wall", "customer feedback wall")]),
    EnvNode("office_devil", "Office: Devil's Advocate", Location,
      [Leaf("devil_desk", "desk"), Leaf("devil_figurine", "devil figurine")]),
    EnvNode("podium", "The Podium", Location,
      [Leaf("lectern", "lectern"), Leaf("audience_seats", "audience seats")])
  ])

  // ---------------------------------------------------------------------
  // Search
  // ---------------------------------------------------------------------

  /** Every node of the tree, parent before children, children left to right. */
  function PreOrder(n: EnvNode): seq<EnvNode>
    decreases n, 1
  {
    [n] + PreOrderAll(n.children)
  }

  function PreOrderAll(ns: seq<EnvNode>): seq<EnvNode>
    decreases ns, 0
  {
    if ns == [] then [] else PreOrder(ns[0]) + PreOrderAll(ns[1..])
  }

  /** The first node in a list carrying the id (the reference definition of a pre-order search). */
  function FirstWithId(ns: seq<EnvNode>, id: string): (r: Option<EnvNode>)
    ensures r.Some? ==> r.value in ns && r.value.id == id
    ensures r.None? <==> forall x :: x in ns ==> x.id != id
  {
    if ns == [] then None
    else if ns[0].id == id then Some(ns[0])
    else FirstWithId(ns[1..], id)
  }

  /** `findNode`: the node itself if it has the id, else the first child subtree that has one. */
  function FindNode(n: EnvNode, id: string): Option<EnvNode>
    decreases n, 1
  {
    if n.id == id then Some(n) else FindInChildren(n.children, id)
  }

  function FindInChildren(ns: seq<EnvNode>, id: string): Option<EnvNode>
    decreases ns, 0
  {
    if ns == [] then None
    else
      var found := FindNode(ns[0], id);
      if found.Some? then found else FindInChildren(ns[1..], id)
  }

  lemma FirstWithIdAppend(a: seq<EnvNode>, b: seq<EnvNode>, id: string)
    ensures FirstWithId(a + b, id) == if FirstWithId(a, id).Some? then FirstWithId(a, id) else FirstWithId(b, id)
  {
    if a != [] {
      assert (a + b)[1..] == a[1..] + b;
      FirstWithIdAppend(a[1..], b, id);
    } else {
      assert a + b == b;
    }
  }

  /** The recursive search is exactly a first-match scan of the pre-order listing. */
  lemma {:induction false} FindNodeIsPreOrderSearch(n: EnvNode, id: string)
    ensures FindNode(n, id) == FirstWithId(PreOrder(n), id)
    decreases n, 1
  {
    FirstWithIdAppend([n], PreOrderAll(n.children), id);
    FindInChildrenIsPreOrderSearch(n.children, id);
  }

  lemma {:induction false} FindInChildrenIsPreOrderSearch(ns: seq<EnvNode>, id: string)
    ensures FindInChildren(ns, id) == FirstWithId(PreOrderAll(ns), id)
    decreases ns, 0
  {
    if ns != [] {
      FindNodeIsPreOrderSearch(ns[0], id);
      FindInChildrenIsPreOrderSearch(ns[1..], id);
      FirstWithIdAppend(PreOrder(ns[0]), PreOrderAll(ns[1..]), id);
    }
  }

  /** `getLocation(id)`: a node with that id, or nothing exactly when no node of the tree has it. */
  lemma GetLocationRule(id: string)
    ensures var r := FindNode(ThinkTank, id);
      && (r.Some? ==> r.value in PreOrder(ThinkTank) && r.value.id == id)
      && (r.None? <==> forall x :: x in PreOrder(ThinkTank) ==> x.id != id)
  {
    FindNodeIsPreOrderSearch(ThinkTank, id);
  }

  // ---------------------------------------------------------------------
  // Description
  // ---------------------------------------------------------------------

  function Names(ns: seq<EnvNode>): (r: seq<string>)
    ensures |r| == |ns| && forall i :: 0 <= i < |ns| ==> r[i] == ns[i].name
  {
    seq(|ns|, i requires 0 <= i < |ns| => ns[i].name)
  }

  /** `- name`, followed by ` (contains: a, b)` when the joined object names are non-empty. */
  function LocationLine(loc: EnvNode): string {
    var objects := JsText.Join(Names(loc.children), ", ");
    "- " + loc.name + (if objects != "" then " (contains: " + objects + ")" else "")
  }

  /** The two header lines followed by one line per location. */
  function DescriptionLines(root: EnvNode): (r: seq<string>)
    ensures |r| == 2 + |root.children|
    ensures r[0] == "You are in " + root.name + "." && r[1] == "Available locations:"
    ensures forall i :: 0 <= i < |root.children| ==> r[2 + i] == LocationLine(root.children[i])
  {
    ["You are in " + root.name + ".", "Available locations:"]
      + seq(|root.children|, i requires 0 <= i < |root.children| => LocationLine(root.children[i]))
  }

  /** `toNaturalLanguage`: the lines joined with newlines. */
  function Describe(root: EnvNode): string {
    JsText.Join(DescriptionLines(root), "\n")
  }

  /** A joined list is empty only when it has no part, or a single empty part. */
  lemma {:induction false} JoinNonEmpty(parts: seq<string>, sep: string)
    requires sep != ""
    requires forall p :: p in parts ==> p != ""
    ensures JsText.Join(parts, sep) == "" <==> parts == []
  {
    if |parts| > 1 {
      assert parts[0] in parts;
      assert JsText.Join(parts, sep) == parts[0] + sep + JsText.Join(parts[1..], sep);
    } else if |parts| == 1 {
      assert parts[0] in parts;
    }
  }

  /** With non-empty object names, a location line lists contents exactly when the location has children. */
  lemma ContainsSuffixIffChildren(loc: EnvNode)
    requires forall c :: c in loc.children ==> c.name != ""
    ensures var objects := JsText.Join(Names(loc.children), ", ");
      (objects != "" <==> loc.children != [])
      && LocationLine(loc) == "- " + loc.name + (if loc.children != [] then " (contains: " + objects + ")" else "")
  {
    JoinNonEmpty(Names(loc.children), ", ");
  }

  /**
   * When no name contains a newline, splitting the description on newlines
   * recovers exactly the header lines and one line per location, in order.
   */
  lemma DescriptionLineCount(root: EnvNode)
    requires '\n' !in root.name
    requires forall loc :: loc in root.children ==> '\n' !in loc.name && forall c :: c in loc.children ==> '\n' !in c.name
    ensures JsText.SplitOn(Describe(root), '\n') == DescriptionLines(root)
  {
    var lines := DescriptionLines(root);
    LinesFree(root);
    JsText.SplitJoinRoundTrip(lines, '\n');
    assert Describe(root) == JsText.Join(lines, ['\n']);
  }

  lemma LinesFree(root: EnvNode)
    requires '\n' !in root.name
    requires forall loc :: loc in root.children ==> '\n' !in loc.name && forall c :: c in loc.children ==> '\n' !in c.name
    ensures forall l :: l in DescriptionLines(root) ==> '\n' !in l
  {
    var lines := DescriptionLines(root);
    forall i | 0 <= i < |lines| ensures '\n' !in lines[i] {
      if i == 0 {
        HeaderFree(root.name);
      } else if i == 1 {
        AvailableFree();
      } else {
        LocationLineFree(root.children[i - 2]);
      }
    }
  }

  lemma AvailableFree()
    ensures '\n' !in "Available locations:"
  {
  }

  lemma HeaderFree(name: string)
    requires '\n' !in name
    ensures '\n' !in "You are in " + name + "."
  {
  }

  lemma LocationLineFree(loc: EnvNode)
    requires '\n' !in loc.name && forall c :: c in loc.children ==> '\n' !in c.name
    ensures '\n' !in LocationLine(loc)
  {
    var names := Names(loc.children);
    forall x | x in names ensures '\n' !in x {
      var i :| 0 <= i < |names| && names[i] == x;
      assert loc.children[i] in loc.children;
    }
    JsText.JoinFree(names, '\n', ", ");
  }

  class EnvironmentTree {
    const root: EnvNode

    constructor ()
      ensures root == ThinkTank
    {
      root := ThinkTank;
    }

    function GetRoot(): (r: EnvNode)
      ensures r == root
    {
      root
    }

    /** `getLocation(id)`: the pre-order first node with the id, or nothing. */
    function GetLocation(id: string): (r: Option<EnvNode>)
      ensures r == FirstWithId(PreOrder(root), id)
    {
      FindNodeIsPreOrderSearch(root, id);
      FindNode(root, id)
    }

    /** `getLocations`: the root's children, in order. */
    function GetLocations(): (r: seq<EnvNode>)
      ensures r == root.children
    {
      root.children
    }

    /** `toNaturalLanguage`. */
    function ToNaturalLanguage(): (s: string)
      ensures s == Describe(root)
    {
      JsText.Join(DescriptionLines(root), "\n")
    }
  }
}
