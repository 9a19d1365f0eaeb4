/** Merging one server into the launcher's multiplayer list. */
module ServerLists {
  import opened Wrappers
  import opened Bytes
  import opened Nbt

  const SERVERS: bytes := [115, 101, 114, 118, 101, 114, 115]   // "servers"
  const NAME: bytes := [110, 97, 109, 101]                      // "name"
  const IP: bytes := [105, 112]                                 // "ip"

  // ---- children of a node ----

  /** Where the first node of that name is; the length if there is none. */
  function Index(nodes: seq<Node>, name: bytes): (i: nat)
    ensures i <= |nodes| && (i < |nodes| ==> nodes[i].name == name)
    ensures forall j :: 0 <= j < i ==> nodes[j].name != name
  {
    if nodes == [] || nodes[0].name == name then 0 else 1 + Index(nodes[1..], name)
  }

  lemma IndexIs(nodes: seq<Node>, name: bytes, i: nat)
    requires i <= |nodes| && (i < |nodes| ==> nodes[i].name == name)
    requires forall j :: 0 <= j < i ==> nodes[j].name != name
    ensures Index(nodes, name) == i
  {
  }

  function Child(n: Node, name: bytes): Option<Node>
  {
    if n.val.Nodes? && Index(n.val.nodes, name) < |n.val.nodes| then
      Some(n.val.nodes[Index(n.val.nodes, name)])
    else None
  }

  /** The text of the named child, or "" when there is no such text. */
  function StringOf(n: Node, name: bytes): bytes
  {
    match Child(n, name)
    case Some(c) => if c.val.Text? then c.val.text else []
    case None => []
  }

  function SetIn(nodes: seq<Node>, name: bytes, typ: byte, val: Val): seq<Node>
  {
    var i := Index(nodes, name);
    if i < |nodes| then nodes[i := Node(name, typ, val)] else nodes + [Node(name, typ, val)]
  }

  function Set(n: Node, name: bytes, typ: byte, val: Val): Node
    requires n.val.Nodes?
  {
    n.(val := Nodes(SetIn(n.val.nodes, name, typ, val)))
  }

  /** set is seen by child, and leaves every other child as it was. */
  lemma SetThenChild(n: Node, name: bytes, typ: byte, val: Val, other: bytes)
    requires n.val.Nodes?
    ensures Child(Set(n, name, typ, val), name) == Some(Node(name, typ, val))
    ensures other != name ==> Child(Set(n, name, typ, val), other) == Child(n, other)
    ensures Set(Set(n, name, typ, val), name, typ, val) == Set(n, name, typ, val)
  {
    var nodes := n.val.nodes;
    var nodes' := SetIn(nodes, name, typ, val);
    IndexIs(nodes', name, Index(nodes, name));
    if other != name {
      var j := Index(nodes, other);
      if j < |nodes| {
        IndexIs(nodes', other, j);
      } else {
        IndexIs(nodes', other, |nodes'|);
      }
    }
  }

  // ---- the merge ----

  predicate Matches(e: Node, addr: bytes)
  {
    StringOf(e, IP) == addr
  }

  predicate AnyMatches(list: seq<Node>, addr: bytes)
  {
    exists i :: 0 <= i < |list| && Matches(list[i], addr)
  }

  /** Renaming an entry that has no children panics. */
  predicate Updatable(list: seq<Node>, addr: bytes)
  {
    forall i :: 0 <= i < |list| && Matches(list[i], addr) ==> list[i].val.Nodes?
  }

  function Renamed(e: Node, name: bytes): Node
    requires e.val.Nodes?
  {
    Set(e, NAME, STRING, Text(name))
  }

  function Updated(list: seq<Node>, name: bytes, addr: bytes): (r: seq<Node>)
    requires Updatable(list, addr)
    ensures |r| == |list|
    ensures forall i :: 0 <= i < |list| ==> r[i] == if Matches(list[i], addr) then Renamed(list[i], name) else list[i]
  {
    seq(|list|, i requires 0 <= i < |list| => if Matches(list[i], addr) then Renamed(list[i], name) else list[i])
  }

  function Entry(name: bytes, addr: bytes): Node
  {
    Node([], COMPOUND, Nodes([Node(NAME, STRING, Text(name)), Node(IP, STRING, Text(addr))]))
  }

  function MergedList(list: seq<Node>, name: bytes, addr: bytes): seq<Node>
    requires Updatable(list, addr)
  {
    if AnyMatches(list, addr) then Updated(list, name, addr) else list + [Entry(name, addr)]
  }

  /** The root's children, with a server list among them. */
  function WithServers(nodes: seq<Node>): (r: seq<Node>)
    ensures nodes <= r && Index(r, SERVERS) == Index(nodes, SERVERS) < |r|
  {
    if Index(nodes, SERVERS) < |nodes| then nodes
    else
      var r := nodes + [Node(SERVERS, LIST, Nodes([]))];
      IndexIs(r, SERVERS, |nodes|);
      r
  }

  function Merge(root: Node, name: bytes, addr: bytes): Result<Node, Failure>
  {
    if !root.val.Nodes? then Err(Crash)
    else
      var nodes, i := WithServers(root.val.nodes), Index(root.val.nodes, SERVERS);
      if !(nodes[i].val.Nodes? && Updatable(nodes[i].val.nodes, addr)) then Err(Crash)
      else Ok(root.(val := Nodes(nodes[i := nodes[i].(val := Nodes(MergedList(nodes[i].val.nodes, name, addr)))])))
  }

  /** The entries of a root's server list; none when it has no list. */
  function Servers(root: Node): seq<Node>
  {
    match Child(root, SERVERS)
    case Some(c) => if c.val.Nodes? then c.val.nodes else []
    case None => []
  }

  // ---- what the merge does ----

  lemma EntryReads(name: bytes, addr: bytes)
    ensures StringOf(Entry(name, addr), NAME) == name && StringOf(Entry(name, addr), IP) == addr
  {
    IndexIs(Entry(name, addr).val.nodes, NAME, 0);
    IndexIs(Entry(name, addr).val.nodes, IP, 1);
  }

  /** The same entry, except perhaps for the first child called "name", which may have been added at the end. */
  predicate OnlyNameDiffers(e: Node, e': Node)
  {
    && e'.name == e.name && e'.typ == e.typ
    && (e' == e
        || (&& e.val.Nodes? && e'.val.Nodes?
            && var nodes, nodes', i := e.val.nodes, e'.val.nodes, Index(e.val.nodes, NAME);
               && |nodes'| == |nodes| + (if i < |nodes| then 0 else 1)
               && nodes'[i].name == NAME
               && forall k :: 0 <= k < |nodes| && k != i ==> nodes'[k] == nodes[k]))
  }

  lemma RenamedReads(e: Node, name: bytes)
    requires e.val.Nodes?
    ensures StringOf(Renamed(e, name), NAME) == name
    ensures forall other :: other != NAME ==> Child(Renamed(e, name), other) == Child(e, other)
    ensures StringOf(Renamed(e, name), IP) == StringOf(e, IP) && OnlyNameDiffers(e, Renamed(e, name))
    ensures Renamed(Renamed(e, name), name) == Renamed(e, name)
  {
    forall other | other != NAME ensures Child(Renamed(e, name), other) == Child(e, other) {
      SetThenChild(e, NAME, STRING, Text(name), other);
    }
    SetThenChild(e, NAME, STRING, Text(name), IP);
  }

  lemma MergedServers(root: Node, name: bytes, addr: bytes)
    requires Merge(root, name, addr).Ok?
    ensures Updatable(Servers(root), addr)
    ensures Servers(Merge(root, name, addr).value) == MergedList(Servers(root), name, addr)
  {
    var root' := Merge(root, name, addr).value;
    IndexIs(root'.val.nodes, SERVERS, Index(root.val.nodes, SERVERS));
  }

  /** The server is listed, and every entry with its address has that name. */
  ghost predicate Lists(list: seq<Node>, name: bytes, addr: bytes)
  {
    && (exists e :: e in list && StringOf(e, IP) == addr)
    && (forall e :: e in list && StringOf(e, IP) == addr ==> StringOf(e, NAME) == name)
  }

  lemma UpdatedLists(list: seq<Node>, name: bytes, addr: bytes)
    requires Updatable(list, addr) && AnyMatches(list, addr)
    ensures Lists(Updated(list, name, addr), name, addr)
  {
    hide StringOf, Renamed;
    forall i | 0 <= i < |list| && Matches(list[i], addr)
      ensures StringOf(Renamed(list[i], name), NAME) == name && StringOf(Renamed(list[i], name), IP) == addr
    {
      RenamedReads(list[i], name);
    }
    var list' := Updated(list, name, addr);
    var i :| 0 <= i < |list| && Matches(list[i], addr);
    assert list'[i] in list';
  }

  lemma AppendedLists(list: seq<Node>, name: bytes, addr: bytes)
    requires !AnyMatches(list, addr)
    ensures Lists(list + [Entry(name, addr)], name, addr)
  {
    hide StringOf, Entry;
    EntryReads(name, addr);
    var list' := list + [Entry(name, addr)];
    assert list'[|list|] in list';
  }

  /** Afterwards the server is listed, and every entry with its address has the new name. */
  lemma MergeNamesServer(root: Node, name: bytes, addr: bytes)
    requires Merge(root, name, addr).Ok?
    ensures var list := Servers(Merge(root, name, addr).value);
            && (exists e :: e in list && StringOf(e, IP) == addr)
            && (forall e :: e in list && StringOf(e, IP) == addr ==> StringOf(e, NAME) == name)
  {
    var list := Servers(root);
    hide Merge, Servers, StringOf, AnyMatches, Updatable, Updated, Entry;
    MergedServers(root, name, addr);
    if AnyMatches(list, addr) {
      UpdatedLists(list, name, addr);
    } else {
      AppendedLists(list, name, addr);
    }
  }

  /**
   Other entries stay where and what they are; renamed ones keep every child but their name; one is added iff
   none matched.
   */
  lemma MergeKeepsOthers(root: Node, name: bytes, addr: bytes)
    requires Merge(root, name, addr).Ok?
    ensures var before, list := Servers(root), Servers(Merge(root, name, addr).value);
            && |list| == |before| + (if AnyMatches(before, addr) then 0 else 1)
            && (forall i :: 0 <= i < |before| && StringOf(before[i], IP) != addr ==> list[i] == before[i])
            && (forall i :: 0 <= i < |before| ==> OnlyNameDiffers(before[i], list[i]))
  {
    var before, list := Servers(root), Servers(Merge(root, name, addr).value);
    MergedServers(root, name, addr);
    forall i | 0 <= i < |before| ensures OnlyNameDiffers(before[i], list[i]) {
      if Matches(before[i], addr) { RenamedReads(before[i], name); }
    }
  }

  /** Every other tag of the root stays where and what it is, and the list keeps its own name and tag. */
  lemma MergeKeepsRoot(root: Node, name: bytes, addr: bytes)
    requires Merge(root, name, addr).Ok?
    ensures var root' := Merge(root, name, addr).value;
            && root'.name == root.name && root'.typ == root.typ && root'.val.Nodes?
            && var nodes, nodes', i := root.val.nodes, root'.val.nodes, Index(root.val.nodes, SERVERS);
               && |nodes'| == |nodes| + (if Child(root, SERVERS).Some? then 0 else 1)
               && (forall k :: 0 <= k < |nodes| && k != i ==> nodes'[k] == nodes[k])
               && nodes'[i].name == SERVERS
               && nodes'[i].typ == (if i < |nodes| then nodes[i].typ else LIST)
  {
  }

  /** The merge panics exactly on a root or a list without children, or on a matching entry without any. */
  lemma MergeCrashesIff(root: Node, name: bytes, addr: bytes)
    ensures Merge(root, name, addr).Err? <==>
              || !root.val.Nodes?
              || (Child(root, SERVERS).Some? && !Child(root, SERVERS).value.val.Nodes?)
              || exists e :: e in Servers(root) && StringOf(e, IP) == addr && !e.val.Nodes?
    ensures Merge(root, name, addr).Err? ==> Merge(root, name, addr) == Err(Crash)
  {
  }

  lemma MergedListIsStable(list: seq<Node>, name: bytes, addr: bytes)
    requires Updatable(list, addr)
    ensures var list' := MergedList(list, name, addr);
            Updatable(list', addr) && MergedList(list', name, addr) == list'
  {
    var list' := MergedList(list, name, addr);
    EntryReads(name, addr);
    forall i | 0 <= i < |list'| && Matches(list'[i], addr)
      ensures list'[i].val.Nodes? && Renamed(list'[i], name) == list'[i]
    {
      if AnyMatches(list, addr) {
        if Matches(list[i], addr) { RenamedReads(list[i], name); }
      } else if i == |list| {
        IndexIs(list'[i].val.nodes, NAME, 0);
      }
    }
    if AnyMatches(list, addr) {
      var i :| 0 <= i < |list| && Matches(list[i], addr);
      RenamedReads(list[i], name);
      assert Matches(list'[i], addr);
    } else {
      assert Matches(list'[|list|], addr);
    }
    assert AnyMatches(list', addr);
    assert Updated(list', name, addr) == list';
  }

  /** Merging the same server again changes nothing. */
  lemma MergeIsIdempotent(root: Node, name: bytes, addr: bytes)
    requires Merge(root, name, addr).Ok?
    ensures var root' := Merge(root, name, addr).value;
            Merge(root', name, addr) == Ok(root')
  {
    var root' := Merge(root, name, addr).value;
    var nodes, i := WithServers(root.val.nodes), Index(root.val.nodes, SERVERS);
    var list := nodes[i].val.nodes;
    MergedListIsStable(list, name, addr);
    IndexIs(root'.val.nodes, SERVERS, i);
    assert WithServers(root'.val.nodes) == root'.val.nodes;
    assert root'.val.nodes[i].val == Nodes(MergedList(list, name, addr));
    hide MergedList, Updatable;
    var nodes' := root'.val.nodes;
    assert nodes'[i := nodes'[i].(val := Nodes(nodes'[i].val.nodes))] == nodes';
  }

  // ---- the merge through the file ----

  lemma {:induction false} AllChildrenEach(nodes: seq<Node>)
    ensures AllChildren(nodes) <==> forall i :: 0 <= i < |nodes| ==> WellFormedNode(nodes[i])
  {
    if nodes == [] {
    } else {
      hide WellFormedNode;
      AllChildrenEach(nodes[1..]);
      assert forall i :: 0 < i < |nodes| ==> nodes[i] == nodes[1..][i - 1];
    }
  }

  predicate Element(typ: byte, e: Node)
  {
    e.name == [] && e.typ == typ && WellFormed(typ, e.val)
  }

  lemma {:induction false} AllElementsEach(typ: byte, nodes: seq<Node>)
    ensures AllElements(typ, nodes) <==> forall i :: 0 <= i < |nodes| ==> Element(typ, nodes[i])
  {
    if nodes == [] {
    } else {
      hide WellFormed;
      AllElementsEach(typ, nodes[1..]);
      assert forall i :: 0 < i < |nodes| ==> nodes[i] == nodes[1..][i - 1];
    }
  }

  /** A renamed entry can be stored iff it is a compound and the name fits its length field. */
  lemma RenamedFits(e: Node, name: bytes)
    requires e.val.Nodes? && WellFormed(e.typ, e.val)
    ensures WellFormed(e.typ, Renamed(e, name).val) <==> e.typ == COMPOUND && |name| < LIMIT16
  {
    var nodes, nodes', i := e.val.nodes, Renamed(e, name).val.nodes, Index(e.val.nodes, NAME);
    var typ := e.typ;
    assert WellFormedNode(Node(NAME, STRING, Text(name))) <==> |name| < LIMIT16;
    assert nodes'[i] == Node(NAME, STRING, Text(name));
    if typ == COMPOUND {
      assert WellFormed(COMPOUND, Renamed(e, name).val) <==> AllChildren(nodes');
      assert AllChildren(nodes);
      hide WellFormed, WellFormedNode, AllChildren;
      AllChildrenEach(nodes);
      AllChildrenEach(nodes');
    } else {
      AllElementsEach(ElementType(nodes'), nodes');
    }
  }

  lemma EntryFits(name: bytes, addr: bytes)
    ensures WellFormed(COMPOUND, Entry(name, addr).val) <==> |name| < LIMIT16 && |addr| < LIMIT16
  {
    var nodes := Entry(name, addr).val.nodes;
    AllChildrenEach(nodes);
    assert WellFormedNode(nodes[0]) <==> |name| < LIMIT16;
    assert WellFormedNode(nodes[1]) <==> |addr| < LIMIT16;
  }

  /** Whether a new compound can be appended: any compound takes one, a list only if it is of compounds and not full. */
  predicate Extensible(typ: byte, list: seq<Node>)
  {
    typ == COMPOUND || (|list| + 1 < LENGTH_LIMIT && (list == [] || list[0].typ == COMPOUND))
  }

  /** When the merged list can be stored again. */
  predicate Storable(typ: byte, list: seq<Node>, name: bytes, addr: bytes)
  {
    && |name| < LIMIT16
    && (forall i :: 0 <= i < |list| && Matches(list[i], addr) ==> list[i].typ == COMPOUND)
    && (AnyMatches(list, addr) || (|addr| < LIMIT16 && Extensible(typ, list)))
  }

  /** A list node is well-formed iff each element is, and of its type. */
  predicate GoodEntry(typ: byte, elem: byte, e: Node)
  {
    if typ == LIST then Element(elem, e) else WellFormedNode(e)
  }

  lemma ServersWellFormed(typ: byte, list: seq<Node>)
    requires typ == LIST || typ == COMPOUND
    ensures WellFormed(typ, Nodes(list)) <==>
              && (typ == LIST ==> |list| < LENGTH_LIMIT)
              && forall i :: 0 <= i < |list| ==> GoodEntry(typ, ElementType(list), list[i])
  {
    AllElementsEach(ElementType(list), list);
    AllChildrenEach(list);
    hide WellFormedNode, Element, AllElements, AllChildren;
  }

  lemma MergedListFitsIff(typ: byte, list: seq<Node>, name: bytes, addr: bytes)
    requires (typ == LIST || typ == COMPOUND) && WellFormed(typ, Nodes(list)) && Updatable(list, addr)
    ensures WellFormed(typ, Nodes(MergedList(list, name, addr))) <==> Storable(typ, list, name, addr)
  {
    var list' := MergedList(list, name, addr);
    ServersWellFormed(typ, list);
    ServersWellFormed(typ, list');
    EntryFits(name, addr);
    forall i | 0 <= i < |list| && Matches(list[i], addr)
      ensures GoodEntry(typ, list[i].typ, Renamed(list[i], name)) <==> list[i].typ == COMPOUND && |name| < LIMIT16
    {
      assert GoodEntry(typ, ElementType(list), list[i]);
      RenamedFits(list[i], name);
    }
    hide WellFormed, Matches, Renamed;
    if AnyMatches(list, addr) {
      assert ElementType(list') == ElementType(list);
      assert forall i :: 0 <= i < |list| ==>
               list'[i] == if Matches(list[i], addr) then Renamed(list[i], name) else list[i];
    } else {
      assert list'[|list|] == Entry(name, addr);
      assert forall i :: 0 <= i < |list| ==> list'[i] == list[i];
    }
  }

  /** When the whole merged tree can be stored again. */
  predicate StorableRoot(root: Node, name: bytes, addr: bytes)
  {
    && root.typ == COMPOUND
    && Storable(match Child(root, SERVERS) case Some(c) => c.typ case None => LIST, Servers(root), name, addr)
  }

  lemma AllChildrenIsCompound(nodes: seq<Node>)
    ensures WellFormed(COMPOUND, Nodes(nodes)) <==> AllChildren(nodes)
  {
  }

  lemma MergedRootFitsIff(root: Node, name: bytes, addr: bytes)
    requires WellFormedNode(root) && Merge(root, name, addr).Ok?
    ensures WellFormedNode(Merge(root, name, addr).value) <==> StorableRoot(root, name, addr)
  {
    var nodes, i := WithServers(root.val.nodes), Index(root.val.nodes, SERVERS);
    var root' := Merge(root, name, addr).value;
    var list := nodes[i].val.nodes;
    assert list == Servers(root);
    if root.typ == COMPOUND {
      AllChildrenEach(root.val.nodes);
      AllChildrenEach(root'.val.nodes);
      assert WellFormed(LIST, Nodes([]));
      assert WellFormedNode(nodes[i]);
      MergedListFitsIff(nodes[i].typ, list, name, addr);
      assert WellFormedNode(root'.val.nodes[i]) <==> Storable(nodes[i].typ, list, name, addr);
      hide Storable, WellFormed, AllChildren;
      assert forall k :: 0 <= k < |root'.val.nodes| && k != i ==> root'.val.nodes[k] == root.val.nodes[k];
      assert WellFormedNode(root') <==> AllChildren(root'.val.nodes) by {
        assert WellFormed(COMPOUND, root'.val) <==> AllChildren(root'.val.nodes) by {
          AllChildrenIsCompound(root'.val.nodes);
        }
      }
    } else {
      AllElementsEach(ElementType(root'.val.nodes), root'.val.nodes);
      assert root'.val.nodes[i].name == SERVERS;
    }
  }

  const FRESH_ROOT := Node([], COMPOUND, Nodes([]))

  /** The tree a file holds, once unzipped; a missing or empty list starts afresh. */
  function Load(file: Option<bytes>): Result<Node, Failure>
  {
    match file
    case None => Ok(FRESH_ROOT)
    case Some(content) =>
      match ReadNode(false, content)
      case Err(e) => Err(e)
      case Ok((None, _)) => Ok(FRESH_ROOT)
      case Ok((Some(root), _)) => Ok(root)
  }

  /** What the file holds afterwards. */
  function AddServer(file: Option<bytes>, name: bytes, addr: bytes): Result<bytes, Failure>
  {
    match Load(file)
    case Err(e) => Err(e)
    case Ok(root) => (match Merge(root, name, addr) case Err(e) => Err(e) case Ok(root') => WriteNode(root'))
  }

  lemma LoadedIsWellFormed(file: Option<bytes>)
    requires Load(file).Ok?
    ensures WellFormedNode(Load(file).value)
  {
    if file.Some? && ReadNode(false, file.value).value.0.Some? {
      NodeRespells(false, file.value);
    }
  }

  lemma StoredReadsBackIff(root: Node)
    ensures WellFormedNode(root) <==>
              root.typ != END && WriteNode(root).Ok? && Load(Some(WriteNode(root).value)) == Ok(root)
  {
    if WellFormedNode(root) {
      NodeRoundTrip(false, root, []);
      assert WriteNode(root).value + [] == WriteNode(root).value;
    } else if root.typ != END && WriteNode(root).Ok? && Load(Some(WriteNode(root).value)) == Ok(root) {
      LoadedIsWellFormed(Some(WriteNode(root).value));
    }
  }

  /**
   The file that is written holds exactly the merged tree if and only if that tree is storable, and
   then adding the same server to it again writes the same bytes.
   */
  lemma AddServerThroughFile(file: Option<bytes>, name: bytes, addr: bytes)
    requires Load(file).Ok? && Merge(Load(file).value, name, addr).Ok?
    ensures var root := Load(file).value;
            var root', out := Merge(root, name, addr).value, AddServer(file, name, addr);
            && (StorableRoot(root, name, addr) <==> out.Ok? && Load(Some(out.value)) == Ok(root'))
            && (StorableRoot(root, name, addr) ==> AddServer(Some(out.value), name, addr) == out)
  {
    var root := Load(file).value;
    var root' := Merge(root, name, addr).value;
    LoadedIsWellFormed(file);
    MergedRootFitsIff(root, name, addr);
    StoredReadsBackIff(root');
    MergeIsIdempotent(root, name, addr);
    assert root.typ != END;
    hide Merge, Load, WriteNode, WellFormedNode, StorableRoot;
    assert root'.typ == root.typ by { MergeKeepsRoot(root, name, addr); }
  }

  // ---- the first server's file, byte by byte ----

  /** A named string: tag, length of the name, name, length of the text, text. */
  lemma WrittenText(name: bytes, text: bytes)
    requires |name| < LIMIT16 && |text| < LIMIT16
    ensures WriteNode(Node(name, STRING, Text(text))) ==
              Ok([8] + BigEndian(2, |name|) + name + BigEndian(2, |text|) + text)
  {
    hide BigEndian;
    var a, b, c := [8] + BigEndian(2, |name|) + name, BigEndian(2, |text|), text;
    assert a + (b + c) == a + b + c && [8] + (BigEndian(2, |name|) + name) == a;
  }

  lemma WrittenChildren(a: Node, b: Node, x: bytes, y: bytes)
    requires WriteNode(a) == Ok(x) && WriteNode(b) == Ok(y)
    ensures WriteChildren([a, b]) == Ok(x + y + [0]) && WriteChildren([a]) == Ok(x + [0])
  {
    hide WriteNode;
    assert [a, b][1..] == [b] && [b][1..] == [] && [a][1..] == [];
    assert WriteChildren([]) == Ok([0]);
    assert WriteChildren([b]) == Ok(y + [0]) && WriteChildren([a]) == Ok(x + [0]);
    assert x + (y + [0]) == x + y + [0];
  }

  lemma WrittenNode(n: Node, head: bytes, body: bytes)
    requires |n.name| < LIMIT16 && WriteValue(n.typ, n.val) == Ok(body)
             && head == [n.typ] + BigEndian(2, |n.name|) + n.name
    ensures WriteNode(n) == Ok(head + body)
  {
    hide WriteValue, BigEndian;
    assert [n.typ] + (BigEndian(2, |n.name|) + n.name) == head;
  }

  lemma WrittenList(e: Node, body: bytes)
    requires e.typ == COMPOUND && WriteValue(COMPOUND, e.val) == Ok(body)
    ensures WriteValue(LIST, Nodes([e])) == Ok([10, 0, 0, 0, 1] + body)
  {
    assert WriteElements([e]) == Ok(body) by {
      hide WriteValue;
      assert [e][1..] == [] && body + [] == body;
    }
    hide WriteElements;
    SmallNumber(1);
    assert [10] + [0, 0, 0, 1] == [10, 0, 0, 0, 1];
  }

  lemma FirstRootBytes(list: Node, z: bytes)
    requires WriteNode(list) == Ok(z)
    ensures WriteNode(Node([], COMPOUND, Nodes([list]))) == Ok([10, 0, 0] + (z + [0]))
  {
    WrittenChildren(list, list, z, z);
    TwoBytes(0);
    hide WriteChildren, BigEndian;
    assert WriteValue(COMPOUND, Nodes([list])) == Ok(z + [0]);
    hide WriteNode;
    WrittenNode(Node([], COMPOUND, Nodes([list])), [10, 0, 0], z + [0]);
  }

  lemma Heads()
    ensures |NAME| == 4 && |IP| == 2 && |SERVERS| == 7
    ensures [8] + BigEndian(2, |NAME|) + NAME == [8, 0, 4, 110, 97, 109, 101]
    ensures [8] + BigEndian(2, |IP|) + IP == [8, 0, 2, 105, 112]
    ensures [LIST] + BigEndian(2, |SERVERS|) + SERVERS == [9, 0, 7, 115, 101, 114, 118, 101, 114, 115]
  {
    TwoBytes(2);
    TwoBytes(4);
    TwoBytes(7);
  }

  lemma WrittenCompound(nodes: seq<Node>, b: bytes)
    requires WriteChildren(nodes) == Ok(b)
    ensures WriteValue(COMPOUND, Nodes(nodes)) == Ok(b)
  {
  }

  lemma FirstServerTree(name: bytes, addr: bytes)
    ensures var entry := Node([], COMPOUND, Nodes([Node(NAME, STRING, Text(name)), Node(IP, STRING, Text(addr))]));
            AddServer(None, name, addr) == WriteNode(Node([], COMPOUND, Nodes([Node(SERVERS, LIST, Nodes([entry]))])))
    ensures Merge(FRESH_ROOT, name, addr) == Ok(Node([], COMPOUND, Nodes([Node(SERVERS, LIST, Nodes([
              Node([], COMPOUND, Nodes([Node(NAME, STRING, Text(name)), Node(IP, STRING, Text(addr))]))]))])))
  {
    var empty: seq<Node> := [];
    assert Index(empty, SERVERS) == 0 && WithServers(empty) == [Node(SERVERS, LIST, Nodes([]))];
    assert !AnyMatches(empty, addr) && MergedList(empty, name, addr) == [Entry(name, addr)];
    var merged := Node(SERVERS, LIST, Nodes([Entry(name, addr)]));
    assert WithServers(empty)[0 := merged] == [merged];
  }

  lemma FirstServerFrom(name: bytes, addr: bytes, x: bytes, y: bytes, head: bytes)
    requires WriteNode(Node(NAME, STRING, Text(name))) == Ok(x) && WriteNode(Node(IP, STRING, Text(addr))) == Ok(y)
    requires head == [LIST] + BigEndian(2, |SERVERS|) + SERVERS
    ensures AddServer(None, name, addr) == Ok([10, 0, 0] + (head + ([10, 0, 0, 0, 1] + (x + y + [0])) + [0]))
  {
    var nameNode, ipNode := Node(NAME, STRING, Text(name)), Node(IP, STRING, Text(addr));
    var entry := Node([], COMPOUND, Nodes([nameNode, ipNode]));
    hide AddServer, WriteNode, WriteChildren, WriteElements, WriteValue, Merge, BigEndian;
    FirstServerTree(name, addr);
    WrittenChildren(nameNode, ipNode, x, y);
    WrittenCompound([nameNode, ipNode], x + y + [0]);
    WrittenList(entry, x + y + [0]);
    WrittenNode(Node(SERVERS, LIST, Nodes([entry])), head, [10, 0, 0, 0, 1] + (x + y + [0]));
    FirstRootBytes(Node(SERVERS, LIST, Nodes([entry])), head + ([10, 0, 0, 0, 1] + (x + y + [0])));
  }

  /**
   Where there was no list, the file holds an unnamed compound with the list "servers", and in it one compound of
   the strings "name" and "ip".
   */
  lemma FirstServerBytes(name: bytes, addr: bytes)
    requires |name| < LIMIT16 && |addr| < LIMIT16
    ensures var nameBytes := [8, 0, 4, 110, 97, 109, 101] + BigEndian(2, |name|) + name;
            var addrBytes := [8, 0, 2, 105, 112] + BigEndian(2, |addr|) + addr;
            var head := [9, 0, 7, 115, 101, 114, 118, 101, 114, 115];
            AddServer(None, name, addr) ==
              Ok([10, 0, 0] + (head + ([10, 0, 0, 0, 1] + (nameBytes + addrBytes + [0])) + [0]))
  {
    Heads();
    hide AddServer, WriteNode, BigEndian;
    WrittenText(NAME, name);
    WrittenText(IP, addr);
    FirstServerFrom(name, addr, [8, 0, 4, 110, 97, 109, 101] + BigEndian(2, |name|) + name,
                    [8, 0, 2, 105, 112] + BigEndian(2, |addr|) + addr, [9, 0, 7, 115, 101, 114, 118, 101, 114, 115]);
  }

  // ---- the object ----

  class ServersDat {
    var root: Node

    constructor (root: Node)
      ensures this.root == root
    {
      this.root := root;
    }

    method FindChild(n: Node, name: bytes) returns (i: nat)
      requires n.val.Nodes?
      ensures i == Index(n.val.nodes, name)
    {
      var nodes := n.val.nodes;
      i := 0;
      while i < |nodes|
        invariant i <= |nodes| && forall j :: 0 <= j < i ==> nodes[j].name != name
      {
        if nodes[i].name == name {
          break;
        }
        i := i + 1;
      }
      IndexIs(nodes, name, i);
    }

    /** Creates or replaces the named child; panics on a node without children. */
    method SetChild(n: Node, name: bytes, typ: byte, val: Val) returns (r: Result<Node, Failure>)
      ensures r == if n.val.Nodes? then Ok(Set(n, name, typ, val)) else Err(Crash)
    {
      if !n.val.Nodes? {
        return Err(Crash);
      }
      var nodes := n.val.nodes;
      var i := FindChild(n, name);
      if i < |nodes| {
        return Ok(n.(val := Nodes(nodes[i := Node(name, typ, val)])));
      }
      return Ok(n.(val := Nodes(nodes + [Node(name, typ, val)])));
    }

    /** Renames every entry of that address; panics on one without children. */
    method RenameMatching(before: seq<Node>, name: bytes, addr: bytes)
      returns (r: Result<seq<Node>, Failure>, changed: bool)
      ensures r == if Updatable(before, addr) then Ok(Updated(before, name, addr)) else Err(Crash)
      ensures r.Ok? ==> (changed <==> AnyMatches(before, addr))
    {
      var list := before;
      changed := false;
      hide StringOf, Set;
      for k := 0 to |before|
        invariant |list| == |before|
        invariant forall j :: k <= j < |before| ==> list[j] == before[j]
        invariant forall j :: 0 <= j < k && Matches(before[j], addr) ==> before[j].val.Nodes?
        invariant forall j :: 0 <= j < k ==>
                    list[j] == if Matches(before[j], addr) then Renamed(before[j], name) else before[j]
        invariant changed <==> exists j :: 0 <= j < k && Matches(before[j], addr)
      {
        if Matches(list[k], addr) {
          var e := SetChild(list[k], NAME, STRING, Text(name));
          if e.Err? {
            return Err(e.error), changed;
          }
          list := list[k := e.value];
          changed := true;
        }
      }
      assert Updatable(before, addr) && list == Updated(before, name, addr);
      return Ok(list), changed;
    }

    method AddServer(name: bytes, addr: bytes) returns (r: Result<bool, Failure>)
      modifies this
      ensures match Merge(old(root), name, addr)
              case Ok(root') => r == Ok(true) && root == root'
              case Err(e) => r == Err(e)
    {
      if !root.val.Nodes? {
        return Err(Crash);
      }
      var i := FindChild(root, SERVERS);
      if i == |root.val.nodes| {
        root := root.(val := Nodes(root.val.nodes + [Node(SERVERS, LIST, Nodes([]))]));
      }
      assert root.val.nodes == WithServers(old(root).val.nodes);
      var servers := root.val.nodes[i];
      if !servers.val.Nodes? {
        return Err(Crash);
      }
      var before := servers.val.nodes;
      var renamed, changed := RenameMatching(before, name, addr);
      if renamed.Err? {
        return Err(renamed.error);
      }
      var list := renamed.value;
      if !changed {
        assert list == before;
        list := list + [Entry(name, addr)];
        changed := true;
      }
      root := root.(val := Nodes(root.val.nodes[i := servers.(val := Nodes(list))]));
      return Ok(changed);
    }
  }
}
