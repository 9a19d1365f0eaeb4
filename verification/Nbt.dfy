/**
 The tagged binary format of servers.dat: what the reader accepts, what the writer produces, and how
 the two relate.
 */
module Nbt {
  import opened Wrappers
  import opened Bytes

  const END: byte := 0x00
  const BYTE: byte := 0x01
  const SHORT: byte := 0x02
  const INT: byte := 0x03
  const LONG: byte := 0x04
  const FLOAT: byte := 0x05
  const DOUBLE: byte := 0x06
  const BYTE_ARRAY: byte := 0x07
  const STRING: byte := 0x08
  const LIST: byte := 0x09
  const COMPOUND: byte := 0x0A
  const INT_ARRAY: byte := 0x0B
  const LONG_ARRAY: byte := 0x0C

  /** One more than the largest length an int32 holds. */
  const LENGTH_LIMIT: nat := 0x8000_0000

  /** Crash is a run-time panic: a negative length, or a value that is not of the type its tag says. */
  datatype Failure = Truncated | UnknownTag | TooLong | Crash | LooseEmptyList

  /**
   A value by its dynamic type. Numbers are kept as the unsigned value of their bytes; nothing here
   computes with them.
   */
  datatype Val =
    | Scalar(kind: byte, raw: nat)
    | Raw(data: bytes)
    | Text(text: bytes)
    | Nodes(nodes: seq<Node>)
    | Numbers(width: nat, items: seq<nat>)    // []int32 at width 4, []int64 at width 8

  /** A named value; the elements of a list have empty names and repeat the list's element type. */
  datatype Node = Node(name: bytes, typ: byte, val: Val)

  type Read<T> = Result<(T, bytes), Failure>

  /** The bytes a number tag takes; 0 for every other tag. */
  function WidthOf(typ: byte): nat
  {
    if typ == BYTE then 1
    else if typ == SHORT then 2
    else if typ == INT || typ == FLOAT then 4
    else if typ == LONG || typ == DOUBLE then 8
    else 0
  }

  /** The bytes an element of a number array takes; 0 for every other tag. */
  function ItemWidth(typ: byte): nat
  {
    if typ == INT_ARRAY then 4 else if typ == LONG_ARRAY then 8 else 0
  }

  // ---- reading ----

  function Take(n: nat, input: bytes): Read<bytes>
  {
    if |input| < n then Err(Truncated) else Ok((input[..n], input[n..]))
  }

  function ReadNumber(width: nat, input: bytes): Read<nat>
  {
    if |input| < width then Err(Truncated) else Ok((FromBigEndian(input[..width]), input[width..]))
  }

  /** A signed 32-bit length, which must not be negative. */
  function ReadLength(input: bytes): Read<nat>
  {
    match ReadNumber(4, input)
    case Err(e) => Err(e)
    case Ok((n, rest)) => if n < LENGTH_LIMIT then Ok((n, rest)) else Err(Crash)
  }

  function ReadString(input: bytes): (r: Read<bytes>)
    ensures r.Ok? ==> |r.value.1| + 2 + |r.value.0| == |input|
  {
    match ReadNumber(2, input)
    case Err(e) => Err(e)
    case Ok((n, rest)) => Take(n, rest)
  }

  /** What comes first, then what was read after it. */
  function Prepend<T>(first: seq<T>, r: Read<seq<T>>): Read<seq<T>>
  {
    match r
    case Err(e) => Err(e)
    case Ok((xs, rest)) => Ok((first + xs, rest))
  }

  function ReadNumbers(width: nat, n: nat, input: bytes): (r: Read<seq<nat>>)
    ensures r.Ok? ==> |r.value.1| <= |input|
  {
    if n == 0 then Ok(([], input))
    else
      match ReadNumber(width, input)
      case Err(e) => Err(e)
      case Ok((x, rest)) => Prepend([x], ReadNumbers(width, n - 1, rest))
  }

  function AsNodes(r: Read<seq<Node>>): Read<Val>
  {
    match r
    case Err(e) => Err(e)
    case Ok((nodes, rest)) => Ok((Nodes(nodes), rest))
  }

  /**
   The reader. It terminates on every input because each value takes at least one byte. The strict
   one also refuses an empty list whose element type is not END; the program's is not strict.
   */
  function ReadValue(strict: bool, typ: byte, input: bytes): (r: Read<Val>)
    ensures r.Ok? ==> |r.value.1| < |input|
    decreases |input|, 2
  {
    if WidthOf(typ) > 0 then
      match ReadNumber(WidthOf(typ), input)
      case Err(e) => Err(e)
      case Ok((x, rest)) => Ok((Scalar(typ, x), rest))
    else if typ == BYTE_ARRAY then
      match ReadLength(input)
      case Err(e) => Err(e)
      case Ok((n, rest)) => (match Take(n, rest) case Err(e) => Err(e) case Ok((b, after)) => Ok((Raw(b), after)))
    else if typ == STRING then
      match ReadString(input)
      case Err(e) => Err(e)
      case Ok((s, rest)) => Ok((Text(s), rest))
    else if typ == LIST then
      if input == [] then Err(Truncated)
      else
        match ReadLength(input[1..])
        case Err(e) => Err(e)
        case Ok((n, rest)) =>
          if strict && n == 0 && input[0] != END then Err(LooseEmptyList)
          else AsNodes(ReadElements(strict, input[0], n, rest))
    else if typ == COMPOUND then AsNodes(ReadChildren(strict, input))
    else if ItemWidth(typ) > 0 then
      match ReadLength(input)
      case Err(e) => Err(e)
      case Ok((n, rest)) =>
        (match ReadNumbers(ItemWidth(typ), n, rest)
         case Err(e) => Err(e)
         case Ok((xs, after)) => Ok((Numbers(ItemWidth(typ), xs), after)))
    else Err(UnknownTag)
  }

  function ReadElements(strict: bool, typ: byte, n: nat, input: bytes): (r: Read<seq<Node>>)
    ensures r.Ok? ==> |r.value.1| + n <= |input|
    decreases |input|, 3
  {
    if n == 0 then Ok(([], input))
    else
      match ReadValue(strict, typ, input)
      case Err(e) => Err(e)
      case Ok((v, rest)) => Prepend([Node([], typ, v)], ReadElements(strict, typ, n - 1, rest))
  }

  function ReadChildren(strict: bool, input: bytes): (r: Read<seq<Node>>)
    ensures r.Ok? ==> |r.value.1| < |input|
    decreases |input|, 1
  {
    match ReadNode(strict, input)
    case Err(e) => Err(e)
    case Ok((None, rest)) => Ok(([], rest))
    case Ok((Some(c), rest)) => Prepend([c], ReadChildren(strict, rest))
  }

  /** One named value, or None for END. */
  function ReadNode(strict: bool, input: bytes): (r: Read<Option<Node>>)
    ensures r.Ok? ==> |r.value.1| < |input|
    decreases |input|, 0
  {
    if input == [] then Err(Truncated)
    else if input[0] == END then Ok((None, input[1..]))
    else
      match ReadString(input[1..])
      case Err(e) => Err(e)
      case Ok((name, rest)) =>
        (match ReadValue(strict, input[0], rest)
         case Err(e) => Err(e)
         case Ok((v, after)) => Ok((Some(Node(name, input[0], v)), after)))
  }

  // ---- writing ----

  function WriteString(s: bytes): Result<bytes, Failure>
  {
    if |s| >= LIMIT16 then Err(TooLong) else Ok(BigEndian(2, |s|) + s)
  }

  /** A length as an int32, which keeps its low 32 bits. */
  function WriteLength(n: nat): bytes
  {
    BigEndian(4, n % LIMIT32)
  }

  function WriteNumbers(width: nat, items: seq<nat>): bytes
  {
    if items == [] then [] else BigEndian(width, items[0]) + WriteNumbers(width, items[1..])
  }

  function Join(first: Result<bytes, Failure>, second: Result<bytes, Failure>): Result<bytes, Failure>
  {
    match first
    case Err(e) => Err(e)
    case Ok(a) => (match second case Err(e) => Err(e) case Ok(b) => Ok(a + b))
  }

  /** The element type written for a list: that of its first element, or END. */
  function ElementType(nodes: seq<Node>): byte
  {
    if nodes == [] then END else nodes[0].typ
  }

  function WriteValue(typ: byte, val: Val): Result<bytes, Failure>
    decreases val, 0
  {
    if WidthOf(typ) > 0 then
      if val.Scalar? && val.kind == typ then Ok(BigEndian(WidthOf(typ), val.raw)) else Err(Crash)
    else if typ == BYTE_ARRAY then
      if val.Raw? then Ok(WriteLength(|val.data|) + val.data) else Err(Crash)
    else if typ == STRING then
      if val.Text? then WriteString(val.text) else Err(Crash)
    else if typ == LIST then
      if val.Nodes? then Join(Ok([ElementType(val.nodes)] + WriteLength(|val.nodes|)), WriteElements(val.nodes))
      else Err(Crash)
    else if typ == COMPOUND then
      if val.Nodes? then WriteChildren(val.nodes) else Err(Crash)
    else if ItemWidth(typ) > 0 then
      if val.Numbers? && val.width == ItemWidth(typ) then
        Ok(WriteLength(|val.items|) + WriteNumbers(val.width, val.items))
      else Err(Crash)
    else Err(UnknownTag)
  }

  function WriteElements(nodes: seq<Node>): Result<bytes, Failure>
    decreases nodes, 1
  {
    if nodes == [] then Ok([])
    else Join(WriteValue(nodes[0].typ, nodes[0].val), WriteElements(nodes[1..]))
  }

  function WriteChildren(nodes: seq<Node>): Result<bytes, Failure>
    decreases nodes, 1
  {
    if nodes == [] then Ok([END])
    else Join(WriteNode(nodes[0]), WriteChildren(nodes[1..]))
  }

  function WriteNode(node: Node): Result<bytes, Failure>
    decreases node, 0
  {
    Join(Join(Ok([node.typ]), WriteString(node.name)), WriteValue(node.typ, node.val))
  }

  // ---- well-formed trees ----

  /** The values the format can spell: homogeneous lists, and strings and lengths that fit their length fields. */
  predicate WellFormed(typ: byte, val: Val)
    decreases val, 0
  {
    match val
    case Scalar(kind, raw) => WidthOf(typ) > 0 && kind == typ && raw < Pow256(WidthOf(typ))
    case Raw(data) => typ == BYTE_ARRAY && |data| < LENGTH_LIMIT
    case Text(text) => typ == STRING && |text| < LIMIT16
    case Numbers(width, items) =>
      && ItemWidth(typ) > 0 && width == ItemWidth(typ) && |items| < LENGTH_LIMIT
      && forall x :: x in items ==> x < Pow256(width)
    case Nodes(nodes) =>
      || (typ == LIST && |nodes| < LENGTH_LIMIT && AllElements(ElementType(nodes), nodes))
      || (typ == COMPOUND && AllChildren(nodes))
  }

  predicate AllElements(typ: byte, nodes: seq<Node>)
    decreases nodes, 1
  {
    || nodes == []
    || (nodes[0].name == [] && nodes[0].typ == typ && WellFormed(typ, nodes[0].val) && AllElements(typ, nodes[1..]))
  }

  predicate AllChildren(nodes: seq<Node>)
    decreases nodes, 1
  {
    nodes == [] || (WellFormedNode(nodes[0]) && AllChildren(nodes[1..]))
  }

  predicate WellFormedNode(node: Node)
    decreases node, 0
  {
    |node.name| < LIMIT16 && WellFormed(node.typ, node.val)
  }

  lemma NumbersStep(width: nat, n: nat, input: bytes, x: nat, rest: bytes)
    requires ReadNumber(width, input) == Ok((x, rest))
    ensures ReadNumbers(width, n + 1, input) == Prepend([x], ReadNumbers(width, n, rest))
  {
  }

  lemma ElementsStep(strict: bool, typ: byte, n: nat, input: bytes, v: Val, rest: bytes)
    requires ReadValue(strict, typ, input) == Ok((v, rest))
    ensures ReadElements(strict, typ, n + 1, input) == Prepend([Node([], typ, v)], ReadElements(strict, typ, n, rest))
  {
    hide ReadValue;
  }

  lemma ChildrenStep(strict: bool, input: bytes, c: Node, rest: bytes)
    requires ReadNode(strict, input) == Ok((Some(c), rest))
    ensures ReadChildren(strict, input) == Prepend([c], ReadChildren(strict, rest))
  {
    hide ReadNode;
  }

  // ---- the format, byte by byte ----

  /** Four bytes that hold a length, as a signed number that is not negative. */
  predicate Counts(b: bytes, n: nat)
  {
    FromBigEndian(b) == n && n < 0x8000_0000
  }

  predicate SpellsNumbers(width: nat, items: seq<nat>, b: bytes)
  {
    if items == [] then b == []
    else |b| >= width && items[0] == FromBigEndian(b[..width]) && SpellsNumbers(width, items[1..], b[width..])
  }

  /** b is v as a value of tag typ, with the tags and widths of the format written out. */
  ghost predicate Spells(typ: byte, v: Val, b: bytes)
    decreases v, 0
  {
    match v
    case Scalar(kind, raw) =>
      && kind == typ && raw == FromBigEndian(b)
      && ((typ == 1 && |b| == 1) || (typ == 2 && |b| == 2)
          || ((typ == 3 || typ == 5) && |b| == 4) || ((typ == 4 || typ == 6) && |b| == 8))
    case Raw(data) => typ == 7 && |b| >= 4 && Counts(b[..4], |data|) && b[4..] == data
    case Text(text) => typ == 8 && |b| >= 2 && FromBigEndian(b[..2]) == |text| && b[2..] == text
    case Nodes(nodes) =>
      || (typ == 9 && |b| >= 5 && Counts(b[1..5], |nodes|) && SpellsElements(b[0], nodes, b[5..]))
      || (typ == 10 && SpellsChildren(nodes, b))
    case Numbers(width, items) =>
      && ((typ == 11 && width == 4) || (typ == 12 && width == 8))
      && |b| >= 4 && Counts(b[..4], |items|) && SpellsNumbers(width, items, b[4..])
  }

  /** The elements of a list, one behind the other. */
  ghost predicate SpellsElements(typ: byte, nodes: seq<Node>, b: bytes)
    decreases nodes, 1
  {
    if nodes == [] then b == []
    else
      && nodes[0].name == [] && nodes[0].typ == typ
      && exists i :: 0 <= i <= |b| && Spells(typ, nodes[0].val, b[..i]) && SpellsElements(typ, nodes[1..], b[i..])
  }

  /** Named values, one behind the other, and a zero byte at the end. */
  ghost predicate SpellsChildren(nodes: seq<Node>, b: bytes)
    decreases nodes, 1
  {
    if nodes == [] then b == [0]
    else exists i :: 0 <= i <= |b| && SpellsNode(nodes[0], b[..i]) && SpellsChildren(nodes[1..], b[i..])
  }

  /** The tag, the length of the name in two bytes, the name, the value. */
  ghost predicate SpellsNode(n: Node, b: bytes)
    decreases n, 0
  {
    && n.typ != 0 && |b| >= 3 + |n.name| && b[0] == n.typ && FromBigEndian(b[1..3]) == |n.name|
    && b[3..3 + |n.name|] == n.name && Spells(n.typ, n.val, b[3 + |n.name|..])
  }

  /** What a reader took from its input. */
  function Taken(input: bytes, rest: bytes): bytes
  {
    if |rest| <= |input| then input[..|input| - |rest|] else []
  }

  lemma TakenApart(input: bytes, mid: bytes, rest: bytes)
    requires |rest| <= |mid| <= |input| && mid == input[|input| - |mid|..] && rest == mid[|mid| - |rest|..]
    ensures Taken(input, rest) == Taken(input, mid) + Taken(mid, rest)
    ensures rest == input[|input| - |rest|..]
  {
  }

  /** rest is what is left of input. */
  predicate Leaves(input: bytes, rest: bytes)
  {
    |rest| <= |input| && rest == input[|input| - |rest|..]
  }

  lemma {:induction false} ReadNumbersSpells(width: nat, n: nat, input: bytes)
    requires ReadNumbers(width, n, input).Ok?
    ensures var (xs, rest) := ReadNumbers(width, n, input).value;
            |xs| == n && Leaves(input, rest) && SpellsNumbers(width, xs, Taken(input, rest))
  {
    if n > 0 {
      var mid := input[width..];
      ReadNumbersSpells(width, n - 1, mid);
      var (xs, rest) := ReadNumbers(width, n, input).value;
      hide ReadNumbers, FromBigEndian;
      assert Taken(input, rest)[..width] == input[..width] && Taken(input, rest)[width..] == Taken(mid, rest);
    }
  }

  lemma ReadScalarSpells(strict: bool, typ: byte, input: bytes)
    requires WidthOf(typ) > 0 && ReadValue(strict, typ, input).Ok?
    ensures var (v, rest) := ReadValue(strict, typ, input).value;
            Leaves(input, rest) && Spells(typ, v, Taken(input, rest))
  {
    var n := WidthOf(typ);
    var rest := ReadValue(strict, typ, input).value.1;
    assert rest == input[n..];
    hide FromBigEndian, ReadValue;
    assert Taken(input, rest) == input[..n];
  }

  lemma ReadTextSpells(strict: bool, typ: byte, input: bytes)
    requires (typ == BYTE_ARRAY || typ == STRING) && ReadValue(strict, typ, input).Ok?
    ensures var (v, rest) := ReadValue(strict, typ, input).value;
            Leaves(input, rest) && Spells(typ, v, Taken(input, rest))
  {
    var (v, rest) := ReadValue(strict, typ, input).value;
    hide FromBigEndian;
    var k := if typ == STRING then 2 else 4;
    var text := if typ == STRING then v.text else v.data;
    assert rest == input[k..][|text|..] && text == input[k..][..|text|];
    assert Taken(input, rest)[..k] == input[..k] && Taken(input, rest)[k..] == text;
  }

  lemma ReadArraySpells(strict: bool, typ: byte, input: bytes)
    requires ItemWidth(typ) > 0 && ReadValue(strict, typ, input).Ok?
    ensures var (v, rest) := ReadValue(strict, typ, input).value;
            Leaves(input, rest) && Spells(typ, v, Taken(input, rest))
  {
    var (v, rest) := ReadValue(strict, typ, input).value;
    hide FromBigEndian, ReadNumbers, SpellsNumbers;
    ReadNumbersSpells(ItemWidth(typ), ReadLength(input).value.0, input[4..]);
    assert Taken(input, rest)[..4] == input[..4] && Taken(input, rest)[4..] == Taken(input[4..], rest);
  }

  lemma ListSpells(input: bytes, nodes: seq<Node>, rest: bytes)
    requires |input| >= 5 && Counts(input[1..][..4], |nodes|) && Leaves(input[5..], rest)
    requires SpellsElements(input[0], nodes, Taken(input[5..], rest))
    ensures Leaves(input, rest) && Spells(9, Nodes(nodes), Taken(input, rest))
  {
    hide Counts, SpellsElements;
    var b := Taken(input, rest);
    assert b[0] == input[0] && b[1..5] == input[1..][..4] && b[5..] == Taken(input[5..], rest);
  }

  lemma ListRead(strict: bool, input: bytes)
    requires ReadValue(strict, LIST, input).Ok?
    ensures |input| >= 5 && ReadLength(input[1..]).Ok?
    ensures var (n, more) := ReadLength(input[1..]).value;
            && Counts(input[1..][..4], n) && more == input[5..] && ReadElements(strict, input[0], n, more).Ok?
            && var (nodes, rest) := ReadElements(strict, input[0], n, more).value;
               ReadValue(strict, LIST, input).value == (Nodes(nodes), rest)
  {
    hide FromBigEndian, ReadElements;
  }

  lemma {:induction false} ReadListSpells(strict: bool, input: bytes)
    requires ReadValue(strict, LIST, input).Ok?
    ensures var (v, rest) := ReadValue(strict, LIST, input).value;
            Leaves(input, rest) && Spells(LIST, v, Taken(input, rest))
    decreases |input|, 1
  {
    hide ReadValue, ReadLength, ReadElements, Counts, Spells, SpellsElements;
    ListRead(strict, input);
    var (n, more) := ReadLength(input[1..]).value;
    var (nodes, rest) := ReadElements(strict, input[0], n, more).value;
    ReadElementsSpell(strict, input[0], n, more);
    ListSpells(input, nodes, rest);
  }

  /** Whatever the reader accepts spells the value it returns, and it leaves exactly the rest. */
  lemma {:induction false} ReadSpells(strict: bool, typ: byte, input: bytes)
    requires ReadValue(strict, typ, input).Ok?
    ensures var (v, rest) := ReadValue(strict, typ, input).value;
            Leaves(input, rest) && Spells(typ, v, Taken(input, rest))
    decreases |input|, 2
  {
    if WidthOf(typ) > 0 {
      hide ReadValue, Spells;
      ReadScalarSpells(strict, typ, input);
    } else if typ == BYTE_ARRAY || typ == STRING {
      hide ReadValue, Spells;
      ReadTextSpells(strict, typ, input);
    } else if typ == LIST {
      hide ReadValue, Spells;
      ReadListSpells(strict, input);
    } else if typ == COMPOUND {
      ReadChildrenSpell(strict, input);
      hide ReadChildren, SpellsChildren;
    } else {
      assert ItemWidth(typ) > 0;
      hide ReadValue, Spells;
      ReadArraySpells(strict, typ, input);
    }
  }

  lemma NoElementsSpelled(typ: byte)
    ensures SpellsElements(typ, [], [])
  {
  }

  lemma ElementSpelledFirst(typ: byte, v: Val, nodes: seq<Node>, a: bytes, b: bytes)
    requires Spells(typ, v, a) && SpellsElements(typ, nodes, b)
    ensures SpellsElements(typ, [Node([], typ, v)] + nodes, a + b)
  {
    hide Spells;
    var all := [Node([], typ, v)] + nodes;
    assert all[1..] == nodes && (a + b)[..|a|] == a && (a + b)[|a|..] == b;
  }

  lemma {:induction false} ReadElementsSpell(strict: bool, typ: byte, n: nat, input: bytes)
    requires ReadElements(strict, typ, n, input).Ok?
    ensures var (nodes, rest) := ReadElements(strict, typ, n, input).value;
            |nodes| == n && Leaves(input, rest) && SpellsElements(typ, nodes, Taken(input, rest))
    decreases |input|, 3
  {
    hide ReadValue, Spells, SpellsElements;
    if n == 0 {
      NoElementsSpelled(typ);
    } else {
      var (v, mid) := ReadValue(strict, typ, input).value;
      var (tail, rest) := ReadElements(strict, typ, n - 1, mid).value;
      ReadSpells(strict, typ, input);
      ReadElementsSpell(strict, typ, n - 1, mid);
      ElementsStep(strict, typ, n - 1, input, v, mid);
      hide ReadElements;
      TakenApart(input, mid, rest);
      ElementSpelledFirst(typ, v, tail, Taken(input, mid), Taken(mid, rest));
    }
  }

  lemma EndSpells(strict: bool, input: bytes)
    requires ReadNode(strict, input).Ok? && ReadNode(strict, input).value.0.None?
    ensures var rest := ReadNode(strict, input).value.1;
            && ReadChildren(strict, input) == Ok(([], rest))
            && Leaves(input, rest) && SpellsChildren([], Taken(input, rest))
  {
    var rest := ReadNode(strict, input).value.1;
    hide ReadString, ReadValue, SpellsNode;
    assert rest == input[1..] && Taken(input, rest) == [0];
  }

  lemma ChildSpelledFirst(c: Node, nodes: seq<Node>, a: bytes, b: bytes)
    requires SpellsNode(c, a) && SpellsChildren(nodes, b)
    ensures SpellsChildren([c] + nodes, a + b)
  {
    hide SpellsNode;
    var all := [c] + nodes;
    assert all[1..] == nodes && (a + b)[..|a|] == a && (a + b)[|a|..] == b;
  }

  lemma {:induction false} ReadChildrenSpell(strict: bool, input: bytes)
    requires ReadChildren(strict, input).Ok?
    ensures var (nodes, rest) := ReadChildren(strict, input).value;
            Leaves(input, rest) && SpellsChildren(nodes, Taken(input, rest))
    decreases |input|, 1
  {
    hide ReadNode, SpellsNode, SpellsChildren;
    var (c, mid) := ReadNode(strict, input).value;
    if c.None? {
      EndSpells(strict, input);
    } else {
      var (tail, rest) := ReadChildren(strict, mid).value;
      ReadNodeSpells(strict, input);
      ReadChildrenSpell(strict, mid);
      ChildrenStep(strict, input, c.value, mid);
      hide ReadChildren;
      TakenApart(input, mid, rest);
      ChildSpelledFirst(c.value, tail, Taken(input, mid), Taken(mid, rest));
    }
  }

  lemma NodeSpells(input: bytes, n: Node, mid: bytes, rest: bytes)
    requires |input| >= 3 + |n.name| && mid == input[3 + |n.name|..] && Leaves(mid, rest)
    requires n.typ != 0 && input[0] == n.typ && FromBigEndian(input[1..3]) == |n.name|
    requires input[3..3 + |n.name|] == n.name && Spells(n.typ, n.val, Taken(mid, rest))
    ensures Leaves(input, rest) && SpellsNode(n, Taken(input, rest))
  {
    hide FromBigEndian, Spells;
    var b, k := Taken(input, rest), 3 + |n.name|;
    assert b[0] == input[0] && b[1..3] == input[1..3] && b[3..k] == input[3..k] && b[k..] == Taken(mid, rest);
  }

  lemma NameRead(input: bytes)
    requires input != [] && ReadString(input[1..]).Ok?
    ensures var (name, mid) := ReadString(input[1..]).value;
            && |input| >= 3 + |name| && mid == input[3 + |name|..]
            && FromBigEndian(input[1..3]) == |name| && input[3..3 + |name|] == name
  {
    hide FromBigEndian;
    var (name, mid) := ReadString(input[1..]).value;
    assert input[1..][..2] == input[1..3] && input[1..][2..] == input[3..];
    assert input[3..][..|name|] == input[3..3 + |name|] && input[3..][|name|..] == input[3 + |name|..];
  }

  lemma {:induction false} ReadNodeSpells(strict: bool, input: bytes)
    requires ReadNode(strict, input).Ok? && ReadNode(strict, input).value.0.Some?
    ensures var (n, rest) := ReadNode(strict, input).value;
            Leaves(input, rest) && SpellsNode(n.value, Taken(input, rest))
    decreases |input|, 0
  {
    hide ReadValue, ReadString, FromBigEndian, Spells, SpellsNode, Taken, Leaves;
    var (n, rest) := ReadNode(strict, input).value;
    var (name, mid) := ReadString(input[1..]).value;
    NameRead(input);
    ReadSpells(strict, input[0], mid);
    hide ReadNode;
    NodeSpells(input, n.value, mid, rest);
  }

  lemma {:induction false} SpelledNumbersRead(width: nat, items: seq<nat>, b: bytes, suffix: bytes)
    requires SpellsNumbers(width, items, b)
    ensures ReadNumbers(width, |items|, b + suffix) == Ok((items, suffix))
  {
    if items == [] {
      assert b + suffix == suffix;
    } else {
      SpelledNumbersRead(width, items[1..], b[width..], suffix);
      hide FromBigEndian;
      assert (b + suffix)[..width] == b[..width] && (b + suffix)[width..] == b[width..] + suffix;
      hide ReadNumbers, SpellsNumbers;
      NumbersStep(width, |items| - 1, b + suffix, items[0], b[width..] + suffix);
      assert [items[0]] + items[1..] == items;
    }
  }

  lemma SpelledScalarReads(typ: byte, v: Val, b: bytes, suffix: bytes)
    requires v.Scalar? && Spells(typ, v, b)
    ensures ReadValue(false, typ, b + suffix) == Ok((v, suffix))
  {
    hide FromBigEndian;
    assert (b + suffix)[..|b|] == b && (b + suffix)[|b|..] == suffix;
  }

  lemma SpelledTextReads(typ: byte, v: Val, b: bytes, suffix: bytes)
    requires (v.Text? || v.Raw?) && Spells(typ, v, b)
    ensures ReadValue(false, typ, b + suffix) == Ok((v, suffix))
  {
    hide FromBigEndian;
    var k := if v.Text? then 2 else 4;
    assert (b + suffix)[..k] == b[..k] && (b + suffix)[k..] == b[k..] + suffix;
  }

  lemma SpelledArrayReads(typ: byte, v: Val, b: bytes, suffix: bytes)
    requires v.Numbers? && Spells(typ, v, b)
    ensures ReadValue(false, typ, b + suffix) == Ok((v, suffix))
  {
    hide FromBigEndian, ReadNumbers, SpellsNumbers;
    assert (b + suffix)[..4] == b[..4] && (b + suffix)[4..] == b[4..] + suffix;
    SpelledNumbersRead(v.width, v.items, b[4..], suffix);
  }

  lemma {:induction false} SpelledListReads(v: Val, b: bytes, suffix: bytes)
    requires v.Nodes? && Spells(9, v, b)
    ensures ReadValue(false, 9, b + suffix) == Ok((v, suffix))
    decreases v.nodes, 2
  {
    hide FromBigEndian, ReadElements, SpellsElements;
    assert (b + suffix)[1..][..4] == b[1..5] && (b + suffix)[1..][4..] == b[5..] + suffix;
    SpelledElementsRead(b[0], v.nodes, b[5..], suffix);
  }

  /** Bytes that spell a value are read as that value, whatever follows them. */
  lemma {:induction false} SpelledReads(typ: byte, v: Val, b: bytes, suffix: bytes)
    requires Spells(typ, v, b)
    ensures ReadValue(false, typ, b + suffix) == Ok((v, suffix))
    decreases v, 0
  {
    match v
    case Scalar(_, _) => hide ReadValue, Spells; SpelledScalarReads(typ, v, b, suffix);
    case Raw(_) => hide ReadValue, Spells; SpelledTextReads(typ, v, b, suffix);
    case Text(_) => hide ReadValue, Spells; SpelledTextReads(typ, v, b, suffix);
    case Numbers(_, _) => hide ReadValue, Spells; SpelledArrayReads(typ, v, b, suffix);
    case Nodes(nodes) =>
      if typ == 9 {
        hide ReadValue, Spells;
        SpelledListReads(v, b, suffix);
      } else {
        hide ReadChildren, SpellsChildren;
        SpelledChildrenRead(nodes, b, suffix);
      }
  }

  lemma {:induction false} SpelledElementsRead(typ: byte, nodes: seq<Node>, b: bytes, suffix: bytes)
    requires SpellsElements(typ, nodes, b)
    ensures ReadElements(false, typ, |nodes|, b + suffix) == Ok((nodes, suffix))
    decreases nodes, 1
  {
    hide ReadValue, Spells;
    if nodes == [] {
      assert b + suffix == suffix;
    } else {
      var i :| 0 <= i <= |b| && Spells(typ, nodes[0].val, b[..i]) && SpellsElements(typ, nodes[1..], b[i..]);
      SpelledReads(typ, nodes[0].val, b[..i], b[i..] + suffix);
      SpelledElementsRead(typ, nodes[1..], b[i..], suffix);
      hide ReadElements, SpellsElements;
      assert b[..i] + (b[i..] + suffix) == b + suffix;
      ElementsStep(false, typ, |nodes| - 1, b + suffix, nodes[0].val, b[i..] + suffix);
      assert [nodes[0]] + nodes[1..] == nodes && Node([], typ, nodes[0].val) == nodes[0];
    }
  }

  lemma EndReads(suffix: bytes)
    ensures ReadChildren(false, [0] + suffix) == Ok(([], suffix))
  {
    assert ([0] + suffix)[1..] == suffix;
  }

  lemma {:induction false} SpelledChildrenRead(nodes: seq<Node>, b: bytes, suffix: bytes)
    requires SpellsChildren(nodes, b)
    ensures ReadChildren(false, b + suffix) == Ok((nodes, suffix))
    decreases nodes, 1
  {
    hide ReadChildren, ReadNode, SpellsNode;
    if nodes == [] {
      EndReads(suffix);
    } else {
      var i :| 0 <= i <= |b| && SpellsNode(nodes[0], b[..i]) && SpellsChildren(nodes[1..], b[i..]);
      SpelledNodeReads(nodes[0], b[..i], b[i..] + suffix);
      SpelledChildrenRead(nodes[1..], b[i..], suffix);
      hide SpellsChildren;
      assert b[..i] + (b[i..] + suffix) == b + suffix;
      ChildrenStep(false, b + suffix, nodes[0], b[i..] + suffix);
      assert [nodes[0]] + nodes[1..] == nodes;
    }
  }

  lemma {:induction false} SpelledNodeReads(n: Node, b: bytes, suffix: bytes)
    requires SpellsNode(n, b)
    ensures ReadNode(false, b + suffix) == Ok((Some(n), suffix))
    decreases n, 0
  {
    var k := 3 + |n.name|;
    SpelledReads(n.typ, n.val, b[k..], suffix);
    hide ReadValue, Spells, FromBigEndian;
    var input := b + suffix;
    assert input[0] == b[0] && input[1..][..2] == b[1..3] && input[1..][2..][..|n.name|] == b[3..k];
    assert input[1..][2..][|n.name|..] == b[k..] + suffix;
  }

  /** The reader takes exactly the bytes that spell a value, as that value. */
  lemma ReadsWhatIsSpelled(typ: byte, input: bytes, v: Val, rest: bytes)
    ensures ReadValue(false, typ, input) == Ok((v, rest)) <==>
              Leaves(input, rest) && Spells(typ, v, Taken(input, rest))
  {
    hide ReadValue, Spells;
    if ReadValue(false, typ, input) == Ok((v, rest)) { ReadSpells(false, typ, input); }
    if Leaves(input, rest) && Spells(typ, v, Taken(input, rest)) {
      SpelledReads(typ, v, Taken(input, rest), rest);
      assert Taken(input, rest) + rest == input;
    }
  }

  // ---- what is written reads back ----

  lemma NumberRoundTrip(width: nat, x: nat, suffix: bytes)
    requires x < Pow256(width)
    ensures ReadNumber(width, BigEndian(width, x) + suffix) == Ok((x, suffix))
  {
    DecodeEncode(width, x);
    hide BigEndian, FromBigEndian, Pow256;
    var b := BigEndian(width, x);
    assert (b + suffix)[..width] == b && (b + suffix)[width..] == suffix;
  }

  lemma LengthRoundTrip(n: nat, suffix: bytes)
    requires n < LENGTH_LIMIT
    ensures ReadLength(WriteLength(n) + suffix) == Ok((n, suffix))
  {
    Pow256Widths();
    NumberRoundTrip(4, n, suffix);
  }

  lemma StringRoundTrip(s: bytes, suffix: bytes)
    requires |s| < LIMIT16
    ensures WriteString(s).Ok? && ReadString(WriteString(s).value + suffix) == Ok((s, suffix))
  {
    Pow256Widths();
    NumberRoundTrip(2, |s|, s + suffix);
    assert WriteString(s).value + suffix == BigEndian(2, |s|) + (s + suffix);
  }

  lemma Regroup(a: bytes, b: bytes, c: bytes)
    ensures (a + b) + c == a + (b + c)
  {
  }

  lemma {:induction false} NumbersRoundTrip(width: nat, items: seq<nat>, suffix: bytes)
    requires forall x :: x in items ==> x < Pow256(width)
    ensures ReadNumbers(width, |items|, WriteNumbers(width, items) + suffix) == Ok((items, suffix))
  {
    hide ReadNumber, BigEndian, Pow256;
    if items == [] {
      assert [] + suffix == suffix;
    } else {
      hide ReadNumbers;
      assert items[0] in items && forall x :: x in items[1..] ==> x in items;
      NumbersRoundTrip(width, items[1..], suffix);
      var a, b := BigEndian(width, items[0]), WriteNumbers(width, items[1..]);
      assert WriteNumbers(width, items) == a + b;
      hide WriteNumbers;
      NumberRoundTrip(width, items[0], b + suffix);
      Regroup(a, b, suffix);
      NumbersStep(width, |items| - 1, a + (b + suffix), items[0], b + suffix);
      assert [items[0]] + items[1..] == items;
    }
  }

  /** A well-formed value is written, and whatever follows it, reads back exactly and leaves what follows. */
  lemma {:induction false} RoundTrip(strict: bool, typ: byte, val: Val, suffix: bytes)
    requires WellFormed(typ, val)
    ensures WriteValue(typ, val).Ok?
    ensures ReadValue(strict, typ, WriteValue(typ, val).value + suffix) == Ok((val, suffix))
    decreases val, 0
  {
    hide FromBigEndian, BigEndian, AllElements, AllChildren, WriteNumbers, ReadNumbers, Pow256;
    match val
    case Scalar(kind, raw) =>
      NumberRoundTrip(WidthOf(typ), raw, suffix);
    case Raw(data) =>
      LengthRoundTrip(|data|, data + suffix);
      assert WriteValue(typ, val).value + suffix == WriteLength(|data|) + (data + suffix);
    case Text(text) =>
      StringRoundTrip(text, suffix);
    case Numbers(width, items) =>
      var body := WriteNumbers(width, items);
      LengthRoundTrip(|items|, body + suffix);
      NumbersRoundTrip(width, items, suffix);
      assert WriteValue(typ, val).value + suffix == WriteLength(|items|) + (body + suffix);
    case Nodes(nodes) =>
      if typ == LIST {
        ListRoundTrip(strict, val, suffix);
      } else {
        ChildrenRoundTrip(strict, nodes, suffix);
      }
  }

  lemma {:induction false} ListRoundTrip(strict: bool, val: Val, suffix: bytes)
    requires val.Nodes? && |val.nodes| < LENGTH_LIMIT && AllElements(ElementType(val.nodes), val.nodes)
    ensures WriteValue(LIST, val).Ok?
    ensures ReadValue(strict, LIST, WriteValue(LIST, val).value + suffix) == Ok((val, suffix))
    decreases val.nodes, 2
  {
    var nodes := val.nodes;
    ElementsRoundTrip(strict, ElementType(nodes), nodes, suffix);
    var typ, head, body := ElementType(nodes), WriteLength(|nodes|), WriteElements(nodes).value;
    assert typ != END || nodes == [];
    assert WriteValue(LIST, val) == Ok(([typ] + head) + body);
    hide AllElements, ReadElements, WriteElements, WriteValue, WriteLength, ReadLength;
    LengthRoundTrip(|nodes|, body + suffix);
    Regroup([typ] + head, body, suffix);
    Regroup([typ], head, body + suffix);
    assert ([typ] + (head + (body + suffix)))[1..] == head + (body + suffix);
  }

  lemma {:induction false} ElementsRoundTrip(strict: bool, typ: byte, nodes: seq<Node>, suffix: bytes)
    requires AllElements(typ, nodes)
    ensures WriteElements(nodes).Ok?
    ensures ReadElements(strict, typ, |nodes|, WriteElements(nodes).value + suffix) == Ok((nodes, suffix))
    decreases nodes, 1
  {
    if nodes == [] {
      assert [] + suffix == suffix;
    } else {
      hide ReadValue, WriteValue, WellFormed;
      ElementsRoundTrip(strict, typ, nodes[1..], suffix);
      var b := WriteElements(nodes[1..]).value;
      RoundTrip(strict, typ, nodes[0].val, b + suffix);
      var a := WriteValue(typ, nodes[0].val).value;
      assert WriteElements(nodes) == Ok(a + b);
      assert Node([], typ, nodes[0].val) == nodes[0];
      hide ReadElements, WriteElements, AllElements;
      Regroup(a, b, suffix);
      ElementsStep(strict, typ, |nodes| - 1, a + (b + suffix), nodes[0].val, b + suffix);
      assert [nodes[0]] + nodes[1..] == nodes;
    }
  }

  lemma {:induction false} ChildrenRoundTrip(strict: bool, nodes: seq<Node>, suffix: bytes)
    requires AllChildren(nodes)
    ensures WriteChildren(nodes).Ok?
    ensures ReadChildren(strict, WriteChildren(nodes).value + suffix) == Ok((nodes, suffix))
    decreases nodes, 1
  {
    if nodes == [] {
      assert ([END] + suffix)[1..] == suffix;
    } else {
      hide ReadNode, WriteNode, WellFormedNode;
      ChildrenRoundTrip(strict, nodes[1..], suffix);
      var b := WriteChildren(nodes[1..]).value;
      NodeRoundTrip(strict, nodes[0], b + suffix);
      var a := WriteNode(nodes[0]).value;
      assert WriteChildren(nodes) == Ok(a + b);
      hide ReadChildren, WriteChildren, AllChildren;
      Regroup(a, b, suffix);
      ChildrenStep(strict, a + (b + suffix), nodes[0], b + suffix);
      assert [nodes[0]] + nodes[1..] == nodes;
    }
  }

  lemma {:induction false} NodeRoundTrip(strict: bool, node: Node, suffix: bytes)
    requires WellFormedNode(node)
    ensures WriteNode(node).Ok?
    ensures ReadNode(strict, WriteNode(node).value + suffix) == Ok((Some(node), suffix))
    decreases node, 0
  {
    RoundTrip(strict, node.typ, node.val, suffix);
    var b := WriteValue(node.typ, node.val).value;
    StringRoundTrip(node.name, b + suffix);
    var a := WriteString(node.name).value;
    assert node.typ != END && WriteNode(node) == Ok(([node.typ] + a) + b);
    hide ReadValue, WriteValue, WellFormed, ReadString, WriteString, WriteNode;
    Regroup([node.typ] + a, b, suffix);
    Regroup([node.typ], a, b + suffix);
    assert ([node.typ] + (a + (b + suffix)))[1..] == a + (b + suffix);
  }

  // ---- what is read writes back ----

  /** The value's bytes are as long as what was read, and equal to it if the reader was strict. */
  ghost predicate Respells(strict: bool, input: bytes, rest: bytes, written: Result<bytes, Failure>)
  {
    written.Ok? && |written.value| + |rest| == |input| && (strict ==> written.value + rest == input)
  }

  lemma NumberRespells(width: nat, input: bytes)
    requires ReadNumber(width, input).Ok?
    ensures var (x, rest) := ReadNumber(width, input).value;
            x < Pow256(width) && BigEndian(width, x) + rest == input
  {
    hide FromBigEndian, BigEndian;
    EncodeDecode(input[..width]);
    assert input[..width] + input[width..] == input;
  }

  lemma LengthRespells(input: bytes)
    requires ReadLength(input).Ok?
    ensures var (n, rest) := ReadLength(input).value;
            n < LENGTH_LIMIT && WriteLength(n) + rest == input
  {
    NumberRespells(4, input);
  }

  lemma StringRespells(input: bytes)
    requires ReadString(input).Ok?
    ensures var (s, rest) := ReadString(input).value;
            |s| < LIMIT16 && WriteString(s).Ok? && WriteString(s).value + rest == input
  {
    Pow256Widths();
    NumberRespells(2, input);
  }

  lemma {:induction false} NumbersRespell(width: nat, n: nat, input: bytes)
    requires ReadNumbers(width, n, input).Ok?
    ensures var (xs, rest) := ReadNumbers(width, n, input).value;
            |xs| == n && (forall x :: x in xs ==> x < Pow256(width)) && WriteNumbers(width, xs) + rest == input
  {
    if n == 0 {
      assert [] + input == input;
    } else {
      var (x, rest) := ReadNumber(width, input).value;
      NumberRespells(width, input);
      NumbersRespell(width, n - 1, rest);
      var (xs, after) := ReadNumbers(width, n - 1, rest).value;
      assert ([x] + xs)[1..] == xs;
    }
  }

  lemma PlainRespells(strict: bool, typ: byte, input: bytes)
    requires (WidthOf(typ) > 0 || typ == BYTE_ARRAY || typ == STRING) && ReadValue(strict, typ, input).Ok?
    ensures var (v, rest) := ReadValue(strict, typ, input).value;
            WellFormed(typ, v) && Respells(strict, input, rest, WriteValue(typ, v))
  {
    hide ReadNumber, ReadLength, ReadString, WriteLength, WriteString, BigEndian, Pow256;
    if WidthOf(typ) > 0 {
      NumberRespells(WidthOf(typ), input);
    } else if typ == BYTE_ARRAY {
      LengthRespells(input);
      var (n, rest) := ReadLength(input).value;
      Regroup(WriteLength(n), rest[..n], rest[n..]);
    } else {
      StringRespells(input);
    }
  }

  lemma ArrayRespells(strict: bool, typ: byte, input: bytes)
    requires ItemWidth(typ) > 0 && ReadValue(strict, typ, input).Ok?
    ensures var (v, rest) := ReadValue(strict, typ, input).value;
            WellFormed(typ, v) && Respells(strict, input, rest, WriteValue(typ, v))
  {
    hide ReadNumbers, ReadLength, WriteLength, WriteNumbers, Pow256;
    LengthRespells(input);
    var (n, rest) := ReadLength(input).value;
    NumbersRespell(ItemWidth(typ), n, rest);
    var (xs, after) := ReadNumbers(ItemWidth(typ), n, rest).value;
    Regroup(WriteLength(n), WriteNumbers(ItemWidth(typ), xs), after);
  }

  /** Whatever the reader accepts is well-formed, and is spelled again in as many bytes. */
  lemma {:induction false} ReadRespells(strict: bool, typ: byte, input: bytes)
    requires ReadValue(strict, typ, input).Ok?
    ensures var (v, rest) := ReadValue(strict, typ, input).value;
            WellFormed(typ, v) && Respells(strict, input, rest, WriteValue(typ, v))
    decreases |input|, 2
  {
    if WidthOf(typ) > 0 || typ == BYTE_ARRAY || typ == STRING {
      hide ReadValue, WellFormed, Respells, WriteValue;
      PlainRespells(strict, typ, input);
    } else if typ == LIST {
      hide ReadValue, WellFormed, Respells, WriteValue;
      ListRespells(strict, input);
    } else if typ == COMPOUND {
      ChildrenRespell(strict, input);
      hide ReadChildren, WriteChildren, AllChildren, Respells;
    } else {
      assert ItemWidth(typ) > 0;
      hide ReadValue, WellFormed, Respells, WriteValue;
      ArrayRespells(strict, typ, input);
    }
  }

  lemma {:induction false} ListRespells(strict: bool, input: bytes)
    requires ReadValue(strict, LIST, input).Ok?
    ensures var (v, rest) := ReadValue(strict, LIST, input).value;
            WellFormed(LIST, v) && Respells(strict, input, rest, WriteValue(LIST, v))
    decreases |input|, 1
  {
    LengthRespells(input[1..]);
    var (n, rest) := ReadLength(input[1..]).value;
    ElementsRespell(strict, input[0], n, rest);
    var (nodes, after) := ReadElements(strict, input[0], n, rest).value;
    var typ, head, body := ElementType(nodes), WriteLength(n), WriteElements(nodes).value;
    assert WriteValue(LIST, Nodes(nodes)) == Ok(([typ] + head) + body);
    assert n == 0 ==> AllElements(typ, nodes);
    hide ReadElements, WriteElements, WriteValue, WriteLength, ReadLength, AllElements;
    if strict {
      assert typ == input[0];
      Regroup([typ] + head, body, after);
      Regroup([typ], head, body + after);
      assert [input[0]] + input[1..] == input;
    }
  }

  lemma RespellsJoin(strict: bool, input: bytes, mid: bytes, rest: bytes, first: Result<bytes, Failure>,
                     second: Result<bytes, Failure>)
    requires Respells(strict, input, mid, first) && Respells(strict, mid, rest, second)
    ensures Respells(strict, input, rest, Join(first, second))
  {
  }

  lemma NothingRespells(strict: bool, input: bytes)
    ensures Respells(strict, input, input, Ok([]))
  {
  }

  lemma EndRespells(strict: bool, input: bytes)
    requires input != [] && input[0] == END
    ensures Respells(strict, input, input[1..], Ok([END]))
  {
  }

  lemma ConsParts(c: Node, nodes: seq<Node>)
    ensures var all := [c] + nodes;
            all != [] && all[0] == c && all[1..] == nodes
  {
  }

  lemma {:induction false} ElementsRespell(strict: bool, typ: byte, n: nat, input: bytes)
    requires ReadElements(strict, typ, n, input).Ok?
    ensures var (nodes, rest) := ReadElements(strict, typ, n, input).value;
            && |nodes| == n && AllElements(typ, nodes) && (n > 0 ==> ElementType(nodes) == typ)
            && Respells(strict, input, rest, WriteElements(nodes))
    decreases |input|, 3
  {
    hide ReadValue, WriteValue, WellFormed, Respells;
    if n == 0 {
      NothingRespells(strict, input);
    } else {
      ReadRespells(strict, typ, input);
      var (v, rest) := ReadValue(strict, typ, input).value;
      ElementsRespell(strict, typ, n - 1, rest);
      var (nodes, after) := ReadElements(strict, typ, n - 1, rest).value;
      ConsParts(Node([], typ, v), nodes);
      RespellsJoin(strict, input, rest, after, WriteValue(typ, v), WriteElements(nodes));
    }
  }

  lemma {:induction false} ChildrenRespell(strict: bool, input: bytes)
    requires ReadChildren(strict, input).Ok?
    ensures var (nodes, rest) := ReadChildren(strict, input).value;
            AllChildren(nodes) && Respells(strict, input, rest, WriteChildren(nodes))
    decreases |input|, 1
  {
    var (c, rest) := ReadNode(strict, input).value;
    if c.None? {
      EndRespells(strict, input);
    } else {
      hide ReadNode, WriteNode, WellFormedNode, Respells;
      NodeRespells(strict, input);
      ChildrenRespell(strict, rest);
      var (nodes, after) := ReadChildren(strict, rest).value;
      ConsParts(c.value, nodes);
      RespellsJoin(strict, input, rest, after, WriteNode(c.value), WriteChildren(nodes));
    }
  }

  lemma {:induction false} NodeRespells(strict: bool, input: bytes)
    requires ReadNode(strict, input).Ok? && ReadNode(strict, input).value.0.Some?
    ensures var (c, rest) := ReadNode(strict, input).value;
            WellFormedNode(c.value) && Respells(strict, input, rest, WriteNode(c.value))
    decreases |input|, 0
  {
    StringRespells(input[1..]);
    var (name, rest) := ReadString(input[1..]).value;
    ReadRespells(strict, input[0], rest);
    var (v, after) := ReadValue(strict, input[0], rest).value;
    var typ, s := input[0], WriteString(name);
    assert input == [typ] + input[1..];
    hide ReadValue, WriteValue, WellFormed, ReadString, WriteString;
    Regroup([typ], s.value, rest);
    RespellsJoin(strict, input, rest, after, Join(Ok([typ]), s), WriteValue(typ, v));
  }

  // ---- the two directions together ----

  /** The well-formed trees are exactly those that survive being written and read. */
  lemma RoundTripsIffWellFormed(typ: byte, val: Val)
    ensures WellFormed(typ, val) <==>
              WriteValue(typ, val).Ok? && ReadValue(false, typ, WriteValue(typ, val).value) == Ok((val, []))
  {
    if WellFormed(typ, val) {
      RoundTrip(false, typ, val, []);
      assert WriteValue(typ, val).value + [] == WriteValue(typ, val).value;
    } else if WriteValue(typ, val).Ok? && ReadValue(false, typ, WriteValue(typ, val).value).Ok? {
      ReadRespells(false, typ, WriteValue(typ, val).value);
    }
  }

  /** What is written for a well-formed value spells it. */
  lemma WritesSpelling(typ: byte, val: Val)
    requires WellFormed(typ, val)
    ensures WriteValue(typ, val).Ok? && Spells(typ, val, WriteValue(typ, val).value)
  {
    hide WriteValue, ReadValue, WellFormed, Spells;
    RoundTripsIffWellFormed(typ, val);
    var b := WriteValue(typ, val).value;
    ReadsWhatIsSpelled(typ, b, val, []);
    assert Taken(b, []) == b;
  }

  /**
   Writing back what was read keeps the length, is read again as the same value, and reproduces the
   bytes exactly when no list was empty with an element type other than END.
   */
  lemma RewriteReproducesIffStrict(typ: byte, input: bytes)
    requires ReadValue(false, typ, input).Ok?
    ensures var (v, rest) := ReadValue(false, typ, input).value;
            && WriteValue(typ, v).Ok?
            && var output := WriteValue(typ, v).value + rest;
               && |output| == |input|
               && ReadValue(false, typ, output) == Ok((v, rest))
               && (output == input <==> ReadValue(true, typ, input).Ok?)
               && (ReadValue(true, typ, input).Ok? ==> ReadValue(true, typ, input) == Ok((v, rest)))
  {
    var (v, rest) := ReadValue(false, typ, input).value;
    ReadRespells(false, typ, input);
    RoundTrip(false, typ, v, rest);
    RoundTrip(true, typ, v, rest);
    if ReadValue(true, typ, input).Ok? {
      var (v', rest') := ReadValue(true, typ, input).value;
      ReadRespells(true, typ, input);
      RoundTrip(false, typ, v', rest');
    }
  }

  const EMPTY_BYTE_LIST: bytes := [BYTE, 0, 0, 0, 0]

  /** An empty list of bytes comes back as an empty list of nothing. */
  lemma EmptyListIsRetyped()
    ensures ReadValue(false, LIST, EMPTY_BYTE_LIST) == Ok((Nodes([]), []))
    ensures WriteValue(LIST, Nodes([])) == Ok([END, 0, 0, 0, 0]) && [END, 0, 0, 0, 0] != EMPTY_BYTE_LIST
    ensures ReadValue(true, LIST, EMPTY_BYTE_LIST) == Err(LooseEmptyList)
  {
    assert EMPTY_BYTE_LIST[1..] == WriteLength(0) + [];
    LengthRoundTrip(0, []);
    assert WriteElements([]) == Ok([]) && [END] + WriteLength(0) + [] == [END, 0, 0, 0, 0];
    assert [END, 0, 0, 0, 0][0] != EMPTY_BYTE_LIST[0];
  }

  // ---- the streams ----

  /** A method's outcome is what the reader function says, and the stream stands where it says. */
  predicate Yields<T(==)>(r: Result<T, Failure>, left: bytes, spec: Read<T>)
  {
    match spec
    case Ok((x, rest)) => r == Ok(x) && left == rest
    case Err(e) => r == Err(e)
  }

  lemma PrependMoves<T>(first: seq<T>, second: seq<T>, r: Read<seq<T>>)
    ensures Prepend(first, Prepend(second, r)) == Prepend(first + second, r)
    ensures Prepend([], r) == r
  {
    if r.Ok? {
      var xs := r.value.0;
      assert first + (second + xs) == (first + second) + xs;
      assert [] + xs == xs;
    }
  }

  lemma OneByte(input: bytes)
    ensures input != [] ==> ReadNumber(1, input) == Ok((input[0] as nat, input[1..]))
    ensures input == [] ==> ReadNumber(1, input) == Err(Truncated)
  {
  }

  class Input {
    var left: bytes

    constructor (content: bytes)
      ensures left == content
    {
      left := content;
    }

    method ReadFull(n: nat) returns (r: Result<bytes, Failure>)
      modifies this
      ensures Yields(r, left, Take(n, old(left)))
    {
      if |left| < n {
        left := [];
        return Err(Truncated);
      }
      r := Ok(left[..n]);
      left := left[n..];
    }

    method NextNumber(width: nat) returns (r: Result<nat, Failure>)
      modifies this
      ensures Yields(r, left, ReadNumber(width, old(left)))
    {
      var b := ReadFull(width);
      if b.Err? {
        return Err(b.error);
      }
      return Ok(FromBigEndian(b.value));
    }

    /** make([]T, n) panics on a negative n. */
    method NextLength() returns (r: Result<nat, Failure>)
      modifies this
      ensures Yields(r, left, ReadLength(old(left)))
    {
      r := NextNumber(4);
      if r.Ok? && r.value >= LENGTH_LIMIT {
        return Err(Crash);
      }
    }

    method NextString() returns (r: Result<bytes, Failure>)
      modifies this
      ensures Yields(r, left, ReadString(old(left)))
    {
      var n := NextNumber(2);
      if n.Err? {
        return Err(n.error);
      }
      r := ReadFull(n.value);
    }

    method NextNumbers(width: nat, n: nat) returns (r: Result<seq<nat>, Failure>)
      modifies this
      ensures Yields(r, left, ReadNumbers(width, n, old(left)))
    {
      var items := [];
      PrependMoves([], [], ReadNumbers(width, n, left));
      for i := 0 to n
        invariant ReadNumbers(width, n, old(left)) == Prepend(items, ReadNumbers(width, n - i, left))
      {
        ghost var here := left;
        var x := NextNumber(width);
        if x.Err? {
          return Err(x.error);
        }
        NumbersStep(width, n - i - 1, here, x.value, left);
        PrependMoves(items, [x.value], ReadNumbers(width, n - i - 1, left));
        items := items + [x.value];
      }
      assert items + [] == items;
      return Ok(items);
    }

    method NextList() returns (r: Result<seq<Node>, Failure>)
      modifies this
      ensures match ReadValue(false, LIST, old(left))
              case Ok((v, rest)) => v.Nodes? && r == Ok(v.nodes) && left == rest
              case Err(e) => r == Err(e)
      decreases |left|, 2
    {
      var typ := NextNumber(1);
      if typ.Err? {
        return Err(typ.error);
      }
      OneByte(old(left));
      var n := NextLength();
      if n.Err? {
        return Err(n.error);
      }
      ghost var start := left;
      var nodes := [];
      hide ReadValue;
      PrependMoves([], [], ReadElements(false, typ.value, n.value, left));
      for i := 0 to n.value
        invariant |left| < |old(left)|
        invariant ReadElements(false, typ.value, n.value, start) ==
                    Prepend(nodes, ReadElements(false, typ.value, n.value - i, left))
      {
        ghost var here := left;
        var v := NextValue(typ.value);
        if v.Err? {
          return Err(v.error);
        }
        ElementsStep(false, typ.value, n.value - i - 1, here, v.value, left);
        PrependMoves(nodes, [Node([], typ.value, v.value)], ReadElements(false, typ.value, n.value - i - 1, left));
        nodes := nodes + [Node([], typ.value, v.value)];
      }
      assert nodes + [] == nodes;
      return Ok(nodes);
    }

    method NextCompound() returns (r: Result<seq<Node>, Failure>)
      modifies this
      ensures Yields(r, left, ReadChildren(false, old(left)))
      decreases |left|, 1
    {
      var nodes := [];
      hide ReadNode;
      PrependMoves([], [], ReadChildren(false, left));
      while true
        invariant |left| <= |old(left)|
        invariant ReadChildren(false, old(left)) == Prepend(nodes, ReadChildren(false, left))
        decreases |left|
      {
        ghost var here := left;
        var c := NextNode();
        if c.Err? {
          return Err(c.error);
        }
        if c.value.None? {
          break;
        }
        ChildrenStep(false, here, c.value.value, left);
        PrependMoves(nodes, [c.value.value], ReadChildren(false, left));
        nodes := nodes + [c.value.value];
      }
      assert nodes + [] == nodes;
      return Ok(nodes);
    }

    method NextValue(typ: byte) returns (r: Result<Val, Failure>)
      modifies this
      ensures Yields(r, left, ReadValue(false, typ, old(left)))
      decreases |left|, 3
    {
      if WidthOf(typ) > 0 {
        var x := NextNumber(WidthOf(typ));
        return if x.Ok? then Ok(Scalar(typ, x.value)) else Err(x.error);
      } else if typ == BYTE_ARRAY {
        var n := NextLength();
        if n.Err? {
          return Err(n.error);
        }
        var b := ReadFull(n.value);
        return if b.Ok? then Ok(Raw(b.value)) else Err(b.error);
      } else if typ == STRING {
        var s := NextString();
        return if s.Ok? then Ok(Text(s.value)) else Err(s.error);
      } else if typ == LIST {
        var nodes := NextList();
        return if nodes.Ok? then Ok(Nodes(nodes.value)) else Err(nodes.error);
      } else if typ == COMPOUND {
        var nodes := NextCompound();
        return if nodes.Ok? then Ok(Nodes(nodes.value)) else Err(nodes.error);
      } else if ItemWidth(typ) > 0 {
        var n := NextLength();
        if n.Err? {
          return Err(n.error);
        }
        var xs := NextNumbers(ItemWidth(typ), n.value);
        return if xs.Ok? then Ok(Numbers(ItemWidth(typ), xs.value)) else Err(xs.error);
      }
      return Err(UnknownTag);
    }

    method NextNode() returns (r: Result<Option<Node>, Failure>)
      modifies this
      ensures Yields(r, left, ReadNode(false, old(left)))
      decreases |left|, 0
    {
      var typ := NextNumber(1);
      if typ.Err? {
        return Err(typ.error);
      }
      OneByte(old(left));
      if typ.value == END {
        return Ok(None);
      }
      var name := NextString();
      if name.Err? {
        return Err(name.error);
      }
      var v := NextValue(typ.value);
      return if v.Ok? then Ok(Some(Node(name.value, typ.value, v.value))) else Err(v.error);
    }
  }

  /** What a write leaves behind: the bytes after what was there, or the same failure. */
  predicate Appended(before: bytes, after: bytes, r: Result<(), Failure>, spec: Result<bytes, Failure>)
  {
    match spec
    case Ok(b) => r == Ok(()) && after == before + b
    case Err(e) => r == Err(e)
  }

  lemma JoinMoves(done: bytes, first: Result<bytes, Failure>, rest: Result<bytes, Failure>)
    ensures first.Ok? ==> Join(Ok(done), Join(first, rest)) == Join(Ok(done + first.value), rest)
    ensures first.Err? ==> Join(Ok(done), Join(first, rest)) == first
    ensures Join(Ok([]), rest) == rest
  {
    if rest.Ok? { assert [] + rest.value == rest.value; }
    if first.Ok? && rest.Ok? {
      Regroup(done, first.value, rest.value);
    }
  }

  class Output {
    var written: bytes

    constructor ()
      ensures written == []
    {
      written := [];
    }

    method Put(b: bytes)
      modifies this
      ensures written == old(written) + b
    {
      written := written + b;
    }

    method PutString(s: bytes) returns (r: Result<(), Failure>)
      modifies this
      ensures Appended(old(written), written, r, WriteString(s))
    {
      if |s| > 0xFFFF {
        return Err(TooLong);
      }
      Put(BigEndian(2, |s|));
      Put(s);
      return Ok(());
    }

    method PutNumbers(width: nat, items: seq<nat>)
      modifies this
      ensures written == old(written) + WriteNumbers(width, items)
    {
      for i := 0 to |items|
        invariant written + WriteNumbers(width, items[i..]) == old(written) + WriteNumbers(width, items)
      {
        assert items[i..][1..] == items[i + 1..];
        ghost var before := written;
        Put(BigEndian(width, items[i]));
        assert written == before + BigEndian(width, items[i]);
        Regroup(before, BigEndian(width, items[i]), WriteNumbers(width, items[i + 1..]));
      }
    }

    method PutValue(typ: byte, val: Val) returns (r: Result<(), Failure>)
      modifies this
      ensures Appended(old(written), written, r, WriteValue(typ, val))
      decreases val, 0
    {
      if WidthOf(typ) > 0 {
        if !(val.Scalar? && val.kind == typ) {
          return Err(Crash);
        }
        Put(BigEndian(WidthOf(typ), val.raw));
        return Ok(());
      } else if typ == BYTE_ARRAY {
        if !val.Raw? {
          return Err(Crash);
        }
        Put(WriteLength(|val.data|));
        Put(val.data);
        return Ok(());
      } else if typ == STRING {
        if !val.Text? {
          return Err(Crash);
        }
        r := PutString(val.text);
        return;
      } else if typ == LIST {
        if !val.Nodes? {
          return Err(Crash);
        }
        Put([ElementType(val.nodes)]);
        Put(WriteLength(|val.nodes|));
        r := PutElements(val.nodes);
        return;
      } else if typ == COMPOUND {
        if !val.Nodes? {
          return Err(Crash);
        }
        r := PutChildren(val.nodes);
        return;
      } else if ItemWidth(typ) > 0 {
        if !(val.Numbers? && val.width == ItemWidth(typ)) {
          return Err(Crash);
        }
        Put(WriteLength(|val.items|));
        PutNumbers(val.width, val.items);
        return Ok(());
      }
      return Err(UnknownTag);
    }

    method PutElements(nodes: seq<Node>) returns (r: Result<(), Failure>)
      modifies this
      ensures Appended(old(written), written, r, WriteElements(nodes))
      decreases nodes, 1
    {
      ghost var done: bytes := [];
      JoinMoves([], Ok([]), WriteElements(nodes));
      for i := 0 to |nodes|
        invariant written == old(written) + done
        invariant WriteElements(nodes) == Join(Ok(done), WriteElements(nodes[i..]))
      {
        assert nodes[i..][1..] == nodes[i + 1..];
        var w := PutValue(nodes[i].typ, nodes[i].val);
        JoinMoves(done, WriteValue(nodes[i].typ, nodes[i].val), WriteElements(nodes[i + 1..]));
        if w.Err? {
          return w;
        }
        done := done + WriteValue(nodes[i].typ, nodes[i].val).value;
      }
      return Ok(());
    }

    method PutChildren(nodes: seq<Node>) returns (r: Result<(), Failure>)
      modifies this
      ensures Appended(old(written), written, r, WriteChildren(nodes))
      decreases nodes, 1
    {
      ghost var done: bytes := [];
      JoinMoves([], Ok([]), WriteChildren(nodes));
      for i := 0 to |nodes|
        invariant written == old(written) + done
        invariant WriteChildren(nodes) == Join(Ok(done), WriteChildren(nodes[i..]))
      {
        assert nodes[i..][1..] == nodes[i + 1..];
        var w := PutNode(nodes[i]);
        JoinMoves(done, WriteNode(nodes[i]), WriteChildren(nodes[i + 1..]));
        if w.Err? {
          return w;
        }
        done := done + WriteNode(nodes[i]).value;
      }
      Put([END]);
      return Ok(());
    }

    method PutNode(node: Node) returns (r: Result<(), Failure>)
      modifies this
      ensures Appended(old(written), written, r, WriteNode(node))
      decreases node, 0
    {
      Put([node.typ]);
      r := PutString(node.name);
      if r.Err? {
        return;
      }
      r := PutValue(node.typ, node.val);
    }
  }
}
