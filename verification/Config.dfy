/** Configuration: flattening a document into dotted names and loading it into the variables. */
module Config {
  import opened Common

  /** A document node. `text`: what a conversion is given, the scalar itself or the node written out. */
  datatype Node = Scalar(text: string) | Map(entries: seq<(string, Node)>, text: string) | Other(text: string)

  datatype Member = Member(name: string, node: Node)

  /** The nine is missing in the source as well. */
  predicate NameChar(c: char) {
    'a' <= c <= 'z' || c == '.' || c == '_' || '0' <= c <= '8'
  }

  const NAME_CHARS: string := "abcdefghijklmnopqrstuvwxyz._012345678"

  lemma {:induction false} NameCharIsListed(c: char)
    ensures NameChar(c) <==> c in NAME_CHARS
  {
    assert forall i :: 0 <= i < 26 ==> NAME_CHARS[i] == 'a' + i as char;
    assert forall i :: 28 <= i < 37 ==> NAME_CHARS[i] == '0' + (i - 28) as char;
  }

  predicate ValidName(name: string) {
    forall i :: 0 <= i < |name| ==> NameChar(name[i])
  }

  function Join(prefix: string, key: string): string {
    if prefix == "" then key else prefix + "." + key
  }

  // ----- flattening -----

  /** The node and what is below it, a node before its children and children in their order. */
  function Members(prefix: string, node: Node): seq<Member>
    decreases node, if node.Map? then |node.entries| + 1 else 0
  {
    if !ValidName(prefix) then []
    else [Member(prefix, node)] + if node.Map? then ChildMembers(prefix, node, 0) else []
  }

  function ChildMembers(prefix: string, node: Node, i: nat): seq<Member>
    requires node.Map? && i <= |node.entries|
    decreases node, |node.entries| - i
  {
    if i == |node.entries| then []
    else Members(Join(prefix, node.entries[i].0), node.entries[i].1) + ChildMembers(prefix, node, i + 1)
  }

  /** `ListAllMember`: appends to the list it is given. */
  method ListAllMember(prefix: string, node: Node, output: seq<Member>) returns (out: seq<Member>)
    ensures out == output + Members(prefix, node)
    decreases node
  {
    out := output;
    if !ValidName(prefix) { return; }
    out := out + [Member(prefix, node)];
    if node.Map? {
      Assoc(output, [Member(prefix, node)], ChildMembers(prefix, node, 0));
      var i := 0;
      while i < |node.entries|
        invariant 0 <= i <= |node.entries|
        invariant out + ChildMembers(prefix, node, i) == output + Members(prefix, node)
      {
        var before := out;
        out := ListAllMember(if prefix == "" then node.entries[i].0 else prefix + "." + node.entries[i].0, node.entries[i].1, out);
        i := i + 1;
        Assoc(before, Members(Join(prefix, node.entries[i - 1].0), node.entries[i - 1].1), ChildMembers(prefix, node, i));
      }
    }
  }

  // ----- the reference: paths through the document -----

  /** A path: which child to take at each level. */
  type Path = seq<nat>

  /** The path exists, and every name on its way from the given prefix is valid. */
  predicate Reached(prefix: string, node: Node, p: Path)
    decreases |p|
  {
    ValidName(prefix) &&
    (p == [] ||
     (node.Map? && p[0] < |node.entries| && Reached(Join(prefix, node.entries[p[0]].0), node.entries[p[0]].1, p[1..])))
  }

  function NameAt(prefix: string, node: Node, p: Path): string
    requires Reached(prefix, node, p)
    decreases |p|
  {
    if p == [] then prefix else NameAt(Join(prefix, node.entries[p[0]].0), node.entries[p[0]].1, p[1..])
  }

  function NodeAt(prefix: string, node: Node, p: Path): Node
    requires Reached(prefix, node, p)
    decreases |p|
  {
    if p == [] then node else NodeAt(Join(prefix, node.entries[p[0]].0), node.entries[p[0]].1, p[1..])
  }

  /** Document preorder: a node before what is below it, children from the first to the last. */
  predicate Precedes(p: Path, q: Path)
    decreases |p|
  {
    q != [] && (p == [] || p[0] < q[0] || (p[0] == q[0] && Precedes(p[1..], q[1..])))
  }

  /** The path leads to a node of this dotted name that converts. */
  predicate Hits<V>(prefix: string, node: Node, p: Path, name: string, parse: string -> Option<V>) {
    Reached(prefix, node, p) && NameAt(prefix, node, p) == name && parse(NodeAt(prefix, node, p).text).Some?
  }

  /** The last member of the name that converts. */
  function LastConverted<V>(ms: seq<Member>, name: string, parse: string -> Option<V>): Option<V> {
    if ms == [] then None
    else
      var m := ms[|ms| - 1];
      if m.name == name && parse(m.node.text).Some? then parse(m.node.text)
      else LastConverted(ms[..|ms| - 1], name, parse)
  }

  lemma {:induction false} LastOfTwo<V>(a: seq<Member>, b: seq<Member>, name: string, parse: string -> Option<V>)
    ensures var o := LastConverted(b, name, parse);
      LastConverted(a + b, name, parse) == if o.Some? then o else LastConverted(a, name, parse)
  {
    if b == [] {
      assert a + b == a;
    } else {
      var m := b[|b| - 1];
      assert (a + b)[|a + b| - 1] == m && (a + b)[..|a + b| - 1] == a + b[..|b| - 1];
      LastOfTwo(a, b[..|b| - 1], name, parse);
    }
  }

  /** p is the last hit from child i on. */
  ghost predicate LastHitFrom<V>(prefix: string, node: Node, i: nat, p: Path, name: string, parse: string -> Option<V>) {
    && p != [] && p[0] >= i && Hits(prefix, node, p, name, parse)
    && forall q :: q != [] && q[0] >= i && Hits(prefix, node, q, name, parse) ==> q == p || Precedes(q, p)
  }

  ghost predicate LastHit<V>(prefix: string, node: Node, p: Path, name: string, parse: string -> Option<V>) {
    && Hits(prefix, node, p, name, parse)
    && forall q :: Hits(prefix, node, q, name, parse) ==> q == p || Precedes(q, p)
  }

  /** What the flattened list says of a name is what the last hit in preorder says; and
      it says nothing iff no path hits. */
  lemma {:induction false} FlattenedIsPreorder<V>(prefix: string, node: Node, name: string, parse: string -> Option<V>) returns (p: Path)
    ensures var o := LastConverted(Members(prefix, node), name, parse);
      if o.Some? then LastHit(prefix, node, p, name, parse) && parse(NodeAt(prefix, node, p).text) == o
      else forall q :: !Hits(prefix, node, q, name, parse)
    decreases node, if node.Map? then |node.entries| + 1 else 0
  {
    p := [];
    if ValidName(prefix) {
      var root := [Member(prefix, node)];
      assert LastConverted(root, name, parse) == if prefix == name then parse(node.text) else None;
      if node.Map? {
        LastOfTwo(root, ChildMembers(prefix, node, 0), name, parse);
        p := ChildrenInPreorder(prefix, node, 0, name, parse);
        if LastConverted(ChildMembers(prefix, node, 0), name, parse).None? {
          p := [];
        }
      } else {
        assert Members(prefix, node) == root;
      }
    }
  }

  /** The hits below child i are the hits of the child. */
  lemma {:induction false} ChildHits<V>(prefix: string, node: Node, i: nat, name: string, parse: string -> Option<V>)
    requires ValidName(prefix) && node.Map? && i < |node.entries|
    ensures var key, child := Join(prefix, node.entries[i].0), node.entries[i].1;
      && (forall q: Path :: q != [] && q[0] == i ==> (Hits(prefix, node, q, name, parse) <==> Hits(key, child, q[1..], name, parse)))
      && (forall q: Path :: q != [] && q[0] == i && Hits(prefix, node, q, name, parse) ==>
            NodeAt(prefix, node, q) == NodeAt(key, child, q[1..]))
  {
  }

  lemma {:induction false} LastHitBelow<V>(prefix: string, node: Node, i: nat, p: Path, name: string, parse: string -> Option<V>)
    requires ValidName(prefix) && node.Map? && i < |node.entries|
    requires LastHit(Join(prefix, node.entries[i].0), node.entries[i].1, p, name, parse)
    requires forall q: Path :: q != [] && q[0] >= i + 1 ==> !Hits(prefix, node, q, name, parse)
    ensures LastHitFrom(prefix, node, i, [i] + p, name, parse)
    ensures NodeAt(prefix, node, [i] + p) == NodeAt(Join(prefix, node.entries[i].0), node.entries[i].1, p)
  {
    ChildHits(prefix, node, i, name, parse);
    var p' := [i] + p;
    assert p'[1..] == p;
    forall q: Path | q != [] && q[0] >= i && Hits(prefix, node, q, name, parse) ensures q == p' || Precedes(q, p') {
      assert q[0] == i;
      assert q == [i] + q[1..];
    }
  }

  lemma {:induction false} ChildrenInPreorder<V>(prefix: string, node: Node, i: nat, name: string, parse: string -> Option<V>) returns (p: Path)
    requires ValidName(prefix) && node.Map? && i <= |node.entries|
    ensures var o := LastConverted(ChildMembers(prefix, node, i), name, parse);
      if o.Some? then LastHitFrom(prefix, node, i, p, name, parse) && parse(NodeAt(prefix, node, p).text) == o
      else forall q :: q != [] && q[0] >= i ==> !Hits(prefix, node, q, name, parse)
    decreases node, |node.entries| - i
  {
    p := [];
    if i < |node.entries| {
      var key, child := Join(prefix, node.entries[i].0), node.entries[i].1;
      LastOfTwo(Members(key, child), ChildMembers(prefix, node, i + 1), name, parse);
      p := ChildrenInPreorder(prefix, node, i + 1, name, parse);
      var p' := FlattenedIsPreorder(key, child, name, parse);
      ChildHits(prefix, node, i, name, parse);
      if LastConverted(ChildMembers(prefix, node, i + 1), name, parse).None? && LastConverted(Members(key, child), name, parse).Some? {
        LastHitBelow(prefix, node, i, p', name, parse);
        p := [i] + p';
      }
    }
  }

  // ----- variables -----

  /** A variable, with its type and the conversion of that type; None where that throws. */
  class ConfigVar<V(==)> {
    const name: string
    const kind: nat
    const parse: string -> Option<V>
    var val: V

    constructor (name: string, kind: nat, parse: string -> Option<V>, val: V)
      ensures this.name == name && this.kind == kind && this.parse == parse && this.val == val
    {
      this.name, this.kind, this.parse, this.val := name, kind, parse, val;
    }

    method SetValue(v: V)
      modifies this
      ensures val == v
    {
      if v == val { return; }
      val := v;
    }

    /** The source returns false in every case. */
    method FromString(text: string) returns (ok: bool)
      modifies this
      ensures val == if parse(text).Some? then parse(text).value else old(val)
      ensures !ok
    {
      var converted := parse(text);
      if converted.Some? { SetValue(converted.value); }
      return false;
    }
  }

  function Lower(s: string): (r: string)
    ensures |r| == |s|
    ensures forall i :: 0 <= i < |s| ==> r[i] == if 'A' <= s[i] <= 'Z' then s[i] - 'A' + 'a' else s[i]
  {
    if s == "" then "" else [if 'A' <= s[0] <= 'Z' then s[0] - 'A' + 'a' else s[0]] + Lower(s[1..])
  }

  lemma {:induction false} ValidNamesAreLower(s: string)
    requires ValidName(s)
    ensures Lower(s) == s
  {
    assert forall i :: 0 <= i < |s| ==> NameChar(s[i]);
  }

  /** What the variable x holds after one member. */
  function Given<V>(x: string, was: V, m: Member, parse: string -> Option<V>): V {
    if x != "" && m.name == x && parse(m.node.text).Some? then parse(m.node.text).value else was
  }

  /** What the variable x holds after a list of members: what the last one that converts says. */
  function After<V>(x: string, was: V, ms: seq<Member>, parse: string -> Option<V>): V {
    var o := LastConverted(ms, x, parse);
    if x != "" && o.Some? then o.value else was
  }

  lemma {:induction false} AfterOneMore<V>(x: string, was: V, ms: seq<Member>, m: Member, parse: string -> Option<V>)
    ensures After(x, was, ms + [m], parse) == Given(x, After(x, was, ms, parse), m, parse)
  {
    assert (ms + [m])[..|ms|] == ms;
  }

  /** What a lookup comes to: a variable, a null pointer because the type is another one,
      or the exception for an invalid name. */
  datatype Found<V(==)> = Var(v: ConfigVar<V>) | OtherType | Throws

  class Config<V(==)> {
    var datas: map<string, ConfigVar<V>>

    ghost predicate Valid() reads this {
      forall n :: n in datas ==> datas[n].name == n && ValidName(n)
    }

    constructor ()
      ensures Valid() && datas == map[]
    {
      datas := map[];
    }

    method LookupBase(name: string) returns (v: Option<ConfigVar<V>>)
      ensures v == if name in datas then Some(datas[name]) else None
    {
      v := if name in datas then Some(datas[name]) else None;
    }

    /** Finds a variable of the type, or registers one. */
    method Lookup(name: string, kind: nat, parse: string -> Option<V>, val: V) returns (found: Found<V>)
      requires Valid()
      modifies this
      ensures Valid()
      ensures name in old(datas) ==>
        datas == old(datas) && found == if old(datas)[name].kind == kind then Var(old(datas)[name]) else OtherType
      ensures name !in old(datas) && !ValidName(name) ==> found == Throws && datas == old(datas)
      ensures name !in old(datas) && ValidName(name) ==>
        && found.Var? && fresh(found.v) && datas == old(datas)[name := found.v]
        && found.v.val == val && found.v.parse == parse && found.v.kind == kind
    {
      if name in datas {
        return if datas[name].kind == kind then Var(datas[name]) else OtherType;
      }
      if !ValidName(name) { return Throws; }
      var x := new ConfigVar(name, kind, parse, val);
      datas := datas[name := x];
      found := Var(x);
    }

    /** One member: the variable of that name, if there is one, is given the text. */
    method Load(m: Member)
      requires Valid() && ValidName(m.name)
      modifies datas.Values
      ensures forall x :: x in datas ==> datas[x].val == Given(x, old(datas[x].val), m, datas[x].parse)
    {
      var key := m.name;
      if key == "" { return; }
      ValidNamesAreLower(key);
      key := Lower(key);
      var v := LookupBase(key);
      if v.Some? {
        var _ := v.value.FromString(m.node.text);
      }
    }

    /** Every variable holds what its last member that converts says, or what it held. */
    method LoadFromYaml(root: Node)
      requires Valid()
      modifies datas.Values
      ensures forall x :: x in datas ==> datas[x].val == After(x, old(datas[x].val), Members("", root), datas[x].parse)
    {
      var all := ListAllMember("", root, []);
      MembersAreValid("", root);
      for i := 0 to |all|
        invariant forall x :: x in datas ==> datas[x].val == After(x, old(datas[x].val), all[..i], datas[x].parse)
      {
        assert all[..i + 1] == all[..i] + [all[i]];
        forall x, was | x in datas
          ensures After(x, was, all[..i + 1], datas[x].parse) == Given(x, After(x, was, all[..i], datas[x].parse), all[i], datas[x].parse)
        {
          AfterOneMore(x, was, all[..i], all[i], datas[x].parse);
        }
        Load(all[i]);
      }
      assert all[..|all|] == all;
    }
  }

  lemma {:induction false} PrecedesOneWay(p: Path, q: Path)
    ensures !(Precedes(p, q) && Precedes(q, p))
    decreases |p|
  {
    if p != [] && q != [] { PrecedesOneWay(p[1..], q[1..]); }
  }

  // ----- the document, read without flattening it -----

  /** The path exists in the document. */
  predicate Exists(node: Node, p: Path)
    decreases |p|
  {
    p == [] || (node.Map? && p[0] < |node.entries| && Exists(node.entries[p[0]].1, p[1..]))
  }

  function Below(node: Node, p: Path): Node
    requires Exists(node, p)
    decreases |p|
  {
    if p == [] then node else Below(node.entries[p[0]].1, p[1..])
  }

  /** The keys on the way, in order. */
  function KeysAlong(node: Node, p: Path): (ks: seq<string>)
    requires Exists(node, p)
    ensures |ks| == |p|
    decreases |p|
  {
    if p == [] then [] else [node.entries[p[0]].0] + KeysAlong(node.entries[p[0]].1, p[1..])
  }

  function Dots(keys: seq<string>): string {
    if keys == [] then "" else "." + keys[0] + Dots(keys[1..])
  }

  /** The keys with dots between them; empty keys at the beginning leave nothing. */
  function Dotted(keys: seq<string>): string {
    if keys == [] then "" else if keys[0] == "" then Dotted(keys[1..]) else keys[0] + Dots(keys[1..])
  }

  lemma {:induction false} DottedFrom(prefix: string, keys: seq<string>)
    requires keys != []
    ensures Dotted([prefix] + keys) == Dotted([Join(prefix, keys[0])] + keys[1..])
  {
    assert ([prefix] + keys)[1..] == keys;
    var joined := [Join(prefix, keys[0])] + keys[1..];
    assert joined[1..] == keys[1..];
    if prefix == "" {
      assert joined == keys;
    } else {
      assert prefix + ("." + keys[0] + Dots(keys[1..])) == prefix + "." + keys[0] + Dots(keys[1..]);
    }
  }

  /** The names on the way to a node, down to level n, are all valid. */
  ghost predicate ValidDownTo(prefix: string, node: Node, p: Path)
    requires Exists(node, p)
  {
    forall n :: 0 <= n <= |p| ==> ValidName(NameDownTo(prefix, node, p, n))
  }

  function NameDownTo(prefix: string, node: Node, p: Path, n: nat): string
    requires Exists(node, p) && n <= |p|
  {
    Dotted([prefix] + KeysAlong(node, p)[..n])
  }

  lemma {:induction false} NameOfPrefix(prefix: string)
    ensures Dotted([prefix]) == prefix
  {
    assert [prefix][1..] == [];
  }

  lemma {:induction false} OneLevelDown(prefix: string, node: Node, p: Path, n: nat)
    requires Exists(node, p) && 1 <= n <= |p|
    ensures NameDownTo(prefix, node, p, n) == NameDownTo(Join(prefix, node.entries[p[0]].0), node.entries[p[0]].1, p[1..], n - 1)
  {
    var keys := KeysAlong(node, p)[..n];
    DottedFrom(prefix, keys);
    assert keys[1..] == KeysAlong(node.entries[p[0]].1, p[1..])[..n - 1];
  }

  /** Where the flattening finds a node is where the document has one: its name is the
      prefix and its keys with dots between them, and every name on its way is valid. */
  lemma {:induction false} ReachedIsDotted(prefix: string, node: Node, p: Path)
    ensures Reached(prefix, node, p) <==> Exists(node, p) && ValidDownTo(prefix, node, p)
    ensures Reached(prefix, node, p) ==> NameAt(prefix, node, p) == NameDownTo(prefix, node, p, |p|) && NodeAt(prefix, node, p) == Below(node, p)
    decreases |p|
  {
    NameOfPrefix(prefix);
    if p == [] {
      assert [prefix] + KeysAlong(node, p)[..0] == [prefix] && NameDownTo(prefix, node, p, 0) == prefix;
    } else if node.Map? && p[0] < |node.entries| {
      ReachedIsDotted(Join(prefix, node.entries[p[0]].0), node.entries[p[0]].1, p[1..]);
      if Exists(node, p) { LevelsDown(prefix, node, p); }
    }
  }

  lemma {:induction false} LevelsDown(prefix: string, node: Node, p: Path)
    requires Exists(node, p) && p != []
    ensures ValidDownTo(prefix, node, p) <==>
      ValidName(prefix) && ValidDownTo(Join(prefix, node.entries[p[0]].0), node.entries[p[0]].1, p[1..])
    ensures NameDownTo(prefix, node, p, |p|) == NameDownTo(Join(prefix, node.entries[p[0]].0), node.entries[p[0]].1, p[1..], |p| - 1)
  {
    var key, child := Join(prefix, node.entries[p[0]].0), node.entries[p[0]].1;
    NameOfPrefix(prefix);
    assert [prefix] + KeysAlong(node, p)[..0] == [prefix];
    forall n | 1 <= n <= |p| ensures NameDownTo(prefix, node, p, n) == NameDownTo(key, child, p[1..], n - 1) {
      OneLevelDown(prefix, node, p, n);
    }
    if ValidDownTo(prefix, node, p) {
      forall n | 0 <= n <= |p[1..]| ensures ValidName(NameDownTo(key, child, p[1..], n)) {
        assert ValidName(NameDownTo(prefix, node, p, n + 1));
      }
    }
    assert NameDownTo(prefix, node, p, 0) == prefix;
  }

  /** The name of a child: behind the name of its parent and a dot, or its key alone where
      the parent has no name. */
  lemma {:induction false} NameOfChild(keys: seq<string>, key: string)
    ensures Dotted(keys + [key]) == if Dotted(keys) == "" then key else Dotted(keys) + "." + key
  {
    if keys == [] {
      assert [] + [key] == [key];
      NameOfPrefix(key);
    } else {
      assert (keys + [key])[1..] == keys[1..] + [key];
      if keys[0] == "" { NameOfChild(keys[1..], key); } else { DotsOfChild(keys[1..], key); }
    }
  }

  lemma {:induction false} DotsOfChild(keys: seq<string>, key: string)
    ensures Dots(keys + [key]) == Dots(keys) + "." + key
  {
    if keys == [] {
      assert [] + [key] == [key] && [key][1..] == [];
    } else {
      assert (keys + [key])[1..] == keys[1..] + [key];
      DotsOfChild(keys[1..], key);
    }
  }

  /** The document has a node here under the dotted name x, the names on its way are
      valid, and its text converts. */
  ghost predicate Tells<V>(root: Node, p: Path, x: string, parse: string -> Option<V>) {
    && Exists(root, p)
    && Dotted(KeysAlong(root, p)) == x
    && (forall n :: 0 <= n <= |p| ==> ValidName(Dotted(KeysAlong(root, p)[..n])))
    && parse(Below(root, p).text).Some?
  }

  ghost predicate TellsLast<V>(root: Node, p: Path, x: string, parse: string -> Option<V>) {
    Tells(root, p, x, parse) && forall q :: Tells(root, q, x, parse) ==> q == p || Precedes(q, p)
  }

  lemma {:induction false} HitsIsTells<V>(root: Node, p: Path, x: string, parse: string -> Option<V>)
    ensures Hits("", root, p, x, parse) <==> Tells(root, p, x, parse)
    ensures Hits("", root, p, x, parse) ==> NodeAt("", root, p) == Below(root, p)
  {
    ReachedIsDotted("", root, p);
    if Exists(root, p) {
      var keys := KeysAlong(root, p);
      forall n | 0 <= n <= |p| ensures NameDownTo("", root, p, n) == Dotted(keys[..n]) {
        assert ([""] + keys[..n])[1..] == keys[..n];
      }
      assert keys[..|p|] == keys;
    }
  }

  /** So each variable holds what the last node in document preorder says whose keys, with
      dots between them, are its name, through valid prefixes only, and which converts;
      and a variable with no such node is unchanged. */
  lemma {:induction false} LastInPreorderWins<V>(root: Node, x: string, was: V, parse: string -> Option<V>)
    requires x != ""
    ensures forall p :: TellsLast(root, p, x, parse) ==> Some(After(x, was, Members("", root), parse)) == parse(Below(root, p).text)
    ensures (forall p :: !Tells(root, p, x, parse)) ==> After(x, was, Members("", root), parse) == was
    ensures (exists p :: Tells(root, p, x, parse)) ==> exists p :: TellsLast(root, p, x, parse)
  {
    forall q ensures Hits("", root, q, x, parse) <==> Tells(root, q, x, parse) {
      HitsIsTells(root, q, x, parse);
    }
    var p := FlattenedIsPreorder("", root, x, parse);
    HitsIsTells(root, p, x, parse);
    if Tells(root, p, x, parse) {
      assert LastHit("", root, p, x, parse) ==> TellsLast(root, p, x, parse);
    }
    forall q | TellsLast(root, q, x, parse) ensures q == p {
      if q != p { PrecedesOneWay(p, q); }
    }
  }

  lemma {:induction false} MembersAreValid(prefix: string, node: Node)
    ensures forall m :: m in Members(prefix, node) ==> ValidName(m.name)
    decreases node, if node.Map? then |node.entries| + 1 else 0
  {
    if ValidName(prefix) && node.Map? { ChildrenAreValid(prefix, node, 0); }
  }

  lemma {:induction false} ChildrenAreValid(prefix: string, node: Node, i: nat)
    requires node.Map? && i <= |node.entries|
    ensures forall m :: m in ChildMembers(prefix, node, i) ==> ValidName(m.name)
    decreases node, |node.entries| - i
  {
    if i < |node.entries| {
      MembersAreValid(Join(prefix, node.entries[i].0), node.entries[i].1);
      ChildrenAreValid(prefix, node, i + 1);
    }
  }
}
