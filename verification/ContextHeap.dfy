/** JSON values as mutable nodes on the heap, deep copies of them, and what a callee can
    do with the copy it is handed. */
module ContextHeap {
  import opened Json
  import opened Rereading

  /** A field of a node: a scalar, or a reference to another node. */
  datatype Value = Plain(j: Json) | Ref(node: Node)

  datatype Content = ObjectOf(fields: map<string, Value>) | ListOf(items: seq<Value>)

  /** A mutable object or list. */
  class Node {
    var content: Content

    constructor (content: Content)
      ensures this.content == content
    {
      this.content := content;
    }
  }

  predicate Scalar(j: Json) {
    !j.Arr? && !j.Obj?
  }

  /** The nodes reachable from `v` are in `repr` and spell out `j`; parts may be shared. */
  ghost predicate Denotes(v: Value, j: Json, repr: set<Node>)
    reads repr
    decreases j
  {
    match v
    case Plain(p) => Scalar(p) && p == j
    case Ref(n) =>
      && n in repr
      && match n.content
         case ObjectOf(fs) =>
           j.Obj? && fs.Keys == j.members.Keys && forall k | k in fs :: Denotes(fs[k], j.members[k], repr)
         case ListOf(vs) =>
           j.Arr? && |vs| == |j.items| && forall i | 0 <= i < |vs| :: Denotes(vs[i], j.items[i], repr)
  }

  /** More nodes around a value do not change what it spells out. */
  lemma {:induction false} DenotesGrows(v: Value, j: Json, repr: set<Node>, more: set<Node>)
    requires Denotes(v, j, repr) && repr <= more
    ensures Denotes(v, j, more)
    decreases j
  {
    if v.Ref? {
      match v.node.content
      case ObjectOf(fs) =>
        forall k | k in fs ensures Denotes(fs[k], j.members[k], more) {
          DenotesGrows(fs[k], j.members[k], repr, more);
        }
      case ListOf(vs) =>
        forall i | 0 <= i < |vs| ensures Denotes(vs[i], j.items[i], more) {
          DenotesGrows(vs[i], j.items[i], repr, more);
        }
    }
  }

  /** A value has one reading. */
  lemma {:induction false} DenotesOnce(v: Value, j: Json, k: Json, repr: set<Node>)
    requires Denotes(v, j, repr) && Denotes(v, k, repr)
    ensures j == k
    decreases j
  {
    if v.Ref? {
      match v.node.content
      case ObjectOf(fs) =>
        forall key | key in fs ensures j.members[key] == k.members[key] {
          DenotesOnce(fs[key], j.members[key], k.members[key], repr);
        }
      case ListOf(vs) =>
        forall i | 0 <= i < |vs| ensures j.items[i] == k.items[i] {
          DenotesOnce(vs[i], j.items[i], k.items[i], repr);
        }
    }
  }

  ghost predicate RefsIn(c: Content, scope: set<Node>) {
    match c
    case ObjectOf(fs) => forall k | k in fs && fs[k].Ref? :: fs[k].node in scope
    case ListOf(vs) => forall i | 0 <= i < |vs| && vs[i].Ref? :: vs[i].node in scope
  }

  /** Nothing outside `scope` can be reached from it. */
  ghost predicate Closed(scope: set<Node>)
    reads scope
  {
    forall n | n in scope :: RefsIn(n.content, scope)
  }

  // ---- printing and parsing ---------------------------------------------------------------

  method Marshal(v: Value, ghost j: Json, ghost repr: set<Node>) returns (out: Json)
    requires Denotes(v, j, repr)
    ensures out == j
    decreases j
  {
    match v
    case Plain(p) => return p;
    case Ref(n) =>
      match n.content
      case ObjectOf(fs) =>
        var o := MarshalFields(fs, j.members, j, repr);
        return Obj(o);
      case ListOf(vs) =>
        var items: seq<Json> := [];
        for i := 0 to |vs|
          invariant items == j.items[..i]
        {
          var x := Marshal(vs[i], j.items[i], repr);
          items := items + [x];
        }
        assert j.items[..|vs|] == j.items;
        return Arr(items);
  }

  method MarshalFields(fs: map<string, Value>, ghost m: Members, ghost owner: Json, ghost repr: set<Node>) returns (o: Members)
    requires owner.Obj? && owner.members == m
    requires fs.Keys == m.Keys && forall k | k in fs :: Denotes(fs[k], m[k], repr)
    ensures o == m
    decreases owner, 0
  {
    o := map[];
    var todo := fs.Keys;
    while todo != {}
      invariant todo <= fs.Keys
      invariant o == map k | k in m && k !in todo :: m[k]
    {
      var k :| k in todo;
      var x := Marshal(fs[k], m[k], repr);
      o := o[k := x];
      todo := todo - {k};
    }
  }

  /** Builds a value out of nodes nobody else has. */
  method Unmarshal(j: Json) returns (v: Value, ghost repr: set<Node>)
    ensures fresh(repr) && Denotes(v, j, repr)
    ensures Closed(repr) && (v.Ref? ==> v.node in repr)
    decreases j, 1
  {
    match j
    case Obj(m) =>
      var fs, inner := UnmarshalFields(m, j);
      var n := new Node(ObjectOf(fs));
      repr := inner + {n};
      forall k | k in fs ensures Denotes(fs[k], m[k], repr) {
        DenotesGrows(fs[k], m[k], inner, repr);
      }
      return Ref(n), repr;
    case Arr(items) =>
      var vs: seq<Value> := [];
      repr := {};
      for i := 0 to |items|
        invariant fresh(repr) && Closed(repr) && RefsIn(ListOf(vs), repr) && |vs| == i
        invariant forall k | 0 <= k < i :: Denotes(vs[k], items[k], repr)
      {
        var x, more := Unmarshal(items[i]);
        ghost var all := repr + more;
        forall k | 0 <= k < i ensures Denotes(vs[k], items[k], all) {
          DenotesGrows(vs[k], items[k], repr, all);
        }
        DenotesGrows(x, items[i], more, all);
        vs := vs + [x];
        repr := all;
      }
      var n := new Node(ListOf(vs));
      ghost var all := repr + {n};
      forall k | 0 <= k < |vs| ensures Denotes(vs[k], items[k], all) {
        DenotesGrows(vs[k], items[k], repr, all);
      }
      return Ref(n), all;
    case _ =>
      return Plain(j), {};
  }

  method UnmarshalFields(m: Members, ghost owner: Json) returns (fs: map<string, Value>, ghost repr: set<Node>)
    requires owner == Obj(m)
    ensures fresh(repr) && Closed(repr) && RefsIn(ObjectOf(fs), repr)
    ensures fs.Keys == m.Keys && forall k | k in fs :: Denotes(fs[k], m[k], repr)
    decreases owner, 0
  {
    fs, repr := map[], {};
    var todo := m.Keys;
    while todo != {}
      invariant todo <= m.Keys && fresh(repr) && Closed(repr) && RefsIn(ObjectOf(fs), repr)
      invariant fs.Keys == m.Keys - todo
      invariant forall k | k in fs :: Denotes(fs[k], m[k], repr)
    {
      var k :| k in todo;
      var x, more := Unmarshal(m[k]);
      ghost var all := repr + more;
      forall q | q in fs ensures Denotes(fs[q], m[q], all) {
        DenotesGrows(fs[q], m[q], repr, all);
      }
      DenotesGrows(x, m[k], more, all);
      fs := fs[k := x];
      repr := all;
      todo := todo - {k};
    }
  }

  /** An agent context: the root of a mutable object, shared by reference. `json` is what
      its nodes spell out. */
  class AgentContext {
    const root: Node
    ghost var json: Members
    ghost var repr: set<Node>

    ghost predicate Valid()
      reads this, repr
    {
      root in repr && Denotes(Ref(root), Obj(json), repr)
    }

    constructor (m: Members)
      ensures Valid() && json == m && fresh(repr) && Closed(repr)
    {
      var fs, inner := UnmarshalFields(m, Obj(m));
      var n := new Node(ObjectOf(fs));
      FieldsDenote(n, fs, m, inner);
      root, json, repr := n, m, inner + {n};
    }

    /** The printed form of the content. */
    method Read() returns (m: Members)
      requires Valid()
      ensures m == json
    {
      var j := Marshal(Ref(root), Obj(json), repr);
      return j.members;
    }

    /** A deep copy goes through the printed form: it shares no node with the original, and
        its numbers are what the decoder makes of them. */
    method DeepCopy(read: Reader) returns (cp: AgentContext?)
      requires Valid()
      ensures cp == null <==> RereadObject(read, json) == None
      ensures cp != null ==>
        && fresh(cp) && fresh(cp.repr) && cp.repr !! repr
        && cp.Valid() && Closed(cp.repr) && Some(cp.json) == RereadObject(read, json)
    {
      var text := Read();
      var m := RereadObject(read, text);
      if m.None? {
        return null;
      }
      cp := new AgentContext(m.value);
    }

    /** Clears the object and refills it with new parts; the object stays the same. */
    method Replace(m: Members)
      requires Valid()
      modifies this, root
      ensures Valid() && json == m && fresh(repr - {root})
    {
      var fs, inner := UnmarshalFields(m, Obj(m));
      root.content := ObjectOf(fs);
      FieldsDenote(root, fs, m, inner);
      json, repr := m, inner + {root};
    }
  }

  /** A node over fields that spell out an object spells out that object. */
  lemma FieldsDenote(n: Node, fs: map<string, Value>, m: Members, inner: set<Node>)
    requires n.content == ObjectOf(fs) && fs.Keys == m.Keys && forall k | k in fs :: Denotes(fs[k], m[k], inner)
    ensures Denotes(Ref(n), Obj(m), inner + {n})
  {
    forall k | k in fs ensures Denotes(fs[k], m[k], inner + {n}) {
      DenotesGrows(fs[k], m[k], inner, inner + {n});
    }
  }

  // ---- what a callee can do -----------------------------------------------------------------

  /** A field as a callee writes it: a scalar, or one of the nodes it knows. */
  datatype Slot = ScalarSlot(j: Json) | KnownSlot(i: nat)

  datatype Draft = DraftObject(fields: map<string, Slot>) | DraftList(items: seq<Slot>)

  /** One thing a callee does: look inside a node it knows, make a node, or overwrite one. */
  datatype Move =
    | Follow(i: nat, key: string)
    | FollowItem(i: nat, k: nat)
    | Make(draft: Draft)
    | Overwrite(i: nat, draft: Draft)

  /** A node the callee does not know reads as null. */
  function Filled(known: seq<Node>, s: Slot): Value {
    match s
    case ScalarSlot(j) => Plain(if Scalar(j) then j else Null)
    case KnownSlot(i) => if i < |known| then Ref(known[i]) else Plain(Null)
  }

  function Written(known: seq<Node>, d: Draft): Content {
    match d
    case DraftObject(fs) => ObjectOf(map k | k in fs :: Filled(known, fs[k]))
    case DraftList(ss) => ListOf(seq(|ss|, i requires 0 <= i < |ss| => Filled(known, ss[i])))
  }

  lemma WrittenRefs(known: seq<Node>, d: Draft, scope: set<Node>)
    requires forall n | n in known :: n in scope
    ensures RefsIn(Written(known, d), scope)
  {
  }

  /** Any moves at all, from the nodes a callee knows: it only ever writes to, and only
      ever learns of, nodes of its own closed scope and nodes it made. */
  method Act(known: seq<Node>, moves: seq<Move>, ghost scope: set<Node>) returns (learnt: seq<Node>, ghost reached: set<Node>)
    requires Closed(scope) && forall n | n in known :: n in scope
    modifies scope
    ensures scope <= reached && fresh(reached - scope)
    ensures Closed(reached) && known <= learnt && forall n | n in learnt :: n in reached
  {
    learnt, reached := known, scope;
    for m := 0 to |moves|
      invariant scope <= reached && fresh(reached - scope)
      invariant Closed(reached) && known <= learnt && forall n | n in learnt :: n in reached
    {
      match moves[m]
      case Follow(i, key) =>
        if i < |learnt| && learnt[i].content.ObjectOf? && key in learnt[i].content.fields {
          var v := learnt[i].content.fields[key];
          assert learnt[i] in learnt;
          if v.Ref? {
            learnt := learnt + [v.node];
          }
        }
      case FollowItem(i, k) =>
        if i < |learnt| && learnt[i].content.ListOf? && k < |learnt[i].content.items| {
          var v := learnt[i].content.items[k];
          assert learnt[i] in learnt;
          if v.Ref? {
            learnt := learnt + [v.node];
          }
        }
      case Make(d) =>
        WrittenRefs(learnt, d, reached);
        var n := new Node(Written(learnt, d));
        learnt := learnt + [n];
        reached := reached + {n};
      case Overwrite(i, d) =>
        if i < |learnt| {
          WrittenRefs(learnt, d, reached);
          assert learnt[i] in learnt;
          learnt[i].content := Written(learnt, d);
        }
    }
  }

  /** The live content after the host's first `n` edits. */
  function EditedContent(m: Members, edits: seq<Option<Members>>, n: nat): Members
    requires n <= |edits|
  {
    if n == 0 then m
    else if edits[n - 1].Some? then edits[n - 1].value
    else EditedContent(m, edits, n - 1)
  }

  /** One deep copy per interceptor, the host editing the live context in between.
      Interceptors may keep what they were handed, share it among themselves and write to
      it at any later turn: each is still offered the host's own edits as they read back
      (nothing when they cannot be read back), and the live context holds exactly those
      edits in the end. */
  method OfferCopies(
    read: Reader, live: AgentContext, edits: seq<Option<Members>>, moves: (nat, Members) -> seq<Move>)
    returns (offered: seq<Option<Members>>)
    requires live.Valid()
    modifies live, live.root
    ensures live.Valid() && live.json == EditedContent(old(live.json), edits, |edits|)
    ensures |offered| == |edits|
    ensures forall i | 0 <= i < |edits| :: offered[i] == RereadObject(read, EditedContent(old(live.json), edits, i))
  {
    hide Denotes, RereadObject;
    offered := [];
    var known: seq<Node> := [];
    ghost var scope: set<Node> := {};
    for i := 0 to |edits|
      invariant live.Valid() && live.json == EditedContent(old(live.json), edits, i)
      invariant fresh(scope) && scope !! live.repr && Closed(scope) && forall x | x in known :: x in scope
      invariant |offered| == i
      invariant forall k | 0 <= k < i :: offered[k] == RereadObject(read, EditedContent(old(live.json), edits, k))
    {
      var input;
      input, known, scope := Offer(read, live, known, (m: Members) => moves(i, m), scope);
      offered := offered + [input];
      if edits[i].Some? {
        live.Replace(edits[i].value);
      }
    }
  }

  /** What is offered equals the host's edits exactly when their numbers are portable. */
  lemma OfferedIff(read: Reader, m: Members, edits: seq<Option<Members>>, n: nat)
    requires n <= |edits|
    ensures RereadObject(read, EditedContent(m, edits, n)) == Some(EditedContent(m, edits, n)) <==>
      Portable(read, Obj(EditedContent(m, edits, n)))
  {
    ObjectIff(read, EditedContent(m, edits, n));
  }

  /** One interceptor's turn on its own deep copy, with everything it and the others
      already hold. */
  method Offer(read: Reader, live: AgentContext, known: seq<Node>, moves: Members -> seq<Move>, ghost scope: set<Node>)
    returns (input: Option<Members>, learnt: seq<Node>, ghost reached: set<Node>)
    requires live.Valid() && scope !! live.repr && Closed(scope) && forall x | x in known :: x in scope
    modifies scope
    ensures live.Valid() && input == RereadObject(read, live.json)
    ensures scope <= reached && fresh(reached - scope) && reached !! live.repr
    ensures Closed(reached) && forall x | x in learnt :: x in reached
  {
    hide Denotes, RereadObject;
    var cp := live.DeepCopy(read);
    if cp == null {
      return None, known, scope;
    }
    var m := cp.Read();
    input := Some(m);
    learnt, reached := Act(known + [cp.root], moves(m), scope + cp.repr);
  }

  /** A copy of the top level alone would not do: looking up one field of such a copy and
      writing to what is found changes the live value, though its own fields stay. */
  method ShallowCopyLeaks(live: Node, key: string, ghost j: Json, ghost repr: set<Node>)
    requires Denotes(Ref(live), j, repr) && live.content.ObjectOf? && key in live.content.fields
    requires live.content.fields[key].Ref? && live.content.fields[key].node != live
    modifies repr - {live}
    ensures live.content == old(live.content) && !Denotes(Ref(live), j, repr)
  {
    var shallow := new Node(live.content);
    var reached := shallow.content.fields[key].node;
    reached.content := if reached.content.ListOf? then ObjectOf(map[]) else ListOf([]);
    assert !Denotes(Ref(reached), j.members[key], repr);
  }

  // ---- who can change the live value ---------------------------------------------------------

  /** The nodes a value is made of. */
  ghost function Parts(v: Value, j: Json, repr: set<Node>): set<Node>
    requires Denotes(v, j, repr)
    reads repr
    decreases j
  {
    if v.Plain? then {}
    else
      {v.node} +
      if v.node.content.ObjectOf? then
        var fs := v.node.content.fields;
        set k, n | k in fs && n in Parts(fs[k], j.members[k], repr) :: n
      else
        var vs := v.node.content.items;
        set i, n | 0 <= i < |vs| && n in Parts(vs[i], j.items[i], repr) :: n
  }

  /** Nodes that are no part of a value can be left out of its footprint. */
  lemma {:induction false} DenotesWithout(v: Value, j: Json, repr: set<Node>, apart: set<Node>)
    requires Denotes(v, j, repr) && forall n | n in apart :: n !in Parts(v, j, repr)
    ensures Denotes(v, j, repr - apart)
    decreases j
  {
    if v.Ref? {
      match v.node.content
      case ObjectOf(fs) =>
        forall k | k in fs ensures Denotes(fs[k], j.members[k], repr - apart) {
          DenotesWithout(fs[k], j.members[k], repr, apart);
        }
      case ListOf(vs) =>
        forall i | 0 <= i < |vs| ensures Denotes(vs[i], j.items[i], repr - apart) {
          DenotesWithout(vs[i], j.items[i], repr, apart);
        }
    }
  }

  /** A party that can reach no node of the live value leaves it as it is, whatever it does:
      it works from the nodes it knows, kept ones included, inside a closed scope. */
  method TurnApart(live: Value, ghost j: Json, ghost repr: set<Node>, known: seq<Node>, moves: seq<Move>, ghost scope: set<Node>)
    returns (learnt: seq<Node>, ghost reached: set<Node>)
    requires Denotes(live, j, repr) && Closed(scope) && forall n | n in known :: n in scope
    requires forall n | n in scope :: n !in Parts(live, j, repr)
    modifies scope
    ensures Denotes(live, j, repr - scope)
    ensures scope <= reached && fresh(reached - scope) && Closed(reached) && forall n | n in learnt :: n in reached
  {
    DenotesWithout(live, j, repr, scope);
    learnt, reached := Act(known, moves, scope);
  }

  /** Looking up one field or one element after the other. */
  datatype Hop = Field(key: string) | Element(i: nat)

  ghost predicate Leads(from: Node, path: seq<Hop>, n: Node)
    reads *
    decreases |path|
  {
    if path == [] then from == n
    else
      match (path[0], from.content)
      case (Field(key), ObjectOf(fs)) => key in fs && fs[key].Ref? && Leads(fs[key].node, path[1..], n)
      case (Element(i), ListOf(vs)) => i < |vs| && vs[i].Ref? && Leads(vs[i].node, path[1..], n)
      case _ => false
  }

  lemma {:induction false} PartsInside(v: Value, j: Json, repr: set<Node>)
    requires Denotes(v, j, repr)
    ensures Parts(v, j, repr) <= repr
    decreases j
  {
    if v.Ref? {
      match v.node.content
      case ObjectOf(fs) =>
        forall k | k in fs ensures Parts(fs[k], j.members[k], repr) <= repr {
          PartsInside(fs[k], j.members[k], repr);
        }
      case ListOf(vs) =>
        forall i | 0 <= i < |vs| ensures Parts(vs[i], j.items[i], repr) <= repr {
          PartsInside(vs[i], j.items[i], repr);
        }
    }
  }

  /** The contents of nodes at one moment. */
  type Snapshot = map<Node, Content>

  ghost function Snap(repr: set<Node>): Snapshot
    reads repr
  {
    map n | n in repr :: n.content
  }

  ghost predicate DenotesIn(h: Snapshot, v: Value, j: Json)
    decreases j
  {
    match v
    case Plain(p) => Scalar(p) && p == j
    case Ref(n) =>
      && n in h
      && match h[n]
         case ObjectOf(fs) => j.Obj? && fs.Keys == j.members.Keys && forall k | k in fs :: DenotesIn(h, fs[k], j.members[k])
         case ListOf(vs) => j.Arr? && |vs| == |j.items| && forall i | 0 <= i < |vs| :: DenotesIn(h, vs[i], j.items[i])
  }

  /** `n` was part of the value at that moment. */
  ghost predicate PartIn(h: Snapshot, v: Value, j: Json, n: Node)
    decreases j
  {
    && v.Ref? && v.node in h
    && (v.node == n ||
        match h[v.node]
        case ObjectOf(fs) => j.Obj? && exists k | k in fs && k in j.members :: PartIn(h, fs[k], j.members[k], n)
        case ListOf(vs) => j.Arr? && exists i | 0 <= i < |vs| && i < |j.items| :: PartIn(h, vs[i], j.items[i], n))
  }

  lemma {:induction false} SnapDenotes(v: Value, j: Json, repr: set<Node>, n: Node)
    requires Denotes(v, j, repr)
    ensures DenotesIn(Snap(repr), v, j)
    ensures n in Parts(v, j, repr) ==> PartIn(Snap(repr), v, j, n)
    decreases j
  {
    if v.Ref? {
      match v.node.content
      case ObjectOf(fs) =>
        forall k | k in fs
          ensures DenotesIn(Snap(repr), fs[k], j.members[k])
          ensures n in Parts(fs[k], j.members[k], repr) ==> PartIn(Snap(repr), fs[k], j.members[k], n)
        {
          SnapDenotes(fs[k], j.members[k], repr, n);
        }
      case ListOf(vs) =>
        forall i | 0 <= i < |vs|
          ensures DenotesIn(Snap(repr), vs[i], j.items[i])
          ensures n in Parts(vs[i], j.items[i], repr) ==> PartIn(Snap(repr), vs[i], j.items[i], n)
        {
          SnapDenotes(vs[i], j.items[i], repr, n);
        }
    }
  }

  /** A node of the other kind in place of a part of a value: the value is lost. */
  lemma {:induction false} ChangedBelow(h: Snapshot, v: Value, j: Json, n: Node, any: set<Node>)
    requires DenotesIn(h, v, j) && PartIn(h, v, j, n) && n in h
    requires forall m | m in h && m != n :: m.content == h[m]
    requires n.content.ListOf? == h[n].ObjectOf?
    ensures !Denotes(v, j, any)
    decreases j
  {
    if v.node != n {
      match v.node.content
      case ObjectOf(fs) =>
        var k :| k in fs && k in j.members && PartIn(h, fs[k], j.members[k], n);
        ChangedBelow(h, fs[k], j.members[k], n, any);
      case ListOf(vs) =>
        var i :| 0 <= i < |vs| && i < |j.items| && PartIn(h, vs[i], j.items[i], n);
        ChangedBelow(h, vs[i], j.items[i], n, any);
    }
  }

  /** A party that can look up its way from a node it knows to any node of the live value can
      change the live value: it overwrites that node. */
  method TurnInside(live: Value, ghost j: Json, ghost repr: set<Node>, known: Node, path: seq<Hop>, ghost n: Node)
    requires Denotes(live, j, repr)
    requires n in Parts(live, j, repr)
    requires Leads(known, path, n)
    modifies n
    ensures forall any :: !Denotes(live, j, any)
  {
    var at := known;
    for h := 0 to |path|
      invariant Leads(at, path[h..], n)
    {
      assert path[h..][1..] == path[h + 1..];
      match path[h]
      case Field(key) => at := at.content.fields[key].node;
      case Element(i) => at := at.content.items[i].node;
    }
    assert at == n;
    ghost var before := Snap(repr);
    SnapDenotes(live, j, repr, n);
    PartsInside(live, j, repr);
    at.content := if at.content.ListOf? then ObjectOf(map[]) else ListOf([]);
    forall any ensures !Denotes(live, j, any) {
      ChangedBelow(before, live, j, n, any);
    }
  }
}
