/** The SNI hostname tree: nodes in the heap, changed in place, standing for a trie. */
module Sni {
  import opened Labels
  import opened Tries
  import opened NameTable

  /** sni_node */
  class Node {
    var user: User
    var children: map<string, Node>

    constructor ()
      ensures user == NOBODY && children == map[]
    {
      user, children := NOBODY, map[];
    }
  }

  /** The fields of all nodes of a tree, and the trie each node stands for. */
  datatype Arena = Arena(users: map<Node, User>, kids: map<Node, map<string, Node>>, tries: map<Node, Trie>)

  /** Every node but the root is the child of exactly one node, one level up. */
  ghost predicate Shaped(kids: map<Node, map<string, Node>>, depth: map<Node, nat>, root: Node) {
    && root in kids && kids.Keys <= depth.Keys && depth[root] == 0
    && (forall n, part | n in kids && part in kids[n] :: kids[n][part] in kids && depth[kids[n][part]] == depth[n] + 1)
    && (forall n, part, n', part' | n in kids && n' in kids && part in kids[n] && part' in kids[n']
       && kids[n][part] == kids[n'][part'] ::
          n == n' && part == part')
  }

  /** What node `n` stands for, given what its children stand for. */
  ghost function Snapshot(a: Arena, n: Node): Trie
    requires n in a.users && n in a.kids
  {
    Trie(a.users[n], map part | part in a.kids[n] && a.kids[n][part] in a.tries :: a.tries[a.kids[n][part]])
  }

  /** Every node but those in `above` stands for the trie it is said to stand for. */
  ghost predicate Agreeing(a: Arena, above: set<Node>) {
    && a.users.Keys == a.kids.Keys && a.kids.Keys <= a.tries.Keys
    && forall n | n in a.kids && n !in above :: a.tries[n] == Snapshot(a, n)
  }

  ghost predicate Good(a: Arena, depth: map<Node, nat>, root: Node, above: set<Node>) {
    Shaped(a.kids, depth, root) && Agreeing(a, above)
  }

  class Tree {
    const root: Node
    ghost var nodes: set<Node>
    ghost var tries: map<Node, Trie>
    ghost var depth: map<Node, nat>

    ghost function Users(): (users: map<Node, User>)
      reads `nodes, nodes
      ensures users.Keys == nodes && forall n | n in nodes :: users[n] == n.user
    {
      map n | n in nodes :: n.user
    }

    ghost function Kids(): (kids: map<Node, map<string, Node>>)
      reads `nodes, nodes
      ensures kids.Keys == nodes && forall n | n in nodes :: kids[n] == n.children
    {
      map n | n in nodes :: n.children
    }

    ghost function Now(): Arena
      reads this, nodes
    {
      Arena(Users(), Kids(), tries)
    }

    ghost predicate ValidBut(above: set<Node>)
      reads this, nodes
    {
      Good(Now(), depth, root, above)
    }

    ghost predicate Valid()
      reads this, nodes
    {
      ValidBut({})
    }

    ghost function Value(): Trie
      reads this, nodes
    {
      if root in tries then tries[root] else EMPTY
    }

    /** sni_new */
    constructor ()
      ensures Valid() && fresh(nodes) && Value() == EMPTY
    {
      root := new Node();
      new;
      nodes, tries, depth := {root}, map[root := EMPTY], map[root := 0];
    }

    // ---- Looking up

    /** The label loop that `sni_find` and `sni_remove` share: a hostname of more than ten labels is refused. */
    method SplitHost(hostname: string) returns (ok: bool, labels: array<string>, num: nat)
      ensures fresh(labels) && labels.Length == MAX_LABELS
      ensures ok <==> |Split(hostname)| <= MAX_LABELS
      ensures ok ==> num <= MAX_LABELS && labels[..num] == Split(hostname)
    {
      hide Split, DotAt, Good, Users, Kids;
      labels := new string[MAX_LABELS](_ => "");
      num := 0;
      var view := hostname;
      assert labels[..0] + Split(view) == Split(hostname);
      while view != ""
        invariant num <= MAX_LABELS && Split(hostname) == labels[..num] + Split(view)
        decreases |view|
      {
        SplitStep(view);
        var part := view[..DotAt(view)];
        if num == MAX_LABELS {
          return false, labels, num;
        }
        ghost var before := labels[..num];
        labels[num] := part;
        assert labels[..num + 1] == before + [part];
        num := num + 1;
        view := Behind(view);
      }
      SplitNone();
      ok := true;
    }

    /** getUser */
    method GetUser(n: Node, labels: seq<string>) returns (user: User)
      requires Valid() && n in nodes
      ensures n in tries && user == Lookup(tries[n], labels)
      decreases |labels|
    {
      hide Good;
      NodeFacts(Now(), depth, root, {}, n);
      if labels == [] {
        return n.user;
      }
      if labels[0] in n.children {
        user := GetUser(n.children[labels[0]], labels[1..]);
        if user != NOBODY {
          return user;
        }
      }
      if STAR !in n.children {
        return NOBODY;
      }
      user := GetUser(n.children[STAR], labels[1..]);
    }

    /** sni_find */
    method Find(hostname: string) returns (user: User)
      requires Valid()
      ensures user == if |Split(hostname)| <= 10 then Lookup(Value(), Split(hostname)) else NOBODY
    {
      var ok, labels, num := SplitHost(hostname);
      if !ok {
        return NOBODY;
      }
      user := GetUser(root, labels[..num]);
    }

    // ---- Adding

    /** sni_add. Nodes are made on the way down before it is known whether the name exists already; if it does, none
        had to be made. */
    method Add(hostname: string, user: User) returns (exists_: int)
      requires Valid() && user != NOBODY
      modifies this`nodes, this`tries, this`depth, nodes
      ensures Valid() && fresh(nodes - old(nodes))
      ensures (Value(), exists_) == TreeStep(old(Value()), Op.Add(hostname, user))
    {
      hide Good, Leads, Users, Kids, Planted, UserAt, Added, Sub, Replaced, DotAt, Split;
      ghost var t, path, done: Name := Value(), [root], [];
      LeadsNowhere(Now(), depth, root);
      PlantNothing(t);
      var node, view := root, hostname;
      while view != ""
        invariant Valid() && fresh(nodes - old(nodes)) && node in nodes && path != [] && node == path[|path| - 1]
        invariant Leads(Now(), depth, root, path, done) && Value() == Planted(t, done)
        invariant Split(hostname) == done + Split(view)
        decreases |view|
      {
        var part := view[..DotAt(view)];
        node := Descend(node, part, t, path, done);
        SplitOn(done, view);
        path, done := path + [node], done + [part];
        view := Behind(view);
      }
      SplitNone();
      LeadsTo(Now(), depth, root, path, done);
      PlantDone(t, done, user);
      assert done == Split(hostname);
      if node.user != NOBODY {
        return 1;
      }
      Register(node, user, path, done);
      exists_ := 0;
    }

    /** One label further, making the node if it is not there. */
    method Descend(node: Node, part: string, ghost t: Trie, ghost path: seq<Node>, ghost done: Name)
                   returns (child: Node)
      requires Valid() && Leads(Now(), depth, root, path, done) && node in nodes && path != []
               && node == path[|path| - 1]
      requires Value() == Planted(t, done)
      modifies this`nodes, this`tries, this`depth, node`children
      ensures Valid() && fresh(nodes - old(nodes)) && nodes >= old(nodes) && child in nodes
      ensures Leads(Now(), depth, root, path + [child], done + [part]) && Value() == Planted(t, done + [part])
    {
      hide Good, Leads, Users, Kids, Planted, AfterPlant, Sub, Replaced;
      ghost var before, was := Now(), depth;
      LeadsTo(before, depth, root, path, done);
      PlantMore(t, done, part);
      if part !in node.children {
        var made := Plant(node, part, path, done);
        PlantKeeps(before, was, root, path, done, part, made);
      }
      LeadsOn(Now(), depth, root, path, done, part);
      child := node.children[part];
    }

    /** A new empty child. */
    method Plant(node: Node, part: string, ghost path: seq<Node>, ghost name: Name) returns (child: Node)
      requires node in nodes && |path| == |name| + 1 && node == path[|name|] && part !in node.children
      modifies this`nodes, this`tries, this`depth, node`children
      ensures fresh(child) && nodes == old(nodes) + {child} && node.children == old(node.children)[part := child]
      ensures Now() == AfterPlant(old(Now()), old(depth), path, name, part, child)
              && depth == old(depth)[child := |path|]
    {
      hide Users, Kids, Lifted, AfterPlant;
      ghost var before := Now();
      child := AddChild(node, part);
      ghost var after := AfterPlant(before, depth, path, name, part, child);
      AfterPlantFields(before, depth, path, name, part, child);
      Deepen(child, |path|);
      Become(after);
    }

    ghost method Deepen(n: Node, level: nat)
      modifies this`depth
      ensures depth == old(depth)[n := level] && Now() == old(Now())
    {
      hide Users, Kids;
      depth := depth[n := level];
    }

    /** The nodes are what arena `a` says, and stand for what it says. */
    ghost method Become(a: Arena)
      requires Users() == a.users && Kids() == a.kids
      modifies this`tries
      ensures Now() == a
    {
      hide Users, Kids;
      Regard(a.tries);
    }

    /** What the nodes are said to stand for. */
    ghost method Regard(t: map<Node, Trie>)
      modifies this`tries
      ensures tries == t && Users() == old(Users()) && Kids() == old(Kids())
    {
      hide Users, Kids;
      tries := t;
    }

    method AddChild(node: Node, part: string) returns (child: Node)
      requires node in nodes
      modifies this`nodes, node`children
      ensures fresh(child) && nodes == old(nodes) + {child} && node.children == old(node.children)[part := child]
      ensures Users() == old(Users())[child := NOBODY]
      ensures Kids() == old(Kids())[node := old(node.children)[part := child]][child := map[]]
    {
      hide Users, Kids;
      child := new Node();
      node.children := node.children[part := child];
      nodes := nodes + {child};
    }

    method Register(node: Node, user: User, ghost path: seq<Node>, ghost name: Name)
      requires Valid() && Leads(Now(), depth, root, path, name) && node in nodes && path != []
               && node == path[|path| - 1]
      modifies this`tries, node`user
      ensures Valid() && Value() == Replaced(old(Value()), name, Sub(old(Value()), name).(user := user))
    {
      hide Good, Leads, Users, Kids, Lifted;
      ghost var before := Now();
      LeadsTo(before, depth, root, path, name);
      RegisterKeeps(before, depth, root, path, name, user);
      SetUser(node, user);
      tries := Lifted(before.(users := before.users[node := user]), depth, path, name);
    }

    method SetUser(node: Node, user: User)
      requires node in nodes
      modifies node`user
      ensures Users() == old(Users())[node := user] && Kids() == old(Kids())
    {
      hide Users, Kids;
      node.user := user;
    }

    // ---- Removing

    /** removeUser, at a node whose parents are all `above`: below it the tree changes as `Removed` says, and elsewhere
        it does not. */
    method RemoveUser(n: Node, labels: seq<string>, ghost above: set<Node>) returns (user: User)
      requires ValidBut(above) && Reached(Now(), depth, n, above)
      modifies this`nodes, this`tries, nodes
      ensures ValidBut(above) && nodes <= old(nodes)
      ensures n in nodes && n in old(tries) && n in tries && tries[n] == Removed(old(tries[n]), labels)
              && user == UserAt(old(tries[n]), labels)
      ensures Untouched(old(Now()), Now(), depth, n)
      decreases |labels|
    {
      hide Good, Reached, Untouched, Users, Kids, Culled;
      ghost var before := Now();
      ReachedIn(before, depth, n, above);
      NodeFacts(before, depth, root, above, n);
      if labels == [] {
        user := n.user;
        RenamedKeeps(before, depth, root, above, n, NOBODY);
        Clear(n);
      } else if labels[0] !in n.children {
        user := NOBODY;
        UntouchedSelf(before, depth, n);
      } else {
        ReachedChild(before, depth, root, n, labels[0], above);
        user := RemoveUser(n.children[labels[0]], labels[1..], above + {n});
        CulledKeeps(before, Now(), depth, root, above, n, labels);
        Cull(n, labels[0], before.tries[n]);
      }
    }

    method Clear(n: Node)
      requires n in nodes && n in tries
      modifies this`tries, n`user
      ensures Now() == Renamed(old(Now()), n, NOBODY)
    {
      hide Users, Kids;
      SetUser(n, NOBODY);
      Regard(tries[n := tries[n].(user := NOBODY)]);
    }

    /** The way back up: the child just visited is culled if it holds nothing. `t` is what `n` stood for before. */
    method Cull(n: Node, part: string, ghost t: Trie)
      requires n in nodes && part in n.children && n.children[part] in nodes && n.children[part] != n
               && n.children[part] in tries
      modifies this`nodes, this`tries, n`children
      ensures nodes <= old(nodes) && Now() == Culled(old(Now()), n, part, t)
    {
      hide Users, Kids;
      var child := n.children[part];
      ghost var after := Culled(Now(), n, part, t);
      if child.children == map[] && child.user == NOBODY {
        Erase(n, part);
      }
      assert Users() == after.users && Kids() == after.kids;
      Regard(after.tries);
    }

    method Erase(n: Node, part: string)
      requires n in nodes && part in n.children && n.children[part] in nodes && n.children[part] != n
      modifies this`nodes, n`children
      ensures nodes <= old(nodes)
      ensures Users() == old(Users()) - {old(n.children[part])}
      ensures Kids() == old(Kids())[n := old(n.children) - {part}] - {old(n.children[part])}
    {
      hide Users, Kids;
      nodes := nodes - {n.children[part]};
      n.children := n.children - {part};
    }

    /** sni_remove */
    method Remove(hostname: string) returns (user: User)
      requires Valid()
      modifies this`nodes, this`tries, nodes
      ensures Valid() && nodes <= old(nodes)
      ensures (Value(), user) == TreeStep(old(Value()), Op.Remove(hostname))
    {
      hide Good, Untouched;
      ReachedRoot(Now(), depth, root);
      var ok, labels, num := SplitHost(hostname);
      if !ok {
        return NOBODY;
      }
      user := RemoveUser(root, labels[..num], {});
    }

    // ---- Freeing

    /** sni_free: the callback is made once for every name still registered, but never for the empty one. */
    method Free() returns (calls: seq<User>, ghost names: seq<Name>)
      requires Valid()
      ensures Freed(Value(), names, calls)
    {
      hide Good, Freed;
      ReachedRoot(Now(), depth, root);
      calls, names := Destroy(root);
    }

    /** ~sni_node: the users of the children, and then whatever destroying the children brings. */
    method Destroy(n: Node) returns (calls: seq<User>, ghost names: seq<Name>)
      requires Valid() && n in nodes && n in tries
      ensures Freed(tries[n], names, calls)
      decreases tries[n], 1
    {
      hide Good, Called, Users, Kids, Freed;
      calls, names := CallChildren(n);
      var moreCalls;
      ghost var more;
      moreCalls, more := DestroyChildren(n, calls, names);
      calls, names := moreCalls, more;
    }

    /** The body of the destructor. */
    method CallChildren(n: Node) returns (calls: seq<User>, ghost names: seq<Name>)
      requires Valid() && n in nodes && n in tries
      ensures CalledUpTo(tries[n], names, calls, n.children.Keys)
    {
      hide Good, Called, Users, Kids, CalledUpTo;
      NodeFacts(Now(), depth, root, {}, n);
      calls, names := [], [];
      CalledNone(tries[n], n.children.Keys);
      var todo := n.children.Keys;
      while todo != {}
        invariant todo <= n.children.Keys && CalledTops(tries[n], names, calls, todo)
        decreases |todo|
      {
        hide CalledTops;
        var part :| part in todo;
        NodeFacts(Now(), depth, root, {}, n.children[part]);
        CalledTop(tries[n], names, calls, part, todo);
        if n.children[part].user != NOBODY {
          calls, names := calls + [n.children[part].user], names + [[part]];
        }
        todo := todo - {part};
      }
      CalledAllTops(tries[n], names, calls);
    }

    /** What follows it: the children are destroyed. */
    method DestroyChildren(n: Node, calls0: seq<User>, ghost names0: seq<Name>)
                           returns (calls: seq<User>, ghost names: seq<Name>)
      requires Valid() && n in nodes && n in tries && CalledUpTo(tries[n], names0, calls0, n.children.Keys)
      ensures Freed(tries[n], names, calls)
      decreases tries[n], 0
    {
      hide Good, Called, Users, Kids, CalledUpTo, Freed;
      NodeFacts(Now(), depth, root, {}, n);
      calls, names := calls0, names0;
      var todo := n.children.Keys;
      while todo != {}
        invariant todo <= n.children.Keys && CalledUpTo(tries[n], names, calls, todo)
        decreases |todo|
      {
        var part :| part in todo;
        ghost var more;
        var moreCalls;
        moreCalls, more := Destroy(n.children[part]);
        CalledBelow(tries[n], names, calls, part, more, moreCalls, todo);
        calls, names := calls + moreCalls, names + Under(part, more);
        todo := todo - {part};
      }
      CalledAll(tries[n], names, calls);
    }
  }

  lemma NodeFacts(a: Arena, depth: map<Node, nat>, root: Node, above: set<Node>, n: Node)
    requires Good(a, depth, root, above) && n in a.kids && n !in above
    ensures n in a.users && n in a.tries && a.tries[n].user == a.users[n] && a.tries[n].children.Keys == a.kids[n].Keys
    ensures forall part | part in a.kids[n] ::
              a.kids[n][part] in a.kids && a.kids[n][part] in a.users && a.kids[n][part] in a.tries
                  && a.tries[n].children[part] == a.tries[a.kids[n][part]]
  {
    assert a.tries[n] == Snapshot(a, n);
  }

  // ---- Adding

  /** `path` leads from the root along `name`. */
  ghost predicate Leads(a: Arena, depth: map<Node, nat>, root: Node, path: seq<Node>, name: Name) {
    && |path| == |name| + 1 && path[0] == root
    && (forall i | 0 <= i < |path| ::
                path[i] in a.kids && path[i] in a.tries && path[i] in depth && depth[path[i]] == i)
    && (forall i | 0 <= i < |name| :: name[i] in a.kids[path[i]] && a.kids[path[i]][name[i]] == path[i + 1])
  }

  lemma LeadsNowhere(a: Arena, depth: map<Node, nat>, root: Node)
    requires Good(a, depth, root, {})
    ensures Leads(a, depth, root, [root], []) && root in a.kids && root in a.tries
  {
  }

  lemma LeadsOn(a: Arena, depth: map<Node, nat>, root: Node, path: seq<Node>, name: Name, part: string)
    requires Good(a, depth, root, {}) && Leads(a, depth, root, path, name) && path[|path| - 1] in a.kids
             && part in a.kids[path[|path| - 1]]
    ensures var child := a.kids[path[|path| - 1]][part];
            Leads(a, depth, root, path + [child], name + [part]) && child in a.kids
  {
  }

  lemma {:induction false} SubAlong(a: Arena, depth: map<Node, nat>, root: Node, path: seq<Node>, name: Name, i: nat)
    requires Good(a, depth, root, {}) && Leads(a, depth, root, path, name) && i <= |name|
    ensures path[i] in a.tries && path[|name|] in a.tries && Sub(a.tries[path[i]], name[i..]) == a.tries[path[|name|]]
    decreases |name| - i
  {
    if i < |name| {
      NodeFacts(a, depth, root, {}, path[i]);
      SubAlong(a, depth, root, path, name, i + 1);
      assert name[i..][0] == name[i] && name[i..][1..] == name[i + 1..];
    } else {
      assert name[i..] == [];
    }
  }

  /** The node a path leads to stands for the part of the trie that its name leads to. */
  lemma LeadsTo(a: Arena, depth: map<Node, nat>, root: Node, path: seq<Node>, name: Name)
    requires Good(a, depth, root, {}) && Leads(a, depth, root, path, name)
    ensures |path| == |name| + 1 && root in a.tries
    ensures var n := path[|path| - 1];
            && n in a.kids && n in a.users && Sub(a.tries[root], name).user == a.users[n]
            && Sub(a.tries[root], name).children.Keys == a.kids[n].Keys
  {
    SubAlong(a, depth, root, path, name, 0);
    assert name[0..] == name;
    NodeFacts(a, depth, root, {}, path[|name|]);
  }

  /** What the nodes on `path` stand for once the last of them stands for what its fields say. */
  ghost function Lifted(a: Arena, depth: map<Node, nat>, path: seq<Node>, name: Name): map<Node, Trie>
    requires |path| == |name| + 1 && path[|name|] in a.users && path[|name|] in a.kids
  {
    map m | m in a.tries ::
      if m in depth && depth[m] < |path| && path[depth[m]] == m
          then Replaced(a.tries[m], name[depth[m]..], Snapshot(a, path[|name|])) else a.tries[m]
  }

  /** All but the node at the end of `path` stand for what their fields say. */
  ghost predicate AllButLast(a: Arena, depth: map<Node, nat>, root: Node, path: seq<Node>, name: Name) {
    Shaped(a.kids, depth, root) && Leads(a, depth, root, path, name) && Agreeing(a, {path[|name|]})
  }

  lemma OffPath(a: Arena, depth: map<Node, nat>, root: Node, path: seq<Node>, name: Name, m: Node, part: string)
    requires AllButLast(a, depth, root, path, name) && m in a.kids && part in a.kids[m]
    ensures a.kids[m][part] in a.tries && path[|name|] in a.users
    ensures var child := a.kids[m][part];
            Lifted(a, depth, path, name)[child] ==
              (if m in depth && depth[m] < |name| && path[depth[m]] == m && part == name[depth[m]]
               then Replaced(a.tries[child], name[depth[m] + 1..], Snapshot(a, path[|name|])) else a.tries[child])
  {
    hide Snapshot;
    var child := a.kids[m][part];
    assert depth[child] == depth[m] + 1;
    if depth[child] < |path| && path[depth[child]] == child {
      assert a.kids[path[depth[m]]][name[depth[m]]] == child;
    }
  }

  lemma PathFacts(a: Arena, depth: map<Node, nat>, root: Node, path: seq<Node>, name: Name, m: Node)
    requires AllButLast(a, depth, root, path, name) && m in a.kids
    ensures |path| == |name| + 1 && path[|name|] in a.users && path[|name|] in a.kids && m in a.users && m in a.tries
            && m in depth
    ensures forall part | part in a.kids[m] :: a.kids[m][part] in a.tries
    ensures m != path[|name|] ==> a.tries[m] == Snapshot(a, m)
    ensures depth[m] < |name| && path[depth[m]] == m ==> name[depth[m]] in a.kids[m] && m != path[|name|]
  {
    hide Snapshot;
  }

  ghost predicate OnPath(depth: map<Node, nat>, path: seq<Node>, name: Name, m: Node) {
    |path| == |name| + 1 && m in depth && depth[m] < |name| && path[depth[m]] == m
  }

  lemma LiftedOn(a: Arena, depth: map<Node, nat>, root: Node, path: seq<Node>, name: Name, m: Node)
    requires AllButLast(a, depth, root, path, name) && m in a.kids && OnPath(depth, path, name, m)
    ensures path[|name|] in a.users && m in a.users && m in a.tries && path[|name|] in a.kids
    ensures Lifted(a, depth, path, name)[m] == Snapshot(a.(tries := Lifted(a, depth, path, name)), m)
  {
    hide AllButLast;
    PathFacts(a, depth, root, path, name, m);
    var i, c := depth[m], Snapshot(a, path[|name|]);
    var before, after := Snapshot(a, m), Snapshot(a.(tries := Lifted(a, depth, path, name)), m);
    assert name[i..][0] == name[i] && name[i..][1..] == name[i + 1..];
    forall part | part in a.kids[m]
      ensures after.children[part] == if part == name[i] then Replaced(before.children[part], name[i + 1..], c)
              else before.children[part]
    {
      OffPath(a, depth, root, path, name, m, part);
    }
    assert after.children == before.children[name[i] := Replaced(before.children[name[i]], name[i + 1..], c)];
  }

  lemma LiftedOff(a: Arena, depth: map<Node, nat>, root: Node, path: seq<Node>, name: Name, m: Node)
    requires AllButLast(a, depth, root, path, name) && m in a.kids && !OnPath(depth, path, name, m)
    ensures |path| == |name| + 1 && path[|name|] in a.users && path[|name|] in a.kids && m in a.users && m in a.tries
    ensures Snapshot(a.(tries := Lifted(a, depth, path, name)), m) == Snapshot(a, m)
  {
    hide AllButLast;
    PathFacts(a, depth, root, path, name, m);
    var before, after := Snapshot(a, m), Snapshot(a.(tries := Lifted(a, depth, path, name)), m);
    forall part | part in a.kids[m]
      ensures after.children[part] == before.children[part]
    {
      OffPath(a, depth, root, path, name, m, part);
    }
    assert after.children == before.children;
  }

  lemma LastLifted(a: Arena, depth: map<Node, nat>, root: Node, path: seq<Node>, name: Name, m: Node)
    requires AllButLast(a, depth, root, path, name) && m in a.kids && !OnPath(depth, path, name, m)
    ensures |path| == |name| + 1 && path[|name|] in a.users && path[|name|] in a.kids && m in a.users && m in a.tries
    ensures Lifted(a, depth, path, name)[m] == if m == path[|name|] then Snapshot(a, m) else a.tries[m]
  {
    hide Snapshot, Shaped;
    PathFacts(a, depth, root, path, name, m);
    assert name[|name|..] == [];
  }

  lemma LiftedAt(a: Arena, depth: map<Node, nat>, root: Node, path: seq<Node>, name: Name, m: Node)
    requires AllButLast(a, depth, root, path, name) && m in a.kids
    ensures |path| == |name| + 1 && path[|name|] in a.users && path[|name|] in a.kids && m in a.users && m in a.tries
    ensures Lifted(a, depth, path, name)[m] == Snapshot(a.(tries := Lifted(a, depth, path, name)), m)
  {
    hide AllButLast, OnPath, Snapshot, Lifted;
    PathFacts(a, depth, root, path, name, m);
    if OnPath(depth, path, name, m) {
      LiftedOn(a, depth, root, path, name, m);
    } else {
      LiftedOff(a, depth, root, path, name, m);
      LastLifted(a, depth, root, path, name, m);
    }
  }

  lemma LiftedRoot(a: Arena, depth: map<Node, nat>, root: Node, path: seq<Node>, name: Name)
    requires AllButLast(a, depth, root, path, name)
    ensures path[|name|] in a.users && path[|name|] in a.kids && root in a.tries
    ensures var a' := a.(tries := Lifted(a, depth, path, name));
            && Leads(a', depth, root, path, name) && root in a'.tries && a'.tries.Keys == a.tries.Keys
            && a'.tries[root] == Replaced(a.tries[root], name, Snapshot(a, path[|name|]))
  {
    hide Snapshot;
    assert name[0..] == name;
  }

  lemma LiftKeeps(a: Arena, depth: map<Node, nat>, root: Node, path: seq<Node>, name: Name)
    requires AllButLast(a, depth, root, path, name)
    ensures path[|name|] in a.users && path[|name|] in a.kids && root in a.tries
    ensures var a' := a.(tries := Lifted(a, depth, path, name));
            && Good(a', depth, root, {}) && Leads(a', depth, root, path, name) && root in a'.tries
            && a'.tries[root] == Replaced(a.tries[root], name, Snapshot(a, path[|name|]))
  {
    hide Snapshot;
    LiftedRoot(a, depth, root, path, name);
    hide Shaped, Leads, Lifted;
    var a' := a.(tries := Lifted(a, depth, path, name));
    forall m | m in a'.kids
      ensures m in a'.users && m in a'.tries && a'.tries[m] == Snapshot(a', m)
    {
      LiftedAt(a, depth, root, path, name, m);
    }
  }

  /** `n` has a new empty child. */
  ghost function Grown(a: Arena, n: Node, part: string, child: Node): Arena
    requires n in a.kids
  {
    Arena(a.users[child := NOBODY], a.kids[n := a.kids[n][part := child]][child := map[]], a.tries[child := EMPTY])
  }

  lemma GrownChild(a: Arena, n: Node, part: string, child: Node, m: Node, p: string)
    requires n in a.kids && part !in a.kids[n] && child !in a.kids
    requires m in Grown(a, n, part, child).kids && p in Grown(a, n, part, child).kids[m]
    ensures var c := Grown(a, n, part, child).kids[m][p];
            (c == child && m == n && p == part) || (m in a.kids && p in a.kids[m] && c == a.kids[m][p])
  {
  }

  lemma GrownShape(a: Arena, depth: map<Node, nat>, root: Node, n: Node, part: string, child: Node)
    requires Shaped(a.kids, depth, root) && n in a.kids && part !in a.kids[n] && child !in a.kids
    ensures Shaped(Grown(a, n, part, child).kids, depth[child := depth[n] + 1], root)
  {
    var kids', depth' := Grown(a, n, part, child).kids, depth[child := depth[n] + 1];
    assert kids'.Keys == a.kids.Keys + {child};
    hide Grown;
    forall m, p | m in kids' && p in kids'[m]
      ensures kids'[m][p] in kids' && depth'[kids'[m][p]] == depth'[m] + 1
    {
      GrownChild(a, n, part, child, m, p);
    }
    forall m, p, m', p' | m in kids' && m' in kids' && p in kids'[m] && p' in kids'[m'] && kids'[m][p] == kids'[m'][p']
      ensures m == m' && p == p'
    {
      GrownChild(a, n, part, child, m, p);
      GrownChild(a, n, part, child, m', p');
    }
  }

  lemma GrownOther(a: Arena, depth: map<Node, nat>, root: Node, n: Node, part: string, child: Node, m: Node)
    requires Good(a, depth, root, {}) && n in a.kids && child !in a.kids && m in a.kids && m != n
    ensures var a' := Grown(a, n, part, child);
            m in a'.users && m in a'.kids && m in a'.tries && a'.tries[m] == Snapshot(a', m)
  {
    var a' := Grown(a, n, part, child);
    assert a.tries[m] == Snapshot(a, m);
    assert Snapshot(a', m).children == Snapshot(a, m).children;
  }

  ghost function AfterPlant(a: Arena, depth: map<Node, nat>, path: seq<Node>, name: Name, part: string,
                            child: Node): Arena
    requires |path| == |name| + 1 && path[|name|] in a.kids && path[|name|] in a.users
  {
    var a1 := Grown(a, path[|name|], part, child);
    a1.(tries := Lifted(a1, depth[child := |path|], path, name))
  }

  lemma AfterPlantFields(a: Arena, depth: map<Node, nat>, path: seq<Node>, name: Name, part: string, child: Node)
    requires |path| == |name| + 1 && path[|name|] in a.kids && path[|name|] in a.users
    ensures var n, a' := path[|name|], AfterPlant(a, depth, path, name, part, child);
            a'.users == a.users[child := NOBODY] && a'.kids == a.kids[n := a.kids[n][part := child]][child := map[]]
  {
    hide Lifted;
  }

  lemma PlantKeeps(a: Arena, depth: map<Node, nat>, root: Node, path: seq<Node>, name: Name, part: string, child: Node)
    requires Good(a, depth, root, {}) && Leads(a, depth, root, path, name)
    requires path[|name|] in a.kids && path[|name|] in a.users && part !in a.kids[path[|name|]] && child !in a.kids
    ensures var n, a', depth' := path[|name|], AfterPlant(a, depth, path, name, part, child), depth[child := |path|];
            && root in a.tries && root in a'.tries && Good(a', depth', root, {}) && Leads(a', depth', root, path, name)
            && a'.tries[root] == Replaced(a.tries[root], name,
               Sub(a.tries[root], name).(children := Sub(a.tries[root], name).children[part := EMPTY]))
  {
    hide Shaped, Snapshot, Lifted, Agreeing, Leads;
    LeadsTo(a, depth, root, path, name);
    var n := path[|name|];
    var a1, depth' := Grown(a, n, part, child), depth[child := |path|];
    GrownShape(a, depth, root, n, part, child);
    GrownLeads(a, depth, root, path, name, part, child);
    GrownAgrees(a, depth, root, n, part, child);
    LiftKeeps(a1, depth', root, path, name);
    SubAlong(a, depth, root, path, name, 0);
    assert name[0..] == name;
    GrownSnapshot(a, depth, root, n, part, child);
  }

  lemma GrownAgrees(a: Arena, depth: map<Node, nat>, root: Node, n: Node, part: string, child: Node)
    requires Good(a, depth, root, {}) && n in a.kids && part !in a.kids[n] && child !in a.kids
    ensures Agreeing(Grown(a, n, part, child), {n}) && root in a.tries && root in Grown(a, n, part, child).tries
    ensures Grown(a, n, part, child).tries[root] == a.tries[root]
  {
    hide Snapshot;
    var a1 := Grown(a, n, part, child);
    forall m | m in a1.kids && m != n
      ensures m in a1.users && m in a1.tries && a1.tries[m] == Snapshot(a1, m)
    {
      if m != child { GrownOther(a, depth, root, n, part, child, m); } else { GrownNew(a, n, part, child); }
    }
  }

  lemma GrownNew(a: Arena, n: Node, part: string, child: Node)
    requires n in a.kids && child !in a.kids
    ensures var a1 := Grown(a, n, part, child);
            child in a1.users && child in a1.kids && a1.tries[child] == Snapshot(a1, child)
  {
    assert Snapshot(Grown(a, n, part, child), child).children == map[];
  }

  lemma GrownLeads(a: Arena, depth: map<Node, nat>, root: Node, path: seq<Node>, name: Name, part: string, child: Node)
    requires Leads(a, depth, root, path, name) && path[|name|] in a.kids && part !in a.kids[path[|name|]]
             && child !in a.kids
    ensures Leads(Grown(a, path[|name|], part, child), depth[child := |path|], root, path, name)
  {
  }

  lemma ChildrenKept(a: Arena, depth: map<Node, nat>, root: Node, n: Node, child: Node)
    requires Good(a, depth, root, {}) && n in a.kids && child !in a.kids
    ensures forall p | p in a.kids[n] :: a.kids[n][p] in a.kids && a.kids[n][p] != child
  {
    hide Agreeing;
  }

  lemma GrownSnapshot(a: Arena, depth: map<Node, nat>, root: Node, n: Node, part: string, child: Node)
    requires Good(a, depth, root, {}) && n in a.kids && part !in a.kids[n] && child !in a.kids && n in a.tries
    ensures n in Grown(a, n, part, child).users
    ensures Snapshot(Grown(a, n, part, child), n) == a.tries[n].(children := a.tries[n].children[part := EMPTY])
  {
    hide Good;
    NodeFacts(a, depth, root, {}, n);
    ChildrenKept(a, depth, root, n, child);
    var s := Snapshot(Grown(a, n, part, child), n).children;
    assert s.Keys == a.kids[n].Keys + {part};
    forall p | p in s
      ensures s[p] == a.tries[n].children[part := EMPTY][p]
    {
    }
  }

  lemma RegisterKeeps(a: Arena, depth: map<Node, nat>, root: Node, path: seq<Node>, name: Name, user: User)
    requires Good(a, depth, root, {}) && Leads(a, depth, root, path, name)
    ensures |path| == |name| + 1 && root in a.tries
    ensures var a1 := a.(users := a.users[path[|name|] := user]);
            && path[|name|] in a1.kids && root in Lifted(a1, depth, path, name)
            && Good(a1.(tries := Lifted(a1, depth, path, name)), depth, root, {})
            && Lifted(a1, depth, path, name)[root] == Replaced(a.tries[root], name,
               Sub(a.tries[root], name).(user := user))
  {
    hide Shaped, Snapshot, Lifted;
    var n := path[|name|];
    var a1 := a.(users := a.users[n := user]);
    RegisteredAgrees(a, depth, root, n, user);
    LiftKeeps(a1, depth, root, path, name);
    SubAlong(a, depth, root, path, name, 0);
    assert name[0..] == name;
  }

  lemma RegisteredAgrees(a: Arena, depth: map<Node, nat>, root: Node, n: Node, user: User)
    requires Good(a, depth, root, {}) && n in a.kids
    ensures var a1 := a.(users := a.users[n := user]);
            n in a.tries && Agreeing(a1, {n}) && Snapshot(a1, n) == a.tries[n].(user := user)
  {
    var a1 := a.(users := a.users[n := user]);
    forall m | m in a1.kids
      ensures Snapshot(a1, m).children == a.tries[m].children
    {
      assert a.tries[m] == Snapshot(a, m);
    }
  }

  // ---- Freeing

  /** The calls are for the users of these names, each once. */
  ghost predicate Called(t: Trie, names: seq<Name>, calls: seq<User>) {
    && |names| == |calls| && (forall i, j | 0 <= i < j < |names| :: names[i] != names[j])
    && (forall i | 0 <= i < |names| ::
                names[i] != [] && UserAt(t, names[i]) != NOBODY && calls[i] == UserAt(t, names[i]))
  }

  /** Once for every registered name but the empty one. */
  ghost predicate Freed(t: Trie, names: seq<Name>, calls: seq<User>) {
    Called(t, names, calls) && forall name :: name in names <==> name != [] && UserAt(t, name) != NOBODY
  }

  ghost function Under(part: string, names: seq<Name>): (r: seq<Name>)
    ensures |r| == |names| && forall i | 0 <= i < |names| :: r[i] == [part] + names[i]
  {
    seq(|names|, i requires 0 <= i < |names| => [part] + names[i])
  }

  /** Called for the names of one label, but for those in `todo`. */
  ghost predicate CalledTops(t: Trie, names: seq<Name>, calls: seq<User>, todo: set<string>) {
    Called(t, names, calls) && forall name ::
                name in names <==> |name| == 1 && UserAt(t, name) != NOBODY && name[0] !in todo
  }

  /** Called for the names of one label, and for the longer ones that do not start with a label in `todo`. */
  ghost predicate CalledUpTo(t: Trie, names: seq<Name>, calls: seq<User>, todo: set<string>) {
    Called(t, names, calls) && forall name ::
                name in names <==> name != [] && UserAt(t, name) != NOBODY && (|name| == 1 || name[0] !in todo)
  }

  lemma CalledNone(t: Trie, todo: set<string>)
    requires t.children.Keys == todo
    ensures CalledTops(t, [], [], todo)
  {
  }

  lemma CalledTop(t: Trie, names: seq<Name>, calls: seq<User>, part: string, todo: set<string>)
    requires CalledTops(t, names, calls, todo) && part in todo && part in t.children
    ensures if t.children[part].user != NOBODY then CalledTops(t, names + [[part]], calls + [t.children[part].user],
            todo - {part})
            else CalledTops(t, names, calls, todo - {part})
  {
    assert UserAt(t, [part]) == t.children[part].user;
    forall name: Name
      ensures |name| == 1 && name[0] == part <==> name == [part]
    {
    }
  }

  lemma CalledAllTops(t: Trie, names: seq<Name>, calls: seq<User>)
    requires CalledTops(t, names, calls, {})
    ensures CalledUpTo(t, names, calls, t.children.Keys)
  {
    hide Called;
  }

  lemma CalledAll(t: Trie, names: seq<Name>, calls: seq<User>)
    requires CalledUpTo(t, names, calls, {})
    ensures Freed(t, names, calls)
  {
    hide Called;
  }

  lemma UserUnder(t: Trie, part: string, name: Name)
    requires part in t.children
    ensures UserAt(t, [part] + name) == UserAt(t.children[part], name)
  {
    assert ([part] + name)[1..] == name;
  }

  lemma CalledUnder(t: Trie, part: string, more: seq<Name>, moreCalls: seq<User>)
    requires part in t.children && Called(t.children[part], more, moreCalls)
    ensures Called(t, Under(part, more), moreCalls)
    ensures forall i | 0 <= i < |more| :: |Under(part, more)[i]| > 1 && Under(part, more)[i][0] == part
  {
    hide UserAt;
    forall i | 0 <= i < |more|
      ensures UserAt(t, [part] + more[i]) == UserAt(t.children[part], more[i])
    {
      UserUnder(t, part, more[i]);
    }
    forall i, j | 0 <= i < j < |more|
      ensures [part] + more[i] != [part] + more[j]
    {
      assert ([part] + more[i])[1..] == more[i] && ([part] + more[j])[1..] == more[j];
    }
  }

  lemma CalledBoth(t: Trie, names: seq<Name>, calls: seq<User>, more: seq<Name>, moreCalls: seq<User>)
    requires Called(t, names, calls) && Called(t, more, moreCalls) && forall i, j | 0 <= i < |names|
             && 0 <= j < |more| :: names[i] != more[j]
    ensures Called(t, names + more, calls + moreCalls)
  {
  }

  lemma InUnder(t: Trie, part: string, more: seq<Name>, moreCalls: seq<User>, name: Name)
    requires part in t.children && Freed(t.children[part], more, moreCalls)
    ensures name in Under(part, more) <==> |name| > 1 && name[0] == part && UserAt(t, name) != NOBODY
  {
    hide Called;
    if name != [] && name[0] == part {
      assert name == [part] + name[1..];
      UserUnder(t, part, name[1..]);
      if name[1..] in more {
        var i :| 0 <= i < |more| && more[i] == name[1..];
        assert Under(part, more)[i] == name;
      }
    }
    if name in Under(part, more) {
      var i :| 0 <= i < |more| && Under(part, more)[i] == name;
      assert name[1..] == more[i] && more[i] in more;
    }
  }

  lemma CalledBelow(t: Trie, names: seq<Name>, calls: seq<User>, part: string, more: seq<Name>, moreCalls: seq<User>,
                    todo: set<string>)
    requires CalledUpTo(t, names, calls, todo) && part in t.children && Freed(t.children[part], more, moreCalls)
             && part in todo
    ensures CalledUpTo(t, names + Under(part, more), calls + moreCalls, todo - {part})
  {
    hide Called, UserAt, Under;
    var under := Under(part, more);
    CalledUnder(t, part, more, moreCalls);
    forall i, j | 0 <= i < |names| && 0 <= j < |under|
      ensures names[i] != under[j]
    {
      assert names[i] in names;
    }
    CalledBoth(t, names, calls, under, moreCalls);
    forall name: Name
      ensures name in names + under <==>
                  name != [] && UserAt(t, name) != NOBODY && (|name| == 1 || name[0] !in todo - {part})
    {
      InUnder(t, part, more, moreCalls, name);
    }
  }

  /** The user of the empty hostname is the one that sni_free forgets. */
  lemma EmptyNameNeverFreed(t: Trie, names: seq<Name>, calls: seq<User>)
    requires Freed(t, names, calls)
    ensures (forall name | UserAt(t, name) != NOBODY :: name in names) <==> UserAt(t, []) == NOBODY
  {
    hide Called;
  }

  /** Such a user: registered in a new tree for the empty hostname, and no call is made for it. */
  lemma EmptyNameLost(user: User, names: seq<Name>, calls: seq<User>)
    requires user != NOBODY && Freed(TreeStep(EMPTY, Op.Add("", user)).0, names, calls)
    ensures UserAt(TreeStep(EMPTY, Op.Add("", user)).0, []) == user && calls == []
  {
    EmptyNameRegisters(user);
    var t := TreeStep(EMPTY, Op.Add("", user)).0;
    forall name: Name
      ensures name !in names
    {
      if name != [] { NoneUnder(t, name); }
    }
    if names != [] { SomeName(names); }
  }

  lemma SomeName(names: seq<Name>)
    requires names != []
    ensures exists name :: name in names
  {
    assert names[0] in names;
  }

  /** A root without children stands for the empty hostname alone. */
  lemma NoneUnder(t: Trie, name: Name)
    requires t.children == map[] && name != []
    ensures UserAt(t, name) == NOBODY
  {
  }

  // ---- Removing

  /** All parents of `n` are `above`, and everything `above` is higher up. */
  ghost predicate Reached(a: Arena, depth: map<Node, nat>, n: Node, above: set<Node>) {
    && n in a.kids && n !in above && n in depth
    && (forall m | m in above :: m in depth && depth[m] < depth[n])
    && (forall m, part | m in a.kids && part in a.kids[m] && a.kids[m][part] == n :: m in above)
  }

  /** The nodes as high up as `n` or higher, but for `n`, are as they were. */
  ghost predicate Untouched(a: Arena, a': Arena, depth: map<Node, nat>, n: Node) {
    && a'.kids.Keys <= a.kids.Keys
    && forall m | m in a.kids && m != n && m in depth && n in depth && depth[m] <= depth[n] && m in a.users
    && m in a.tries ::
      && m in a'.kids && m in a'.users && m in a'.tries
      && a'.kids[m] == a.kids[m] && a'.users[m] == a.users[m] && a'.tries[m] == a.tries[m]
  }

  lemma ReachedIn(a: Arena, depth: map<Node, nat>, n: Node, above: set<Node>)
    requires Reached(a, depth, n, above)
    ensures n in a.kids && n !in above
  {
  }

  lemma ReachedRoot(a: Arena, depth: map<Node, nat>, root: Node)
    requires Good(a, depth, root, {})
    ensures Reached(a, depth, root, {}) && root in a.tries
  {
  }

  lemma ReachedChild(a: Arena, depth: map<Node, nat>, root: Node, n: Node, part: string, above: set<Node>)
    requires Good(a, depth, root, above) && Reached(a, depth, n, above) && part in a.kids[n]
    ensures Good(a, depth, root, above + {n}) && Reached(a, depth, a.kids[n][part], above + {n})
  {
  }

  lemma UntouchedSelf(a: Arena, depth: map<Node, nat>, n: Node)
    ensures Untouched(a, a, depth, n)
  {
  }

  ghost function Renamed(a: Arena, n: Node, user: User): Arena
    requires n in a.tries
  {
    Arena(a.users[n := user], a.kids, a.tries[n := a.tries[n].(user := user)])
  }

  lemma SnapshotSame(a: Arena, a': Arena, m: Node, n: Node)
    requires m in a.users && m in a.kids && m in a'.users && m in a'.kids && a'.users[m] == a.users[m]
             && a'.kids[m] == a.kids[m]
    requires a'.tries.Keys == a.tries.Keys && forall x | x in a.tries && x != n :: a'.tries[x] == a.tries[x]
    requires forall part | part in a.kids[m] :: a.kids[m][part] != n
    ensures Snapshot(a', m) == Snapshot(a, m)
  {
  }

  lemma RenamedKeeps(a: Arena, depth: map<Node, nat>, root: Node, above: set<Node>, n: Node, user: User)
    requires Good(a, depth, root, above) && Reached(a, depth, n, above)
    ensures n in a.tries && Good(Renamed(a, n, user), depth, root, above) && Untouched(a, Renamed(a, n, user), depth, n)
  {
    var a' := Renamed(a, n, user);
    forall m | m in a'.kids && m !in above
      ensures a'.tries[m] == Snapshot(a', m)
    {
      if m != n { SnapshotSame(a, a', m, n); } else { RenamedSnapshot(a, n, user); }
    }
  }

  lemma RenamedSnapshot(a: Arena, n: Node, user: User)
    requires n in a.kids && n in a.users && n in a.tries && a.tries[n] == Snapshot(a, n)
             && forall part | part in a.kids[n] :: a.kids[n][part] != n
    ensures Renamed(a, n, user).tries[n] == Snapshot(Renamed(a, n, user), n)
  {
  }

  /** `n` after its child at `part` was visited; `t` is what `n` stood for before. */
  ghost function Culled(a: Arena, n: Node, part: string, t: Trie): Arena
    requires n in a.kids && part in a.kids[n] && a.kids[n][part] in a.kids && a.kids[n][part] in a.users
             && a.kids[n][part] in a.tries
  {
    var child := a.kids[n][part];
    if a.kids[child] == map[] && a.users[child] == NOBODY
    then Arena(a.users - {child}, a.kids[n := a.kids[n] - {part}] - {child},
        a.tries[n := t.(children := t.children - {part})])
    else a.(tries := a.tries[n := t.(children := t.children[part := a.tries[child]])])
  }

  /** What `t` says about `n` still goes for its children but the one at `part`, and nothing above `n` has changed. */
  ghost predicate AllBut(a: Arena, above: set<Node>, n: Node, part: string, t: Trie) {
    && n in a.kids && n in a.users && n in a.tries && part in a.kids[n] && n !in above
    && t.user == a.users[n] && t.children.Keys == a.kids[n].Keys
    && (forall p | p in a.kids[n] ::
                a.kids[n][p] in a.kids && a.kids[n][p] in a.users && a.kids[n][p] in a.tries && a.kids[n][p] != n
                && a.kids[n][p] !in above)
    && (forall p | p in a.kids[n] && p != part :: t.children[p] == a.tries[a.kids[n][p]])
    && (forall m, p | m in a.kids && p in a.kids[m] && a.kids[m][p] == n :: m in above)
  }

  lemma AfterChild(before: Arena, a: Arena, depth: map<Node, nat>, root: Node, above: set<Node>, n: Node, part: string)
    requires Good(before, depth, root, above) && Reached(before, depth, n, above) && part in before.kids[n]
             && n in before.tries
    requires Good(a, depth, root, above + {n}) && Untouched(before, a, depth, before.kids[n][part])
    ensures AllBut(a, above, n, part, before.tries[n]) && a.kids[n] == before.kids[n]
  {
    hide Agreeing;
    var child := before.kids[n][part];
    assert depth[child] == depth[n] + 1;
    AgreeingKeys(before, above);
    AgreeingKeys(a, above + {n});
    NodeFacts(before, depth, root, above, n);
    forall p | p in a.kids[n] && p != part
      ensures before.tries[n].children[p] == a.tries[a.kids[n][p]]
    {
      assert before.kids[n][p] != child && depth[before.kids[n][p]] == depth[child];
    }
    forall m, p | m in a.kids && p in a.kids[m] && a.kids[m][p] == n
      ensures m in above
    {
      assert depth[m] + 1 == depth[n] && m in before.kids && before.kids[m] == a.kids[m];
    }
  }

  lemma AgreeingKeys(a: Arena, above: set<Node>)
    requires Agreeing(a, above)
    ensures a.users.Keys == a.kids.Keys && a.kids.Keys <= a.tries.Keys
  {
  }

  lemma ErasedShape(kids: map<Node, map<string, Node>>, depth: map<Node, nat>, root: Node, n: Node, part: string)
    requires Shaped(kids, depth, root) && n in kids && part in kids[n] && kids[kids[n][part]] == map[]
    ensures var kids' := kids[n := kids[n] - {part}] - {kids[n][part]}; n in kids' && Shaped(kids', depth, root)
  {
    var child := kids[n][part];
    var kids' := kids[n := kids[n] - {part}] - {child};
    forall m, p | m in kids' && p in kids'[m]
      ensures p in kids[m] && kids'[m][p] == kids[m][p] && kids[m][p] != child && kids'[m][p] in kids'
    {
    }
  }

  lemma EmptyNode(a: Arena, above: set<Node>, n: Node)
    requires Agreeing(a, above) && n in a.kids && n !in above && forall part | part in a.kids[n] ::
             a.kids[n][part] in a.tries
    ensures n in a.users && n in a.tries && (a.tries[n] == EMPTY <==> a.kids[n] == map[] && a.users[n] == NOBODY)
  {
    assert a.tries[n] == Snapshot(a, n);
    assert a.tries[n].children.Keys == a.kids[n].Keys;
    if a.kids[n] == map[] { assert a.tries[n].children == map[]; }
    if a.tries[n] == EMPTY { assert a.kids[n].Keys == {}; }
  }

  lemma CulledSnapshot(a: Arena, above: set<Node>, n: Node, part: string, t: Trie)
    requires AllBut(a, above, n, part, t) && n in Culled(a, n, part, t).kids
    ensures n in Culled(a, n, part, t).users && Culled(a, n, part, t).tries[n] == Snapshot(Culled(a, n, part, t), n)
  {
    var a' := Culled(a, n, part, t);
    assert a'.tries[n].children.Keys == a'.kids[n].Keys;
    assert a'.tries[n].children == Snapshot(a', n).children;
  }

  lemma CulledOther(a: Arena, above: set<Node>, n: Node, part: string, t: Trie, m: Node)
    requires Agreeing(a, above + {n}) && AllBut(a, above, n, part, t) && m in Culled(a, n, part, t).kids && m !in above
             && m != n
    ensures m in Culled(a, n, part, t).users && m in a.tries
            && Culled(a, n, part, t).tries[m] == Snapshot(Culled(a, n, part, t), m)
  {
    SnapshotSame(a, Culled(a, n, part, t), m, n);
  }

  lemma CulledAgrees(a: Arena, above: set<Node>, n: Node, part: string, t: Trie)
    requires Agreeing(a, above + {n}) && AllBut(a, above, n, part, t)
    ensures Agreeing(Culled(a, n, part, t), above)
  {
    hide AllBut, Snapshot;
    assert n in a.kids && part in a.kids[n] && a.kids[n][part] in a.kids && a.kids[n][part] in a.users
           && a.kids[n][part] in a.tries by { ChildThere(a, above, n, part, t); }
    forall m | m in Culled(a, n, part, t).kids && m !in above
      ensures m in Culled(a, n, part, t).users && m in Culled(a, n, part, t).tries
              && Culled(a, n, part, t).tries[m] == Snapshot(Culled(a, n, part, t), m)
    {
      if m != n { CulledOther(a, above, n, part, t, m); } else { CulledSnapshot(a, above, n, part, t); }
    }
  }

  lemma ChildThere(a: Arena, above: set<Node>, n: Node, part: string, t: Trie)
    requires AllBut(a, above, n, part, t)
    ensures n in a.kids && part in a.kids[n] && a.kids[n][part] in a.kids && a.kids[n][part] in a.users
            && a.kids[n][part] in a.tries
    ensures forall p | p in a.kids[n] :: a.kids[n][p] in a.tries
    ensures a.kids[n][part] != n && a.kids[n][part] !in above
  {
  }

  lemma CulledUntouched(before: Arena, a: Arena, depth: map<Node, nat>, root: Node, n: Node, part: string, t: Trie)
    requires Shaped(before.kids, depth, root) && n in before.kids && part in before.kids[n]
             && Untouched(before, a, depth, before.kids[n][part])
    requires n in a.kids && a.kids[n] == before.kids[n] && a.kids[n][part] in a.kids && a.kids[n][part] in a.users
             && a.kids[n][part] in a.tries
    ensures Untouched(before, Culled(a, n, part, t), depth, n)
  {
    assert depth[before.kids[n][part]] == depth[n] + 1;
  }

  lemma CulledKeeps(before: Arena, a: Arena, depth: map<Node, nat>, root: Node, above: set<Node>, n: Node,
                    labels: seq<string>)
    requires Good(before, depth, root, above) && Reached(before, depth, n, above) && labels != []
             && labels[0] in before.kids[n]
    requires n in before.tries && before.kids[n][labels[0]] in before.tries
    requires Good(a, depth, root, above + {n}) && Untouched(before, a, depth, before.kids[n][labels[0]])
    requires var child := before.kids[n][labels[0]];
             child in a.tries && a.tries[child] == Removed(before.tries[child], labels[1..])
    ensures n in a.kids && a.kids[n] == before.kids[n] && a.kids[n][labels[0]] in a.users
            && a.kids[n][labels[0]] in a.kids && a.kids[n][labels[0]] != n
    ensures var a' := Culled(a, n, labels[0], before.tries[n]);
            && Good(a', depth, root, above) && n in a'.kids && n in a'.tries
            && a'.tries[n] == Removed(before.tries[n], labels)
            && Untouched(before, a', depth, n)
  {
    hide Agreeing, Shaped, Untouched, Reached;
    ReachedIn(before, depth, n, above);
    var part, t := labels[0], before.tries[n];
    var child := before.kids[n][part];
    AfterChild(before, a, depth, root, above, n, part);
    NodeFacts(before, depth, root, above, n);
    NodeFacts(a, depth, root, above + {n}, child);
    EmptyNode(a, above + {n}, child);
    CulledUntouched(before, a, depth, root, n, part, t);
    CulledAgrees(a, above, n, part, t);
    if a.tries[child] == EMPTY { ErasedShape(a.kids, depth, root, n, part); }
  }
}
