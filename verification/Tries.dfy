/** A trie of hostname labels as a value, and what adding, removing and looking up names mean. */
module Tries {
  /** What a name is registered for; `NOBODY` is the null pointer. */
  type User = int
  const NOBODY: User := 0
  type Name = seq<string>

  datatype Trie = Trie(user: User, children: map<string, Trie>)
  const EMPTY := Trie(NOBODY, map[])

  /** Who is registered for exactly this name. */
  function UserAt(t: Trie, name: Name): User
    decreases |name|
  {
    if name == [] then t.user
    else if name[0] in t.children then UserAt(t.children[name[0]], name[1..])
    else NOBODY
  }

  function ChildOr(t: Trie, part: string): Trie {
    if part in t.children then t.children[part] else EMPTY
  }

  function Added(t: Trie, name: Name, user: User): Trie
    decreases |name|
  {
    if name == [] then t.(user := user)
    else t.(children := t.children[name[0] := Added(ChildOr(t, name[0]), name[1..], user)])
  }

  /** removeUser: nodes left without a user and without children are culled on the way back up, but for the top. */
  function Removed(t: Trie, name: Name): Trie
    decreases |name|
  {
    if name == [] then t.(user := NOBODY)
    else if name[0] !in t.children then t
    else
      var child := Removed(t.children[name[0]], name[1..]);
      if child == EMPTY then t.(children := t.children - {name[0]})
      else t.(children := t.children[name[0] := child])
  }

  /** Every leaf but the top holds a user. */
  ghost predicate Trimmed(t: Trie) {
    forall part | part in t.children :: t.children[part] != EMPTY && Trimmed(t.children[part])
  }

  lemma EmptyHasNobody(name: Name)
    ensures UserAt(EMPTY, name) == NOBODY
  {
  }

  lemma {:induction false} AddedUsers(t: Trie, name: Name, user: User, other: Name)
    ensures UserAt(Added(t, name, user), other) == if other == name then user else UserAt(t, other)
    decreases |name|
  {
    if name != [] && other != [] {
      if other[0] == name[0] {
        AddedUsers(ChildOr(t, name[0]), name[1..], user, other[1..]);
        EmptyHasNobody(other[1..]);
        assert other == name <==> other[1..] == name[1..] by { assert [name[0]] + name[1..] == name
               && [other[0]] + other[1..] == other; }
      }
    }
  }

  lemma {:induction false} RemovedUsers(t: Trie, name: Name, other: Name)
    ensures UserAt(Removed(t, name), other) == if other == name then NOBODY else UserAt(t, other)
    decreases |name|
  {
    if name != [] && other != [] && name[0] in t.children && other[0] == name[0] {
      RemovedUsers(t.children[name[0]], name[1..], other[1..]);
      EmptyHasNobody(other[1..]);
      assert other == name <==> other[1..] == name[1..] by { assert [name[0]] + name[1..] == name
             && [other[0]] + other[1..] == other; }
    }
  }

  lemma {:induction false} AddedTrimmed(t: Trie, name: Name, user: User)
    requires Trimmed(t) && user != NOBODY
    ensures Trimmed(Added(t, name, user)) && Added(t, name, user) != EMPTY
    decreases |name|
  {
    if name != [] {
      AddedTrimmed(ChildOr(t, name[0]), name[1..], user);
      assert name[0] in Added(t, name, user).children;
    }
  }

  lemma {:induction false} RemovedTrimmed(t: Trie, name: Name)
    requires Trimmed(t)
    ensures Trimmed(Removed(t, name))
    decreases |name|
  {
    if name != [] && name[0] in t.children { RemovedTrimmed(t.children[name[0]], name[1..]); }
  }

  /** Removing a name nobody is registered for changes nothing. */
  lemma {:induction false} RemoveAbsent(t: Trie, name: Name)
    requires Trimmed(t) && UserAt(t, name) == NOBODY
    ensures Removed(t, name) == t
    decreases |name|
  {
    if name != [] && name[0] in t.children {
      RemoveAbsent(t.children[name[0]], name[1..]);
      assert t.children[name[0] := t.children[name[0]]] == t.children;
    }
  }

  /** Some name is registered below every node that is not empty. */
  lemma {:induction false} SomebodyBelow(t: Trie) returns (name: Name)
    requires Trimmed(t) && t != EMPTY
    ensures UserAt(t, name) != NOBODY
    decreases t
  {
    if t.user != NOBODY {
      name := [];
    } else {
      assert t.children != map[];
      var part :| part in t.children;
      var rest := SomebodyBelow(t.children[part]);
      name := [part] + rest;
      assert name[1..] == rest;
    }
  }

  lemma SameBelow(t: Trie, t': Trie, part: string, name: Name)
    requires (forall n :: UserAt(t, n) == UserAt(t', n)) && part in t.children && part in t'.children
    ensures UserAt(t.children[part], name) == UserAt(t'.children[part], name)
  {
    var n := [part] + name;
    assert n[1..] == name && UserAt(t, n) == UserAt(t', n);
  }

  lemma SameLabel(t: Trie, t': Trie, part: string)
    requires Trimmed(t) && (forall n :: UserAt(t, n) == UserAt(t', n)) && part in t.children
    ensures part in t'.children
  {
    var rest := SomebodyBelow(t.children[part]);
    var n := [part] + rest;
    assert n[1..] == rest && UserAt(t, n) == UserAt(t', n);
  }

  /** Two trimmed tries with the same registrations are the same. */
  lemma {:induction false} Canonical(t: Trie, t': Trie)
    requires Trimmed(t) && Trimmed(t') && forall n :: UserAt(t, n) == UserAt(t', n)
    ensures t == t'
    decreases t
  {
    assert UserAt(t, []) == UserAt(t', []);
    forall part
      ensures part in t.children <==> part in t'.children
    {
      if part in t.children { SameLabel(t, t', part); }
      if part in t'.children { SameLabel(t', t, part); }
    }
    forall part | part in t.children
      ensures t.children[part] == t'.children[part]
    {
      forall name { SameBelow(t, t', part, name); }
      Canonical(t.children[part], t'.children[part]);
    }
    assert t.children == t'.children;
  }

  /** Removing a name that was just added restores the very same trie. */
  lemma RemoveUndoesAdd(t: Trie, name: Name, user: User)
    requires Trimmed(t) && user != NOBODY && UserAt(t, name) == NOBODY
    ensures Removed(Added(t, name, user), name) == t
  {
    AddedTrimmed(t, name, user);
    RemovedTrimmed(Added(t, name, user), name);
    forall other
      ensures UserAt(Removed(Added(t, name, user), name), other) == UserAt(t, other)
    {
      RemovedUsers(Added(t, name, user), name, other);
      AddedUsers(t, name, user, other);
    }
    Canonical(Removed(Added(t, name, user), name), t);
  }

  // ---- Adding node by node, from the top down

  function Sub(t: Trie, name: Name): Trie
    decreases |name|
  {
    if name == [] then t else Sub(ChildOr(t, name[0]), name[1..])
  }

  function Replaced(t: Trie, name: Name, sub: Trie): Trie
    decreases |name|
  {
    if name == [] then sub else t.(children := t.children[name[0] := Replaced(ChildOr(t, name[0]), name[1..], sub)])
  }

  /** The trie with a node for `name`, empty if it was not there. */
  function Planted(t: Trie, name: Name): Trie {
    Replaced(t, name, Sub(t, name))
  }

  lemma {:induction false} ReplacedAgain(t: Trie, name: Name, sub: Trie, sub': Trie)
    ensures Replaced(Replaced(t, name, sub), name, sub') == Replaced(t, name, sub')
            && Sub(Replaced(t, name, sub), name) == sub
    decreases |name|
  {
    if name != [] { ReplacedAgain(ChildOr(t, name[0]), name[1..], sub, sub'); }
  }

  lemma {:induction false} SubMore(t: Trie, name: Name, part: string, sub: Trie)
    ensures Sub(t, name + [part]) == ChildOr(Sub(t, name), part)
    ensures Replaced(t, name + [part], sub) == Replaced(t, name,
            Sub(t, name).(children := Sub(t, name).children[part := sub]))
    decreases |name|
  {
    if name == [] {
      assert name + [part] == [part];
    } else {
      SubMore(ChildOr(t, name[0]), name[1..], part, sub);
      assert (name + [part])[0] == name[0] && (name + [part])[1..] == name[1..] + [part];
    }
  }

  lemma PlantNothing(t: Trie)
    ensures Planted(t, []) == t
  {
  }

  /** One node further down. */
  lemma PlantMore(t: Trie, name: Name, part: string)
    ensures var p := Planted(t, name);
            && Sub(p, name) == Sub(t, name)
            && Planted(t, name + [part]) == (if part in Sub(p, name).children then p
                                             else Replaced(p, name,
                                                 Sub(p, name).(children := Sub(p, name).children[part := EMPTY])))
  {
    var s := Sub(t, name);
    ReplacedAgain(t, name, s, s.(children := s.children[part := ChildOr(s, part)]));
    SubMore(t, name, part, ChildOr(s, part));
    if part in s.children { assert s.(children := s.children[part := s.children[part]]) == s; }
  }

  lemma {:induction false} PlantDone(t: Trie, name: Name, user: User)
    ensures UserAt(t, name) == Sub(Planted(t, name), name).user
    ensures Added(t, name, user) == Replaced(Planted(t, name), name, Sub(Planted(t, name), name).(user := user))
    ensures UserAt(t, name) != NOBODY ==> Planted(t, name) == t
    decreases |name|
  {
    var s := Sub(t, name);
    ReplacedAgain(t, name, s, s.(user := user));
    if name != [] {
      PlantDone(ChildOr(t, name[0]), name[1..], user);
      ReplacedAgain(ChildOr(t, name[0]), name[1..], s, s.(user := user));
      EmptyHasNobody(name[1..]);
      if name[0] in t.children { assert t.(children := t.children[name[0] := t.children[name[0]]]) == t; }
    }
  }

  // ---- Looking a hostname up

  const STAR := "*"

  /** getUser: by the label itself if that leads to a user, else by the wildcard. */
  function Lookup(t: Trie, host: Name): User
    decreases |host|
  {
    if host == [] then t.user
    else
      var user := if host[0] in t.children then Lookup(t.children[host[0]], host[1..]) else NOBODY;
      if user != NOBODY then user
      else if STAR in t.children then Lookup(t.children[STAR], host[1..])
      else NOBODY
  }

  /** A name matches a hostname label by label: the label itself, or a wildcard. */
  predicate Matches(name: Name, host: Name) {
    |name| == |host| && forall i | 0 <= i < |host| :: name[i] == host[i] || name[i] == STAR
  }

  /** Where two matching names first differ, `name` has the host's own label and `other` the wildcard. */
  ghost predicate AtLeastAsGood(name: Name, other: Name, host: Name) {
    name == other || exists i ::
                0 <= i < |host| && i < |name| && i < |other| && name[..i] == other[..i] && name[i] == host[i]
                && other[i] != host[i]
  }

  /** `name` is registered, matches, and no other registered match is better. */
  ghost predicate BestMatch(t: Trie, host: Name, name: Name) {
    && Matches(name, host) && UserAt(t, name) != NOBODY
    && forall other | Matches(other, host) && UserAt(t, other) != NOBODY :: AtLeastAsGood(name, other, host)
  }

  lemma Uncons(name: Name, host: Name)
    requires name != [] && host != []
    ensures Matches(name, host) <==> (name[0] == host[0] || name[0] == STAR) && Matches(name[1..], host[1..])
  {
    if Matches(name[1..], host[1..]) && (name[0] == host[0] || name[0] == STAR) {
      forall i | 0 <= i < |host|
        ensures name[i] == host[i] || name[i] == STAR
      {
        if i > 0 { assert name[1..][i - 1] == host[1..][i - 1] || name[1..][i - 1] == STAR; }
      }
    }
    if Matches(name, host) {
      forall i | 0 <= i < |host[1..]|
        ensures name[1..][i] == host[1..][i] || name[1..][i] == STAR
      {
        assert name[i + 1] == host[i + 1] || name[i + 1] == STAR;
      }
    }
  }

  lemma GoodCons(name: Name, other: Name, host: Name)
    requires name != [] && other != [] && host != [] && name[0] == other[0]
             && AtLeastAsGood(name[1..], other[1..], host[1..])
    ensures AtLeastAsGood(name, other, host)
  {
    if name[1..] == other[1..] {
      assert name == [name[0]] + name[1..] && other == [other[0]] + other[1..];
    } else {
      var i :| 0 <= i < |host[1..]| && i < |name[1..]| && i < |other[1..]| && name[1..][..i] == other[1..][..i]
               && name[1..][i] == host[1..][i] && other[1..][i] != host[1..][i];
      assert name[..i + 1] == [name[0]] + name[1..][..i] && other[..i + 1] == [other[0]] + other[1..][..i];
      assert name[i + 1] == host[i + 1] && other[i + 1] != host[i + 1];
    }
  }

  /** The way through one child: its best match, with the label in front. */
  lemma ThroughChild(t: Trie, host: Name, part: string, rest: Name)
    requires host != [] && part in t.children && (part == host[0] || part == STAR)
    requires BestMatch(t.children[part], host[1..], rest)
    ensures var name := [part] + rest;
            && Matches(name, host) && UserAt(t, name) == UserAt(t.children[part], rest) != NOBODY
            && forall other | other != [] && other[0] == part && Matches(other, host) && UserAt(t, other) != NOBODY ::
               AtLeastAsGood(name, other, host)
  {
    var name := [part] + rest;
    assert name[1..] == rest;
    Uncons(name, host);
    forall other | other != [] && other[0] == part && Matches(other, host) && UserAt(t, other) != NOBODY
      ensures AtLeastAsGood(name, other, host)
    {
      Uncons(other, host);
      GoodCons(name, other, host);
    }
  }

  /** A hostname is found exactly when some registered name matches it. */
  lemma {:induction false} LookupFinds(t: Trie, host: Name)
    ensures Lookup(t, host) != NOBODY <==> exists name :: Matches(name, host) && UserAt(t, name) != NOBODY
    ensures Lookup(t, host) != NOBODY ==> exists name :: BestMatch(t, host, name) && UserAt(t, name) == Lookup(t, host)
    decreases |host|
  {
    if host == [] {
      assert Matches([], host) && UserAt(t, []) == t.user;
      if t.user != NOBODY { assert BestMatch(t, host, []); }
    } else {
      LookupByLabel(t, host);
    }
  }

  lemma {:induction false} LookupByLabel(t: Trie, host: Name)
    requires host != []
    ensures Lookup(t, host) != NOBODY <==> exists name :: Matches(name, host) && UserAt(t, name) != NOBODY
    ensures Lookup(t, host) != NOBODY ==> exists name :: BestMatch(t, host, name) && UserAt(t, name) == Lookup(t, host)
    decreases |host|, 0
  {
    var own := if host[0] in t.children then Lookup(t.children[host[0]], host[1..]) else NOBODY;
    if host[0] in t.children { LookupFinds(t.children[host[0]], host[1..]); }
    if STAR in t.children { LookupFinds(t.children[STAR], host[1..]); }
    forall name | Matches(name, host) && UserAt(t, name) != NOBODY
      ensures name[0] in t.children && (name[0] == host[0] || name[0] == STAR)
      ensures Lookup(t.children[name[0]], host[1..]) != NOBODY
    {
      Uncons(name, host);
    }
    if Lookup(t, host) != NOBODY {
      var part := if own != NOBODY then host[0] else STAR;
      var rest :| BestMatch(t.children[part], host[1..], rest)
          && UserAt(t.children[part], rest) == Lookup(t.children[part], host[1..]);
      ThroughChild(t, host, part, rest);
      var name := [part] + rest;
      forall other | Matches(other, host) && UserAt(t, other) != NOBODY
        ensures AtLeastAsGood(name, other, host)
      {
        if other[0] != part {
          assert part == host[0];
          assert name[..0] == other[..0];
        }
      }
      assert BestMatch(t, host, name);
    }
  }
}
