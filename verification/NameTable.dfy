/** The hostname tree against a plain finite map from names to users, over any run of operations. */
module NameTable {
  import opened Labels
  import opened Tries

  type Table = map<Name, User>

  datatype Op = Add(host: string, user: User) | Remove(host: string)

  /** What the two operations of the tree do to the trie it stands for, and what they return. */
  function TreeStep(t: Trie, op: Op): (Trie, int) {
    match op
    case Add(host, user) => if UserAt(t, Split(host)) != NOBODY then (t, 1) else (Added(t, Split(host), user), 0)
    case Remove(host) => if |Split(host)| > MAX_LABELS then (t, NOBODY)
        else (Removed(t, Split(host)), UserAt(t, Split(host)))
  }

  /** The same for a table; names of more than ten labels can be added, but not removed. */
  function TableStep(m: Table, op: Op): (Table, int) {
    match op
    case Add(host, user) => if Split(host) in m then (m, 1) else (m[Split(host) := user], 0)
    case Remove(host) =>
      if |Split(host)| > MAX_LABELS || Split(host) !in m then (m, NOBODY) else (m - {Split(host)}, m[Split(host)])
  }

  ghost predicate Refines(t: Trie, m: Table) {
    && Trimmed(t)
    && (forall name | name in m :: m[name] != NOBODY)
    && forall name :: UserAt(t, name) == if name in m then m[name] else NOBODY
  }

  lemma StepRefines(t: Trie, m: Table, op: Op)
    requires Refines(t, m) && (op.Add? ==> op.user != NOBODY)
    ensures Refines(TreeStep(t, op).0, TableStep(m, op).0) && TreeStep(t, op).1 == TableStep(m, op).1
  {
    var name := Split(op.host);
    if op.Add? && UserAt(t, name) == NOBODY {
      AddedTrimmed(t, name, op.user);
      forall other { AddedUsers(t, name, op.user, other); }
    }
    if op.Remove? && |name| <= MAX_LABELS {
      RemovedTrimmed(t, name);
      forall other { RemovedUsers(t, name, other); }
    }
  }

  function TreeRun(t: Trie, ops: seq<Op>): (Trie, seq<int>) {
    if ops == [] then (t, [])
    else var (t', results) := TreeRun(t, ops[..|ops| - 1]); var (t'', result) := TreeStep(t', ops[|ops| - 1]);
        (t'', results + [result])
  }

  function TableRun(m: Table, ops: seq<Op>): (Table, seq<int>) {
    if ops == [] then (m, [])
    else var (m', results) := TableRun(m, ops[..|ops| - 1]); var (m'', result) := TableStep(m', ops[|ops| - 1]);
        (m'', results + [result])
  }

  /** Over every run from an empty tree, tree and table return the same and hold the same. */
  lemma {:induction false} RunRefines(ops: seq<Op>)
    requires forall i | 0 <= i < |ops| && ops[i].Add? :: ops[i].user != NOBODY
    ensures Refines(TreeRun(EMPTY, ops).0, TableRun(map[], ops).0) && TreeRun(EMPTY, ops).1 == TableRun(map[], ops).1
  {
    if ops == [] {
      forall name { EmptyHasNobody(name); }
    } else {
      var init := ops[..|ops| - 1];
      RunRefines(init);
      StepRefines(TreeRun(EMPTY, init).0, TableRun(map[], init).0, ops[|ops| - 1]);
    }
  }

  /** The tree is determined by the table: how it was filled and emptied leaves no trace. */
  lemma SameTableSameTree(ops: seq<Op>, ops': seq<Op>)
    requires forall i | 0 <= i < |ops| && ops[i].Add? :: ops[i].user != NOBODY
    requires forall i | 0 <= i < |ops'| && ops'[i].Add? :: ops'[i].user != NOBODY
    requires TableRun(map[], ops).0 == TableRun(map[], ops').0
    ensures TreeRun(EMPTY, ops).0 == TreeRun(EMPTY, ops').0
  {
    RunRefines(ops);
    RunRefines(ops');
    Canonical(TreeRun(EMPTY, ops).0, TreeRun(EMPTY, ops').0);
  }

  /** An operation that fails changes nothing, and a removal undoes the addition of a new name it can reach. */
  lemma FailuresAndUndoing(t: Trie, m: Table, host: string, user: User)
    requires Refines(t, m) && user != NOBODY
    ensures TreeStep(t, Add(host, user)).1 != 0 ==> TreeStep(t, Add(host, user)).0 == t
    ensures TreeStep(t, Remove(host)).1 == NOBODY ==> TreeStep(t, Remove(host)).0 == t
    ensures Split(host) !in m && |Split(host)| <= MAX_LABELS ==>
              TreeStep(TreeStep(t, Add(host, user)).0, Remove(host)) == (t, user)
  {
    var name := Split(host);
    assert UserAt(t, name) == if name in m then m[name] else NOBODY;
    if UserAt(t, name) == NOBODY {
      RemoveAbsent(t, name);
      RemoveUndoesAdd(t, name, user);
      AddedUsers(t, name, user, name);
    }
  }

  /** What the operations return, and whose user they change. */
  lemma StepUsers(t: Trie, op: Op)
    ensures var (t', result) := TreeStep(t, op);
            var name := Split(op.host);
            match op
            case Add(_, user) =>
              if UserAt(t, name) != NOBODY then t' == t && result == 1
              else result == 0 && forall other ::
                     UserAt(t', other) == if other == name then user else UserAt(t, other)
            case Remove(_) =>
              if |name| > 10 then t' == t && result == NOBODY
              else result == UserAt(t, name) && forall other ::
                     UserAt(t', other) == if other == name then NOBODY else UserAt(t, other)
  {
    var name := Split(op.host);
    if op.Add? {
      forall other { AddedUsers(t, name, op.user, other); }
    } else {
      forall other { RemovedUsers(t, name, other); }
    }
  }

  /** The empty hostname has no labels, and can be registered: its user sits at the root. */
  lemma EmptyNameRegisters(user: User)
    requires user != NOBODY
    ensures TreeStep(EMPTY, Add("", user)) == (EMPTY.(user := user), 0)
    ensures UserAt(TreeStep(EMPTY, Add("", user)).0, []) == user
  {
    SplitNone();
    assert UserAt(EMPTY, []) == NOBODY;
  }

  /** A hostname of up to ten labels is found exactly when some registered name matches it, and then for the user of
      the best match: label by label from the left, an exact one before a wildcard. */
  lemma FindIsBest(t: Trie, m: Table, host: Name)
    requires Refines(t, m)
    ensures Lookup(t, host) == NOBODY <==> forall name | name in m :: !Matches(name, host)
    ensures Lookup(t, host) != NOBODY ==> exists name | name in m ::
              Matches(name, host) && m[name] == Lookup(t, host) && forall other | other in m && Matches(other, host) ::
                  AtLeastAsGood(name, other, host)
  {
    LookupFinds(t, host);
    if Lookup(t, host) != NOBODY {
      var name :| BestMatch(t, host, name) && UserAt(t, name) == Lookup(t, host);
      assert name in m;
      forall other | other in m && Matches(other, host)
        ensures AtLeastAsGood(name, other, host)
      {
        assert UserAt(t, other) != NOBODY;
      }
    } else {
      forall name | name in m
        ensures !Matches(name, host)
      {
        assert UserAt(t, name) == m[name] != NOBODY;
      }
    }
  }

  /** There is one best match only. */
  lemma BestIsUnique(name: Name, other: Name, host: Name)
    requires Matches(name, host) && Matches(other, host) && AtLeastAsGood(name, other, host)
             && AtLeastAsGood(other, name, host)
    ensures name == other
  {
    if name != other {
      var i :| 0 <= i < |host| && i < |name| && i < |other| && name[..i] == other[..i] && name[i] == host[i]
          && other[i] != host[i];
      var j :| 0 <= j < |host| && j < |name| && j < |other| && other[..j] == name[..j] && other[j] == host[j]
          && name[j] != host[j];
      if i < j { PrefixSame(name, other, j, i); } else if j < i { PrefixSame(name, other, i, j); }
    }
  }

  lemma PrefixSame(name: Name, other: Name, n: nat, i: nat)
    requires n <= |name| && n <= |other| && name[..n] == other[..n] && i < n
    ensures name[i] == other[i]
  {
    assert name[..n][i] == name[i] && other[..n][i] == other[i];
  }
}
