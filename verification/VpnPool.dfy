/**
 The `vpn-pool` readiness check: a depth-first search for a usable node through proxy groups that may refer to each
 other in cycles, with one set of visited names shared by the whole search for a target.
 */
module VpnPool {
  import opened EngineNames

  /** A group lists its members; anything else is a single node. */
  datatype Proxy = Group(members: seq<string>) | Node

  type Proxies = map<string, Proxy>

  const BLOCKED := {"DIRECT", "REJECT", "REJECT-DROP"}

  // ---------- What the check is for ----------

  /** A known node that is not one of the engine's own names. */
  predicate Leaf(proxies: Proxies, name: string) {
    name !in BLOCKED && name in proxies && proxies[name].Node? && name !in PSEUDO_NODES
  }

  /** A group that traffic may be sent through: it cannot fall back to a direct connection. */
  predicate Passable(proxies: Proxies, name: string) {
    name !in BLOCKED && name in proxies && proxies[name].Group? && "DIRECT" !in proxies[name].members
  }

  /** A chain of passable groups, each listing the next, that ends in a leaf. */
  predicate IsPath(proxies: Proxies, path: seq<string>)
    decreases |path|
  {
    path != [] &&
    if |path| == 1 then Leaf(proxies, path[0])
    else Passable(proxies, path[0]) && path[1] in proxies[path[0]].members && IsPath(proxies, path[1..])
  }

  ghost predicate LeadsToNode(proxies: Proxies, name: string) {
    exists path: seq<string> :: IsPath(proxies, path) && path[0] == name
  }

  // ---------- What a failed search leaves behind ----------

  /** Nothing is left to find at this name: every way on was visited or is blocked. */
  predicate Exhausted(proxies: Proxies, visited: set<string>, name: string) {
    && !Leaf(proxies, name)
    && (Passable(proxies, name) ==> forall m :: m in proxies[name].members ==> m in BLOCKED || m in visited)
  }

  predicate AllExhausted(proxies: Proxies, names: set<string>, visited: set<string>) {
    forall name :: name in names ==> Exhausted(proxies, visited, name)
  }

  lemma StaysExhausted(proxies: Proxies, names: set<string>, visited: set<string>, later: set<string>)
    requires AllExhausted(proxies, names, visited) && visited <= later
    ensures AllExhausted(proxies, names, later)
  {
  }

  lemma {:induction false} ExhaustedHasNoPath(proxies: Proxies, visited: set<string>, path: seq<string>)
    requires AllExhausted(proxies, visited, visited) && IsPath(proxies, path)
    ensures path[0] !in visited
    decreases |path|
  {
    if |path| > 1 && path[0] in visited {
      ExhaustedHasNoPath(proxies, visited, path[1..]);
      assert path[1] in BLOCKED;
      BlockedHasNoPath(proxies, path[1..]);
    }
  }

  lemma BlockedHasNoPath(proxies: Proxies, path: seq<string>)
    requires IsPath(proxies, path)
    ensures path[0] !in BLOCKED
  {
  }

  lemma PathThrough(proxies: Proxies, name: string, member: string)
    requires Passable(proxies, name) && member in proxies[name].members && LeadsToNode(proxies, member)
    ensures LeadsToNode(proxies, name)
  {
    var path :| IsPath(proxies, path) && path[0] == member;
    assert IsPath(proxies, [name] + path) by {
      assert ([name] + path)[1..] == path;
    }
    assert ([name] + path)[0] == name;
  }

  lemma LeafLeads(proxies: Proxies, name: string)
    requires Leaf(proxies, name)
    ensures LeadsToNode(proxies, name)
  {
    assert IsPath(proxies, [name]) && [name][0] == name;
  }

  // ---------- The search ----------

  class Search {
    const proxies: Proxies
    var visited: set<string>

    constructor (proxies: Proxies)
      ensures this.proxies == proxies && visited == {}
    {
      this.proxies := proxies;
      visited := {};
    }

    /** Terminates on every graph: a group is entered only once. */
    method HasNode(name: string) returns (found: bool)
      modifies this`visited
      ensures old(visited) <= visited
      ensures found ==> LeadsToNode(proxies, name)
      ensures !found ==> name in BLOCKED || name in visited
      ensures !found ==> AllExhausted(proxies, visited - old(visited), visited)
      decreases |proxies.Keys - visited|, 1, 0
    {
      if name in visited || name in BLOCKED {
        return false;
      }
      ghost var before := proxies.Keys - visited;
      visited := visited + {name};
      if name !in proxies {
        return false;
      }
      assert proxies.Keys - visited == before - {name} && name in before;
      match proxies[name] {
        case Node =>
          found := name !in PSEUDO_NODES;
          if found {
            LeafLeads(proxies, name);
          }
        case Group(members) =>
          if "DIRECT" in members {
            return false;
          }
          ghost var entered := visited;
          found := SomeMember(name, members, 0);
          assert forall other :: other in visited - old(visited) ==> other == name || other in visited - entered;
      }
    }

    /** `members.some(hasNode)` from position `k` on. */
    method SomeMember(name: string, members: seq<string>, k: nat) returns (found: bool)
      requires k <= |members| && Passable(proxies, name) && proxies[name].members == members && name in visited
      requires forall j :: 0 <= j < k ==> members[j] in BLOCKED || members[j] in visited
      modifies this`visited
      ensures old(visited) <= visited
      ensures found ==> LeadsToNode(proxies, name)
      ensures !found ==> AllExhausted(proxies, visited - old(visited), visited) && Exhausted(proxies, visited, name)
      decreases |proxies.Keys - visited|, 2, |members| - k
    {
      found := false;
      if k < |members| {
        found := HasNode(members[k]);
        if found {
          PathThrough(proxies, name, members[k]);
        } else {
          ghost var between := visited;
          Shrinks(proxies.Keys, old(visited), visited);
          found := SomeMember(name, members, k + 1);
          if !found {
            StaysExhausted(proxies, between - old(visited), between, visited);
            assert forall other :: other in visited - old(visited) ==>
              other in between - old(visited) || other in visited - between;
          }
        }
      }
    }

    /** The check: every target leads to a node. Each target is searched with a fresh set. */
    method EveryTargetHasNode(targets: seq<string>) returns (ready: bool)
      modifies this`visited
      ensures ready <==> forall k :: 0 <= k < |targets| ==> LeadsToNode(proxies, targets[k])
    {
      for k := 0 to |targets|
        invariant forall j :: 0 <= j < k ==> LeadsToNode(proxies, targets[j])
      {
        visited := {};
        ready := HasNode(targets[k]);
        if !ready {
          assert visited - {} == visited;
          NoPathFrom(proxies, visited, targets[k]);
          return;
        }
      }
      ready := true;
    }
  }

  /** A failed search from an empty set is a proof that there is no path. */
  lemma NoPathFrom(proxies: Proxies, visited: set<string>, name: string)
    requires AllExhausted(proxies, visited, visited) && (name in BLOCKED || name in visited)
    ensures !LeadsToNode(proxies, name)
  {
    forall path: seq<string> | IsPath(proxies, path) ensures path[0] != name {
      ExhaustedHasNoPath(proxies, visited, path);
      BlockedHasNoPath(proxies, path);
    }
  }

  lemma Shrinks(keys: set<string>, before: set<string>, after: set<string>)
    requires before <= after
    ensures |keys - after| <= |keys - before|
  {
    Smaller(keys - after, keys - before);
  }

  lemma {:induction false} Smaller(a: set<string>, b: set<string>)
    requires a <= b
    ensures |a| <= |b|
    decreases a
  {
    if a != {} {
      var x :| x in a;
      Smaller(a - {x}, b - {x});
    }
  }
}
