/**
 * Walks up the `parentId` links. The application's walks are `while` loops
 * that follow `nodes.find` until a link is missing; on a cycle of links they
 * never stop. Here each walk is specified by a function that takes at most
 * `fuel` steps, and the loops themselves are methods that require the links
 * to be acyclic and are proved to compute the fuel-bounded function with fuel
 * `|nodes|`.
 */
module Ancestry {
  import opened Common
  import opened CvModel

  /** Following parent links from `n` reaches a node without a found parent within `fuel` steps. */
  predicate Rooted(nodes: seq<CvNode>, n: CvNode, fuel: nat)
    decreases fuel
  {
    match Parent(nodes, n)
    case None => true
    case Some(p) => fuel > 0 && Rooted(nodes, p, fuel - 1)
  }

  /**
   * No chain of parent links loops: from every node the walk reaches a node
   * whose parentId is absent or names no node, within `|nodes|` steps.
   */
  predicate Acyclic(nodes: seq<CvNode>) {
    forall n :: n in nodes ==> Rooted(nodes, n, |nodes|)
  }

  lemma {:induction false} RootedMonotone(nodes: seq<CvNode>, n: CvNode, f: nat, g: nat)
    requires Rooted(nodes, n, f) && f <= g
    ensures Rooted(nodes, n, g)
    decreases f
  {
    match Parent(nodes, n)
    case None =>
    case Some(p) => RootedMonotone(nodes, p, f - 1, g - 1);
  }

  /** A node that carries a parent link to itself is not acyclic. */
  lemma SelfParentIsCyclic(nodes: seq<CvNode>, n: CvNode)
    requires n in nodes && n.parentId == Some(n.id) && FindById(nodes, n.id) == Some(n)
    ensures !Acyclic(nodes)
  {
    assert forall f: nat :: !Rooted(nodes, n, f) by {
      forall f: nat ensures !Rooted(nodes, n, f) {
        SelfLoopNeverRooted(nodes, n, f);
      }
    }
  }

  lemma {:induction false} SelfLoopNeverRooted(nodes: seq<CvNode>, n: CvNode, f: nat)
    requires n.parentId == Some(n.id) && FindById(nodes, n.id) == Some(n)
    ensures !Rooted(nodes, n, f)
    decreases f
  {
    if f > 0 {
      SelfLoopNeverRooted(nodes, n, f - 1);
    }
  }

  /**
   * `getAncestorIds` with at most `fuel` further steps: while the current id
   * is non-empty and its first node has a non-empty parentId, record that
   * parentId and move to it.
   */
  function AncestorsFrom(nodes: seq<CvNode>, cur: string, fuel: nat): seq<string>
    decreases fuel
  {
    if cur == "" then []
    else
      var pid := ParentIdOf(nodes, cur);
      if !Truthy(pid) then []
      else [pid.value] + (if fuel == 0 then [] else AncestorsFrom(nodes, pid.value, fuel - 1))
  }

  /** The ancestor ids of `nodeId`, nearest first. */
  function AncestorIds(nodes: seq<CvNode>, nodeId: string): seq<string> {
    AncestorsFrom(nodes, nodeId, |nodes|)
  }

  /** The walk may start from any id; only an id of a node starts a walk at all. */
  predicate RootedId(nodes: seq<CvNode>, id: string, fuel: nat) {
    FindById(nodes, id).Some? ==> Rooted(nodes, FindById(nodes, id).value, fuel)
  }

  function WalkMeasure(nodes: seq<CvNode>, cur: Option<string>, fuel: nat): nat {
    if !Truthy(cur) then 0
    else if FindById(nodes, cur.value).None? then 1
    else fuel + 2
  }

  /** `getAncestorIds` (cv.mapper.ts and its copy in layout.service.ts): the loop itself. */
  method GetAncestorIds(nodeId: string, nodes: seq<CvNode>) returns (ancestors: seq<string>)
    requires Acyclic(nodes)
    ensures ancestors == AncestorIds(nodes, nodeId)
  {
    ancestors := [];
    var currentId: Option<string> := Some(nodeId);
    ghost var fuel: nat := |nodes|;
    while Truthy(currentId)
      invariant AncestorIds(nodes, nodeId) == ancestors + Remaining(nodes, currentId, fuel)
      invariant currentId.Some? ==> RootedId(nodes, currentId.value, fuel)
      decreases WalkMeasure(nodes, currentId, fuel)
    {
      var node := FindById(nodes, currentId.value);
      if node.Some? && Truthy(node.value.parentId) {
        var p := node.value.parentId.value;
        fuel := AncestorStep(nodes, currentId.value, fuel);
        ancestors := ancestors + [p];
        currentId := Some(p);
      } else {
        currentId := None;
      }
    }
  }

  /** What the walk still has to record from `cur`. */
  function Remaining(nodes: seq<CvNode>, cur: Option<string>, fuel: nat): seq<string> {
    if cur.Some? then AncestorsFrom(nodes, cur.value, fuel) else []
  }

  /** One iteration of the loop: record the parent and move to it with one step less of fuel. */
  lemma AncestorStep(nodes: seq<CvNode>, cur: string, fuel: nat) returns (next: nat)
    requires cur != "" && RootedId(nodes, cur, fuel) && Truthy(ParentIdOf(nodes, cur))
    ensures var p := ParentIdOf(nodes, cur).value;
      && AncestorsFrom(nodes, cur, fuel) == [p] + AncestorsFrom(nodes, p, next)
      && RootedId(nodes, p, next)
      && WalkMeasure(nodes, Some(p), next) < WalkMeasure(nodes, Some(cur), fuel)
  {
    var n := FindById(nodes, cur).value;
    var p := n.parentId.value;
    assert Parent(nodes, n) == FindById(nodes, p);
    if fuel == 0 {
      next := 0;
      WalkFromMissing(nodes, p, 0);
    } else {
      next := fuel - 1;
    }
  }

  /** A walk from an id that no node carries records nothing. */
  lemma WalkFromMissing(nodes: seq<CvNode>, cur: string, fuel: nat)
    requires FindById(nodes, cur).None?
    ensures AncestorsFrom(nodes, cur, fuel) == []
  {
  }

  /** Extra fuel never changes a walk that is already rooted. */
  lemma {:induction false} AncestorsFuel(nodes: seq<CvNode>, cur: string, f: nat, g: nat)
    requires RootedId(nodes, cur, f) && f <= g
    ensures AncestorsFrom(nodes, cur, f) == AncestorsFrom(nodes, cur, g)
    decreases f
  {
    if f < g && cur != "" && Truthy(ParentIdOf(nodes, cur)) {
      var n := FindById(nodes, cur).value;
      var p := n.parentId.value;
      assert Parent(nodes, n) == FindById(nodes, p);
      if f == 0 {
        WalkFromMissing(nodes, p, g - 1);
        WalkFromMissing(nodes, p, 0);
      } else {
        AncestorsFuel(nodes, p, f - 1, g - 1);
      }
      SameTail(nodes, cur, p, f, g);
    }
  }

  /** Two walks from the same id whose walks from its parent agree agree as well. */
  lemma SameTail(nodes: seq<CvNode>, cur: string, p: string, f: nat, g: nat)
    requires cur != "" && ParentIdOf(nodes, cur) == Some(p) && p != "" && g > 0
    requires (if f == 0 then [] else AncestorsFrom(nodes, p, f - 1)) == AncestorsFrom(nodes, p, g - 1)
    ensures AncestorsFrom(nodes, cur, f) == AncestorsFrom(nodes, cur, g)
  {
  }

  /**
   * On acyclic data the ancestor list of a node with a non-empty parentId is
   * that parent followed by the parent's own ancestor list; otherwise it is empty.
   */
  lemma AncestorIdsUnfold(nodes: seq<CvNode>, nodeId: string)
    requires Acyclic(nodes)
    ensures AncestorIds(nodes, nodeId) ==
      if nodeId != "" && Truthy(ParentIdOf(nodes, nodeId))
      then [ParentIdOf(nodes, nodeId).value] + AncestorIds(nodes, ParentIdOf(nodes, nodeId).value)
      else []
  {
    if nodeId != "" && Truthy(ParentIdOf(nodes, nodeId)) {
      var n := FindById(nodes, nodeId).value;
      var p := ParentIdOf(nodes, nodeId).value;
      assert Parent(nodes, n) == FindById(nodes, p);
      assert Rooted(nodes, n, |nodes|);
      assert RootedId(nodes, p, |nodes| - 1);
      AncestorsFuel(nodes, p, |nodes| - 1, |nodes|);
    }
  }

  /**
   * The ancestor list is the chain of parentIds: its first entry is the
   * parentId of `cur`, each further entry is the parentId of the entry
   * before it, and none is empty.
   */
  lemma {:induction false} AncestorsAreParentLinks(nodes: seq<CvNode>, cur: string, fuel: nat)
    ensures var r := AncestorsFrom(nodes, cur, fuel);
      && (|r| > 0 ==> ParentIdOf(nodes, cur) == Some(r[0]))
      && (forall k :: 0 <= k < |r| - 1 ==> ParentIdOf(nodes, r[k]) == Some(r[k + 1]))
      && (forall k :: 0 <= k < |r| ==> r[k] != "")
    decreases fuel
  {
    var r := AncestorsFrom(nodes, cur, fuel);
    if cur != "" && Truthy(ParentIdOf(nodes, cur)) && fuel > 0 {
      var p := ParentIdOf(nodes, cur).value;
      AncestorsAreParentLinks(nodes, p, fuel - 1);
      var t := AncestorsFrom(nodes, p, fuel - 1);
      assert r == [p] + t;
      forall k | 0 <= k < |r| - 1 ensures ParentIdOf(nodes, r[k]) == Some(r[k + 1]) {
        if k > 0 { assert r[k] == t[k - 1] && r[k + 1] == t[k]; }
      }
    }
  }

  /**
   * The walk stops only where the code stops: at the last id recorded (or at
   * the start) the first matching node is missing or has no non-empty parentId.
   */
  lemma {:induction false} AncestorsStopAtRoot(nodes: seq<CvNode>, cur: string, fuel: nat)
    requires cur != "" && RootedId(nodes, cur, fuel)
    ensures var r := AncestorsFrom(nodes, cur, fuel);
      !Truthy(ParentIdOf(nodes, if r == [] then cur else r[|r| - 1]))
    decreases fuel
  {
    if Truthy(ParentIdOf(nodes, cur)) {
      var n := FindById(nodes, cur).value;
      var p := n.parentId.value;
      assert Parent(nodes, n) == FindById(nodes, p);
      var t := if fuel == 0 then [] else AncestorsFrom(nodes, p, fuel - 1);
      assert AncestorsFrom(nodes, cur, fuel) == [p] + t;
      if fuel > 0 {
        AncestorsStopAtRoot(nodes, p, fuel - 1);
      }
      LastOfCons(p, t);
    }
  }

  lemma LastOfCons<T>(x: T, t: seq<T>)
    ensures ([x] + t)[|t|] == if t == [] then x else t[|t| - 1]
  {
  }
}
