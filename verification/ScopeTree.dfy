/** `pkg/pricing/tree.go`: the scopes of an estimate, and `rollUp` of `estimate.go`, which totals each with its parents. */
module ScopeTree {
  datatype Scope = ScopeOf(id: string, parent: string, kind: string, name: string)

  /** Each scope has its own id, longer than its parent's. */
  predicate IsForest(scopes: seq<Scope>) {
    && (forall i :: 0 <= i < |scopes| ==> scopes[i].id != "" && |scopes[i].parent| < |scopes[i].id|)
    && (forall i, j :: 0 <= i < j < |scopes| ==> scopes[i].id != scopes[j].id)
  }

  /** Every parent named is a scope itself. */
  predicate IsClosed(scopes: seq<Scope>) {
    forall i :: 0 <= i < |scopes| && scopes[i].parent != "" ==> exists j :: 0 <= j < |scopes| && scopes[j].id == scopes[i].parent
  }

  predicate Seen(scopes: seq<Scope>, seen: set<string>) {
    && (forall i :: 0 <= i < |scopes| ==> scopes[i].id in seen)
    && (forall id :: id in seen ==> exists i :: 0 <= i < |scopes| && scopes[i].id == id)
  }

  lemma OneMoreScope(scopes: seq<Scope>, seen: set<string>, scope: Scope)
    requires IsForest(scopes) && Seen(scopes, seen) && scope.id !in seen && |scope.parent| < |scope.id|
    ensures IsForest(scopes + [scope]) && Seen(scopes + [scope], seen + {scope.id})
    ensures IsClosed(scopes) && (scope.parent == "" || scope.parent in seen) ==> IsClosed(scopes + [scope])
  {
    var more := scopes + [scope];
    assert more[|scopes|] == scope && forall i :: 0 <= i < |scopes| ==> more[i] == scopes[i];
  }

  class Tree {
    var scopes: seq<Scope>
    var seen: set<string>

    constructor ()
      ensures Valid() && scopes == []
    {
      scopes, seen := [], {};
    }

    ghost predicate Valid()
      reads this
    {
      IsForest(scopes) && Seen(scopes, seen)
    }

    /** The id of a scope, which is added when it is first named. Callers that name parents they were given keep the
        forest closed. */
    method Scope(parent: string, kind: string, name: string) returns (id: string)
      requires Valid()
      modifies this
      ensures Valid() && id in seen && id == if parent == "" then kind + ":" + name else parent + "/" + kind + ":" + name
      ensures scopes == if id in old(seen) then old(scopes) else old(scopes) + [ScopeOf(id, parent, kind, name)]
      ensures seen == old(seen) + {id}
      ensures old(IsClosed(scopes)) && (parent == "" || parent in old(seen)) ==> IsClosed(scopes)
    {
      id := kind + ":" + name;
      if parent != "" {
        id := parent + "/" + id;
      }
      if id !in seen {
        OneMoreScope(scopes, seen, ScopeOf(id, parent, kind, name));
        seen := seen + {id};
        scopes := scopes + [ScopeOf(id, parent, kind, name)];
      }
    }
  }

  // Walking up.

  predicate Shrinks(parents: map<string, string>) {
    forall id :: id in parents ==> parents[id] == "" || |parents[id]| < |id|
  }

  function ParentOf(parents: map<string, string>, at: string): string {
    if at in parents then parents[at] else ""
  }

  /** A scope, its parent, its parent's parent and so on. */
  function Chain(parents: map<string, string>, at: string): seq<string>
    requires Shrinks(parents)
    decreases |at|
  {
    if at == "" then [] else [at] + Chain(parents, ParentOf(parents, at))
  }

  lemma {:induction false} ChainShrinks(parents: map<string, string>, at: string)
    requires Shrinks(parents)
    ensures forall x :: x in Chain(parents, at) ==> x != "" && |x| <= |at| && (|x| == |at| ==> x == at)
    decreases |at|
  {
    if at != "" {
      ChainShrinks(parents, ParentOf(parents, at));
    }
  }

  function AmountOf(totals: map<string, real>, id: string): real {
    if id in totals then totals[id] else 0.0
  }

  function Share(parents: map<string, string>, id: string, scope: string, amount: real): real
    requires Shrinks(parents)
  {
    if scope in Chain(parents, id) then amount else 0.0
  }

  /** Adds an amount to a scope and to every scope above it; the walk ends because ids get shorter. */
  method Walk(parents: map<string, string>, id: string, amount: real, totals0: map<string, real>) returns (totals: map<string, real>)
    requires Shrinks(parents)
    ensures forall s :: AmountOf(totals, s) == AmountOf(totals0, s) + Share(parents, id, s, amount)
  {
    totals := totals0;
    var at := id;
    while at != ""
      invariant forall s :: AmountOf(totals, s) + Share(parents, at, s, amount) == AmountOf(totals0, s) + Share(parents, id, s, amount)
      decreases |at|
    {
      ChainShrinks(parents, ParentOf(parents, at));
      totals := totals[at := AmountOf(totals, at) + amount];
      at := ParentOf(parents, at);
    }
  }

  /** What the scopes listed carry together. */
  function Sum(ids: seq<string>, amounts: map<string, real>): real {
    if ids == [] then 0.0 else Sum(ids[..|ids| - 1], amounts) + AmountOf(amounts, ids[|ids| - 1])
  }

  /** What the scopes listed carry that stand in the subtree of a scope. */
  function SumUnder(ids: seq<string>, amounts: map<string, real>, parents: map<string, string>, scope: string): real
    requires Shrinks(parents)
  {
    if ids == [] then 0.0
    else
      var id := ids[|ids| - 1];
      SumUnder(ids[..|ids| - 1], amounts, parents, scope) + Share(parents, id, scope, AmountOf(amounts, id))
  }

  function ParentsOf(scopes: seq<Scope>): map<string, string> {
    if scopes == [] then map[]
    else ParentsOf(scopes[..|scopes| - 1])[scopes[|scopes| - 1].id := scopes[|scopes| - 1].parent]
  }

  lemma {:induction false} ParentsAreListed(scopes: seq<Scope>, id: string)
    requires id in ParentsOf(scopes)
    ensures exists i :: 0 <= i < |scopes| && scopes[i].id == id && scopes[i].parent == ParentsOf(scopes)[id]
  {
    var n := |scopes| - 1;
    if id != scopes[n].id {
      ParentsAreListed(scopes[..n], id);
      var i :| 0 <= i < n && scopes[..n][i].id == id && scopes[..n][i].parent == ParentsOf(scopes[..n])[id];
      assert scopes[i] == scopes[..n][i];
    }
  }

  lemma {:induction false} ParentsAreKept(scopes: seq<Scope>, i: nat)
    requires IsForest(scopes) && i < |scopes|
    ensures scopes[i].id in ParentsOf(scopes) && ParentsOf(scopes)[scopes[i].id] == scopes[i].parent
  {
    var n := |scopes| - 1;
    if i < n {
      ParentsAreKept(scopes[..n], i);
    }
  }

  lemma ParentsOfAForest(scopes: seq<Scope>)
    requires IsForest(scopes)
    ensures Shrinks(ParentsOf(scopes)) && "" !in ParentsOf(scopes)
  {
    forall id | id in ParentsOf(scopes) ensures |ParentsOf(scopes)[id]| < |id| {
      ParentsAreListed(scopes, id);
    }
  }

  method ReadParents(scopes: seq<Scope>) returns (parents: map<string, string>)
    requires IsForest(scopes)
    ensures parents == ParentsOf(scopes) && Shrinks(parents)
  {
    ParentsOfAForest(scopes);
    parents := map[];
    for i := 0 to |scopes|
      invariant parents == ParentsOf(scopes[..i])
    {
      assert scopes[..i + 1][..i] == scopes[..i];
      parents := parents[scopes[i].id := scopes[i].parent];
    }
    assert scopes[..|scopes|] == scopes;
  }

  /** Every scope's total, from the amounts of those in its subtree. */
  method WalkEach(parents: map<string, string>, amounts: map<string, real>, order: seq<string>) returns (totals: map<string, real>)
    requires Shrinks(parents)
    ensures forall s :: AmountOf(totals, s) == SumUnder(order, amounts, parents, s)
  {
    totals := map[];
    for n := 0 to |order|
      invariant forall s :: AmountOf(totals, s) == SumUnder(order[..n], amounts, parents, s)
    {
      assert order[..n + 1][..n] == order[..n];
      totals := Walk(parents, order[n], AmountOf(amounts, order[n]), totals);
    }
    assert order[..|order|] == order;
  }

  datatype ScopeTotal = ScopeTotal(scope: string, fixed: real, usage: real)

  /** A scope's total, part by part. */
  predicate IsTotalOf(total: ScopeTotal, scope: string, fixed: map<string, real>, usage: map<string, real>, order: seq<string>,
                      parents: map<string, string>)
    requires Shrinks(parents)
  {
    total.scope == scope && total.fixed == SumUnder(order, fixed, parents, scope) && total.usage == SumUnder(order, usage, parents, scope)
  }

  /** Totals every scope, in whatever order the amounts come: each gets what its subtree carries. */
  method RollUp(scopes: seq<Scope>, fixed: map<string, real>, usage: map<string, real>, order: seq<string>)
    returns (totals: seq<ScopeTotal>)
    requires IsForest(scopes)
    ensures Shrinks(ParentsOf(scopes)) && |totals| == |scopes|
    ensures forall i :: 0 <= i < |scopes| ==> IsTotalOf(totals[i], scopes[i].id, fixed, usage, order, ParentsOf(scopes))
  {
    var parents := ReadParents(scopes);
    var totalFixed := WalkEach(parents, fixed, order);
    var totalUsage := WalkEach(parents, usage, order);
    totals := [];
    for i := 0 to |scopes|
      invariant |totals| == i
      invariant forall k :: 0 <= k < i ==> IsTotalOf(totals[k], scopes[k].id, fixed, usage, order, parents)
    {
      totals := totals + [ScopeTotal(scopes[i].id, AmountOf(totalFixed, scopes[i].id), AmountOf(totalUsage, scopes[i].id))];
    }
  }

  /** The parents of a closed forest are scopes of it. */
  lemma ClosedForestsAreListed(scopes: seq<Scope>)
    requires IsForest(scopes) && IsClosed(scopes)
    ensures IsListed(ParentsOf(scopes))
  {
    var parents := ParentsOf(scopes);
    forall id | id in parents && parents[id] != "" ensures parents[id] in parents {
      ParentsAreListed(scopes, id);
      var i :| 0 <= i < |scopes| && scopes[i].id == id && scopes[i].parent == parents[id];
      var j :| 0 <= j < |scopes| && scopes[j].id == scopes[i].parent;
      ParentsAreKept(scopes, j);
    }
  }

  // Totals add up: over the roots to everything, and over a scope's children to all of it but its own.

  function SumOver(scopes: seq<string>, ids: seq<string>, amounts: map<string, real>, parents: map<string, string>): real
    requires Shrinks(parents)
  {
    if scopes == [] then 0.0
    else SumOver(scopes[..|scopes| - 1], ids, amounts, parents) + SumUnder(ids, amounts, parents, scopes[|scopes| - 1])
  }

  predicate AreDistinct(xs: seq<string>) {
    forall i, j :: 0 <= i < j < |xs| ==> xs[i] != xs[j]
  }

  /** How much of an amount carried by `id` the scopes listed are given between them. */
  function Shares(scopes: seq<string>, parents: map<string, string>, id: string, amount: real): real
    requires Shrinks(parents)
  {
    if scopes == [] then 0.0
    else Shares(scopes[..|scopes| - 1], parents, id, amount) + Share(parents, id, scopes[|scopes| - 1], amount)
  }

  lemma {:induction false} NoShares(scopes: seq<string>, parents: map<string, string>, id: string, amount: real)
    requires Shrinks(parents) && forall x :: x in scopes ==> x !in Chain(parents, id)
    ensures Shares(scopes, parents, id, amount) == 0.0
  {
    if scopes != [] {
      NoShares(scopes[..|scopes| - 1], parents, id, amount);
    }
  }

  lemma {:induction false} OneShare(scopes: seq<string>, parents: map<string, string>, id: string, amount: real, one: string)
    requires Shrinks(parents) && AreDistinct(scopes) && one in scopes && one in Chain(parents, id)
    requires forall x :: x in scopes && x in Chain(parents, id) ==> x == one
    ensures Shares(scopes, parents, id, amount) == amount
  {
    var n := |scopes| - 1;
    if scopes[n] == one {
      forall x | x in scopes[..n] ensures x !in Chain(parents, id) {
        var i :| 0 <= i < n && scopes[i] == x;
        assert scopes[i] != scopes[n];
      }
      NoShares(scopes[..n], parents, id, amount);
    } else {
      OneShare(scopes[..n], parents, id, amount, one);
    }
  }

  lemma {:induction false} NothingUnder(scopes: seq<string>, amounts: map<string, real>, parents: map<string, string>)
    requires Shrinks(parents)
    ensures SumOver(scopes, [], amounts, parents) == 0.0
  {
    if scopes != [] {
      NothingUnder(scopes[..|scopes| - 1], amounts, parents);
    }
  }

  /** Totals of scopes taken together, one carrier at a time. */
  lemma {:induction false} OneCarrierMore(scopes: seq<string>, ids: seq<string>, amounts: map<string, real>, parents: map<string, string>)
    requires Shrinks(parents) && ids != []
    ensures SumOver(scopes, ids, amounts, parents) ==
            SumOver(scopes, ids[..|ids| - 1], amounts, parents) +
            Shares(scopes, parents, ids[|ids| - 1], AmountOf(amounts, ids[|ids| - 1]))
  {
    if scopes != [] {
      OneCarrierMore(scopes[..|scopes| - 1], ids, amounts, parents);
    }
  }

  predicate IsRoot(parents: map<string, string>, id: string) { id in parents && parents[id] == "" }

  predicate IsListed(parents: map<string, string>) {
    forall id :: id in parents && parents[id] != "" ==> parents[id] in parents
  }

  lemma {:induction false} RootOf(parents: map<string, string>, id: string) returns (root: string)
    requires Shrinks(parents) && IsListed(parents) && id in parents && "" !in parents
    ensures IsRoot(parents, root) && root in Chain(parents, id)
    ensures forall x :: x in Chain(parents, id) && IsRoot(parents, x) ==> x == root
    decreases |id|
  {
    if parents[id] == "" {
      root := id;
    } else {
      root := RootOf(parents, parents[id]);
    }
  }

  /** The roots' totals sum to everything carried. */
  lemma {:induction false} RootsSumToTheTotal(roots: seq<string>, ids: seq<string>, amounts: map<string, real>, parents: map<string, string>)
    requires Shrinks(parents) && IsListed(parents) && "" !in parents && AreDistinct(roots)
    requires forall x :: x in roots <==> IsRoot(parents, x)
    requires forall id :: id in ids ==> id in parents
    ensures SumOver(roots, ids, amounts, parents) == Sum(ids, amounts)
  {
    if ids == [] {
      NothingUnder(roots, amounts, parents);
    } else {
      var n := |ids| - 1;
      RootsSumToTheTotal(roots, ids[..n], amounts, parents);
      OneCarrierMore(roots, ids, amounts, parents);
      var root := RootOf(parents, ids[n]);
      OneShare(roots, parents, ids[n], AmountOf(amounts, ids[n]), root);
    }
  }

  lemma {:induction false} ChildOf(parents: map<string, string>, id: string, scope: string) returns (child: string)
    requires Shrinks(parents) && scope in Chain(parents, id) && id != scope
    ensures child in parents && parents[child] == scope && child in Chain(parents, id)
    ensures forall x :: x in Chain(parents, id) && ParentOf(parents, x) == scope ==> x == child
    decreases |id|
  {
    var above := ParentOf(parents, id);
    ChainShrinks(parents, above);
    if above == scope {
      child := id;
    } else {
      child := ChildOf(parents, above, scope);
    }
  }

  /** A scope's total is what it carries itself and its children's totals. */
  lemma {:induction false} ChildrenSumToTheirParent(scope: string, children: seq<string>, ids: seq<string>, amounts: map<string, real>,
                                                    parents: map<string, string>)
    requires Shrinks(parents) && scope != "" && AreDistinct(children) && AreDistinct(ids)
    requires forall x :: x in children <==> x in parents && parents[x] == scope
    ensures SumUnder(ids, amounts, parents, scope) ==
            SumOver(children, ids, amounts, parents) + if scope in ids then AmountOf(amounts, scope) else 0.0
  {
    if ids == [] {
      NothingUnder(children, amounts, parents);
    } else {
      var n := |ids| - 1;
      var id, amount := ids[n], AmountOf(amounts, ids[n]);
      ChildrenSumToTheirParent(scope, children, ids[..n], amounts, parents);
      OneCarrierMore(children, ids, amounts, parents);
      assert scope in ids <==> scope in ids[..n] || scope == id;
      if id == scope {
        ChainShrinks(parents, scope);
        NoShares(children, parents, id, amount);
      } else if scope in Chain(parents, id) {
        var child := ChildOf(parents, id, scope);
        OneShare(children, parents, id, amount, child);
      } else {
        NotUnderAParentOutside(parents, id, scope);
        NoShares(children, parents, id, amount);
      }
    }
  }

  lemma {:induction false} NotUnderAParentOutside(parents: map<string, string>, id: string, scope: string)
    requires Shrinks(parents) && scope !in Chain(parents, id) && scope != ""
    ensures forall x :: x in Chain(parents, id) && x in parents ==> parents[x] != scope
    decreases |id|
  {
    if id != "" {
      NotUnderAParentOutside(parents, ParentOf(parents, id), scope);
    }
  }
}
