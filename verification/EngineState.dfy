/** The instance as the engine keeps it: one object, updated in place. */
module EngineState {
  import opened Basics
  import opened Json
  import opened Compiled
  import opened State

  class InstanceState {
    var status: Status
    var variables: Value
    var tokens: map<TokenId, Token>
    var items: map<ItemId, Item>
    var timers: map<TimerId, Timer>
    var subs: map<SubId, Sub>
    var scopes: map<ScopeId, Scope>
    var nextToken: nat
    var nextItem: nat
    var nextTimer: nat
    var nextSub: nat
    var nextScope: nat
    var nextIncident: nat

    function View(): Instance
      reads this
    {
      Instance(status, variables, tokens, items, timers, subs, scopes,
               nextToken, nextItem, nextTimer, nextSub, nextScope, nextIncident)
    }

    constructor ()
      ensures View() == NEW_INSTANCE
    {
      status, variables := Created, Null;
      tokens, items, timers, subs, scopes := map[], map[], map[], map[], map[];
      nextToken, nextItem, nextTimer, nextSub, nextScope, nextIncident := 0, 0, 0, 0, 1, 0;
    }

    method NextTokenId() returns (id: TokenId)
      modifies this
      ensures id == old(nextToken) && View() == old(View()).(nextToken := id + 1)
    {
      id := nextToken;
      nextToken := nextToken + 1;
    }

    method AllocWorkItem(item: Item) returns (id: ItemId)
      modifies this
      ensures id == old(nextItem) && View() == old(View()).(items := old(items)[id := item], nextItem := id + 1)
    {
      id := nextItem;
      nextItem := nextItem + 1;
      items := items[id := item];
    }

    method AllocTimer(timer: Timer) returns (id: TimerId)
      modifies this
      ensures id == old(nextTimer) && View() == old(View()).(timers := old(timers)[id := timer], nextTimer := id + 1)
    {
      id := nextTimer;
      nextTimer := nextTimer + 1;
      timers := timers[id := timer];
    }

    method AllocSubscription(sub: Sub) returns (id: SubId)
      modifies this
      ensures id == old(nextSub) && View() == old(View()).(subs := old(subs)[id := sub], nextSub := id + 1)
    {
      id := nextSub;
      nextSub := nextSub + 1;
      subs := subs[id := sub];
    }

    method AllocScope(scope: Scope) returns (id: ScopeId)
      modifies this
      ensures id == old(nextScope) && View() == old(View()).(scopes := old(scopes)[id := scope], nextScope := id + 1)
    {
      id := nextScope;
      nextScope := nextScope + 1;
      scopes := scopes[id := scope];
    }

    method AllocIncident() returns (id: nat)
      modifies this
      ensures id == old(nextIncident) && View() == old(View()).(nextIncident := id + 1)
    {
      id := nextIncident;
      nextIncident := nextIncident + 1;
    }

    /** Scopes are younger than the scopes they are nested in. */
    ghost predicate Nested()
      reads this
    {
      ParentsOlder(scopes)
    }

    /** A worklist that grows by the children of what it has taken: all of the
        subtree, each scope once. */
    method ScopeSubtree(scope: ScopeId) returns (out: seq<ScopeId>)
      requires Nested()
      ensures forall c :: c in out <==> c in Subtree(scopes, scope)
      ensures NoRepeats(out)
    {
      out := [scope];
      var i := 0;
      while i < |out|
        invariant i <= |out| && Listed(scopes, scope, out, i)
        decreases |scopes.Keys + {scope}| - i
      {
        var parent := out[i];
        var children := Sorted(set c | c in scopes && scopes[c].parent == parent);
        ListOn(scopes, scope, out, i, children);
        out := out + children;
        i := i + 1;
      }
      ListComplete(scopes, scope, out);
    }
  }

  /** A list of the subtree whose first `i` have been taken: everything but the
      root is there because its parent was, and every child of a taken one is. */
  ghost predicate Listed(scopes: map<ScopeId, Scope>, scope: ScopeId, out: seq<ScopeId>, i: nat) {
    && i <= |out| && out != [] && out[0] == scope && NoRepeats(out)
    && |out| <= |scopes.Keys + {scope}|
    && (forall c :: c in out ==> c in Subtree(scopes, scope))
    && ChildrenOf(scopes, scope, out, out[..i])
  }

  /** But for the root, the list is the children of those taken. */
  ghost predicate ChildrenOf(scopes: map<ScopeId, Scope>, scope: ScopeId, out: seq<ScopeId>, taken: seq<ScopeId>) {
    && (forall c :: c in out && c != scope ==> c in scopes && scopes[c].parent in taken)
    && (forall c :: c in scopes && c != scope && scopes[c].parent in taken ==> c in out)
  }

  /** The root of a subtree is no child of anything in it. */
  lemma RootIsOldest(scopes: map<ScopeId, Scope>, scope: ScopeId, member: ScopeId)
    requires ParentsOlder(scopes)
    requires member in Subtree(scopes, scope)
    ensures scope in scopes ==> scopes[scope].parent != member
  {
    if member != scope {
      WithinIsYounger(scopes, member, scope);
    }
  }

  lemma {:induction false} WithinIsYounger(scopes: map<ScopeId, Scope>, c: ScopeId, root: ScopeId)
    requires Within(scopes, c, root)
    ensures c >= root
    decreases c
  {
    if c == root {
    } else {
      WithinIsYounger(scopes, scopes[c].parent, root);
    }
  }

  lemma ChildrenWithin(scopes: map<ScopeId, Scope>, scope: ScopeId, parent: ScopeId, children: seq<ScopeId>)
    requires ParentsOlder(scopes)
    requires parent in Subtree(scopes, scope)
    requires forall c :: c in children <==> c in scopes && scopes[c].parent == parent
    ensures forall c :: c in children ==> c in Subtree(scopes, scope) && c != scope
  {
    RootIsOldest(scopes, scope, parent);
    assert Within(scopes, parent, scope);
  }

  lemma NoRepeatsAppend(a: seq<nat>, b: seq<nat>)
    requires NoRepeats(a) && NoRepeats(b) && forall x :: x in b ==> x !in a
    ensures NoRepeats(a + b)
  {
    var all := a + b;
    forall j, k | 0 <= j < k < |all| ensures all[j] != all[k] {
      assert j < |a| ==> all[j] in a;
      assert k >= |a| ==> all[k] in b;
    }
  }

  lemma ChildrenAdded(scopes: map<ScopeId, Scope>, scope: ScopeId, out: seq<ScopeId>, taken: seq<ScopeId>, parent: ScopeId, children: seq<ScopeId>)
    requires ChildrenOf(scopes, scope, out, taken) && parent !in taken
    requires forall c :: c in children <==> c in scopes && scopes[c].parent == parent
    requires scope !in children
    ensures ChildrenOf(scopes, scope, out + children, taken + [parent])
    ensures forall c :: c in children ==> c !in out
  {
  }

  lemma NotBefore(out: seq<ScopeId>, i: nat)
    requires i < |out| && NoRepeats(out)
    ensures out[i] in out && out[i] !in out[..i]
  {
  }

  lemma TakenOn(scopes: map<ScopeId, Scope>, scope: ScopeId, out: seq<ScopeId>, i: nat, children: seq<ScopeId>)
    requires ParentsOlder(scopes)
    requires i < |out| && Listed(scopes, scope, out, i)
    requires forall c :: c in children <==> c in scopes && scopes[c].parent == out[i]
    ensures ChildrenOf(scopes, scope, out + children, (out + children)[..i + 1])
    ensures forall c :: c in children ==> c !in out && c in Subtree(scopes, scope)
  {
    hide Subtree, Within, ChildrenOf, NoRepeats;
    NotBefore(out, i);
    ChildrenWithin(scopes, scope, out[i], children);
    ChildrenAdded(scopes, scope, out, out[..i], out[i], children);
    OneMore(out, i, children);
    hide Listed;
  }

  lemma OneMore(out: seq<ScopeId>, i: nat, children: seq<ScopeId>)
    requires i < |out|
    ensures (out + children)[..i + 1] == out[..i] + [out[i]]
  {
  }

  /** The next of the list is taken and its children are added. */
  lemma ListOn(scopes: map<ScopeId, Scope>, scope: ScopeId, out: seq<ScopeId>, i: nat, children: seq<ScopeId>)
    requires ParentsOlder(scopes)
    requires i < |out| && Listed(scopes, scope, out, i)
    requires NoRepeats(children) && forall c :: c in children <==> c in scopes && scopes[c].parent == out[i]
    ensures Listed(scopes, scope, out + children, i + 1)
  {
    hide Subtree, Within, ChildrenOf, NoRepeats;
    TakenOn(scopes, scope, out, i, children);
    NoRepeatsAppend(out, children);
    var all := out + children;
    InTree(scopes, scope, all);
    ListFits(all, scopes.Keys + {scope});
  }

  lemma InTree(scopes: map<ScopeId, Scope>, scope: ScopeId, all: seq<ScopeId>)
    requires forall c :: c in all ==> c in Subtree(scopes, scope)
    ensures forall c :: c in all ==> c in scopes.Keys + {scope}
  {
  }

  lemma ListComplete(scopes: map<ScopeId, Scope>, scope: ScopeId, out: seq<ScopeId>)
    requires Listed(scopes, scope, out, |out|)
    ensures forall c :: c in out <==> c in Subtree(scopes, scope)
  {
    assert out[..|out|] == out;
    assert out[0] in out;
    forall c | c in Subtree(scopes, scope) ensures c in out {
      ListIsClosed(scopes, scope, out, c);
    }
  }

  lemma {:induction false} ListFits(out: seq<ScopeId>, all: set<ScopeId>)
    requires NoRepeats(out) && forall c :: c in out ==> c in all
    ensures |out| <= |all|
    decreases |out|
  {
    if out == [] {
    } else {
      var last := out[|out| - 1];
      var front := out[..|out| - 1];
      assert out == front + [last];
      assert last !in front;
      ListFits(front, all - {last});
    }
  }

  lemma {:induction false} ListIsClosed(scopes: map<ScopeId, Scope>, scope: ScopeId, out: seq<ScopeId>, c: ScopeId)
    requires scope in out
    requires forall c :: c in scopes && c != scope && scopes[c].parent in out ==> c in out
    requires c == scope || Within(scopes, c, scope)
    ensures c in out
    decreases c
  {
    if c == scope {
    } else {
      ListIsClosed(scopes, scope, out, scopes[c].parent);
    }
  }
}
