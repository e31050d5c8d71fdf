/** Namespaced tools travel to chat as `<namespace>__<tool>` and are split again
    on the way back. */
module Namespaces {
  import opened Prelude
  import opened Json
  import opened ChatWire
  import opened RequestTranslation

  /** The (namespace, tool) pairs one entry of `tools` declares. */
  function InnerPairs(ns: string, inner: seq<Json>): seq<(string, string)> {
    if inner == [] then [] else
    var t := inner[|inner| - 1];
    InnerPairs(ns, inner[..|inner| - 1]) +
      if t.At("type") == Str("function") && t.At("name").Str? then [(ns, t.At("name").s)] else []
  }

  function EntryPairs(t: Json): seq<(string, string)> {
    if t.At("type") == Str("namespace") && t.At("name").Str?
    then InnerPairs(t.At("name").s, t.At("tools").Elements()) else []
  }

  function Pairs(tools: seq<Json>): seq<(string, string)> {
    if tools == [] then [] else Pairs(tools[..|tools| - 1]) + EntryPairs(tools[|tools| - 1])
  }

  /** Flattened name -> pair, a later pair replacing an earlier one. */
  function Table(pairs: seq<(string, string)>): NamespaceMap {
    if pairs == [] then map[] else
    var p := pairs[|pairs| - 1];
    Table(pairs[..|pairs| - 1])[FlatName(p.0, p.1) := p]
  }

  lemma TableSnoc(pairs: seq<(string, string)>, p: (string, string))
    ensures Table(pairs + [p]) == Table(pairs)[FlatName(p.0, p.1) := p]
  {
    assert (pairs + [p])[..|pairs|] == pairs;
  }

  /** The inner loop of `namespaces_of`. */
  method AddInner(start: NamespaceMap, ns: string, inner: seq<Json>, ghost before: seq<(string, string)>)
    returns (m: NamespaceMap)
    requires start == Table(before)
    ensures m == Table(before + InnerPairs(ns, inner))
  {
    m := start;
    var k := 0;
    assert before + [] == before;
    while k < |inner|
      invariant k <= |inner|
      invariant m == Table(before + InnerPairs(ns, inner[..k]))
    {
      var tool := inner[k];
      assert inner[..k + 1][..k] == inner[..k];
      if tool.At("type") == Str("function") && tool.At("name").Str? {
        var n := tool.At("name").s;
        TableSnoc(before + InnerPairs(ns, inner[..k]), (ns, n));
        assert before + InnerPairs(ns, inner[..k]) + [(ns, n)] == before + InnerPairs(ns, inner[..k + 1]);
        m := m[FlatName(ns, n) := (ns, n)];
      } else {
        assert InnerPairs(ns, inner[..k + 1]) == InnerPairs(ns, inner[..k]);
      }
      k := k + 1;
    }
    assert inner[..k] == inner;
  }

  lemma PairsSnoc(tools: seq<Json>, i: nat)
    requires i < |tools|
    ensures Pairs(tools[..i + 1]) == Pairs(tools[..i]) + EntryPairs(tools[i])
    ensures EntryPairs(tools[i]) == [] ==> Pairs(tools[..i + 1]) == Pairs(tools[..i])
  {
    assert tools[..i + 1][..i] == tools[..i];
  }

  /** `namespaces_of`. */
  method NamespacesOf(req: Json) returns (m: NamespaceMap)
    ensures m == Table(Pairs(req.At("tools").Elements()))
  {
    m := map[];
    var tools := req.At("tools").Elements();
    var i := 0;
    while i < |tools|
      invariant i <= |tools|
      invariant m == Table(Pairs(tools[..i]))
    {
      var t := tools[i];
      PairsSnoc(tools, i);
      if t.At("type") == Str("namespace") && t.At("name").Str? {
        m := AddInner(m, t.At("name").s, t.At("tools").Elements(), Pairs(tools[..i]));
      }
      i := i + 1;
    }
    assert tools[..i] == tools;
  }

  /** No two declared pairs flatten to the same chat name. */
  predicate NamesDistinct(pairs: seq<(string, string)>) {
    forall i, j :: 0 <= i < |pairs| && 0 <= j < |pairs| && pairs[i] != pairs[j] ==>
      FlatName(pairs[i].0, pairs[i].1) != FlatName(pairs[j].0, pairs[j].1)
  }

  lemma {:induction false} TableKeys(pairs: seq<(string, string)>)
    ensures forall p :: p in pairs ==> FlatName(p.0, p.1) in Table(pairs)
    ensures forall k :: k in Table(pairs) ==>
      Table(pairs)[k] in pairs && FlatName(Table(pairs)[k].0, Table(pairs)[k].1) == k
  {
    if pairs != [] {
      var front := pairs[..|pairs| - 1];
      TableKeys(front);
      assert pairs == front + [pairs[|pairs| - 1]];
    }
  }

  /** A call to the flattened name of `p` comes back as a call to `p`. */
  predicate Restored(p: (string, string), table: NamespaceMap, call: Item)
    requires call.FunctionCall?
  {
    var back := WithNamespace(call.(name := Some(FlatName(p.0, p.1))), table);
    back == call.(space := Some(p.0), name := Some(p.1))
  }

  /** Splitting undoes flattening for every declared tool exactly when the
      flattened names are distinct. */
  lemma NamespaceRoundTrip(pairs: seq<(string, string)>, call: Item)
    requires call.FunctionCall?
    ensures (forall p :: p in pairs ==> Restored(p, Table(pairs), call)) <==> NamesDistinct(pairs)
  {
    TableKeys(pairs);
    if NamesDistinct(pairs) {
      forall p | p in pairs ensures Restored(p, Table(pairs), call) {
        var k := FlatName(p.0, p.1);
        var i :| 0 <= i < |pairs| && pairs[i] == p;
        var j :| 0 <= j < |pairs| && pairs[j] == Table(pairs)[k];
      }
    } else {
      var i, j :| 0 <= i < |pairs| && 0 <= j < |pairs| && pairs[i] != pairs[j]
        && FlatName(pairs[i].0, pairs[i].1) == FlatName(pairs[j].0, pairs[j].1);
      assert pairs[i] in pairs && pairs[j] in pairs;
      assert !Restored(pairs[i], Table(pairs), call) || !Restored(pairs[j], Table(pairs), call);
    }
  }

  /** `tool` is a function called `name`. */
  predicate Offers(tool: Json, name: string) {
    tool.Obj? && "type" in tool.members && tool.members["type"] == Str("function")
    && "name" in tool.members && tool.members["name"] == Str(name)
  }

  /** `group` is a namespace called `ns` with such a function among its tools. */
  ghost predicate Groups(group: Json, ns: string, name: string) {
    && group.Obj? && "type" in group.members && group.members["type"] == Str("namespace")
    && "name" in group.members && group.members["name"] == Str(ns)
    && "tools" in group.members && group.members["tools"].Arr?
    && exists j :: 0 <= j < |group.members["tools"].elems| && Offers(group.members["tools"].elems[j], name)
  }

  lemma {:induction false} InnerAre(ns: string, inner: seq<Json>, p: (string, string))
    ensures p in InnerPairs(ns, inner) <==> p.0 == ns && exists j :: 0 <= j < |inner| && Offers(inner[j], p.1)
  {
    if inner != [] {
      var front := inner[..|inner| - 1];
      InnerAre(ns, front, p);
      if j :| 0 <= j < |front| && Offers(front[j], p.1) { assert Offers(inner[j], p.1); }
    }
  }

  ghost predicate Declares(tools: seq<Json>, ns: string, name: string) {
    exists i :: 0 <= i < |tools| && Groups(tools[i], ns, name)
  }

  lemma DeclaresSnoc(front: seq<Json>, last: Json, ns: string, name: string)
    ensures Declares(front + [last], ns, name) <==> Declares(front, ns, name) || Groups(last, ns, name)
  {
    var tools := front + [last];
    if i :| 0 <= i < |front| && Groups(front[i], ns, name) { assert Groups(tools[i], ns, name); }
    if Groups(last, ns, name) { assert Groups(tools[|front|], ns, name); }
  }

  /** The declared pairs are the functions in the request's namespace groups. */
  lemma {:induction false} PairsAre(tools: seq<Json>, ns: string, name: string)
    ensures (ns, name) in Pairs(tools) <==> Declares(tools, ns, name)
  {
    if tools != [] {
      var front, last := tools[..|tools| - 1], tools[|tools| - 1];
      PairsAre(front, ns, name);
      EntryIs(last, ns, name);
      DeclaresSnoc(front, last, ns, name);
      assert front + [last] == tools;
      assert (ns, name) in Pairs(tools) <==> (ns, name) in Pairs(front) || (ns, name) in EntryPairs(last);
    }
  }

  lemma EntryIs(t: Json, ns: string, name: string)
    ensures (ns, name) in EntryPairs(t) <==> Groups(t, ns, name)
  {
    if t.At("name").Str? { InnerAre(t.At("name").s, t.At("tools").Elements(), (ns, name)); }
  }

  /** A call that came back split and is sent again as history has the chat name of
      the tool, so the same table splits it again. */
  lemma EchoedCall(pairs: seq<(string, string)>, item: Json, ns: string, name: string, call: Item)
    requires (ns, name) in pairs && NamesDistinct(pairs) && call.FunctionCall?
    requires item.Obj? && "namespace" in item.members && item.members["namespace"] == Str(ns)
    requires "name" in item.members && item.members["name"] == Str(name)
    ensures ToolCallOf(item).name.Str?
    ensures var back := WithNamespace(call.(name := Some(ToolCallOf(item).name.s)), Table(pairs));
      back.space == Some(ns) && back.name == Some(name)
  {
    assert item.At("namespace").AsStr() == Some(ns) && item.At("name").AsStr() == Some(name);
    NamespaceRoundTrip(pairs, call);
    assert Restored((ns, name), Table(pairs), call);
  }

  /** A call to any name that is no flattened name passes through unchanged. */
  lemma PlainToolsUntouched(pairs: seq<(string, string)>, call: Item)
    requires call.FunctionCall? && call.name.Some?
    requires forall p :: p in pairs ==> FlatName(p.0, p.1) != call.name.value
    ensures WithNamespace(call, Table(pairs)) == call
  {
    TableKeys(pairs);
  }

  /** Two different tools can flatten to one name; the first is then lost. */
  lemma CollidingNames()
    ensures FlatName("a", "b__c") == FlatName("a__b", "c")
    ensures Table([("a", "b__c"), ("a__b", "c")])[FlatName("a", "b__c")] == ("a__b", "c")
  {
    assert "a" + "__" + "b__c" == "a__b__c" == "a__b" + "__" + "c";
    var pairs := [("a", "b__c"), ("a__b", "c")];
    assert pairs[..1] == [("a", "b__c")];
  }
}
