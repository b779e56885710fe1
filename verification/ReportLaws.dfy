/**
 What a report's findings are, read off its fields: what counts as empty, which identifier each item of a via list
 gives, and in which order packages yield theirs.
 */
module ReportLaws {
  import opened HashJoin
  import opened AuditReport

  /** The six values that Python takes for false. */
  lemma FalsyExactly(j: Json)
    ensures !Truthy(j) <==>
            j == Null || j == Bool(false) || j == Num(0) || j == Str("") || j == List([]) || j == Obj([])
  {
  }

  /** The value under a key of a parsed object, whose keys are distinct. */
  lemma {:induction false} GetExactly(members: seq<(string, Json)>, key: string)
    requires forall i, j :: 0 <= i < j < |members| ==> members[i].0 != members[j].0
    ensures forall i :: 0 <= i < |members| && members[i].0 == key ==> Get(members, key) == members[i].1
    ensures (forall i :: 0 <= i < |members| ==> members[i].0 != key) ==> Get(members, key) == Null
  {
    if members != [] {
      assert forall i :: 1 <= i < |members| ==> members[i] == members[1..][i - 1];
      GetExactly(members[1..], key);
    }
  }

  /** Where a via item's identifier may come from, in the order of preference. */
  function ViaSources(m: seq<(string, Json)>): seq<Json> {
    [Get(m, "github_advisory_id"), Get(m, "url"), Get(m, "source"), Get(m, "title"), Get(m, "name")]
  }

  /** An object gives the first of these that is not empty, a string itself, and anything else nothing. */
  ghost predicate Identifies(item: Json, j: Json) {
    && Truthy(j)
    && ((item.Obj? && FirstTruthy(ViaSources(item.members), j)) || (item.Str? && j == item))
  }

  /** The items of a package's via: those of a list, or a string on its own. */
  ghost predicate Listed(vuln: seq<(string, Json)>, items: seq<Json>) {
    var via := Get(vuln, "via");
    if via.List? then items == via.items else if via.Str? then items == [via] else items == []
  }

  lemma AdvisoryExactly(item: Json, j: Json)
    ensures Identifies(item, j) <==> Truthy(ViaAdvisory(item)) && j == ViaAdvisory(item)
  {
    hide Get;
    if item.Obj? {
      SourceExactly(ViaSources(item.members), j);
      var js := ViaSources(item.members);
      assert ViaAdvisory(item) == Or(js[0], Or(js[1], Or(js[2], Or(js[3], js[4]))));
    }
  }

  lemma SourceExactly(js: seq<Json>, j: Json)
    requires |js| == 5
    ensures var or := Or(js[0], Or(js[1], Or(js[2], Or(js[3], js[4]))));
            Truthy(j) && FirstTruthy(js, j) <==> Truthy(or) && j == or
  {
    hide Truthy;
    var or := Or(js[0], Or(js[1], Or(js[2], Or(js[3], js[4]))));
    var k := if Truthy(js[0]) then 0 else if Truthy(js[1]) then 1 else if Truthy(js[2]) then 2
        else if Truthy(js[3]) then 3 else 4;
    assert or == js[k] && forall i :: 0 <= i < k ==> !Truthy(js[i]);
    if Truthy(j) && FirstTruthy(js, j) {
      var m :| 0 <= m < |js| && j == js[m] && (Truthy(j) || m == |js| - 1) && forall i :: 0 <= i < m ==> !Truthy(js[i]);
      assert m == k;
    }
    if Truthy(or) && j == or {
      assert FirstTruthy(js, j);
    }
  }

  /** Some source of an identifier is not empty. */
  ghost predicate Names(item: Json) {
    || (item.Obj? && exists k :: 0 <= k < 5 && Truthy(ViaSources(item.members)[k]))
    || (item.Str? && item.text != "")
  }

  lemma NamesExactly(item: Json)
    ensures Names(item) <==> Truthy(ViaAdvisory(item))
  {
    hide Get;
    if item.Obj? {
      var js := ViaSources(item.members);
      assert Truthy(js[0]) || Truthy(js[1]) || Truthy(js[2]) || Truthy(js[3]) || Truthy(js[4]) <==>
             Truthy(ViaAdvisory(item));
    }
  }

  /** `ys` is, in order, what the items from `n` on give: `ps` are the positions of those that give an identifier. */
  ghost predicate Placed(name: string, severity: Json, items: seq<Json>, n: nat, ps: seq<nat>, ys: seq<Vuln>) {
    && n <= |items| && Ascending(ps) && |ps| == |ys|
    && (forall k :: 0 <= k < |ps| ==>
          n <= ps[k] < |items| && ys[k].name == Str(name) && ys[k].severity == severity
          && Identifies(items[ps[k]], ys[k].advisory))
    && (forall i :: n <= i < |items| ==> (i in ps <==> Names(items[i])))
  }

  lemma PlacedSkip(name: string, severity: Json, items: seq<Json>, n: nat, ps: seq<nat>, ys: seq<Vuln>)
    requires n < |items| && Placed(name, severity, items, n + 1, ps, ys) && !Names(items[n])
    ensures Placed(name, severity, items, n, ps, ys)
  {
    hide Identifies, Names, Ascending;
  }

  lemma PlacedCons(name: string, severity: Json, items: seq<Json>, n: nat, ps: seq<nat>, ys: seq<Vuln>, j: Json)
    requires n < |items| && Placed(name, severity, items, n + 1, ps, ys) && Names(items[n]) && Identifies(items[n], j)
    ensures Placed(name, severity, items, n, [n] + ps, [Vuln(Str(name), severity, j)] + ys)
  {
    hide Identifies, Names, Ascending;
    var qs, zs := [n] + ps, [Vuln(Str(name), severity, j)] + ys;
    AscendingCons(n, ps);
    forall k | 0 <= k < |qs|
      ensures n <= qs[k] < |items| && zs[k].name == Str(name) && zs[k].severity == severity
      ensures Identifies(items[qs[k]], zs[k].advisory)
    {
      if k > 0 {
        assert qs[k] == ps[k - 1] && zs[k] == ys[k - 1];
      }
    }
    forall i | n <= i < |items|
      ensures i in qs <==> Names(items[i])
    {
      assert i in qs <==> i == n || i in ps;
      if i == n {
        assert qs[0] == n;
      }
    }
  }

  lemma AscendingCons(n: nat, ps: seq<nat>)
    requires Ascending(ps) && forall k :: 0 <= k < |ps| ==> n < ps[k]
    ensures Ascending([n] + ps)
  {
    var qs := [n] + ps;
    forall i, k | 0 <= i < k < |qs|
      ensures qs[i] < qs[k]
    {
      assert qs[k] == ps[k - 1];
      assert i > 0 ==> qs[i] == ps[i - 1];
    }
  }

  lemma {:induction false} YieldPositions(name: string, severity: Json, items: seq<Json>, n: nat) returns (ps: seq<nat>)
    requires n <= |items|
    ensures Placed(name, severity, items, n, ps, Yields(name, severity, items[n..]))
    decreases |items| - n
  {
    hide Identifies, Names, ViaAdvisory, Truthy, Yields;
    if n == |items| {
      ps := [];
      YieldsNothing(name, severity, items[n..]);
    } else {
      hide Placed;
      ps := YieldPositions(name, severity, items, n + 1);
      var ys, a := Yields(name, severity, items[n + 1..]), ViaAdvisory(items[n]);
      NamesExactly(items[n]);
      YieldsStep(name, severity, items, n);
      if Truthy(a) {
        AdvisoryExactly(items[n], a);
        PlacedCons(name, severity, items, n, ps, ys, a);
        ps := [n] + ps;
      } else {
        PlacedSkip(name, severity, items, n, ps, ys);
        NothingMore(ys);
      }
    }
  }

  lemma NothingMore(ys: seq<Vuln>)
    ensures [] + ys == ys
  {
  }

  /**
   What a package yields: in the order of its via items, under its own name and severity, the identifier of each item
   that gives one.
   */
  lemma YieldedExactly(name: string, vuln: seq<(string, Json)>, items: seq<Json>) returns (ps: seq<nat>)
    requires Listed(vuln, items) && FromVulnerability(name, Obj(vuln)).Some?
    ensures Placed(name, Get(vuln, "severity"), items, 0, ps, FromVulnerability(name, Obj(vuln)).value)
  {
    hide Placed, Yields, Joins, Get;
    assert ViaItems(vuln) == items;
    ps := YieldPositions(name, Get(vuln, "severity"), items, 0);
    assert items[0..] == items;
  }

  /** Packages yield one after the other. */
  lemma {:induction false} PackagesInOrder(a: seq<(string, Json)>, b: seq<(string, Json)>)
    ensures var x, y, both := FromVulnerabilities(a), FromVulnerabilities(b), FromVulnerabilities(a + b);
            && (both.Some? <==> x.Some? && y.Some?)
            && (both.Some? ==> both.value == x.value + y.value)
  {
    hide FromVulnerability;
    if a == [] {
      assert a + b == b;
    } else {
      assert (a + b)[0] == a[0] && (a + b)[1..] == a[1..] + b;
      PackagesInOrder(a[1..], b);
    }
  }

  lemma OnePackage(name: string, v: Json)
    ensures FromVulnerabilities([(name, v)]) == FromVulnerability(name, v)
  {
    var r := FromVulnerability(name, v);
    assert [(name, v)][1..] == [];
    assert r.Some? ==> r.value + [] == r.value;
  }
}
