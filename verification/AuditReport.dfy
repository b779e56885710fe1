/**
 The vulnerabilities that an audit report yields. The report is parsed JSON; whatever the script does not expect of its
 shape ends the run with an exception.
 */
module AuditReport {
  import opened Prelude

  datatype Json = Null | Bool(flag: bool) | Num(number: int) | Str(text: string) | List(items: seq<Json>) |
      Obj(members: seq<(string, Json)>)

  /** What Python takes for true. */
  predicate Truthy(j: Json) {
    match j
    case Null => false
    case Bool(flag) => flag
    case Num(n) => n != 0
    case Str(text) => text != ""
    case List(items) => items != []
    case Obj(members) => members != []
  }

  /** dict.get: the keys of a parsed object are distinct; None where there is no such key. */
  function Get(members: seq<(string, Json)>, key: string): Json {
    if members == [] then Null else if members[0].0 == key then members[0].1 else Get(members[1..], key)
  }

  /** `a or b`. */
  function Or(a: Json, b: Json): Json {
    if Truthy(a) then a else b
  }

  /** A yielded vulnerability; its title only decorates messages. */
  datatype Vuln = Vuln(name: Json, severity: Json, advisory: Json)

  /** Python's str() on a value that is not a string. */
  type Repr = Json -> string

  function PyStr(repr: Repr, j: Json): string {
    if j.Str? then j.text else repr(j)
  }

  /** `(cves or [None])[0]`; None stands for an exception. */
  function FirstCve(cves: Json): Option<Json> {
    if !Truthy(cves) then Some(Null)
    else
      match cves
      case List(items) => Some(items[0])
      case Str(text) => Some(Str(text[..1]))
      case _ => None
  }

  function PickAdvisoryId(repr: Repr, a: seq<(string, Json)>): Option<Json> {
    var first := Or(Get(a, "github_advisory_id"), Get(a, "url"));
    if Truthy(first) then Some(first)
    else
      var cve := FirstCve(Get(a, "cves"));
      if cve.None? then None
      else
        var id := Get(a, "id");
        Some(Or(cve.value, Or(if id == Null then Null else Str(PyStr(repr, id)),
                Or(Get(a, "title"), Or(Get(a, "advisory"), Get(a, "overview"))))))
  }

  /** The first shape of report: one vulnerability an advisory. */
  function FromAdvisories(repr: Repr, advisories: seq<(string, Json)>): Option<seq<Vuln>> {
    if advisories == [] then Some([])
    else
      match advisories[0].1
      case Obj(a) =>
        var id := PickAdvisoryId(repr, a);
        var rest := FromAdvisories(repr, advisories[1..]);
        if id.None? || rest.None? then None
        else Some([Vuln(Or(Get(a, "module_name"), Get(a, "name")), Get(a, "severity"), id.value)] + rest.value)
      case _ => None
  }

  /** What an item of a via list names as its advisory, and as its title. */
  function ViaAdvisory(item: Json): Json {
    match item
    case Obj(m) =>
        Or(Get(m, "github_advisory_id"), Or(Get(m, "url"), Or(Get(m, "source"), Or(Get(m, "title"), Get(m, "name")))))
    case Str(_) => item
    case _ => Null
  }

  function ViaTitle(item: Json): Json {
    match item
    case Obj(m) => Or(Get(m, "title"), Or(Get(m, "url"), Or(Get(m, "advisory"), Get(m, "source"))))
    case Str(_) => item
    case _ => Null
  }

  function ViaItems(vuln: seq<(string, Json)>): seq<Json> {
    match Get(vuln, "via")
    case List(items) => items
    case Str(text) => [Str(text)]
    case _ => []
  }

  /** Joining the titles takes strings only. */
  predicate Joins(items: seq<Json>) {
    forall i :: 0 <= i < |items| ==> Truthy(ViaTitle(items[i])) ==> ViaTitle(items[i]).Str?
  }

  function Yields(name: string, severity: Json, items: seq<Json>): seq<Vuln> {
    if items == [] then []
    else
      var a := ViaAdvisory(items[0]);
      (if Truthy(a) then [Vuln(Str(name), severity, a)] else []) + Yields(name, severity, items[1..])
  }

  function FromVulnerability(name: string, v: Json): Option<seq<Vuln>> {
    match v
    case Obj(vuln) => if Joins(ViaItems(vuln)) then Some(Yields(name, Get(vuln, "severity"), ViaItems(vuln))) else None
    case _ => None
  }

  /** The second shape of report: one vulnerability for each advisory that a package's via list names. */
  function FromVulnerabilities(vs: seq<(string, Json)>): Option<seq<Vuln>> {
    if vs == [] then Some([])
    else
      var first, rest := FromVulnerability(vs[0].0, vs[0].1), FromVulnerabilities(vs[1..]);
      if first.None? || rest.None? then None else Some(first.value + rest.value)
  }

  /** Everything iter_vulns yields, or None where it raises. */
  function IterVulns(repr: Repr, data: seq<(string, Json)>): Option<seq<Vuln>> {
    var a := match Get(data, "advisories") case Obj(m) => FromAdvisories(repr, m) case _ => Some([]);
    var v := match Get(data, "vulnerabilities") case Obj(m) => FromVulnerabilities(m) case _ => Some([]);
    if a.None? || v.None? then None else Some(a.value + v.value)
  }

  // ---------- The generator's loops ----------

  lemma YieldsStep(name: string, severity: Json, items: seq<Json>, i: nat)
    requires i < |items|
    ensures Yields(name, severity, items[i..]) ==
            (if Truthy(ViaAdvisory(items[i])) then [Vuln(Str(name), severity, ViaAdvisory(items[i]))] else []) +
                Yields(name, severity, items[i + 1..])
  {
    assert items[i..][0] == items[i] && items[i..][1..] == items[i + 1..];
  }

  method YieldVia(name: string, severity: Json, items: seq<Json>) returns (r: Option<seq<Vuln>>)
    ensures r == if Joins(items) then Some(Yields(name, severity, items)) else None
  {
    hide ViaAdvisory, ViaTitle, Truthy, Yields;
    var titles, advisories := [], [];
    for i := 0 to |items|
      invariant |titles| == |advisories| == i
      invariant forall j :: 0 <= j < i ==> titles[j] == ViaTitle(items[j]) && advisories[j] == ViaAdvisory(items[j])
    {
      titles := titles + [ViaTitle(items[i])];
      advisories := advisories + [ViaAdvisory(items[i])];
    }
    assert Joins(items) <==> forall i :: 0 <= i < |titles| ==> Truthy(titles[i]) ==> titles[i].Str? by {
      assert forall i :: 0 <= i < |items| ==> titles[i] == ViaTitle(items[i]);
    }
    if exists i :: 0 <= i < |titles| && Truthy(titles[i]) && !titles[i].Str? {
      return None;
    }
    var vulns := [];
    assert items[0..] == items;
    for i := 0 to |advisories|
      invariant vulns + Yields(name, severity, items[i..]) == Yields(name, severity, items)
    {
      YieldsStep(name, severity, items, i);
      if Truthy(advisories[i]) {
        vulns := vulns + [Vuln(Str(name), severity, advisories[i])];
      }
    }
    assert Yields(name, severity, items[|items|..]) == [] by { YieldsNothing(name, severity, items[|items|..]); }
    assert vulns + [] == vulns;
    r := Some(vulns);
  }

  /** `all` is what was yielded so far followed by what is still to come. */
  predicate Continues(all: Option<seq<Vuln>>, vulns: seq<Vuln>, rest: Option<seq<Vuln>>) {
    rest.Some? == all.Some? && (rest.Some? ==> all.value == vulns + rest.value)
  }

  method CollectAdvisories(repr: Repr, m: seq<(string, Json)>) returns (r: Option<seq<Vuln>>)
    ensures r == FromAdvisories(repr, m)
  {
    hide PickAdvisoryId, Get;
    var vulns := [];
    assert m[0..] == m;
    for i := 0 to |m|
      invariant Continues(FromAdvisories(repr, m), vulns, FromAdvisories(repr, m[i..]))
    {
      assert m[i..][0] == m[i] && m[i..][1..] == m[i + 1..];
      if !m[i].1.Obj? {
        return None;
      }
      var a := m[i].1.members;
      var id := PickAdvisoryId(repr, a);
      if id.None? {
        return None;
      }
      vulns := vulns + [Vuln(Or(Get(a, "module_name"), Get(a, "name")), Get(a, "severity"), id.value)];
    }
    assert m[|m|..] == [] && vulns + [] == vulns;
    r := Some(vulns);
  }

  method CollectVulnerabilities(m: seq<(string, Json)>) returns (r: Option<seq<Vuln>>)
    ensures r == FromVulnerabilities(m)
  {
    hide Joins, Get, Yields, ViaItems;
    var vulns := [];
    assert m[0..] == m;
    for i := 0 to |m|
      invariant Continues(FromVulnerabilities(m), vulns, FromVulnerabilities(m[i..]))
    {
      assert m[i..][0] == m[i] && m[i..][1..] == m[i + 1..];
      if !m[i].1.Obj? {
        return None;
      }
      var v := m[i].1.members;
      var yielded := YieldVia(m[i].0, Get(v, "severity"), ViaItems(v));
      if yielded.None? {
        return None;
      }
      vulns := vulns + yielded.value;
    }
    assert m[|m|..] == [] && vulns + [] == vulns;
    r := Some(vulns);
  }

  /** iter_vulns, run to its end. */
  method CollectVulns(repr: Repr, data: seq<(string, Json)>) returns (r: Option<seq<Vuln>>)
    ensures r == IterVulns(repr, data)
  {
    hide FromAdvisories, FromVulnerabilities, Get;
    var first, second := Some([]), Some([]);
    var advisories, vulnerabilities := Get(data, "advisories"), Get(data, "vulnerabilities");
    if advisories.Obj? {
      first := CollectAdvisories(repr, advisories.members);
    }
    if first.Some? && vulnerabilities.Obj? {
      second := CollectVulnerabilities(vulnerabilities.members);
    }
    r := if first.None? || second.None? then None else Some(first.value + second.value);
  }

  /**
   A package yields nothing exactly when no item of its via list names an advisory: then the gate never sees it, however
   severe.
   */
  lemma {:induction false} YieldsNothing(name: string, severity: Json, items: seq<Json>)
    ensures Yields(name, severity, items) == [] <==> forall i :: 0 <= i < |items| ==> !Truthy(ViaAdvisory(items[i]))
    ensures forall k :: 0 <= k < |Yields(name, severity, items)| ==>
              Yields(name, severity, items)[k].name == Str(name) &&
                  Yields(name, severity, items)[k].severity == severity
              && Truthy(Yields(name, severity, items)[k].advisory)
  {
    hide ViaAdvisory, Truthy;
    if items != [] {
      YieldsNothing(name, severity, items[1..]);
      assert forall i :: 1 <= i < |items| ==> items[i] == items[1..][i - 1];
    }
  }

  // ---------- The first shape of report ----------

  /** The first of a list, and of a string its first character. */
  function Foremost(cves: Json): Json {
    if cves.List? && cves.items != [] then cves.items[0]
    else if cves.Str? && cves.text != "" then Str([cves.text[0]])
    else Null
  }

  function Spelled(repr: Repr, id: Json): Json {
    if id == Null || id.Str? then id else Str(repr(id))
  }

  /** Where an advisory's identifier may come from, in the order of preference. */
  function Candidates(repr: Repr, a: seq<(string, Json)>): seq<Json> {
    [Get(a, "github_advisory_id"), Get(a, "url"), Foremost(Get(a, "cves")), Spelled(repr, Get(a, "id")),
     Get(a, "title"), Get(a, "advisory"), Get(a, "overview")]
  }

  ghost predicate FirstTruthy(js: seq<Json>, j: Json) {
    exists k :: 0 <= k < |js| && j == js[k] && (Truthy(j) || k == |js| - 1) && forall i :: 0 <= i < k ==> !Truthy(js[i])
  }

  /**
   The cves are looked at only if there is neither a GHSA identifier nor a URL, and must be a list or a string then.
   */
  predicate BadCves(a: seq<(string, Json)>) {
    && !Truthy(Get(a, "github_advisory_id")) && !Truthy(Get(a, "url"))
    && Truthy(Get(a, "cves")) && !Get(a, "cves").List? && !Get(a, "cves").Str?
  }

  lemma CveForemost(cves: Json)
    ensures FirstCve(cves).None? <==> Truthy(cves) && !cves.List? && !cves.Str?
    ensures FirstCve(cves).Some? ==> FirstCve(cves).value == Foremost(cves)
  {
    if cves.Str? && cves.text != "" {
      assert cves.text[..1] == [cves.text[0]];
    }
  }

  /** An identifier is the first candidate that is not empty; there is none exactly if all are empty. */
  lemma PickExactly(repr: Repr, a: seq<(string, Json)>)
    ensures var pick := PickAdvisoryId(repr, a);
            && (pick.None? <==> BadCves(a))
            && (pick.Some? ==>
                  var js := Candidates(repr, a);
                  FirstTruthy(js, pick.value) &&
                      (!Truthy(pick.value) <==> forall k :: 0 <= k < |js| ==> !Truthy(js[k])))
  {
    hide Get, Truthy, FirstCve, Foremost;
    var pick := PickAdvisoryId(repr, a);
    CveForemost(Get(a, "cves"));
    if pick.Some? {
      var js := Candidates(repr, a);
      var k := if Truthy(js[0]) then 0 else if Truthy(js[1]) then 1 else if Truthy(js[2]) then 2
          else if Truthy(js[3]) then 3
               else if Truthy(js[4]) then 4 else if Truthy(js[5]) then 5 else 6;
      assert pick.value == js[k];
    }
  }

  predicate BadAdvisory(a: Json) {
    !a.Obj? || BadCves(a.members)
  }

  /**
   The first shape raises exactly on an entry that is no object or has bad cves; otherwise each entry gives one finding,
   in order.
   */
  lemma {:induction false} AdvisoriesExactly(repr: Repr, advisories: seq<(string, Json)>)
    ensures var r := FromAdvisories(repr, advisories);
            && (r.None? <==> exists i :: 0 <= i < |advisories| && BadAdvisory(advisories[i].1))
            && (r.Some? ==> |r.value| == |advisories|)
    ensures FromAdvisories(repr, advisories).Some? ==>
              forall i :: 0 <= i < |advisories| ==>
                && advisories[i].1.Obj? && PickAdvisoryId(repr, advisories[i].1.members).Some?
                && FromAdvisories(repr, advisories).value[i] == FindingOf(repr, advisories[i].1.members)
  {
    hide Get, PickAdvisoryId, BadCves;
    if advisories != [] {
      AdvisoriesExactly(repr, advisories[1..]);
      assert forall i :: 1 <= i < |advisories| ==> advisories[i] == advisories[1..][i - 1];
      if advisories[0].1.Obj? {
        PickExactly(repr, advisories[0].1.members);
      }
      if i :| 0 <= i < |advisories[1..]| && BadAdvisory(advisories[1..][i].1) {
        assert BadAdvisory(advisories[i + 1].1);
      }
    }
  }

  function FindingOf(repr: Repr, a: seq<(string, Json)>): Vuln
    requires PickAdvisoryId(repr, a).Some?
  {
    Vuln(Or(Get(a, "module_name"), Get(a, "name")), Get(a, "severity"), PickAdvisoryId(repr, a).value)
  }

  // ---------- The second shape of report ----------

  /** Where a via item's title may come from, in the order of preference. */
  function TitleCandidates(item: seq<(string, Json)>): seq<Json> {
    [Get(item, "title"), Get(item, "url"), Get(item, "advisory"), Get(item, "source")]
  }

  /** The item is an object, and the first of these that is not empty is no string. */
  ghost predicate BadTitle(item: Json) {
    item.Obj? && exists k :: 0 <= k < 4 && BadAt(TitleCandidates(item.members), k)
  }

  ghost predicate BadAt(js: seq<Json>, k: nat)
    requires k < |js|
  {
    Truthy(js[k]) && !js[k].Str? && forall i :: 0 <= i < k ==> !Truthy(js[i])
  }

  ghost predicate BadPackage(v: Json) {
    !v.Obj? || exists i :: 0 <= i < |ViaItems(v.members)| && BadTitle(ViaItems(v.members)[i])
  }

  lemma BadTitleExactly(item: Json)
    ensures BadTitle(item) <==> Truthy(ViaTitle(item)) && !ViaTitle(item).Str?
  {
    hide Get;
    if item.Obj? {
      var js := TitleCandidates(item.members);
      var k := if Truthy(js[0]) then 0 else if Truthy(js[1]) then 1 else if Truthy(js[2]) then 2 else 3;
      assert ViaTitle(item) == js[k];
      assert BadAt(js, k) <==> Truthy(js[k]) && !js[k].Str?;
      if BadTitle(item) {
        var bad :| 0 <= bad < 4 && BadAt(js, bad);
        assert bad == k;
      }
    }
  }

  /** A package raises exactly if it is no object or one of its via items is bad. */
  lemma PackageExactly(name: string, v: Json)
    ensures FromVulnerability(name, v).None? <==> BadPackage(v)
  {
    hide BadTitle, ViaTitle, Truthy, ViaItems;
    if v.Obj? {
      var items := ViaItems(v.members);
      forall i | 0 <= i < |items|
        ensures BadTitle(items[i]) <==> Truthy(ViaTitle(items[i])) && !ViaTitle(items[i]).Str?
      {
        BadTitleExactly(items[i]);
      }
    }
  }

  /**
   The second shape raises exactly if some package does; otherwise it yields exactly what the packages yield.
   */
  lemma {:induction false} PackagesExactly(vs: seq<(string, Json)>)
    ensures FromVulnerabilities(vs).None? <==> exists i :: 0 <= i < |vs| && BadPackage(vs[i].1)
    ensures FromVulnerabilities(vs).Some? ==>
              forall v :: v in FromVulnerabilities(vs).value <==>
                exists i :: 0 <= i < |vs| && v in YieldedBy(vs[i])
  {
    hide FromVulnerability, BadPackage;
    if vs != [] {
      PackageExactly(vs[0].0, vs[0].1);
      PackagesExactly(vs[1..]);
      assert forall i :: 1 <= i < |vs| ==> vs[i] == vs[1..][i - 1];
      if i :| 0 <= i < |vs[1..]| && BadPackage(vs[1..][i].1) {
        assert BadPackage(vs[i + 1].1);
      }
      if FromVulnerabilities(vs).Some? {
        forall v
          ensures v in FromVulnerabilities(vs).value <==> exists i :: 0 <= i < |vs| && v in YieldedBy(vs[i])
        {
          if i :| 0 <= i < |vs[1..]| && v in YieldedBy(vs[1..][i]) {
            assert v in YieldedBy(vs[i + 1]);
          }
        }
      }
    }
  }

  function YieldedBy(package: (string, Json)): seq<Vuln> {
    var r := FromVulnerability(package.0, package.1);
    if r.Some? then r.value else []
  }

  /** A report raises exactly on a bad advisory of the first shape or a bad package of the second. */
  lemma RaisesExactly(repr: Repr, data: seq<(string, Json)>)
    ensures IterVulns(repr, data).None? <==>
            var a, v := Get(data, "advisories"), Get(data, "vulnerabilities");
            || (a.Obj? && exists i :: 0 <= i < |a.members| && BadAdvisory(a.members[i].1))
            || (v.Obj? && exists i :: 0 <= i < |v.members| && BadPackage(v.members[i].1))
  {
    hide Get, BadAdvisory, BadPackage, FromAdvisories, FromVulnerabilities;
    var a, v := Get(data, "advisories"), Get(data, "vulnerabilities");
    if a.Obj? {
      AdvisoriesExactly(repr, a.members);
    }
    if v.Obj? {
      PackagesExactly(v.members);
    }
  }

  /** The title, the URL or the advisory text of a via item, as far as it has them, are strings. */
  predicate TextsAreStrings(m: seq<(string, Json)>) {
    forall k :: 0 <= k < 3 ==> Truthy(TitleCandidates(m)[k]) ==> TitleCandidates(m)[k].Str?
  }

  lemma NumericTitle(m: seq<(string, Json)>)
    requires Get(m, "source").Num? && Truthy(Get(m, "source")) && TextsAreStrings(m)
    ensures BadTitle(Obj(m)) <==>
            !Truthy(Get(m, "title")) && !Truthy(Get(m, "url")) && !Truthy(Get(m, "advisory"))
  {
    hide Get, Truthy;
    var js := TitleCandidates(m);
    if !Truthy(js[0]) && !Truthy(js[1]) && !Truthy(js[2]) {
      assert BadAt(js, 3);
    }
  }

  /**
   A numeric source, which the normalisation allows for, makes a package with this one via item raise exactly if there
   is neither a title nor a URL nor an advisory text beside it.
   */
  lemma NumericSourceExactly(name: string, vuln: seq<(string, Json)>, m: seq<(string, Json)>)
    requires ViaItems(vuln) == [Obj(m)]
    requires Get(m, "source").Num? && Truthy(Get(m, "source")) && TextsAreStrings(m)
    ensures FromVulnerability(name, Obj(vuln)).None? <==>
            !Truthy(Get(m, "title")) && !Truthy(Get(m, "url")) && !Truthy(Get(m, "advisory"))
  {
    hide Get, Truthy, BadTitle, ViaItems, FromVulnerability;
    NumericTitle(m);
    PackageExactly(name, Obj(vuln));
    assert ViaItems(vuln)[0] == Obj(m);
  }

  /** Such a package: its one via item has a numeric source and nothing else. */
  lemma NumericSourceRaises(name: string, severity: Json, source: int)
    requires source != 0
    ensures FromVulnerability(name, Obj([("severity", severity), ("via", List([Obj([("source", Num(source))])]))])) ==
            None
  {
    var fields := [("source", Num(source))];
    var item := Obj(fields);
    assert fields[1..] == [] && |"source"| == 6 && |"title"| == 5 && |"url"| == 3 && |"advisory"| == 8;
    assert Get(fields, "title") == Get(fields, "url") == Get(fields, "advisory") == Null;
    assert ViaTitle(item) == Num(source);
    assert [item][0] == item;
    assert !Joins([item]);
    var vuln := [("severity", severity), ("via", List([item]))];
    assert |"severity"| == 8 && |"via"| == 3 && vuln[1..] == [("via", List([item]))];
    assert Get(vuln, "via") == List([item]);
  }
}
