/**
 Laws of the audit policy: what the order and the repetition of findings matter, and what a further exception changes.
 */
module AuditLaws {
  import opened Prelude
  import opened AuditParser
  import opened AuditReport
  import opened AuditGate

  /** Every vulnerability, wherever it stands, is well formed and covered on its own. */
  ghost predicate AllCovered(env: Env, es: seq<Entry>, vs: seq<Vuln>) {
    ListAccepted(env, es) && forall v :: v in vs ==> Fine(env, es, v)
  }

  ghost predicate Fine(env: Env, es: seq<Entry>, v: Vuln) {
    SeverityOf(env, v).Some? && (Serious(env, v) ==> Identified(env, v) && Covered(env, es, v))
  }

  /** Findings with one key have one severity. */
  ghost predicate Consistent(env: Env, vs: seq<Vuln>) {
    forall v, w :: v in vs && w in vs && Tracked(env, v) && Tracked(env, w) && VulnKey(env, v) == VulnKey(env, w) ==>
      SeverityOf(env, v) == SeverityOf(env, w)
  }

  lemma CoveredAccepts(env: Env, es: seq<Entry>, vs: seq<Vuln>)
    requires AllCovered(env, es, vs)
    ensures Accepts(env, es, vs)
  {
    hide Covered, SeverityOf, ListAccepted, VulnKey;
    assert forall k :: 0 <= k < |vs| ==> Fine(env, es, vs[k]);
  }

  lemma {:induction false} FirstOfKey(env: Env, vs: seq<Vuln>, k: nat) returns (j: nat)
    requires k < |vs| && Tracked(env, vs[k])
    ensures j <= k && First(env, vs, j) && VulnKey(env, vs[j]) == VulnKey(env, vs[k])
  {
    hide Tracked, VulnKey;
    if First(env, vs, k) {
      j := k;
    } else {
      var i :| 0 <= i < k && Tracked(env, vs[i]) && VulnKey(env, vs[i]) == VulnKey(env, vs[k]);
      j := FirstOfKey(env, vs, i);
    }
  }

  /** If one key has one severity, looking only at first occurrences misses nothing. */
  lemma FirstsSuffice(env: Env, es: seq<Entry>, vs: seq<Vuln>)
    requires Consistent(env, vs)
    ensures Accepts(env, es, vs) <==> AllCovered(env, es, vs)
  {
    hide SeverityOf, VulnKey, ListAccepted, First, Serious, Identified;
    if Accepts(env, es, vs) {
      forall v | v in vs
        ensures Fine(env, es, v)
      {
        var k :| 0 <= k < |vs| && vs[k] == v;
        if Tracked(env, v) {
          var j := FirstOfKey(env, vs, k);
          FirstTracked(env, vs, j);
          assert vs[j] in vs;
          SameCover(env, es, vs[j], v);
        }
      }
    }
    if AllCovered(env, es, vs) {
      CoveredAccepts(env, es, vs);
    }
  }

  lemma FirstTracked(env: Env, vs: seq<Vuln>, j: nat)
    requires j < |vs| && First(env, vs, j)
    ensures Tracked(env, vs[j])
  {
  }

  lemma SameCover(env: Env, es: seq<Entry>, v: Vuln, w: Vuln)
    requires VulnKey(env, v) == VulnKey(env, w) && SeverityOf(env, v) == SeverityOf(env, w)
    ensures Covered(env, es, v) <==> Covered(env, es, w)
  {
    hide SeverityOf, VulnKey, RuleOf, HasKey;
  }

  /** Then permuting, repeating or removing findings never turns acceptance into refusal. */
  lemma OrderInsensitive(env: Env, es: seq<Entry>, vs: seq<Vuln>, vs': seq<Vuln>)
    requires Consistent(env, vs) && Accepts(env, es, vs)
    requires forall v :: v in vs' ==> v in vs
    ensures Accepts(env, es, vs')
  {
    FirstsSuffice(env, es, vs);
    CoveredAccepts(env, es, vs');
  }

  function ToFront(vs: seq<Vuln>, k: nat): seq<Vuln>
    requires k < |vs|
  {
    [vs[k]] + vs[..k] + vs[k + 1..]
  }

  lemma FrontRearranges(vs: seq<Vuln>, k: nat)
    requires k < |vs|
    ensures multiset(ToFront(vs, k)) == multiset(vs)
  {
    assert vs == vs[..k] + [vs[k]] + vs[k + 1..];
  }

  lemma FrontIsFirst(env: Env, es: seq<Entry>, vs: seq<Vuln>, k: nat)
    requires k < |vs| && Accepts(env, es, ToFront(vs, k))
    ensures ListAccepted(env, es) && Fine(env, es, vs[k])
  {
    hide SeverityOf, VulnKey, ListAccepted, Covered, Serious, Identified;
    var ws := ToFront(vs, k);
    assert ws[0] == vs[k];
    assert Tracked(env, ws[0]) ==> First(env, ws, 0);
  }

  /**
   Without that condition, and for all reports: the gate accepts every order of the findings exactly when each finding
   is covered.
   */
  lemma EveryOrder(env: Env, es: seq<Entry>, vs: seq<Vuln>)
    ensures (forall ws :: multiset(ws) == multiset(vs) ==> Accepts(env, es, ws)) <==> AllCovered(env, es, vs)
  {
    hide Accepts, Fine, ListAccepted, ToFront;
    if forall ws :: multiset(ws) == multiset(vs) ==> Accepts(env, es, ws) {
      forall v | v in vs
        ensures Fine(env, es, v)
      {
        var k :| 0 <= k < |vs| && vs[k] == v;
        FrontRearranges(vs, k);
        FrontIsFirst(env, es, vs, k);
      }
      assert Accepts(env, es, vs);
      AcceptedList(env, es, vs);
    }
    if AllCovered(env, es, vs) {
      forall ws | multiset(ws) == multiset(vs)
        ensures Accepts(env, es, ws)
      {
        assert forall v :: v in ws ==> v in multiset(vs);
        CoveredAccepts(env, es, ws);
      }
    }
  }

  /**
   And so for repeating and removing: every list made of these findings, as often as one likes, is accepted exactly
   then.
   */
  lemma EveryReport(env: Env, es: seq<Entry>, vs: seq<Vuln>)
    ensures (forall ws :: (forall v :: v in ws ==> v in vs) ==> Accepts(env, es, ws)) <==> AllCovered(env, es, vs)
  {
    hide Accepts, Fine, ListAccepted;
    if forall ws :: (forall v :: v in ws ==> v in vs) ==> Accepts(env, es, ws) {
      EveryOrderFrom(env, es, vs);
    }
    if AllCovered(env, es, vs) {
      forall ws | forall v :: v in ws ==> v in vs
        ensures Accepts(env, es, ws)
      {
        CoveredAccepts(env, es, ws);
      }
    }
  }

  lemma EveryOrderFrom(env: Env, es: seq<Entry>, vs: seq<Vuln>)
    requires forall ws :: (forall v :: v in ws ==> v in vs) ==> Accepts(env, es, ws)
    ensures AllCovered(env, es, vs)
  {
    hide Accepts, Fine, ListAccepted;
    forall ws | multiset(ws) == multiset(vs)
      ensures Accepts(env, es, ws)
    {
      assert forall v :: v in ws ==> v in multiset(vs);
    }
    EveryOrder(env, es, vs);
  }

  /** Every finding is well formed, and of each key some finding is covered. */
  ghost predicate SomeCovered(env: Env, es: seq<Entry>, vs: seq<Vuln>) {
    && ListAccepted(env, es)
    && (forall v :: v in vs ==> SeverityOf(env, v).Some? && (Serious(env, v) ==> Identified(env, v)))
    && (forall v :: v in vs && Tracked(env, v) ==> exists w :: w in vs && Helps(env, es, v, w))
  }

  ghost predicate Helps(env: Env, es: seq<Entry>, v: Vuln, w: Vuln) {
    Tracked(env, w) && VulnKey(env, w) == VulnKey(env, v) && Covered(env, es, w)
  }

  /** The findings that are covered, or those that are not, in order. */
  ghost function Pick(env: Env, es: seq<Entry>, vs: seq<Vuln>, covered: bool): seq<Vuln> {
    if vs == [] then []
    else
      var v := vs[|vs| - 1];
      Pick(env, es, vs[..|vs| - 1], covered) + if Covered(env, es, v) <==> covered then [v] else []
  }

  lemma {:induction false} PickExact(env: Env, es: seq<Entry>, vs: seq<Vuln>, covered: bool)
    ensures forall w :: w in Pick(env, es, vs, covered) <==> w in vs && (Covered(env, es, w) <==> covered)
  {
    hide Covered;
    if vs != [] {
      PickExact(env, es, vs[..|vs| - 1], covered);
      assert vs == vs[..|vs| - 1] + [vs[|vs| - 1]];
    }
  }

  lemma PickLast(env: Env, es: seq<Entry>, vs: seq<Vuln>, covered: bool)
    requires vs != []
    ensures var v := vs[|vs| - 1];
            Pick(env, es, vs, covered) ==
            Pick(env, es, vs[..|vs| - 1], covered) + if Covered(env, es, v) <==> covered then [v] else []
  {
    hide Covered;
  }

  lemma OneMore(a: seq<Vuln>, b: seq<Vuln>, init: seq<Vuln>, v: Vuln)
    requires multiset(a + b) == multiset(init)
    ensures multiset((a + [v]) + (b + [])) == multiset((a + []) + (b + [v])) == multiset(init + [v])
  {
    assert (a + []) + (b + [v]) == a + b + [v] && (a + [v]) + (b + []) == a + [v] + b;
  }

  lemma PicksMore(env: Env, es: seq<Entry>, vs: seq<Vuln>)
    requires vs != []
    requires var init := vs[..|vs| - 1];
             multiset(Pick(env, es, init, true) + Pick(env, es, init, false)) == multiset(init)
    ensures multiset(Pick(env, es, vs, true) + Pick(env, es, vs, false)) == multiset(vs)
  {
    hide Covered, Pick;
    var init, v := vs[..|vs| - 1], vs[|vs| - 1];
    PickLast(env, es, vs, true);
    PickLast(env, es, vs, false);
    assert vs == init + [v];
    OneMore(Pick(env, es, init, true), Pick(env, es, init, false), init, v);
  }

  lemma {:induction false} PicksAll(env: Env, es: seq<Entry>, vs: seq<Vuln>)
    ensures multiset(Pick(env, es, vs, true) + Pick(env, es, vs, false)) == multiset(vs)
  {
    if vs != [] {
      PicksAll(env, es, vs[..|vs| - 1]);
      PicksMore(env, es, vs);
    }
  }

  lemma NotFirst(env: Env, a: seq<Vuln>, b: seq<Vuln>, k: nat, w: Vuln)
    requires |a| <= k < |a + b| && w in a && Tracked(env, w) && VulnKey(env, w) == VulnKey(env, (a + b)[k])
    ensures !First(env, a + b, k)
  {
    hide Tracked, VulnKey;
    var j :| 0 <= j < |a| && a[j] == w;
    assert (a + b)[j] == w;
  }

  lemma FirstInFront(env: Env, es: seq<Entry>, vs: seq<Vuln>, k: nat)
    requires SomeCovered(env, es, vs)
    requires var ws := Pick(env, es, vs, true) + Pick(env, es, vs, false); k < |ws| && First(env, ws, k)
    ensures Covered(env, es, (Pick(env, es, vs, true) + Pick(env, es, vs, false))[k])
  {
    hide SeverityOf, VulnKey, ListAccepted, Covered, Serious, Identified, Pick;
    var a, b := Pick(env, es, vs, true), Pick(env, es, vs, false);
    var ws := a + b;
    PickExact(env, es, vs, true);
    PickExact(env, es, vs, false);
    if k < |a| {
      assert ws[k] in a;
    } else {
      assert ws[k] in b;
      FirstTracked(env, ws, k);
      var w :| w in vs && Helps(env, es, ws[k], w);
      NotFirst(env, a, b, k, w);
    }
  }

  /** With the covered findings in front, a key's first occurrence is covered if any is. */
  lemma CoveredFirst(env: Env, es: seq<Entry>, vs: seq<Vuln>)
    requires SomeCovered(env, es, vs)
    ensures Accepts(env, es, Pick(env, es, vs, true) + Pick(env, es, vs, false))
  {
    hide SeverityOf, VulnKey, ListAccepted, Covered, Serious, Identified, Pick, Helps, First, Tracked;
    var ws := Pick(env, es, vs, true) + Pick(env, es, vs, false);
    PickExact(env, es, vs, true);
    PickExact(env, es, vs, false);
    forall k | 0 <= k < |ws|
      ensures ws[k] in vs && (First(env, ws, k) ==> Covered(env, es, ws[k]))
    {
      assert ws[k] in ws;
      if First(env, ws, k) {
        FirstInFront(env, es, vs, k);
      }
    }
  }

  lemma SeriousOrTracked(env: Env, es: seq<Entry>, ws: seq<Vuln>, k: nat)
    requires Accepts(env, es, ws) && k < |ws| && Tracked(env, ws[k])
    ensures exists j :: 0 <= j < |ws| && Helps(env, es, ws[k], ws[j])
  {
    hide SeverityOf, VulnKey, ListAccepted, Covered, Serious, Identified;
    var j := FirstOfKey(env, ws, k);
    FirstTracked(env, ws, j);
    assert Helps(env, es, ws[k], ws[j]);
  }

  /** Some order of the findings is accepted exactly if all are well formed and each key has a covered finding. */
  lemma SomeOrder(env: Env, es: seq<Entry>, vs: seq<Vuln>)
    ensures (exists ws :: multiset(ws) == multiset(vs) && Accepts(env, es, ws)) <==> SomeCovered(env, es, vs)
  {
    hide SeverityOf, VulnKey, ListAccepted, Covered, Serious, Identified, Tracked, Helps, First;
    if ws :| multiset(ws) == multiset(vs) && Accepts(env, es, ws) {
      assert forall v :: v in vs <==> v in multiset(ws);
      forall v | v in vs
        ensures SeverityOf(env, v).Some? && (Serious(env, v) ==> Identified(env, v))
        ensures Tracked(env, v) ==> exists w :: w in vs && Helps(env, es, v, w)
      {
        assert v in multiset(ws);
        var k :| 0 <= k < |ws| && ws[k] == v;
        if Tracked(env, v) {
          SeriousOrTracked(env, es, ws, k);
          var j :| 0 <= j < |ws| && Helps(env, es, ws[k], ws[j]);
          assert ws[j] in multiset(ws);
        }
      }
    }
    if SomeCovered(env, es, vs) {
      PicksAll(env, es, vs);
      CoveredFirst(env, es, vs);
    }
  }

  /**
   For every report: the order of its findings decides exactly if each key has a covered finding, but not all findings
   are.
   */
  lemma OrderDecides(env: Env, es: seq<Entry>, vs: seq<Vuln>)
    ensures (exists a, b ::
            multiset(a) == multiset(b) == multiset(vs) && Accepts(env, es, a) && !Accepts(env, es, b)) <==>
            SomeCovered(env, es, vs) && !AllCovered(env, es, vs)
  {
    hide Accepts, SomeCovered, AllCovered;
    SomeOrder(env, es, vs);
    EveryOrder(env, es, vs);
  }

  lemma AcceptedList(env: Env, es: seq<Entry>, vs: seq<Vuln>)
    requires Accepts(env, es, vs)
    ensures ListAccepted(env, es)
  {
  }

  /** A report in which the order decides: two severities under one key, and an exception for the first only. */
  lemma OrderMatters(env: Env, e: Entry, v: Vuln, w: Vuln)
    requires Valid(env, e) && RuleOf(env, e).severity == HIGH && RuleOf(env, e).expiresOn >= env.today
    requires Tracked(env, v) && Tracked(env, w) && VulnKey(env, v) == VulnKey(env, w) == KeyOf(env, e)
    requires SeverityOf(env, v) == Some(HIGH) && SeverityOf(env, w) == Some(CRITICAL)
    ensures Accepts(env, [e], [v, w]) && !Accepts(env, [e], [w, v])
  {
    hide SeverityOf, VulnKey, RuleOf, KeyOf;
    var vs, ws := [v, w], [w, v];
    assert |HIGH| != |CRITICAL|;
    assert Covered(env, [e], v) by { assert HasKey(env, [e][0], VulnKey(env, v)); }
    assert !First(env, vs, 1) by { assert Tracked(env, vs[0]); }
    assert First(env, ws, 0) && !Covered(env, [e], ws[0]);
  }

  /** An advisory of the first shape of report. */
  function AdvisoryOf(key: string, package: string, severity: string, id: string): (string, Json) {
    (key, Obj([("module_name", Str(package)), ("severity", Str(severity)), ("github_advisory_id", Str(id))]))
  }

  lemma AdvisoryYields(repr: Repr, key: string, package: string, severity: string, id: string)
    requires package != "" && id != ""
    ensures var a := AdvisoryOf(key, package, severity, id).1.members;
            PickAdvisoryId(repr, a) == Some(Str(id)) && FindingOf(repr, a) == Vuln(Str(package), Str(severity), Str(id))
  {
    var a := AdvisoryOf(key, package, severity, id).1.members;
    assert |"module_name"| == 11 && |"severity"| == 8 && |"github_advisory_id"| == 18;
    var b, c := a[1..], a[2..];
    assert b[1..] == c && c[1..] == [];
    assert Get(c, "github_advisory_id") == Str(id);
    assert Get(b, "github_advisory_id") == Str(id) && Get(b, "severity") == Str(severity);
    assert Get(a, "github_advisory_id") == Str(id) && Get(a, "severity") == Str(severity) &&
            Get(a, "module_name") == Str(package);
  }

  function TwoSeverities(package: string, id: string, first: string, second: string): seq<(string, Json)> {
    [("advisories", Obj([AdvisoryOf("1", package, first, id), AdvisoryOf("2", package, second, id)]))]
  }

  lemma TwoFindings(repr: Repr, package: string, id: string, first: string, second: string)
    requires package != "" && id != ""
    ensures FromAdvisories(repr, [AdvisoryOf("1", package, first, id), AdvisoryOf("2", package, second, id)]) ==
            Some([Vuln(Str(package), Str(first), Str(id)), Vuln(Str(package), Str(second), Str(id))])
  {
    AdvisoryYields(repr, "1", package, first, id);
    AdvisoryYields(repr, "2", package, second, id);
    hide Get, PickAdvisoryId, Or;
    var a, b := AdvisoryOf("1", package, first, id), AdvisoryOf("2", package, second, id);
    var v, w := Vuln(Str(package), Str(first), Str(id)), Vuln(Str(package), Str(second), Str(id));
    assert [a, b][1..] == [b] && [b][1..] == [];
    assert FromAdvisories(repr, []) == Some([]);
    assert FromAdvisories(repr, [b]) == Some([w]) by { assert [w] + [] == [w]; }
    assert [v] + [w] == [v, w];
  }

  lemma TwoYields(repr: Repr, package: string, id: string, first: string, second: string)
    requires package != "" && id != ""
    ensures IterVulns(repr, TwoSeverities(package, id, first, second)) ==
            Some([Vuln(Str(package), Str(first), Str(id)), Vuln(Str(package), Str(second), Str(id))])
  {
    hide FromAdvisories, FromVulnerabilities, AdvisoryOf;
    TwoFindings(repr, package, id, first, second);
    var data := TwoSeverities(package, id, first, second);
    assert |"advisories"| == 10 && |"vulnerabilities"| == 15 && data[1..] == [];
    assert Get(data, "vulnerabilities") == Null;
    var vs := [Vuln(Str(package), Str(first), Str(id)), Vuln(Str(package), Str(second), Str(id))];
    assert vs + [] == vs;
  }

  lemma FindingNormal(env: Env, package: string, severity: string, id: string)
    requires severity == HIGH || severity == CRITICAL
    requires env.lower(severity) == severity && package != "" && env.lower(Strip(id)) != ""
    ensures var v := Vuln(Str(package), Str(severity), Str(id));
            && SeverityOf(env, v) == Some(severity) && VulnKey(env, v) == (Strip(package), env.lower(Strip(id)))
            && Tracked(env, v)
  {
    StripNothing(severity);
    hide Strip;
  }

  /**
   Two reports that differ in the order of two advisories, and one exception: the first is accepted, the second is not.
   */
  lemma ReportOrderMatters(env: Env, e: Entry, package: string, id: string)
    requires Valid(env, e) && RuleOf(env, e).severity == HIGH && RuleOf(env, e).expiresOn >= env.today
    requires env.lower(HIGH) == HIGH && env.lower(CRITICAL) == CRITICAL && package != "" && id != ""
    requires KeyOf(env, e) == (Strip(package), env.lower(Strip(id)))
    ensures var a, b := IterVulns(env.repr, TwoSeverities(package, id, HIGH, CRITICAL)),
            IterVulns(env.repr, TwoSeverities(package, id, CRITICAL, HIGH));
            a.Some? && b.Some? && Accepts(env, [e], a.value) && !Accepts(env, [e], b.value)
  {
    assert env.lower(Strip(id)) != "" by { hide Strip; }
    hide IterVulns, Accepts, Strip, Tracked, SeverityOf, VulnKey, RuleOf, KeyOf, AuditGate.Valid, TwoSeverities;
    TwoYields(env.repr, package, id, HIGH, CRITICAL);
    TwoYields(env.repr, package, id, CRITICAL, HIGH);
    FindingNormal(env, package, HIGH, id);
    FindingNormal(env, package, CRITICAL, id);
    OrderMatters(env, e, Vuln(Str(package), Str(HIGH), Str(id)), Vuln(Str(package), Str(CRITICAL), Str(id)));
  }

  lemma CoverGrows(env: Env, es: seq<Entry>, i: nat, e: Entry, v: Vuln)
    requires i <= |es| && Covered(env, es, v)
    ensures Covered(env, es[..i] + [e] + es[i..], v)
  {
    hide VulnKey, RuleOf, Allows, KeyOf;
    var more := es[..i] + [e] + es[i..];
    var j :| 0 <= j < |es| && HasKey(env, es[j], VulnKey(env, v)) && Allows(env, RuleOf(env, es[j]), v);
    var j' := if j < i then j else j + 1;
    assert more[j'] == es[j];
  }

  /**
   A further valid exception under a key that no exception has, put anywhere in the list, never turns acceptance into
   refusal.
   */
  lemma FreshException(env: Env, es: seq<Entry>, i: nat, e: Entry, vs: seq<Vuln>)
    requires i <= |es| && Accepts(env, es, vs) && Valid(env, e)
    requires forall j :: 0 <= j < |es| ==> !HasKey(env, es[j], KeyOf(env, e))
    ensures Accepts(env, es[..i] + [e] + es[i..], vs)
  {
    hide SeverityOf, VulnKey, Covered, First, KeyOf;
    var more := es[..i] + [e] + es[i..];
    assert forall j :: 0 <= j < |more| ==> more[j] == if j < i then es[j] else if j == i then e else es[j - 1];
    FreshListAccepted(env, es, i, e);
    forall k | 0 <= k < |vs| && First(env, vs, k)
      ensures Covered(env, more, vs[k])
    {
      CoverGrows(env, es, i, e, vs[k]);
    }
  }

  lemma FreshListAccepted(env: Env, es: seq<Entry>, i: nat, e: Entry)
    requires i <= |es| && ListAccepted(env, es) && Valid(env, e)
    requires forall j :: 0 <= j < |es| ==> !HasKey(env, es[j], KeyOf(env, e))
    ensures ListAccepted(env, es[..i] + [e] + es[i..])
  {
    hide KeyOf;
    var more := es[..i] + [e] + es[i..];
    assert forall j :: 0 <= j < |more| ==> more[j] == if j < i then es[j] else if j == i then e else es[j - 1];
    forall a, b | 0 <= a < b < |more|
      ensures KeyOf(env, more[a]) != KeyOf(env, more[b])
    {
    }
  }
}
