/**
 The audit policy spelt out on the fields of exceptions and findings, and its agreement with the gate, down to the exit
 code.
 */
module GateLaws {
  import opened Prelude
  import opened AuditParser
  import opened AuditReport
  import opened AuditGate

  // ---------- Exceptions, field by field ----------

  predicate Has(e: Entry, field: string) {
    field in e && e[field] != ""
  }

  /** An exception that the gate takes: five fields, a valid date, and neither package nor advisory blank. */
  predicate Usable(env: Env, e: Entry) {
    && Has(e, "package") && Has(e, "advisory") && Has(e, "severity") && Has(e, "mitigation") && Has(e, "expires_on")
    && env.isoDate(e["expires_on"]).Some?
    && Strip(e["package"]) != "" && env.lower(Strip(e["advisory"])) != ""
  }

  predicate Twins(env: Env, e: Entry, f: Entry)
    requires Usable(env, e) && Usable(env, f)
  {
    Strip(e["package"]) == Strip(f["package"]) && env.lower(Strip(e["advisory"])) == env.lower(Strip(f["advisory"]))
  }

  // ---------- Findings, field by field ----------

  /** str(), which leaves a string as it is. */
  function Spelling(env: Env, j: Json): string {
    if j.Str? then j.text else env.repr(j)
  }

  function Package(env: Env, v: Vuln): string {
    if v.name == Null then "" else Strip(Spelling(env, v.name))
  }

  function Advisory(env: Env, v: Vuln): string {
    if v.advisory == Null then "" else env.lower(Strip(Spelling(env, v.advisory)))
  }

  /** The severity, stripped and lower-cased, where an empty one counts as the empty string. */
  predicate HasSeverity(env: Env, v: Vuln, severity: string) {
    if Truthy(v.severity) then v.severity.Str? && env.lower(Strip(v.severity.text)) == severity
    else env.lower("") == severity
  }

  predicate Grave(env: Env, v: Vuln) {
    (HasSeverity(env, v, "high") || HasSeverity(env, v, "critical")) && Truthy(v.name)
  }

  predicate SamePair(env: Env, v: Vuln, w: Vuln) {
    Package(env, v) == Package(env, w) && Advisory(env, v) == Advisory(env, w)
  }

  /** The exception is for this package and advisory, fits the severity, and has not expired. */
  predicate Excuses(env: Env, e: Entry, v: Vuln) {
    && Usable(env, e)
    && Strip(e["package"]) == Package(env, v) && env.lower(Strip(e["advisory"])) == Advisory(env, v)
    && (env.lower(Strip(e["severity"])) == "" || HasSeverity(env, v, env.lower(Strip(e["severity"]))))
    && env.today <= env.isoDate(e["expires_on"]).value
  }

  // ---------- The policy ----------

  ghost predicate Policy(env: Env, es: seq<Entry>, vs: seq<Vuln>) {
    && (forall i :: 0 <= i < |es| ==> Usable(env, es[i]))
    && (forall i, j :: 0 <= i < j < |es| ==> !Twins(env, es[i], es[j]))
    && (forall k :: 0 <= k < |vs| && Truthy(vs[k].severity) ==> vs[k].severity.Str?)
    && (forall k :: 0 <= k < |vs| && Grave(env, vs[k]) ==> Advisory(env, vs[k]) != "")
    && (forall k :: 0 <= k < |vs| && Leads(env, vs, k) ==>
          exists i :: 0 <= i < |es| && Excuses(env, es[i], vs[k]))
  }

  /** A grave finding whose package and advisory no grave finding before it has. */
  ghost predicate Leads(env: Env, vs: seq<Vuln>, k: nat)
    requires k < |vs|
  {
    Grave(env, vs[k]) && forall j :: 0 <= j < k && Grave(env, vs[j]) ==> !SamePair(env, vs[j], vs[k])
  }

  lemma UsableExactly(env: Env, e: Entry)
    ensures Usable(env, e) <==> Valid(env, e)
    ensures Valid(env, e) ==>
              && KeyOf(env, e) == (Strip(e["package"]), env.lower(Strip(e["advisory"])))
              && RuleOf(env, e) == Rule(env.lower(Strip(e["severity"])), env.isoDate(e["expires_on"]).value)
  {
    hide Strip;
  }

  lemma FindingExactly(env: Env, v: Vuln)
    ensures VulnKey(env, v) == (Package(env, v), Advisory(env, v))
    ensures forall s :: HasSeverity(env, v, s) <==> SeverityOf(env, v) == Some(s)
    ensures SeverityOf(env, v).Some? <==> (Truthy(v.severity) ==> v.severity.Str?)
    ensures Serious(env, v) <==> Grave(env, v)
    ensures Identified(env, v) <==> Advisory(env, v) != ""
  {
    hide Truthy;
    assert Strip("") == "";
    hide Strip;
  }

  lemma CoveredLiterally(env: Env, es: seq<Entry>, v: Vuln)
    ensures Covered(env, es, v) <==> exists i :: 0 <= i < |es| && Excuses(env, es[i], v)
  {
    hide Usable, Valid, KeyOf, RuleOf, VulnKey, SeverityOf, HasSeverity, Package, Advisory, Strip, Covered;
    forall i | 0 <= i < |es|
      ensures Excuses(env, es[i], v) <==>
              HasKey(env, es[i], VulnKey(env, v)) && Allows(env, RuleOf(env, es[i]), v)
    {
      UsableExactly(env, es[i]);
      FindingExactly(env, v);
    }
    CoveredDef(env, es, v);
  }

  lemma CoveredDef(env: Env, es: seq<Entry>, v: Vuln)
    ensures Covered(env, es, v) <==>
            exists i :: 0 <= i < |es| && HasKey(env, es[i], VulnKey(env, v)) && Allows(env, RuleOf(env, es[i]), v)
  {
    hide HasKey, Allows, RuleOf, VulnKey;
  }

  lemma ListLiterally(env: Env, es: seq<Entry>)
    ensures ListAccepted(env, es) <==>
            && (forall i :: 0 <= i < |es| ==> Usable(env, es[i]))
            && (forall i, j :: 0 <= i < j < |es| ==> !Twins(env, es[i], es[j]))
  {
    hide Usable, Valid, KeyOf, Twins;
    forall i | 0 <= i < |es|
      ensures Usable(env, es[i]) <==> Valid(env, es[i])
    {
      UsableExactly(env, es[i]);
    }
    forall i, j | 0 <= i < j < |es| && Valid(env, es[i]) && Valid(env, es[j])
      ensures Complete(es[i]) && Complete(es[j]) && Usable(env, es[i]) && Usable(env, es[j])
      ensures KeyOf(env, es[i]) == KeyOf(env, es[j]) <==> Twins(env, es[i], es[j])
    {
      TwinsExactly(env, es[i], es[j]);
    }
  }

  lemma TwinsExactly(env: Env, e: Entry, f: Entry)
    requires Valid(env, e) && Valid(env, f)
    ensures Complete(e) && Complete(f) && Usable(env, e) && Usable(env, f)
    ensures KeyOf(env, e) == KeyOf(env, f) <==> Twins(env, e, f)
  {
    UsableExactly(env, e);
    UsableExactly(env, f);
    hide Strip;
  }

  /** The policy of the gate, which works on keys and an index, is the policy on the fields. */
  lemma PolicyExactly(env: Env, es: seq<Entry>, vs: seq<Vuln>)
    ensures Accepts(env, es, vs) <==> Policy(env, es, vs)
  {
    hide Usable, Twins, ListAccepted, Covered, Excuses, SeverityOf, VulnKey, Serious, Identified, Grave, Advisory,
         Package, Truthy;
    ListLiterally(env, es);
    forall k | 0 <= k < |vs|
      ensures VulnKey(env, vs[k]) == (Package(env, vs[k]), Advisory(env, vs[k]))
      ensures SeverityOf(env, vs[k]).Some? <==> (Truthy(vs[k].severity) ==> vs[k].severity.Str?)
      ensures Serious(env, vs[k]) <==> Grave(env, vs[k])
      ensures Identified(env, vs[k]) <==> Advisory(env, vs[k]) != ""
      ensures Covered(env, es, vs[k]) <==> exists i :: 0 <= i < |es| && Excuses(env, es[i], vs[k])
    {
      FindingExactly(env, vs[k]);
      CoveredLiterally(env, es, vs[k]);
    }
  }

  /** One usable exception and one grave finding: the gate accepts exactly if the one excuses the other. */
  lemma OneException(env: Env, e: Entry, v: Vuln)
    requires Usable(env, e) && Grave(env, v) && Advisory(env, v) != ""
    ensures Accepts(env, [e], [v]) <==>
            && Strip(e["package"]) == Package(env, v) && env.lower(Strip(e["advisory"])) == Advisory(env, v)
            && (env.lower(Strip(e["severity"])) == "" || HasSeverity(env, v, env.lower(Strip(e["severity"]))))
            && env.today <= env.isoDate(e["expires_on"]).value
  {
    hide Usable, Strip, Package, Advisory, Truthy;
    PolicyExactly(env, [e], [v]);
    assert [e][0] == e && [v][0] == v;
  }

  /** main(): the exit code, by the policy on the fields of what both inputs hold. */
  method ExitCode(env: Env, text: string, audit: seq<(string, Json)>) returns (code: int)
    ensures var inputs := Inputs(env, text, audit);
            code == if inputs.Some? && Policy(env, inputs.value.0, inputs.value.1) then 0 else 1
  {
    hide Inputs, Policy, Accepts;
    var problems;
    code, problems := Validate(env, text, audit);
    ghost var inputs := Inputs(env, text, audit);
    if inputs.Some? {
      PolicyExactly(env, inputs.value.0, inputs.value.1);
    }
  }
}
