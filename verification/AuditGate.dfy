/**
 The audit gate: exceptions are validated and indexed, then every serious vulnerability is looked up at its first
 occurrence. The exit code is compared with a policy that knows neither index nor loop.
 */
module AuditGate {
  import opened Prelude
  import opened AuditParser
  import opened AuditReport

  /** str.lower, str() of other values, date.fromisoformat, and today as a day number. */
  datatype Env = Env(lower: string -> string, repr: Repr, isoDate: string -> Option<int>, today: int)

  type Key = (string, string)

  // ---------- Exceptions ----------

  const PACKAGE := "package"
  const ADVISORY := "advisory"
  const SEVERITY := "severity"
  const MITIGATION := "mitigation"
  const EXPIRES_ON := "expires_on"

  predicate Given(e: Entry, field: string) {
    field in e && e[field] != ""
  }

  predicate Complete(e: Entry) {
    Given(e, PACKAGE) && Given(e, ADVISORY) && Given(e, SEVERITY) && Given(e, MITIGATION) && Given(e, EXPIRES_ON)
  }

  function KeyOf(env: Env, e: Entry): Key
    requires Complete(e)
  {
    (Strip(e[PACKAGE]), env.lower(Strip(e[ADVISORY])))
  }

  function ExpiryOf(env: Env, e: Entry): Option<int>
    requires Complete(e)
  {
    env.isoDate(e[EXPIRES_ON])
  }

  /** Complete, with a valid date, and neither package nor advisory blank after normalisation. */
  predicate Valid(env: Env, e: Entry) {
    Complete(e) && ExpiryOf(env, e).Some? && KeyOf(env, e).0 != "" && KeyOf(env, e).1 != ""
  }

  /** What the index keeps of an exception. */
  datatype Rule = Rule(severity: string, expiresOn: int)

  function RuleOf(env: Env, e: Entry): Rule
    requires Valid(env, e)
  {
    Rule(env.lower(Strip(e[SEVERITY])), ExpiryOf(env, e).value)
  }

  predicate HasKey(env: Env, e: Entry, key: Key) {
    Valid(env, e) && KeyOf(env, e) == key
  }

  // ---------- Vulnerabilities ----------

  /** None where the severity is neither empty nor a string. */
  function SeverityOf(env: Env, v: Vuln): Option<string> {
    if !Truthy(v.severity) then Some(env.lower(Strip("")))
    else if v.severity.Str? then Some(env.lower(Strip(v.severity.text)))
    else None
  }

  function VulnKey(env: Env, v: Vuln): Key {
    (if v.name == Null then "" else Strip(PyStr(env.repr, v.name)),
     if v.advisory == Null then "" else env.lower(Strip(PyStr(env.repr, v.advisory))))
  }

  const HIGH := "high"
  const CRITICAL := "critical"

  /** High or critical, and named. */
  predicate Serious(env: Env, v: Vuln) {
    (SeverityOf(env, v) == Some(HIGH) || SeverityOf(env, v) == Some(CRITICAL)) && Truthy(v.name)
  }

  predicate Identified(env: Env, v: Vuln) {
    VulnKey(env, v).1 != ""
  }

  predicate Tracked(env: Env, v: Vuln) {
    Serious(env, v) && Identified(env, v)
  }

  predicate Allows(env: Env, r: Rule, v: Vuln) {
    (r.severity == "" || SeverityOf(env, v) == Some(r.severity)) && r.expiresOn >= env.today
  }

  // ---------- The policy ----------

  /** Some exception has the vulnerability's key, fits its severity and has not expired. */
  ghost predicate Covered(env: Env, es: seq<Entry>, v: Vuln) {
    exists i :: 0 <= i < |es| && HasKey(env, es[i], VulnKey(env, v)) && Allows(env, RuleOf(env, es[i]), v)
  }

  ghost predicate DistinctKeys(env: Env, es: seq<Entry>) {
    forall i, j :: 0 <= i < j < |es| && Valid(env, es[i]) && Valid(env, es[j]) ==>
        KeyOf(env, es[i]) != KeyOf(env, es[j])
  }

  ghost predicate ListAccepted(env: Env, es: seq<Entry>) {
    (forall i :: 0 <= i < |es| ==> Valid(env, es[i])) && DistinctKeys(env, es)
  }

  predicate First(env: Env, vs: seq<Vuln>, k: nat)
    requires k < |vs|
  {
    Tracked(env, vs[k]) && forall j :: 0 <= j < k && Tracked(env, vs[j]) ==> VulnKey(env, vs[j]) != VulnKey(env, vs[k])
  }

  ghost predicate Accepts(env: Env, es: seq<Entry>, vs: seq<Vuln>) {
    && ListAccepted(env, es)
    && (forall k :: 0 <= k < |vs| ==> SeverityOf(env, vs[k]).Some? && (Serious(env, vs[k]) ==> Identified(env, vs[k])))
    && (forall k :: 0 <= k < |vs| && First(env, vs, k) ==> Covered(env, es, vs[k]))
  }

  // ---------- What the loops report ----------

  datatype Problem =
    | MissingFields(entry: nat) | InvalidDate(entry: nat) | BlankKey(entry: nat) | Duplicate(entry: nat)
    | NoAdvisoryId(vuln: nat) | NoException(vuln: nat) | WrongSeverity(vuln: nat) | Expired(vuln: nat)

  /** The first exception among the first `n` that has the key, or -1: what the index holds. */
  function Owner(env: Env, es: seq<Entry>, n: nat, key: Key): (i: int)
    requires n <= |es|
    ensures -1 <= i < n
    ensures i >= 0 ==> HasKey(env, es[i], key)
  {
    if n == 0 then -1
    else
      var i := Owner(env, es, n - 1, key);
      if i >= 0 then i else if HasKey(env, es[n - 1], key) then n - 1 else -1
  }

  lemma {:induction false} OwnerFirst(env: Env, es: seq<Entry>, n: nat, key: Key)
    requires n <= |es|
    ensures Owner(env, es, n, key) < 0 <==> forall j :: 0 <= j < n ==> !HasKey(env, es[j], key)
  {
    if n > 0 {
      OwnerFirst(env, es, n - 1, key);
    }
  }

  predicate EntryProblem(env: Env, es: seq<Entry>, n: nat, p: Problem)
    requires n <= |es|
  {
    match p
    case MissingFields(i) => i < n && !Complete(es[i])
    case InvalidDate(i) => i < n && Complete(es[i]) && ExpiryOf(env, es[i]).None?
    case BlankKey(i) => i < n && Complete(es[i]) && ExpiryOf(env, es[i]).Some? && !Valid(env, es[i])
    case Duplicate(i) => i < n && Valid(env, es[i]) && Owner(env, es, i, KeyOf(env, es[i])) >= 0
    case _ => false
  }

  predicate VulnProblem(env: Env, es: seq<Entry>, vs: seq<Vuln>, n: nat, p: Problem)
    requires n <= |vs|
  {
    match p
    case NoAdvisoryId(k) => k < n && Serious(env, vs[k]) && !Identified(env, vs[k])
    case NoException(k) => k < n && First(env, vs, k) && Owner(env, es, |es|, VulnKey(env, vs[k])) < 0
    case WrongSeverity(k) =>
      && k < n && First(env, vs, k) && Owner(env, es, |es|, VulnKey(env, vs[k])) >= 0
      && var r := RuleOf(env, es[Owner(env, es, |es|, VulnKey(env, vs[k]))]);
         r.severity != "" && SeverityOf(env, vs[k]) != Some(r.severity)
    case Expired(k) =>
      && k < n && First(env, vs, k) && Owner(env, es, |es|, VulnKey(env, vs[k])) >= 0
      && RuleOf(env, es[Owner(env, es, |es|, VulnKey(env, vs[k]))]).expiresOn < env.today
    case _ => false
  }

  /** The index over the first `n` exceptions: each key leads to the rule of its first exception. */
  ghost predicate Indexes(env: Env, es: seq<Entry>, n: nat, index: map<Key, Rule>)
    requires n <= |es|
  {
    && (forall key :: key in index <==> Owner(env, es, n, key) >= 0)
    && (forall key :: key in index ==> index[key] == RuleOf(env, es[Owner(env, es, n, key)]))
  }

  method IndexExceptions(env: Env, es: seq<Entry>) returns (index: map<Key, Rule>, errors: seq<Problem>)
    ensures Indexes(env, es, |es|, index)
    ensures forall p :: p in errors <==> EntryProblem(env, es, |es|, p)
  {
    hide Complete, KeyOf, ExpiryOf, Valid, RuleOf;
    index, errors := map[], [];
    for i := 0 to |es|
      invariant Indexes(env, es, i, index)
      invariant forall p :: p in errors <==> EntryProblem(env, es, i, p)
    {
      var e := es[i];
      EntryStep(env, es, i);
      if !Complete(e) {
        errors := errors + [MissingFields(i)];
        continue;
      }
      var severity := env.lower(Strip(e[SEVERITY]));
      var key := KeyOf(env, e);
      var expiry := ExpiryOf(env, e);
      if expiry.None? {
        errors := errors + [InvalidDate(i)];
        continue;
      }
      if key.0 == "" || key.1 == "" {
        errors := errors + [BlankKey(i)];
        continue;
      }
      if key in index {
        errors := errors + [Duplicate(i)];
        continue;
      }
      index := index[key := Rule(severity, expiry.value)];
    }
  }

  /** The problem that exception `i` is, if it is one. */
  predicate NewEntryProblem(env: Env, es: seq<Entry>, i: nat, p: Problem)
    requires i < |es|
  {
    match p
    case MissingFields(j) => j == i && !Complete(es[i])
    case InvalidDate(j) => j == i && Complete(es[i]) && ExpiryOf(env, es[i]).None?
    case BlankKey(j) => j == i && Complete(es[i]) && ExpiryOf(env, es[i]).Some? && !Valid(env, es[i])
    case Duplicate(j) => j == i && Valid(env, es[i]) && Owner(env, es, i, KeyOf(env, es[i])) >= 0
    case _ => false
  }

  lemma EntryStep(env: Env, es: seq<Entry>, i: nat)
    requires i < |es|
    ensures forall p :: EntryProblem(env, es, i + 1, p) <==>
            EntryProblem(env, es, i, p) || NewEntryProblem(env, es, i, p)
    ensures Valid(env, es[i]) ==>
            Complete(es[i]) && ExpiryOf(env, es[i]).Some? && KeyOf(env, es[i]).0 != "" && KeyOf(env, es[i]).1 != ""
    ensures Complete(es[i]) && ExpiryOf(env, es[i]).Some? && KeyOf(env, es[i]).0 != "" && KeyOf(env, es[i]).1 != "" ==>
            Valid(env, es[i])
    ensures Complete(es[i]) ==> SEVERITY in es[i]
    ensures Valid(env, es[i]) ==>
            RuleOf(env, es[i]) == Rule(env.lower(Strip(es[i][SEVERITY])), ExpiryOf(env, es[i]).value)
  {
    forall p
      ensures EntryProblem(env, es, i + 1, p) <==> EntryProblem(env, es, i, p) || NewEntryProblem(env, es, i, p)
    {
      hide Complete, KeyOf, ExpiryOf, Valid, Owner;
    }
  }

  predicate NewVulnProblem(env: Env, es: seq<Entry>, vs: seq<Vuln>, k: nat, p: Problem)
    requires k < |vs|
  {
    match p
    case NoAdvisoryId(j) => j == k && Serious(env, vs[k]) && !Identified(env, vs[k])
    case NoException(j) => j == k && VulnProblem(env, es, vs, k + 1, p)
    case WrongSeverity(j) => j == k && VulnProblem(env, es, vs, k + 1, p)
    case Expired(j) => j == k && VulnProblem(env, es, vs, k + 1, p)
    case _ => false
  }

  lemma VulnStep(env: Env, es: seq<Entry>, vs: seq<Vuln>, k: nat)
    requires k < |vs|
    ensures forall p :: VulnProblem(env, es, vs, k + 1, p) <==>
            VulnProblem(env, es, vs, k, p) || NewVulnProblem(env, es, vs, k, p)
  {
    forall p
      ensures VulnProblem(env, es, vs, k + 1, p) <==>
              VulnProblem(env, es, vs, k, p) || NewVulnProblem(env, es, vs, k, p)
    {
      hide First, Serious, Identified, Owner, RuleOf, VulnKey, SeverityOf;
    }
  }

  ghost predicate Seen(env: Env, vs: seq<Vuln>, k: nat, seen: set<Key>)
    requires k <= |vs|
  {
    && (forall j :: 0 <= j < k && Tracked(env, vs[j]) ==> VulnKey(env, vs[j]) in seen)
    && (forall key :: key in seen ==> exists j :: 0 <= j < k && Tracked(env, vs[j]) && VulnKey(env, vs[j]) == key)
  }

  lemma FirstUnseen(env: Env, vs: seq<Vuln>, k: nat, seen: set<Key>)
    requires k < |vs| && Seen(env, vs, k, seen)
    ensures First(env, vs, k) <==> Tracked(env, vs[k]) && VulnKey(env, vs[k]) !in seen
    ensures Seen(env, vs, k + 1, if Tracked(env, vs[k]) then seen + {VulnKey(env, vs[k])} else seen)
  {
    hide Tracked, VulnKey;
  }

  method CheckVulns(env: Env, ghost es: seq<Entry>, index: map<Key, Rule>, vs: seq<Vuln>)
      returns (raised: bool, errors: seq<Problem>, missing: seq<Problem>, expired: seq<Problem>)
    requires Indexes(env, es, |es|, index)
    ensures raised <==> exists k :: 0 <= k < |vs| && SeverityOf(env, vs[k]).None?
    ensures !raised ==> forall p :: p in errors || p in missing || p in expired <==> VulnProblem(env, es, vs, |vs|, p)
  {
    hide SeverityOf, VulnKey, RuleOf, Truthy, Owner, First, Indexes, Seen, VulnProblem;
    errors, missing, expired := [], [], [];
    var seen := {};
    ghost var found: set<Problem> := {};
    assert Seen(env, vs, 0, seen) by { NothingSeen(env, vs); }
    assert forall p :: !VulnProblem(env, es, vs, 0, p) by { NoProblemYet(env, es, vs); }
    for k := 0 to |vs|
      invariant forall j :: 0 <= j < k ==> SeverityOf(env, vs[j]).Some?
      invariant Seen(env, vs, k, seen)
      invariant forall p :: p in found <==> VulnProblem(env, es, vs, k, p)
      invariant forall p :: p in found <==> p in errors || p in missing || p in expired
    {
      var v := vs[k];
      var severity := SeverityOf(env, v);
      if severity.None? {
        return true, errors, missing, expired;
      }
      VulnStep(env, es, vs, k);
      FirstUnseen(env, vs, k, seen);
      var key := VulnKey(env, v);
      Lookup(env, es, vs, k, index);
      if (severity != Some(HIGH) && severity != Some(CRITICAL)) || !Truthy(v.name) {
        continue;
      }
      if key.1 == "" {
        errors, found := errors + [NoAdvisoryId(k)], found + {NoAdvisoryId(k)};
        continue;
      }
      if key in seen {
        assert seen + {key} == seen;
        continue;
      }
      seen := seen + {key};
      if key !in index {
        missing, found := missing + [NoException(k)], found + {NoException(k)};
        continue;
      }
      var rule := index[key];
      if rule.severity != "" && Some(rule.severity) != severity {
        errors, found := errors + [WrongSeverity(k)], found + {WrongSeverity(k)};
      }
      if rule.expiresOn < env.today {
        expired, found := expired + [Expired(k)], found + {Expired(k)};
      }
    }
    raised := false;
  }

  lemma NothingSeen(env: Env, vs: seq<Vuln>)
    ensures Seen(env, vs, 0, {})
  {
  }

  lemma NoProblemYet(env: Env, es: seq<Entry>, vs: seq<Vuln>)
    ensures forall p :: !VulnProblem(env, es, vs, 0, p)
  {
    hide First, SeverityOf, VulnKey, RuleOf, Owner, Serious, Identified;
  }

  /** What the problems of vulnerability `k` are, read off the index. */
  lemma Lookup(env: Env, es: seq<Entry>, vs: seq<Vuln>, k: nat, index: map<Key, Rule>)
    requires k < |vs| && Indexes(env, es, |es|, index)
    ensures var key := VulnKey(env, vs[k]);
            && (VulnProblem(env, es, vs, k + 1, NoException(k)) <==> First(env, vs, k) && key !in index)
            && (VulnProblem(env, es, vs, k + 1, WrongSeverity(k)) <==>
                 First(env, vs, k) && key in index && index[key].severity != "" &&
                     SeverityOf(env, vs[k]) != Some(index[key].severity))
            && (VulnProblem(env, es, vs, k + 1, Expired(k)) <==>
                First(env, vs, k) && key in index && index[key].expiresOn < env.today)
  {
    hide First, SeverityOf, VulnKey, RuleOf, Owner;
  }

  // ---------- The exit code ----------

  /** The inputs the gate works on, or None where reading them raises. */
  function Inputs(env: Env, text: string, audit: seq<(string, Json)>): Option<(seq<Entry>, seq<Vuln>)> {
    var es, vs := Parsed(Lines(text)), IterVulns(env.repr, audit);
    if es.None? || vs.None? then None else Some((es.value, vs.value))
  }

  /**
   The code is 0 exactly if both inputs are readable and the policy accepts them; the problems reported are those there
   are.
   */
  method Validate(env: Env, text: string, audit: seq<(string, Json)>) returns (code: int, problems: seq<Problem>)
    ensures code == 0 || code == 1
    ensures var inputs := Inputs(env, text, audit);
            code == 0 <==> inputs.Some? && Accepts(env, inputs.value.0, inputs.value.1)
    ensures var inputs := Inputs(env, text, audit);
            inputs.Some? && (forall k :: 0 <= k < |inputs.value.1| ==> SeverityOf(env, inputs.value.1[k]).Some?) ==>
              var (es, vs) := inputs.value;
              forall p :: p in problems <==> EntryProblem(env, es, |es|, p) || VulnProblem(env, es, vs, |vs|, p)
  {
    hide Parsed, Lines, IterVulns, Accepts, EntryProblem, VulnProblem, Indexes, SeverityOf;
    problems := [];
    var parsed := ParseExceptions(Lines(text));
    if parsed.None? {
      return 1, [];
    }
    var es := parsed.value;
    var index, errors := IndexExceptions(env, es);
    var yielded := CollectVulns(env.repr, audit);
    if yielded.None? {
      return 1, [];
    }
    var vs := yielded.value;
    var raised, wrong, missing, expired := CheckVulns(env, es, index, vs);
    AcceptsExactly(env, es, vs);
    if raised {
      return 1, [];
    }
    problems := errors + wrong + missing + expired;
    assert problems == errors + (wrong + missing + expired);
    if problems != [] {
      assert problems[0] in problems;
    }
    code := if problems != [] then 1 else 0;
  }

  /** No problem in either loop, and nothing that raises, is what the policy says. */
  lemma AcceptsExactly(env: Env, es: seq<Entry>, vs: seq<Vuln>)
    ensures Accepts(env, es, vs) <==>
            && (forall k :: 0 <= k < |vs| ==> SeverityOf(env, vs[k]).Some?)
            && (forall p :: !EntryProblem(env, es, |es|, p) && !VulnProblem(env, es, vs, |vs|, p))
  {
    hide SeverityOf, EntryProblem, VulnProblem, ListAccepted, First, Covered, Serious, Identified;
    ListExactly(env, es);
    VulnsIdentified(env, es, vs);
    if ListAccepted(env, es) {
      forall k | 0 <= k < |vs| && First(env, vs, k)
        ensures Covered(env, es, vs[k]) <==>
                !VulnProblem(env, es, vs, |vs|, NoException(k)) && !VulnProblem(env, es, vs, |vs|, WrongSeverity(k))
                && !VulnProblem(env, es, vs, |vs|, Expired(k))
      {
        CoveredExactly(env, es, vs, k);
      }
      OnlyFirst(env, es, vs);
    }
  }

  lemma OnlyFirst(env: Env, es: seq<Entry>, vs: seq<Vuln>)
    ensures forall p :: VulnProblem(env, es, vs, |vs|, p) ==>
              match p
              case NoAdvisoryId(k) => k < |vs| && Serious(env, vs[k]) && !Identified(env, vs[k])
              case NoException(k) => k < |vs| && First(env, vs, k)
              case WrongSeverity(k) => k < |vs| && First(env, vs, k)
              case Expired(k) => k < |vs| && First(env, vs, k)
              case _ => false
  {
    hide SeverityOf, First, Serious, Identified, Owner, VulnKey;
  }

  lemma VulnsIdentified(env: Env, es: seq<Entry>, vs: seq<Vuln>)
    ensures forall k :: 0 <= k < |vs| ==>
              (VulnProblem(env, es, vs, |vs|, NoAdvisoryId(k)) <==> Serious(env, vs[k]) && !Identified(env, vs[k]))
  {
  }

  lemma ListExactly(env: Env, es: seq<Entry>)
    ensures ListAccepted(env, es) <==> forall p :: !EntryProblem(env, es, |es|, p)
  {
    hide Complete, KeyOf, ExpiryOf, Valid;
    if forall p :: !EntryProblem(env, es, |es|, p) {
      forall i | 0 <= i < |es|
        ensures Valid(env, es[i])
      {
        assert !EntryProblem(env, es, |es|, MissingFields(i)) && !EntryProblem(env, es, |es|, InvalidDate(i))
               && !EntryProblem(env, es, |es|, BlankKey(i));
      }
      forall i, j | 0 <= i < j < |es| && Valid(env, es[i]) && Valid(env, es[j])
        ensures Complete(es[i]) && Complete(es[j]) && KeyOf(env, es[i]) != KeyOf(env, es[j])
      {
        ValidParts(env, es[i]);
        ValidParts(env, es[j]);
        assert !EntryProblem(env, es, |es|, Duplicate(j));
        OwnerFirst(env, es, j, KeyOf(env, es[j]));
        assert !HasKey(env, es[i], KeyOf(env, es[j]));
      }
    }
    if ListAccepted(env, es) {
      forall p
        ensures !EntryProblem(env, es, |es|, p)
      {
        match p
        case MissingFields(i) => if i < |es| { ValidParts(env, es[i]); }
        case InvalidDate(i) => if i < |es| { ValidParts(env, es[i]); }
        case Duplicate(i) => if i < |es| { ValidParts(env, es[i]); OwnerFirst(env, es, i, KeyOf(env, es[i])); }
        case _ =>
      }
    }
  }

  lemma ValidParts(env: Env, e: Entry)
    ensures Valid(env, e) ==> Complete(e) && ExpiryOf(env, e).Some?
  {
  }

  /** When keys are distinct, covering a vulnerability is passing the three tests against the one exception it has. */
  lemma CoveredExactly(env: Env, es: seq<Entry>, vs: seq<Vuln>, k: nat)
    requires k < |vs| && First(env, vs, k) && ListAccepted(env, es)
    ensures Covered(env, es, vs[k]) <==>
            !VulnProblem(env, es, vs, |vs|, NoException(k)) && !VulnProblem(env, es, vs, |vs|, WrongSeverity(k))
            && !VulnProblem(env, es, vs, |vs|, Expired(k))
  {
    hide SeverityOf, VulnKey, RuleOf, First, Valid, KeyOf;
    var key := VulnKey(env, vs[k]);
    var owner := Owner(env, es, |es|, key);
    OwnerFirst(env, es, |es|, key);
    forall i | 0 <= i < |es| && HasKey(env, es[i], key)
      ensures i == owner
    {
    }
  }
}
