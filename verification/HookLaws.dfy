/**
 Hooks as data: fail before the rest, fail after it, pass through, succeed without calling it, or swallow its error. For
 lists of such hooks it can be read off the lists whether the done builders of a bulk form a suffix.
 */
module HookLaws {
  import opened Prelude
  import opened AccountRows
  import opened Mutators
  import opened MutatorLaws

  datatype HookKind = PassThrough | FailBefore(error: Error) | FailAfter(error: Error) | Silent | Swallow

  function AsHook(k: HookKind): Hook {
    match k
    case PassThrough =>
        Hook(1, (t, outs) => true, (t, outs, m) => m,
             (t, outs: seq<Outcome>) => if outs == [] then Saved(None) else outs[0])
    case FailBefore(e) => Hook(0, (t, outs) => false, (t, outs, m) => m, (t, outs) => Failed(e))
    case FailAfter(e) =>
        Hook(1, (t, outs) => true, (t, outs, m) => m,
             (t, outs: seq<Outcome>) => if outs != [] && outs[0].Failed? then outs[0] else Failed(e))
    case Silent => Hook(0, (t, outs) => false, (t, outs, m) => m, (t, outs) => Saved(None))
    case Swallow =>
        Hook(1, (t, outs) => true, (t, outs, m) => m,
             (t, outs: seq<Outcome>) => if outs != [] && outs[0].Saved? then outs[0] else Saved(None))
  }

  /** The hooks of the bulk are those that the lists name. */
  ghost predicate Follows(c: Bulk, kinds: seq<seq<HookKind>>) {
    && |kinds| == |c.builders|
    && (forall i :: 0 <= i < |kinds| ==> |kinds[i]| == |c.builders[i].hooks|)
    && (forall i, h :: 0 <= i < |kinds| && 0 <= h < |kinds[i]| ==> c.builders[i].hooks[h] == AsHook(kinds[i][h]))
  }

  /** The database accepts every batch insert, or refuses every one. */
  ghost predicate Steady(c: Bulk, accepts: bool) {
    forall t, rows :: c.driver(t, rows).Inserted? == accepts
  }

  // ---------- What the lists say ----------

  /** A hook in the list keeps the rest from being called. */
  predicate Blocks(ks: seq<HookKind>) {
    exists h :: 0 <= h < |ks| && (ks[h].FailBefore? || ks[h].Silent?)
  }

  /** The outermost hook that does not pass through decides the answer. */
  function Decider(ks: seq<HookKind>): HookKind {
    if ks == [] then PassThrough else if ks[0].PassThrough? then Decider(ks[1..]) else ks[0]
  }

  predicate Vouches(ks: seq<HookKind>) {
    Decider(ks).Silent? || Decider(ks).Swallow?
  }

  /** The builder is valid and none of its hooks keeps its core from being reached. */
  predicate Unblocked(c: Bulk, kinds: seq<seq<HookKind>>, i: nat)
    requires i < |kinds| == |c.builders|
  {
    Mistake(c, i).None? && !Blocks(kinds[i])
  }

  /** Whether the mutator of builder `i` answers with success. */
  predicate Answers(c: Bulk, kinds: seq<seq<HookKind>>, i: nat, accepts: bool)
    requires i <= |kinds| == |c.builders|
    decreases |kinds| - i
  {
    if i == |kinds| then accepts
    else if Vouches(kinds[i]) then true
    else Decider(kinds[i]).PassThrough? && Mistake(c, i).None? && Answers(c, kinds, i + 1, accepts)
  }

  /** From `i` on, whoever vouches for a builder that is reached vouches for one that gets done. */
  predicate Trusted(c: Bulk, kinds: seq<seq<HookKind>>, i: nat, accepts: bool)
    requires i <= |kinds| == |c.builders|
    decreases |kinds| - i
  {
    i == |kinds|
    || ((Vouches(kinds[i]) ==> Unblocked(c, kinds, i) && Answers(c, kinds, i + 1, accepts))
        && (Unblocked(c, kinds, i) ==> Trusted(c, kinds, i + 1, accepts)))
  }

  // ---------- The run, in the same terms ----------

  /** The mutator of builder `i` from hook `h` inwards succeeds. */
  predicate Succeeds(c: Bulk, kinds: seq<seq<HookKind>>, i: nat, h: nat, accepts: bool)
    requires i < |kinds| == |c.builders| && h <= |kinds[i]|
    decreases |kinds| - i, |kinds[i]| - h
  {
    if h < |kinds[i]| then
      match kinds[i][h]
      case PassThrough => Succeeds(c, kinds, i, h + 1, accepts)
      case FailBefore(_) => false
      case FailAfter(_) => false
      case _ => true
    else Mistake(c, i).None? && if i + 1 < |kinds| then Succeeds(c, kinds, i + 1, 0, accepts) else accepts
  }

  /** Running it completes the core of builder `j`. */
  predicate Completes(c: Bulk, kinds: seq<seq<HookKind>>, i: nat, h: nat, j: nat, accepts: bool)
    requires i < |kinds| == |c.builders| && h <= |kinds[i]|
    decreases |kinds| - i, |kinds[i]| - h
  {
    if h < |kinds[i]| then
      !kinds[i][h].FailBefore? && !kinds[i][h].Silent? && Completes(c, kinds, i, h + 1, j, accepts)
    else
      && Mistake(c, i).None?
      && if j == i then if i + 1 < |kinds| then Succeeds(c, kinds, i + 1, 0, accepts) else accepts
         else i + 1 < |kinds| && Completes(c, kinds, i + 1, 0, j, accepts)
  }

  lemma InsertedLog(s: State, e: Event)
    ensures SomeInserted(Log(s, e).trace) <==> SomeInserted(s.trace) || (e.Insert? && e.reply.Inserted?)
  {
    var t := Log(s, e).trace;
    assert t[..|s.trace|] == s.trace && t[|s.trace|] == e;
    if SomeInserted(s.trace) {
      ReplyLog(s, e);
    }
    if SomeInserted(t) {
      var k :| 0 <= k < |t| && t[k].Insert? && t[k].reply.Inserted?;
      assert k < |s.trace| ==> t[k] == s.trace[k];
    }
  }

  /**
   From `s` to `s'` exactly the builders from `i` on whose cores were completed became done, and a completed last core
   means an insert.
   */
  ghost predicate Ran(c: Bulk, kinds: seq<seq<HookKind>>, i: nat, h: nat, s: State, s': State, o: Outcome,
          accepts: bool)
    requires i < |kinds| == |c.builders| && h <= |kinds[i]|
  {
    && |s'.done| == |s.done| == |kinds|
    && (o.Saved? <==> Succeeds(c, kinds, i, h, accepts))
    && (forall j :: 0 <= j < |kinds| ==>
        (s'.done[j] <==> s.done[j] || (j >= i && Completes(c, kinds, i, h, j, accepts))))
    && (SomeInserted(s.trace) || Completes(c, kinds, i, h, |kinds| - 1, accepts) ==> SomeInserted(s'.trace))
  }

  lemma CallOnce(c: Bulk, i: nat, h: nat, s: State)
    requires i < |c.builders| && h < |c.builders[i].hooks| && Ready(c, i, s)
    requires var hook := c.builders[i].hooks[h];
             hook.most == 1 && (forall t :: hook.again(t, [])) && forall t, outs, m :: hook.edit(t, outs, m) == m
    ensures var (s', r) := Chain(c, i, h + 1, Log(s, Enter(i, h)));
            var o := c.builders[i].hooks[h].reply(s'.trace, [r]);
            Chain(c, i, h, s) == (Log(s', Leave(i, h, o)), o)
  {
    hide Core;
    var hook := c.builders[i].hooks[h];
    var s1 := Log(s, Enter(i, h));
    assert Edited(c, i, h, [], s1) == s1;
    var (s', r) := Chain(c, i, h + 1, s1);
    assert hook.again(s1.trace, []);
    assert Calls(c, i, h, [r], s') == (s', [r]);
    assert [] + [r] == [r];
  }

  lemma CallNever(c: Bulk, i: nat, h: nat, s: State)
    requires i < |c.builders| && h < |c.builders[i].hooks| && Ready(c, i, s) && c.builders[i].hooks[h].most == 0
    ensures var s1 := Log(s, Enter(i, h));
            var o := c.builders[i].hooks[h].reply(s1.trace, []);
            Chain(c, i, h, s) == (Log(s1, Leave(i, h, o)), o)
  {
    hide Core;
    assert Calls(c, i, h, [], Log(s, Enter(i, h))) == (Log(s, Enter(i, h)), []);
  }

  lemma {:induction false} DataChain(c: Bulk, kinds: seq<seq<HookKind>>, i: nat, h: nat, s: State, accepts: bool)
    requires |kinds| == |c.builders| && Follows(c, kinds) && Steady(c, accepts) && i < |kinds| && h <= |kinds[i]| &&
            Ready(c, i, s) && Untouched(c, i, s)
    ensures var (s', o) := Chain(c, i, h, s); Ran(c, kinds, i, h, s, s', o, accepts)
    decreases |kinds| - i, |kinds[i]| - h, 1
  {
    hide Core, Calls, Chain, Mistake, SomeInserted, Follows, Steady, Flaw;
    FollowsAt(c, kinds, i, h);
    if h < |kinds[i]| {
      var s1 := Log(s, Enter(i, h));
      InsertedLog(s, Enter(i, h));
      if kinds[i][h].FailBefore? || kinds[i][h].Silent? {
        CallNever(c, i, h, s);
        InsertedLog(s1, Leave(i, h, Chain(c, i, h, s).1));
      } else {
        CallOnce(c, i, h, s);
        DataChain(c, kinds, i, h + 1, s1, accepts);
        InsertedLog(Chain(c, i, h + 1, s1).0, Leave(i, h, Chain(c, i, h, s).1));
      }
    } else {
      ChainIsCore(c, i, s);
      DataCore(c, kinds, i, s, accepts);
    }
  }

  lemma FollowsAt(c: Bulk, kinds: seq<seq<HookKind>>, i: nat, h: nat)
    requires |kinds| == |c.builders| && Follows(c, kinds) && i < |kinds| && h <= |kinds[i]|
    ensures |kinds[i]| == |c.builders[i].hooks| && (h < |kinds[i]| ==> c.builders[i].hooks[h] == AsHook(kinds[i][h]))
  {
  }

  lemma {:induction false} DataCore(c: Bulk, kinds: seq<seq<HookKind>>, i: nat, s: State, accepts: bool)
    requires |kinds| == |c.builders| && Follows(c, kinds) && Steady(c, accepts) && i < |kinds| && Ready(c, i, s)
    requires Untouched(c, i, s)
    ensures var (s', o) := Core(c, i, s); Ran(c, kinds, i, |kinds[i]|, s, s', o, accepts)
    decreases |kinds| - i, 0, 0
  {
    hide Chain, Mistake, SomeInserted, Follows, SpecOf, NodeOf, Flaw;
    NoEditYet(c, i, s);
    if Mistake(c, i).None? {
      var s1 := Prepared(c, i, s);
      if i + 1 < |kinds| {
        DataChain(c, kinds, i + 1, 0, s1, accepts);
      } else {
        InsertedLog(s1, Insert(Rows(c, s1), c.driver(s1.trace, Rows(c, s1))));
      }
    }
  }

  // ---------- Reading the run off the lists ----------

  lemma DeciderFrom(ks: seq<HookKind>, h: nat)
    requires h < |ks|
    ensures Decider(ks[h..]) == if ks[h].PassThrough? then Decider(ks[h + 1..]) else ks[h]
  {
    assert ks[h..][1..] == ks[h + 1..];
  }

  lemma {:induction false} SucceedsAnswers(c: Bulk, kinds: seq<seq<HookKind>>, i: nat, h: nat, accepts: bool)
    requires i < |kinds| == |c.builders| && h <= |kinds[i]|
    ensures var d := Decider(kinds[i][h..]);
            Succeeds(c, kinds, i, h, accepts) <==>
            d.Silent? || d.Swallow? || (d.PassThrough? && Mistake(c, i).None? && Answers(c, kinds, i + 1, accepts))
    decreases |kinds| - i, |kinds[i]| - h
  {
    hide Mistake;
    if h < |kinds[i]| {
      DeciderFrom(kinds[i], h);
      if kinds[i][h].PassThrough? {
        SucceedsAnswers(c, kinds, i, h + 1, accepts);
      }
    } else if i + 1 < |kinds| {
      SucceedsAnswers(c, kinds, i + 1, 0, accepts);
      assert kinds[i + 1][0..] == kinds[i + 1];
    }
  }

  ghost predicate AllUnblocked(c: Bulk, kinds: seq<seq<HookKind>>, i: nat, j: int)
    requires |kinds| == |c.builders| && j < |kinds|
  {
    forall m :: i <= m <= j ==> Unblocked(c, kinds, m)
  }

  lemma BlocksFrom(ks: seq<HookKind>, h: nat)
    requires h < |ks|
    ensures Blocks(ks[h..]) <==> ks[h].FailBefore? || ks[h].Silent? || Blocks(ks[h + 1..])
  {
    var a, b := ks[h..], ks[h + 1..];
    assert forall k :: 0 <= k < |b| ==> b[k] == a[k + 1];
    assert a[0] == ks[h];
    if Blocks(b) {
      var k :| 0 <= k < |b| && (b[k].FailBefore? || b[k].Silent?);
      assert a[k + 1] == b[k];
    }
  }

  /** A core is completed exactly if every builder up to it is unblocked and the rest answers with success. */
  lemma {:induction false} CompletesIff(c: Bulk, kinds: seq<seq<HookKind>>, i: nat, h: nat, j: nat, accepts: bool)
    requires i <= j < |kinds| == |c.builders| && h <= |kinds[i]|
    ensures Completes(c, kinds, i, h, j, accepts) <==>
            && Mistake(c, i).None? && !Blocks(kinds[i][h..])
            && AllUnblocked(c, kinds, i + 1, j) && Answers(c, kinds, j + 1, accepts)
    decreases |kinds| - i, |kinds[i]| - h
  {
    hide Mistake, Blocks;
    if h < |kinds[i]| {
      BlocksFrom(kinds[i], h);
      CompletesIff(c, kinds, i, h + 1, j, accepts);
    } else {
      NoBlocks(kinds[i][h..]);
      if i + 1 < |kinds| {
        assert kinds[i + 1][0..] == kinds[i + 1];
        if j == i {
          SucceedsAnswers(c, kinds, i + 1, 0, accepts);
        } else {
          CompletesIff(c, kinds, i + 1, 0, j, accepts);
          assert AllUnblocked(c, kinds, i + 1, j) <==> Unblocked(c, kinds, i + 1) && AllUnblocked(c, kinds, i + 2, j);
        }
      }
    }
  }

  lemma NoBlocks(ks: seq<HookKind>)
    requires ks == []
    ensures !Blocks(ks)
  {
  }

  ghost predicate Done(c: Bulk, kinds: seq<seq<HookKind>>, j: nat, accepts: bool)
    requires j < |kinds| == |c.builders|
  {
    AllUnblocked(c, kinds, 0, j) && Answers(c, kinds, j + 1, accepts)
  }

  lemma {:induction false} PlainList(ks: seq<HookKind>)
    requires Decider(ks).PassThrough?
    ensures !Blocks(ks)
  {
    if ks != [] {
      PlainList(ks[1..]);
      BlocksFrom(ks, 0);
      assert ks[0..] == ks;
    }
  }

  /** A builder that is reached breaks the suffix exactly if its hooks vouch for what is not done. */
  lemma StepKept(c: Bulk, kinds: seq<seq<HookKind>>, j: nat, accepts: bool)
    requires 0 < j < |kinds| == |c.builders| && AllUnblocked(c, kinds, 0, j - 1)
    ensures (Done(c, kinds, j - 1, accepts) ==> Done(c, kinds, j, accepts)) <==>
            (Vouches(kinds[j]) ==> Unblocked(c, kinds, j) && Answers(c, kinds, j + 1, accepts))
  {
    hide Mistake, Blocks;
    assert AllUnblocked(c, kinds, 0, j) <==> Unblocked(c, kinds, j);
    if Decider(kinds[j]).PassThrough? {
      PlainList(kinds[j]);
    }
  }

  lemma {:induction false} TrustedIff(c: Bulk, kinds: seq<seq<HookKind>>, j: nat, accepts: bool)
    requires 0 < j <= |kinds| == |c.builders| && AllUnblocked(c, kinds, 0, j - 1)
    ensures Trusted(c, kinds, j, accepts) <==>
            forall m :: j <= m < |kinds| ==> (Done(c, kinds, m - 1, accepts) ==> Done(c, kinds, m, accepts))
    decreases |kinds| - j
  {
    hide Mistake, Blocks, Answers, Vouches, Unblocked;
    if j < |kinds| {
      StepKept(c, kinds, j, accepts);
      if Unblocked(c, kinds, j) {
        assert AllUnblocked(c, kinds, 0, j);
        TrustedIff(c, kinds, j + 1, accepts);
      } else {
        forall m | j <= m < |kinds|
          ensures !Done(c, kinds, m, accepts)
        {
          assert !AllUnblocked(c, kinds, 0, m);
        }
      }
    }
  }

  lemma {:induction false} DoneUp(c: Bulk, kinds: seq<seq<HookKind>>, j: nat, k: nat, accepts: bool)
    requires j <= k < |kinds| == |c.builders| && Done(c, kinds, j, accepts)
    requires forall m :: 1 <= m < |kinds| ==> (Done(c, kinds, m - 1, accepts) ==> Done(c, kinds, m, accepts))
    ensures Done(c, kinds, k, accepts)
  {
    hide Done;
    if j < k {
      DoneUp(c, kinds, j, k - 1, accepts);
    }
  }

  /** What can be read off the lists before the run: the first builder is not reached, or the others can be trusted. */
  predicate SuffixKept(c: Bulk, kinds: seq<seq<HookKind>>, accepts: bool)
    requires |kinds| == |c.builders|
  {
    kinds == [] || !Unblocked(c, kinds, 0) || Trusted(c, kinds, 1, accepts)
  }

  lemma DoneAfter(c: Bulk, kinds: seq<seq<HookKind>>, accepts: bool)
    requires |kinds| == |c.builders| && Follows(c, kinds) && Steady(c, accepts) && kinds != []
    ensures var s := Run(c).0;
            && |s.done| == |kinds|
            && (forall j :: 0 <= j < |kinds| ==> (s.done[j] <==> Done(c, kinds, j, accepts)))
            && (s.done[|kinds| - 1] ==> SomeInserted(s.trace))
  {
    hide Chain, Completes, Mistake, Blocks, Answers, SomeInserted, Follows, Steady;
    var s0 := Start(c);
    DataChain(c, kinds, 0, 0, s0, accepts);
    assert kinds[0][0..] == kinds[0];
    forall j | 0 <= j < |kinds|
      ensures Completes(c, kinds, 0, 0, j, accepts) <==> Done(c, kinds, j, accepts)
    {
      CompletesIff(c, kinds, 0, 0, j, accepts);
      assert AllUnblocked(c, kinds, 0, j) <==> Unblocked(c, kinds, 0) && AllUnblocked(c, kinds, 1, j);
    }
  }

  /**
   The done builders of a run form a suffix, with an insert behind them, exactly if the lists say so: among the builders
   that are reached, from the second on, no outermost non-pass-through hook reports success for a builder that another
   hook or check() blocks, or whose rest fails.
   */
  lemma SuffixExactly(c: Bulk, kinds: seq<seq<HookKind>>, accepts: bool)
    requires |kinds| == |c.builders| && Follows(c, kinds) && Steady(c, accepts)
    ensures Suffix(Run(c).0) <==> SuffixKept(c, kinds, accepts)
  {
    hide Chain, Trusted, Unblocked, Answers, Follows, Steady, SomeInserted;
    if kinds != [] {
      DoneAfter(c, kinds, accepts);
      var s := Run(c).0;
      if Unblocked(c, kinds, 0) {
        assert AllUnblocked(c, kinds, 0, 0);
        TrustedIff(c, kinds, 1, accepts);
        if Trusted(c, kinds, 1, accepts) {
          forall j, k | 0 <= j <= k < |s.done| && s.done[j]
            ensures s.done[k]
          {
            DoneUp(c, kinds, j, k, accepts);
          }
        }
        if Suffix(s) {
          forall m | 1 <= m < |kinds| && Done(c, kinds, m - 1, accepts)
            ensures Done(c, kinds, m, accepts)
          {
            assert s.done[m - 1];
          }
        }
      } else {
        forall j | 0 <= j < |kinds|
          ensures !Done(c, kinds, j, accepts)
        {
          assert !AllUnblocked(c, kinds, 0, j);
        }
      }
    }
  }
}
