/** When the key-item check passes, read off the quest as one sequence of grants and receipts. */
module BalanceExactly {
  import opened SeqSets
  import opened QuestLog
  import opened KeyItemBalance

  datatype Op = Grant(g: KeyItem) | Receive(g: KeyItem)

  function Grants(gs: seq<KeyItem>): (ops: seq<Op>)
    ensures |ops| == |gs| && forall j :: 0 <= j < |gs| ==> ops[j] == Grant(gs[j])
  {
    seq(|gs|, j requires 0 <= j < |gs| => Grant(gs[j]))
  }

  function Receipts(rs: seq<KeyItem>): (ops: seq<Op>)
    ensures |ops| == |rs| && forall j :: 0 <= j < |rs| ==> ops[j] == Receive(rs[j])
  {
    seq(|rs|, j requires 0 <= j < |rs| => Receive(rs[j]))
  }

  /** The first i steps, one item after the other. */
  function Ops(steps: seq<Step>, i: nat): seq<Op>
    requires i <= |steps|
    decreases i
  {
    if i == 0 then []
    else if steps[i - 1].TalkTo? then Ops(steps, i - 1) + Grants(steps[i - 1].grants) + Receipts(steps[i - 1].receives)
    else Ops(steps, i - 1)
  }

  /** Granted, and not received since. */
  ghost predicate Out(ops: seq<Op>, g: KeyItem) {
    exists u :: 0 <= u < |ops| && ops[u] == Grant(g) && forall v :: u < v < |ops| ==> ops[v] != Receive(g)
  }

  /** Every item is loaded; none is granted while it is out; and none is received that is neither
      out nor to be had somewhere. */
  ghost predicate FineOp(w: World, before: seq<Op>, op: Op, somewhere: set<KeyItem>) {
    op.g in w.boosts && if op.Grant? then !Out(before, op.g) else Out(before, op.g) || op.g in somewhere
  }

  ghost predicate AllFine(w: World, ops: seq<Op>, somewhere: set<KeyItem>) {
    forall t :: 0 <= t < |ops| ==> FineOp(w, ops[..t], ops[t], somewhere)
  }

  lemma OutAfterGrants(ops: seq<Op>, gs: seq<KeyItem>, g: KeyItem)
    ensures Out(ops + Grants(gs), g) <==> Out(ops, g) || g in gs
  {
    var all := ops + Grants(gs);
    if g in gs {
      var j :| 0 <= j < |gs| && gs[j] == g;
      assert all[|ops| + j] == Grant(g);
    }
    if Out(ops, g) {
      var u :| 0 <= u < |ops| && ops[u] == Grant(g) && forall v :: u < v < |ops| ==> ops[v] != Receive(g);
      assert all[u] == Grant(g);
    }
    if Out(all, g) && g !in gs {
      var u :| 0 <= u < |all| && all[u] == Grant(g) && forall v :: u < v < |all| ==> all[v] != Receive(g);
      assert u < |ops| && forall v :: u < v < |ops| ==> ops[v] == all[v];
    }
  }

  lemma OutAfterReceipts(ops: seq<Op>, rs: seq<KeyItem>, g: KeyItem)
    ensures Out(ops + Receipts(rs), g) <==> Out(ops, g) && g !in rs
  {
    var all := ops + Receipts(rs);
    if Out(all, g) {
      var u :| 0 <= u < |all| && all[u] == Grant(g) && forall v :: u < v < |all| ==> all[v] != Receive(g);
      assert u < |ops| && ops[u] == Grant(g) && forall v :: u < v < |ops| ==> ops[v] == all[v];
      forall j | 0 <= j < |rs| ensures rs[j] != g {
        assert all[|ops| + j] == Receive(rs[j]);
      }
    }
    if Out(ops, g) && g !in rs {
      var u :| 0 <= u < |ops| && ops[u] == Grant(g) && forall v :: u < v < |ops| ==> ops[v] != Receive(g);
      assert all[u] == Grant(g);
    }
  }

  /** The list of the check holds the loaded items that are out. */
  ghost predicate Lists(w: World, listed: seq<KeyItem>, ops: seq<Op>) {
    NoDup(listed) && forall g :: g in listed <==> g in w.boosts && Out(ops, g)
  }

  lemma GrantsListed(w: World, listed: seq<KeyItem>, ops: seq<Op>, gs: seq<KeyItem>)
    requires Lists(w, listed, ops)
    ensures Lists(w, GrantAll(w, listed, gs), ops + Grants(gs))
  {
    GrantAllElems(w, listed, gs);
    forall g ensures g in GrantAll(w, listed, gs) <==> g in w.boosts && Out(ops + Grants(gs), g) {
      OutAfterGrants(ops, gs, g);
      assert g in Elems(GrantAll(w, listed, gs)) <==> g in GrantAll(w, listed, gs);
      assert g in Elems(listed) <==> g in listed;
    }
  }

  lemma ReceiptsListed(w: World, listed: seq<KeyItem>, ops: seq<Op>, rs: seq<KeyItem>)
    requires Lists(w, listed, ops)
    ensures Lists(w, ReceiveAll(w, listed, rs), ops + Receipts(rs))
  {
    ReceiveAllElems(w, listed, rs);
    forall g ensures g in ReceiveAll(w, listed, rs) <==> g in w.boosts && Out(ops + Receipts(rs), g) {
      OutAfterReceipts(ops, rs, g);
      assert g in Elems(ReceiveAll(w, listed, rs)) <==> g in ReceiveAll(w, listed, rs);
      assert g in Elems(listed) <==> g in listed;
    }
  }

  lemma {:induction false} OutstandingListed(w: World, steps: seq<Step>, i: nat)
    requires i <= |steps|
    ensures Lists(w, Outstanding(w, steps, i), Ops(steps, i))
    decreases i
  {
    if i > 0 {
      OutstandingListed(w, steps, i - 1);
      if steps[i - 1].TalkTo? {
        var listed, ops := Outstanding(w, steps, i - 1), Ops(steps, i - 1);
        GrantsListed(w, listed, ops, steps[i - 1].grants);
        ReceiptsListed(w, GrantAll(w, listed, steps[i - 1].grants), ops + Grants(steps[i - 1].grants), steps[i - 1].receives);
      }
    }
  }

  ghost predicate FineAfter(w: World, ops: seq<Op>, more: seq<Op>, somewhere: set<KeyItem>) {
    forall j :: 0 <= j < |more| ==> FineOp(w, ops + more[..j], more[j], somewhere)
  }

  lemma FineConcat(w: World, ops: seq<Op>, more: seq<Op>, somewhere: set<KeyItem>)
    ensures AllFine(w, ops + more, somewhere) <==> AllFine(w, ops, somewhere) && FineAfter(w, ops, more, somewhere)
  {
    var all := ops + more;
    forall t | 0 <= t < |ops| ensures all[..t] == ops[..t] && all[t] == ops[t] {
    }
    forall j | 0 <= j < |more| ensures all[..|ops| + j] == ops + more[..j] && all[|ops| + j] == more[j] {
    }
    if AllFine(w, all, somewhere) {
      forall t | 0 <= t < |ops| ensures FineOp(w, ops[..t], ops[t], somewhere) {
        assert FineOp(w, all[..t], all[t], somewhere);
      }
      forall j | 0 <= j < |more| ensures FineOp(w, ops + more[..j], more[j], somewhere) {
        assert FineOp(w, all[..|ops| + j], all[|ops| + j], somewhere);
      }
    }
    if AllFine(w, ops, somewhere) && FineAfter(w, ops, more, somewhere) {
      forall t | 0 <= t < |all| ensures FineOp(w, all[..t], all[t], somewhere) {
        if t >= |ops| {
          assert FineOp(w, ops + more[..t - |ops|], more[t - |ops|], somewhere);
        }
      }
    }
  }

  lemma GrantsFineExactly(w: World, listed: seq<KeyItem>, ops: seq<Op>, gs: seq<KeyItem>, somewhere: set<KeyItem>)
    requires Lists(w, listed, ops)
    ensures GrantsFine(w, listed, gs) <==> FineAfter(w, ops, Grants(gs), somewhere)
  {
    forall j | 0 <= j < |gs|
      ensures (gs[j] in w.boosts && gs[j] !in GrantAll(w, listed, gs[..j])) <==> FineOp(w, ops + Grants(gs)[..j], Grants(gs)[j], somewhere)
    {
      assert Grants(gs)[..j] == Grants(gs[..j]);
      GrantsListed(w, listed, ops, gs[..j]);
    }
  }

  lemma ReceivesFineExactly(w: World, listed: seq<KeyItem>, ops: seq<Op>, rs: seq<KeyItem>, somewhere: set<KeyItem>)
    requires Lists(w, listed, ops)
    ensures ReceivesFine(w, listed, rs, somewhere) <==> FineAfter(w, ops, Receipts(rs), somewhere)
  {
    forall j | 0 <= j < |rs|
      ensures (rs[j] in w.boosts && (rs[j] in ReceiveAll(w, listed, rs[..j]) || rs[j] in somewhere))
         <==> FineOp(w, ops + Receipts(rs)[..j], Receipts(rs)[j], somewhere)
    {
      assert Receipts(rs)[..j] == Receipts(rs[..j]);
      ReceiptsListed(w, listed, ops, rs[..j]);
    }
  }

  lemma StepFineExactly(w: World, steps: seq<Step>, i: nat, somewhere: set<KeyItem>)
    requires i < |steps|
    ensures AllFine(w, Ops(steps, i + 1), somewhere) <==> AllFine(w, Ops(steps, i), somewhere) && StepFine(w, steps, i, somewhere)
  {
    if steps[i].TalkTo? {
      var listed, ops := Outstanding(w, steps, i), Ops(steps, i);
      var granted := ops + Grants(steps[i].grants);
      OutstandingListed(w, steps, i);
      GrantsListed(w, listed, ops, steps[i].grants);
      FineConcat(w, ops, Grants(steps[i].grants), somewhere);
      FineConcat(w, granted, Receipts(steps[i].receives), somewhere);
      GrantsFineExactly(w, listed, ops, steps[i].grants, somewhere);
      ReceivesFineExactly(w, GrantAll(w, listed, steps[i].grants), granted, steps[i].receives, somewhere);
    }
  }

  lemma {:induction false} StepsFineExactly(w: World, steps: seq<Step>, i: nat, somewhere: set<KeyItem>)
    requires i <= |steps|
    ensures AllFine(w, Ops(steps, i), somewhere) <==> forall j :: 0 <= j < i ==> StepFine(w, steps, j, somewhere)
    decreases i
  {
    if i > 0 {
      StepsFineExactly(w, steps, i - 1, somewhere);
      StepFineExactly(w, steps, i - 1, somewhere);
    }
  }

  /** The check passes if and only if every grant is of a loaded item that is not out, every receipt
      of a loaded one that is out or to be had somewhere, and at the end none is out. */
  lemma BalancedExactly(w: World, steps: seq<Step>, somewhere: set<KeyItem>)
    ensures Balanced(w, steps, somewhere) <==>
            AllFine(w, Ops(steps, |steps|), somewhere) && forall g :: g in w.boosts ==> !Out(Ops(steps, |steps|), g)
  {
    StepsFineExactly(w, steps, |steps|, somewhere);
    OutstandingListed(w, steps, |steps|);
    var listed := Outstanding(w, steps, |steps|);
    if listed != [] {
      assert listed[0] in listed;
    }
  }
}
