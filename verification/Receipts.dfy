/** Proof receipts (`src/proof/mod.rs`). */
module Receipts {
  import opened Manifests

  datatype CheckStatus = Passed | Failed | Skipped

  datatype Check = Check(id: string, status: CheckStatus)

  datatype Intent = Intent(summary: string, selfModifying: bool, scopeClassification: string)

  datatype OperationReceipt = OperationReceipt(
    operation: string,
    tenant: nat,
    actor: string,
    intent: Intent,
    guardrails: seq<string>,
    validation: seq<Check>,
    resultSummary: string)
  {
    function Guardrail(id: string): OperationReceipt {
      this.(guardrails := guardrails + [id])
    }

    function WithCheck(id: string, status: CheckStatus): OperationReceipt {
      this.(validation := validation + [Check(id, status)])
    }

    function Summary(s: string): OperationReceipt {
      this.(resultSummary := s)
    }

    /** No recorded check failed. */
    predicate Verified() {
      forall c :: c in validation ==> c.status != Failed
    }

    /** The shape test a receipt must pass before it is stored. */
    predicate WellShaped() {
      && !IsBlank(operation)
      && !IsBlank(actor)
      && !IsBlank(intent.summary)
      && !IsBlank(intent.scopeClassification)
      && !IsBlank(resultSummary)
    }
  }

  function NewReceipt(operation: string, tenant: nat, actor: string, intent: Intent): OperationReceipt {
    OperationReceipt(operation, tenant, actor, intent, [], [], "")
  }

  /** Record one check per result, as the deploy does from its list of results. */
  function WithResults(r: OperationReceipt, results: seq<(string, bool)>): OperationReceipt
    decreases |results|
  {
    if results == [] then r
    else WithResults(r.WithCheck(results[0].0, if results[0].1 then Passed else Failed), results[1..])
  }

  /** Recording results only appends one check for each, in order, and touches nothing else. */
  lemma {:induction false} WithResultsAppends(r: OperationReceipt, results: seq<(string, bool)>)
    ensures var w := WithResults(r, results);
      && w == r.(validation := w.validation)
      && |w.validation| == |r.validation| + |results|
      && w.validation[..|r.validation|] == r.validation
      && forall i :: 0 <= i < |results| ==>
           w.validation[|r.validation| + i] == Check(results[i].0, if results[i].1 then Passed else Failed)
    decreases |results|
  {
    if results != [] {
      var r' := r.WithCheck(results[0].0, if results[0].1 then Passed else Failed);
      WithResultsAppends(r', results[1..]);
      var w := WithResults(r', results[1..]);
      assert w.validation[..|r.validation|] == w.validation[..|r'.validation|][..|r.validation|];
      assert w.validation[|r.validation|] == w.validation[..|r'.validation|][|r.validation|];
      forall i | 0 < i < |results|
        ensures w.validation[|r.validation| + i] == Check(results[i].0, if results[i].1 then Passed else Failed)
      {
        assert results[i] == results[1..][i - 1];
      }
    }
  }

  /** A receipt built from results verifies exactly when every result was good. */
  lemma VerifiedIff(r: OperationReceipt, results: seq<(string, bool)>)
    requires r.validation == []
    ensures WithResults(r, results).Verified() <==> forall x :: x in results ==> x.1
  {
    WithResultsAppends(r, results);
    var v := WithResults(r, results).validation;
    if WithResults(r, results).Verified() {
      forall x | x in results ensures x.1 {
        var i :| 0 <= i < |results| && results[i] == x;
        assert v[i] in v;
      }
    } else {
      var i :| 0 <= i < |v| && v[i].status == Failed;
      assert results[i] in results;
    }
  }
}
