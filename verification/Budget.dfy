// How many bad rows a run may have: internal/domain/ingestion/error_budget.go, over exact rates.
module Budget {

  // The share of failed rows a run may have, once enough rows were seen.
  datatype ErrorBudget = ErrorBudget(maxErrorRate: real, minSampleRows: int)

  predicate WithinBudget(b: ErrorBudget, seen: nat, failed: nat) {
    seen < b.minSampleRows || seen == 0 || failed as real <= b.maxErrorRate * seen as real
  }

  // The budget is exceeded exactly when the sample is large enough and the share of failed rows in it is above
  // the highest allowed.
  lemma OverBudgetIff(b: ErrorBudget, seen: nat, failed: nat)
    ensures !WithinBudget(b, seen, failed)
            <==> seen > 0 && seen >= b.minSampleRows && failed as real / seen as real > b.maxErrorRate
  {
    if seen > 0 {
      var share := failed as real / seen as real;
      assert share * seen as real == failed as real;
      if share > b.maxErrorRate {
        assert share * seen as real > b.maxErrorRate * seen as real;
      } else {
        assert share * seen as real <= b.maxErrorRate * seen as real;
      }
    }
  }
}
