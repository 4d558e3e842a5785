/** The two binary searches of the launch gate, against the linear scans they stand for. */
module Search {
  import opened Numbers
  import opened Contracts
  import opened Memory

  const CONTEXT_ROUNDING: int := 512
  const MAX_CONTEXT_SEARCH: int := 2097152
  const MAX_UNITS: nat := 4096

  predicate Fits(gate: Calculator, req: FitRequest, usable: int)
    requires gate.CanPrice(req.shape)
  {
    gate.Total(req) <= usable
  }

  predicate FitsContext(gate: Calculator, req: FitRequest, usable: int, context: int)
    requires gate.CanPrice(req.shape)
  {
    Fits(gate, req.(context := context), usable)
  }

  predicate FitsSeqs(gate: Calculator, req: FitRequest, usable: int, seqs: int)
    requires gate.CanPrice(req.shape)
  {
    Fits(gate, req.(seqs := seqs), usable)
  }

  /** Scan the grid downwards from `units` steps; 0 when not even one step fits. */
  function ScanContext(gate: Calculator, req: FitRequest, usable: int, units: nat): nat
    requires gate.CanPrice(req.shape)
  {
    if units == 0 || FitsContext(gate, req, usable, units * CONTEXT_ROUNDING) then units * CONTEXT_ROUNDING
    else ScanContext(gate, req, usable, units - 1)
  }

  /** The largest context that fits, on the rounding grain; the request's own context plays no part. */
  function MaxContext(gate: Calculator, req: FitRequest, usable: int): nat
    requires gate.CanPrice(req.shape)
  {
    ScanContext(gate, req, usable, MAX_UNITS)
  }

  /** The most sequences, counting down from `ceiling`, that fit at the request's context. */
  function MaxSeqs(gate: Calculator, req: FitRequest, usable: int, ceiling: int): nat
    requires gate.CanPrice(req.shape)
    decreases Max(0, ceiling)
  {
    if ceiling < 1 then 0
    else if FitsSeqs(gate, req, usable, ceiling) then ceiling
    else MaxSeqs(gate, req, usable, ceiling - 1)
  }

  lemma ContextMono(gate: Calculator, req: FitRequest, usable: int, c: int, d: int)
    requires gate.CanPrice(req.shape) && c <= d && FitsContext(gate, req, usable, d)
    ensures FitsContext(gate, req, usable, c)
  {
    hide Calculator.Total;
    TotalMono(gate, req.(context := c), req.(context := d));
  }

  lemma SeqsMono(gate: Calculator, req: FitRequest, usable: int, m: int, n: int)
    requires gate.CanPrice(req.shape) && m <= n && FitsSeqs(gate, req, usable, n)
    ensures FitsSeqs(gate, req, usable, m)
  {
    hide Calculator.Total;
    TotalMono(gate, req.(seqs := m), req.(seqs := n));
  }

  lemma {:induction false} ScanIs(gate: Calculator, req: FitRequest, usable: int, units: nat, best: nat)
    requires gate.CanPrice(req.shape) && best <= units
    requires best == 0 || FitsContext(gate, req, usable, best * CONTEXT_ROUNDING)
    requires best < units ==> !FitsContext(gate, req, usable, (best + 1) * CONTEXT_ROUNDING)
    ensures ScanContext(gate, req, usable, units) == best * CONTEXT_ROUNDING
  {
    hide FitsContext;
    if best < units {
      if FitsContext(gate, req, usable, units * CONTEXT_ROUNDING) {
        ContextMono(gate, req, usable, (best + 1) * CONTEXT_ROUNDING, units * CONTEXT_ROUNDING);
      }
      ScanIs(gate, req, usable, units - 1, best);
    }
  }

  lemma {:induction false} ScanFound(gate: Calculator, req: FitRequest, usable: int, units: nat)
    requires gate.CanPrice(req.shape)
    ensures var r := ScanContext(gate, req, usable, units);
      && r % CONTEXT_ROUNDING == 0 && r <= units * CONTEXT_ROUNDING
      && (0 < r ==> FitsContext(gate, req, usable, r))
      && (r < units * CONTEXT_ROUNDING ==> !FitsContext(gate, req, usable, r + CONTEXT_ROUNDING))
  {
    hide FitsContext;
    if units != 0 && !FitsContext(gate, req, usable, units * CONTEXT_ROUNDING) {
      ScanFound(gate, req, usable, units - 1);
    }
  }

  /** The context search is exact: 0 only when nothing fits, everything up to the answer fits, and short of
      the search ceiling nothing from the next grid point on does. */
  lemma MaxContextExact(gate: Calculator, req: FitRequest, usable: int)
    requires gate.CanPrice(req.shape)
    ensures var r := MaxContext(gate, req, usable);
      && r % CONTEXT_ROUNDING == 0 && r <= MAX_CONTEXT_SEARCH
      && (r == 0 <==> !FitsContext(gate, req, usable, CONTEXT_ROUNDING))
      && (forall c :: c <= r && 0 < r ==> FitsContext(gate, req, usable, c))
      && (forall c :: r + CONTEXT_ROUNDING <= c && r < MAX_CONTEXT_SEARCH ==> !FitsContext(gate, req, usable, c))
  {
    hide FitsContext;
    var r := MaxContext(gate, req, usable);
    ScanFound(gate, req, usable, MAX_UNITS);
    forall c | c <= r && 0 < r ensures FitsContext(gate, req, usable, c) {
      ContextMono(gate, req, usable, c, r);
    }
    forall c | r + CONTEXT_ROUNDING <= c && r < MAX_CONTEXT_SEARCH ensures !FitsContext(gate, req, usable, c) {
      if FitsContext(gate, req, usable, c) {
        ContextMono(gate, req, usable, r + CONTEXT_ROUNDING, c);
      }
    }
  }

  lemma {:induction false} MaxSeqsExact(gate: Calculator, req: FitRequest, usable: int, ceiling: int)
    requires gate.CanPrice(req.shape)
    ensures var r := MaxSeqs(gate, req, usable, ceiling);
      && r <= Max(0, ceiling)
      && (r == 0 <==> ceiling < 1 || !FitsSeqs(gate, req, usable, 1))
      && (forall n :: n <= r && 0 < r ==> FitsSeqs(gate, req, usable, n))
      && (forall n :: r < n <= ceiling ==> !FitsSeqs(gate, req, usable, n))
    decreases Max(0, ceiling)
  {
    hide FitsSeqs;
    if 1 <= ceiling {
      if FitsSeqs(gate, req, usable, ceiling) {
        forall n | n <= ceiling ensures FitsSeqs(gate, req, usable, n) {
          SeqsMono(gate, req, usable, n, ceiling);
        }
      } else {
        MaxSeqsExact(gate, req, usable, ceiling - 1);
      }
    }
  }

  /** The guard loop that follows the search: step down until the figure is one that was verified. */
  method TrimUnverified(gate: Calculator, req: FitRequest, usable: int, units: nat) returns (result: nat, ghost trims: nat)
    requires gate.CanPrice(req.shape)
    ensures result == ScanContext(gate, req, usable, units)
    ensures result == (units - trims) * CONTEXT_ROUNDING
  {
    hide FitsContext;
    result, trims := units * CONTEXT_ROUNDING, 0;
    while 0 < result && !FitsContext(gate, req, usable, result)
      invariant trims <= units && result == (units - trims) * CONTEXT_ROUNDING
      invariant ScanContext(gate, req, usable, units) == ScanContext(gate, req, usable, units - trims)
      decreases result
    {
      result := result - CONTEXT_ROUNDING;
      trims := trims + 1;
    }
  }

  /** The context search as it runs. The guard loop after it never trims anything. */
  method LargestContext(gate: Calculator, req: FitRequest, usable: int) returns (result: int, ghost trims: nat)
    requires gate.CanPrice(req.shape)
    ensures result == MaxContext(gate, req, usable)
    ensures trims == 0
  {
    hide FitsContext;
    trims := 0;
    if !FitsContext(gate, req, usable, CONTEXT_ROUNDING) {
      ScanIs(gate, req, usable, MAX_UNITS, 0);
      return 0, 0;
    }
    var hi: nat := MAX_CONTEXT_SEARCH / CONTEXT_ROUNDING;
    if FitsContext(gate, req, usable, hi * CONTEXT_ROUNDING) {
      return hi * CONTEXT_ROUNDING, 0;
    }
    var lo: nat := 1;
    while lo < hi
      invariant 1 <= lo <= hi < MAX_UNITS || 1 <= lo < hi == MAX_UNITS
      invariant FitsContext(gate, req, usable, lo * CONTEXT_ROUNDING)
      invariant !FitsContext(gate, req, usable, MAX_UNITS * CONTEXT_ROUNDING)
      invariant hi < MAX_UNITS ==> !FitsContext(gate, req, usable, (hi + 1) * CONTEXT_ROUNDING)
    {
      var mid := (lo + hi + 1) / 2;
      if FitsContext(gate, req, usable, mid * CONTEXT_ROUNDING) {
        lo := mid;
      } else {
        hi := mid - 1;
      }
    }
    ScanIs(gate, req, usable, MAX_UNITS, lo);
    result, trims := TrimUnverified(gate, req, usable, lo);
  }

  /** The concurrency search as it runs. */
  method LargestMaxSeqs(gate: Calculator, req: FitRequest, usable: int, ceiling: int) returns (result: int)
    requires gate.CanPrice(req.shape)
    ensures result == MaxSeqs(gate, req, usable, ceiling)
  {
    hide FitsSeqs;
    MaxSeqsExact(gate, req, usable, ceiling);
    if ceiling < 1 || !FitsSeqs(gate, req, usable, 1) {
      return 0;
    }
    var lo, hi := 1, Max(1, ceiling);
    if FitsSeqs(gate, req, usable, hi) {
      return hi;
    }
    while lo < hi
      invariant 1 <= lo <= MaxSeqs(gate, req, usable, ceiling) <= hi <= ceiling
    {
      var mid := (lo + hi + 1) / 2;
      if FitsSeqs(gate, req, usable, mid) {
        lo := mid;
      } else {
        hi := mid - 1;
      }
    }
    result := lo;
  }
}
