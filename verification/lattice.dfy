/** Enumeration order of nested counting loops. Three nested `for` loops over
    `slow < ns`, `mid < nm`, `fast < nf` visit cell `(fast, mid, slow)` as
    their `fast + nf * (mid + nm * slow)`-th iteration; these are the
    mixed-radix digits of that index. */
module Lattice {

  /** The digits of index `n` in a grid whose fastest axis has `nf` cells and
      whose middle axis has `nm` cells. */
  datatype Digits = Digits(fast: int, mid: int, slow: int)

  function DigitsOf(n: nat, nf: int, nm: int): (d: Digits)
    requires nf > 0 && nm > 0
    ensures 0 <= d.fast < nf && 0 <= d.mid < nm && 0 <= d.slow
  {
    Digits(n % nf, (n / nf) % nm, n / nf / nm)
  }

  /** The iteration number of cell `(f, m, s)`. */
  function IndexOf(f: int, m: int, s: int, nf: int, nm: int): int
  {
    f + nf * (m + nm * s)
  }

  lemma MulAtLeastOne(m: int, k: int)
    requires m > 0 && k >= 1
    ensures m * k >= m
  {
  }

  /** Euclidean division is unique: a remainder in `[0, m)` fixes the quotient. */
  lemma DivModUnique(a: int, m: int, q: int, r: int)
    requires m > 0 && 0 <= r < m && a == m * q + r
    ensures a / m == q && a % m == r
  {
    var q', r' := a / m, a % m;
    assert m * (q - q') == r' - r;
    if q - q' >= 1 {
      MulAtLeastOne(m, q - q');
    } else if q' - q >= 1 {
      MulAtLeastOne(m, q' - q);
    }
  }

  /** Round trip: the digits of the iteration number of a cell are that cell. */
  lemma DigitsOfIndex(f: int, m: int, s: int, nf: int, nm: int)
    requires 0 <= f < nf && 0 <= m < nm && 0 <= s
    ensures IndexOf(f, m, s, nf, nm) >= 0
    ensures DigitsOf(IndexOf(f, m, s, nf, nm), nf, nm) == Digits(f, m, s)
  {
    var k := m + nm * s;
    assert k >= 0;
    DivModUnique(f + nf * k, nf, k, f);
    DivModUnique(k, nm, s, m);
  }

  /** Round trip the other way: every index is the iteration number of its digits. */
  lemma IndexOfDigits(n: nat, nf: int, nm: int)
    requires nf > 0 && nm > 0
    ensures var d := DigitsOf(n, nf, nm); IndexOf(d.fast, d.mid, d.slow, nf, nm) == n
  {
    var k := n / nf;
    assert n == nf * k + n % nf;
    assert k == nm * (k / nm) + k % nm;
  }

  /** Cell `a` comes before cell `b` in the loops' order: slowest digit first. */
  predicate LexBefore(a: Digits, b: Digits)
  {
    a.slow < b.slow || (a.slow == b.slow && (a.mid < b.mid || (a.mid == b.mid && a.fast < b.fast)))
  }

  predicate InGrid(d: Digits, nf: int, nm: int)
  {
    0 <= d.fast < nf && 0 <= d.mid < nm && 0 <= d.slow
  }

  /** Iteration numbers grow along the loops' order. */
  lemma IndexLess(a: Digits, b: Digits, nf: int, nm: int)
    requires InGrid(a, nf, nm) && InGrid(b, nf, nm) && LexBefore(a, b)
    ensures IndexOf(a.fast, a.mid, a.slow, nf, nm) < IndexOf(b.fast, b.mid, b.slow, nf, nm)
  {
    if a.slow < b.slow {
      PlaneSpan(a.fast, a.mid, a.slow, nf, nm);
      PlaneSpan(b.fast, b.mid, b.slow, nf, nm);
      ScaleOrder(nf * nm, a.slow + 1, b.slow);
    } else if a.mid < b.mid {
      var k := nm * a.slow;
      ScaleOrder(nf, a.mid + k + 1, b.mid + k);
      assert nf * (a.mid + k + 1) == nf * (a.mid + k) + nf;
    }
  }

  lemma ScaleOrder(k: int, x: int, y: int)
    requires k >= 0 && x <= y
    ensures k * x <= k * y
  {
    assert k * y - k * x == k * (y - x);
  }

  /** Plane `s` holds the iteration numbers from `nf * nm * s` up to, not
      including, `nf * nm * (s + 1)`. */
  lemma PlaneSpan(f: int, m: int, s: int, nf: int, nm: int)
    requires 0 <= f < nf && 0 <= m < nm
    ensures nf * nm * s <= IndexOf(f, m, s, nf, nm) < nf * nm * (s + 1)
  {
    var p := nf * nm;
    assert nf * (m + nm * s) == nf * m + p * s;
    RowBound(f, m, nf, nm);
    assert p * (s + 1) == p * s + p;
    assert nf * m >= 0;
  }

  /** Later iterations visit lexicographically later cells. */
  lemma DigitsOrdered(i: nat, j: nat, nf: int, nm: int)
    requires nf > 0 && nm > 0 && i < j
    ensures LexBefore(DigitsOf(i, nf, nm), DigitsOf(j, nf, nm))
  {
    var a, b := DigitsOf(i, nf, nm), DigitsOf(j, nf, nm);
    IndexOfDigits(i, nf, nm);
    IndexOfDigits(j, nf, nm);
    if !LexBefore(a, b) {
      if a == b {
        assert false;
      } else {
        IndexLess(b, a, nf, nm);
        assert false;
      }
    }
  }

  /** A cell of one plane comes before the next plane starts. */
  lemma RowBound(f: int, m: int, nf: int, nm: int)
    requires 0 <= f < nf && 0 <= m < nm
    ensures f + nf * m < nf * nm
  {
    MulAtLeastOne(nf, nm - m);
    assert nf * nm - nf * m == nf * (nm - m);
  }

  /** Row `m + 1` starts one row length after row `m`. */
  lemma NextRow(m: int, s: int, nf: int, nm: int)
    ensures IndexOf(0, m + 1, s, nf, nm) == IndexOf(0, m, s, nf, nm) + nf
  {
  }

  /** The rows of plane `s` end where plane `s + 1` starts. */
  lemma RowsFillPlane(m: int, s: int, nf: int, nm: int)
    requires 0 <= m <= nm && nf >= 0
    ensures IndexOf(0, m, s, nf, nm) <= IndexOf(0, 0, s + 1, nf, nm)
    ensures m == nm ==> IndexOf(0, m, s, nf, nm) == IndexOf(0, 0, s + 1, nf, nm)
  {
    assert IndexOf(0, 0, s + 1, nf, nm) - IndexOf(0, m, s, nf, nm) == nf * (nm - m);
  }

  /** The planes before plane `s <= ns` hold at most the `nf * nm * ns` cells of the grid. */
  lemma PlanesFillGrid(s: int, nf: int, nm: int, ns: int)
    requires 0 <= s <= ns && nf >= 0 && nm >= 0
    ensures IndexOf(0, 0, s, nf, nm) <= nf * nm * ns
    ensures s == ns ==> IndexOf(0, 0, s, nf, nm) == nf * nm * ns
  {
    assert IndexOf(0, 0, s, nf, nm) == nf * nm * s;
    assert nf * nm * ns - nf * nm * s == nf * nm * (ns - s);
    assert nf * nm >= 0;
  }

  /** A product of three naturals is positive only when every factor is. */
  lemma PositiveFactors(a: int, b: int, c: int)
    requires a >= 0 && b >= 0 && c >= 0 && a * b * c > 0
    ensures a > 0 && b > 0 && c > 0
  {
  }

  /** Index `n` below `nf * nm * ns` has its slow digit below `ns`. */
  lemma SlowBound(n: nat, nf: int, nm: int, ns: int)
    requires nf > 0 && nm > 0 && n < nf * nm * ns
    ensures DigitsOf(n, nf, nm).slow < ns
  {
    var d := DigitsOf(n, nf, nm);
    IndexOfDigits(n, nf, nm);
    if d.slow >= ns {
      PlaneSpan(d.fast, d.mid, d.slow, nf, nm);
      MulAtLeastOne(nf, nm);
      ScaleOrder(nf * nm, ns, d.slow);
      assert false;
    }
  }

  lemma SwapLastFactors(a: int, b: int, c: int)
    ensures a * b * c == a * c * b
  {
    assert a * b * c == a * (b * c);
    assert a * c * b == a * (c * b);
  }
}
