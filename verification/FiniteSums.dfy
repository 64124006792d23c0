/** Sums over finite sets: the from-scratch recounts that incremental counters are compared with. */
module FiniteSums {

  ghost function Sum<T>(s: set<T>, f: T -> int): int
    decreases s
  {
    if s == {} then 0 else
      var x :| x in s;
      f(x) + Sum(s - {x}, f)
  }

  lemma {:induction false} SumRemove<T>(s: set<T>, f: T -> int, x: T)
    requires x in s
    ensures Sum(s, f) == f(x) + Sum(s - {x}, f)
    decreases s
  {
    var y :| y in s && Sum(s, f) == f(y) + Sum(s - {y}, f);
    if y != x {
      SumRemove(s - {y}, f, x);
      SumRemove(s - {x}, f, y);
      assert s - {x} - {y} == s - {y} - {x};
    }
  }

  /** Two functions that agree on a set have the same sum over it. */
  lemma {:induction false} SumCongruent<T>(s: set<T>, f: T -> int, g: T -> int)
    requires forall x :: x in s ==> f(x) == g(x)
    ensures Sum(s, f) == Sum(s, g)
    decreases s
  {
    if s != {} {
      var x :| x in s;
      SumRemove(s, f, x);
      SumRemove(s, g, x);
      SumCongruent(s - {x}, f, g);
    }
  }

  /** Changing one summand changes the sum by exactly that difference. */
  lemma SumReplace<T>(s: set<T>, f: T -> int, g: T -> int, x: T)
    requires x in s
    requires forall y :: y in s && y != x ==> f(y) == g(y)
    ensures Sum(s, g) == Sum(s, f) - f(x) + g(x)
  {
    SumRemove(s, f, x);
    SumRemove(s, g, x);
    SumCongruent(s - {x}, f, g);
  }

  lemma SumInsert<T>(s: set<T>, f: T -> int, g: T -> int, x: T)
    requires x !in s
    requires forall y :: y in s ==> f(y) == g(y)
    ensures Sum(s + {x}, g) == Sum(s, f) + g(x)
  {
    SumRemove(s + {x}, g, x);
    assert s + {x} - {x} == s;
    SumCongruent(s, f, g);
  }

  /** Summands outside a subset that are all zero do not count. */
  lemma {:induction false} SumSubset<T>(small: set<T>, large: set<T>, f: T -> int)
    requires small <= large
    requires forall x :: x in large && x !in small ==> f(x) == 0
    ensures Sum(small, f) == Sum(large, f)
    decreases large
  {
    if small != large {
      var x :| x in large && x !in small;
      SumRemove(large, f, x);
      SumSubset(small, large - {x}, f);
    }
  }

  lemma {:induction false} SumMonotone<T>(s: set<T>, f: T -> int, g: T -> int)
    requires forall x :: x in s ==> f(x) <= g(x)
    ensures Sum(s, f) <= Sum(s, g)
    decreases s
  {
    if s != {} {
      var x :| x in s;
      SumRemove(s, f, x);
      SumRemove(s, g, x);
      SumMonotone(s - {x}, f, g);
    }
  }

  lemma {:induction false} SumAtMost<T>(s: set<T>, f: T -> int, bound: int)
    requires forall x :: x in s ==> f(x) <= bound
    ensures Sum(s, f) <= |s| * bound
    decreases s
  {
    if s != {} {
      var x :| x in s;
      SumRemove(s, f, x);
      SumAtMost(s - {x}, f, bound);
      assert |s - {x}| == |s| - 1;
    }
  }

  lemma {:induction false} SumScaled<T>(s: set<T>, f: T -> int, g: T -> int, c: int)
    requires forall x :: x in s ==> g(x) == c * f(x)
    ensures Sum(s, g) == c * Sum(s, f)
    decreases s
  {
    if s != {} {
      var x :| x in s;
      SumRemove(s, f, x);
      SumRemove(s, g, x);
      SumScaled(s - {x}, f, g, c);
    }
  }

  lemma {:induction false} SumScaledBound<T>(s: set<T>, f: T -> int, g: T -> int, c: int)
    requires forall x :: x in s ==> g(x) <= c * f(x)
    ensures Sum(s, g) <= c * Sum(s, f)
    decreases s
  {
    if s != {} {
      var x :| x in s;
      SumRemove(s, f, x);
      SumRemove(s, g, x);
      SumScaledBound(s - {x}, f, g, c);
      assert c * (f(x) + Sum(s - {x}, f)) == c * f(x) + c * Sum(s - {x}, f);
    }
  }

  lemma {:induction false} SumAdded<T>(s: set<T>, f: T -> int, g: T -> int, h: T -> int)
    requires forall x :: x in s ==> h(x) == f(x) + g(x)
    ensures Sum(s, h) == Sum(s, f) + Sum(s, g)
    decreases s
  {
    if s != {} {
      var x :| x in s;
      SumRemove(s, f, x);
      SumRemove(s, g, x);
      SumRemove(s, h, x);
      SumAdded(s - {x}, f, g, h);
    }
  }

  function Row<A, B>(f: (A, B) -> int, a: A): B -> int { b => f(a, b) }

  function Column<A, B>(f: (A, B) -> int, b: B): A -> int { a => f(a, b) }

  ghost function RowTotals<A, B>(f: (A, B) -> int, columns: set<B>): A -> int { a => Sum(columns, Row(f, a)) }

  ghost function ColumnTotals<A, B>(f: (A, B) -> int, rows: set<A>): B -> int { b => Sum(rows, Column(f, b)) }

  /** The order of a double sum does not matter. */
  lemma {:induction false} SumExchange<A, B>(rows: set<A>, columns: set<B>, f: (A, B) -> int)
    ensures Sum(rows, RowTotals(f, columns)) == Sum(columns, ColumnTotals(f, rows))
    decreases rows
  {
    if rows == {} {
      SumScaled(columns, ColumnTotals(f, rows), ColumnTotals(f, rows), 0);
    } else {
      var a0 :| a0 in rows;
      var rest := rows - {a0};
      SumRemove(rows, RowTotals(f, columns), a0);
      SumExchange(rest, columns, f);
      forall b | b in columns ensures ColumnTotals(f, rows)(b) == Row(f, a0)(b) + ColumnTotals(f, rest)(b) {
        SumRemove(rows, Column(f, b), a0);
      }
      SumAdded(columns, Row(f, a0), ColumnTotals(f, rest), ColumnTotals(f, rows));
    }
  }

  lemma CrossTermStep(n: int, x: int, y: int, sum: int, squares: int)
    requires 2 * x * sum <= n * (x * x) + squares
    ensures 2 * x * (y + sum) <= (n + 1) * (x * x) + (y * y + squares)
  {
    assert 0 <= (x - y) * (x - y) == x * x - 2 * x * y + y * y;
    assert 2 * x * (y + sum) == 2 * x * y + 2 * x * sum;
    assert (n + 1) * (x * x) == n * (x * x) + x * x;
  }

  /** 2 * x * (sum of f) <= |s| * x^2 + (sum of f^2), one square at a time. */
  lemma {:induction false} CrossTerm<T>(s: set<T>, f: T -> int, squares: T -> int, x: int)
    requires forall t :: t in s ==> squares(t) == f(t) * f(t)
    ensures 2 * x * Sum(s, f) <= |s| * (x * x) + Sum(s, squares)
    decreases s
  {
    if s != {} {
      var t :| t in s;
      SumRemove(s, f, t);
      SumRemove(s, squares, t);
      CrossTerm(s - {t}, f, squares, x);
      CrossTermStep(|s - {t}|, x, f(t), Sum(s - {t}, f), Sum(s - {t}, squares));
      assert |s - {t}| == |s| - 1;
    }
  }

  lemma CauchySchwarzStep(n: int, x: int, sum: int, squares: int)
    requires sum * sum <= n * squares
    requires 2 * x * sum <= n * (x * x) + squares
    ensures (x + sum) * (x + sum) <= (n + 1) * (x * x + squares)
  {
  }

  /** The Cauchy-Schwarz inequality for integers: (sum of f)^2 <= |s| * (sum of f^2). */
  lemma {:induction false} CauchySchwarz<T>(s: set<T>, f: T -> int, squares: T -> int)
    requires forall t :: t in s ==> squares(t) == f(t) * f(t)
    ensures Sum(s, f) * Sum(s, f) <= |s| * Sum(s, squares)
    decreases s
  {
    if s != {} {
      var t :| t in s;
      var rest := s - {t};
      SumRemove(s, f, t);
      SumRemove(s, squares, t);
      CauchySchwarz(rest, f, squares);
      CrossTerm(rest, f, squares, f(t));
      CauchySchwarzStep(|rest|, f(t), Sum(rest, f), Sum(rest, squares));
    }
  }
}
