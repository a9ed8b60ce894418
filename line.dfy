/** Lines of a lottery ticket: three numbers in [0,2] and the score they earn. */
module Lines {

  /** A number a line may hold. */
  predicate NumberInRange(n: int) {
    0 <= n <= 2
  }

  /** The three numbers drawn for one line, before it is scored. */
  datatype Draw = Draw(n1: int, n2: int, n3: int) {
    predicate InRange() {
      NumberInRange(n1) && NumberInRange(n2) && NumberInRange(n3)
    }
  }

  predicate DrawsInRange(ds: seq<Draw>) {
    forall i :: 0 <= i < |ds| ==> ds[i].InRange()
  }

  /** A line: its numbers in argument order, and the result computed from them once. */
  datatype Line = Line(numbers: seq<int>, result: int) {
    predicate WellFormed() {
      && |numbers| == 3
      && NumberInRange(numbers[0]) && NumberInRange(numbers[1]) && NumberInRange(numbers[2])
      && result == CalculateResult(numbers)
    }
  }

  predicate LinesWellFormed(ls: seq<Line>) {
    forall i :: 0 <= i < |ls| ==> ls[i].WellFormed()
  }

  /** The sum of a list of numbers. */
  function Sum(ns: seq<int>): int {
    if ns == [] then 0 else ns[0] + Sum(ns[1..])
  }

  /** The scoring rules, tried in order: sum 2, all equal, first differs from both, otherwise. */
  function CalculateResult(numbers: seq<int>): int
    requires |numbers| == 3
  {
    if Sum(numbers) == 2 then 10
    else if numbers[0] == numbers[1] && numbers[1] == numbers[2] then 5
    else if numbers[0] != numbers[1] && numbers[0] != numbers[2] then 1
    else 0
  }

  /** The line built from three numbers; its result is fixed at construction. */
  function NewLine(n1: int, n2: int, n3: int): (l: Line)
    requires NumberInRange(n1) && NumberInRange(n2) && NumberInRange(n3)
    ensures l.numbers == [n1, n2, n3]
    ensures l.WellFormed()
    ensures l.result in {0, 1, 5, 10}
  {
    var ns := [n1, n2, n3];
    assert Sum(ns) == n1 + n2 + n3 by {
      assert ns[1..] == [n2, n3] && [n2, n3][1..] == [n3] && [n3][1..] == [];
      assert Sum([n3]) == n3 + Sum([]);
      assert Sum([n2, n3]) == n2 + Sum([n3]);
    }
    Line(ns, CalculateResult(ns))
  }

  function DrawLine(d: Draw): (l: Line)
    requires d.InRange()
    ensures l.numbers == [d.n1, d.n2, d.n3] && l.WellFormed()
  {
    NewLine(d.n1, d.n2, d.n3)
  }

  /** The lines built from a sequence of draws, one per draw and in draw order. */
  function LinesFrom(ds: seq<Draw>): (ls: seq<Line>)
    requires DrawsInRange(ds)
    ensures |ls| == |ds|
    ensures forall i :: 0 <= i < |ds| ==> ls[i] == DrawLine(ds[i])
    ensures LinesWellFormed(ls)
  {
    if ds == [] then [] else [DrawLine(ds[0])] + LinesFrom(ds[1..])
  }

  /** The score of three numbers, through the line constructor. */
  function Score(a: int, b: int, c: int): int
    requires NumberInRange(a) && NumberInRange(b) && NumberInRange(c)
  {
    NewLine(a, b, c).result
  }

  /** Each rule of the scoring, in its precedence order. */
  lemma ScoreRules(a: int, b: int, c: int)
    requires NumberInRange(a) && NumberInRange(b) && NumberInRange(c)
    ensures a + b + c == 2 ==> Score(a, b, c) == 10
    ensures a + b + c != 2 && a == b == c ==> Score(a, b, c) == 5
    ensures a + b + c != 2 && !(a == b == c) && a != b && a != c ==> Score(a, b, c) == 1
    ensures a + b + c != 2 && !(a == b == c) && (a == b || a == c) ==> Score(a, b, c) == 0
  {
  }

  /** No all-equal triple sums to 2, so every one of them scores 5. */
  lemma AllEqualScoresFive(a: int)
    requires NumberInRange(a)
    ensures Score(a, a, a) == 5
  {
  }

  /** Scores 10: exactly the triples whose numbers are 0,1,1 or 0,0,2 in some order. */
  predicate SumsToTwo(m: multiset<int>) {
    m == multiset{0, 1, 1} || m == multiset{0, 0, 2}
  }

  /**
   * An independent description of the score: it depends on which multiset the
   * three numbers form, and otherwise on how often the first number occurs.
   */
  lemma ScoreByMultiplicity(a: int, b: int, c: int)
    requires NumberInRange(a) && NumberInRange(b) && NumberInRange(c)
    ensures var m := multiset{a, b, c};
      && (Score(a, b, c) == 10 <==> SumsToTwo(m))
      && (Score(a, b, c) == 5 <==> m[a] == 3)
      && (Score(a, b, c) == 1 <==> !SumsToTwo(m) && m[a] == 1)
      && (Score(a, b, c) == 0 <==> !SumsToTwo(m) && m[a] == 2)
  {
    var m := multiset{a, b, c};
    assert m[a] == 1 + (if b == a then 1 else 0) + (if c == a then 1 else 0);
  }

  /** The scores the end-to-end test expects of four concrete lines. */
  lemma ExampleScores()
    ensures Score(0, 1, 1) == 10
    ensures Score(1, 1, 1) == 5
    ensures Score(0, 1, 2) == 1
    ensures Score(0, 1, 0) == 0
  {
  }
}
