/** Whether a type can be marshalled: a depth-first search over a type graph that may be
    cyclic, with a mark on every type that is being looked at. */
module Marking {

  /** The answer of a leaf (a standard type, a parallel class, a sequential class) is given. */
  datatype Shape =
    | Leaf(answer: int)
    | Struct(attributes: seq<DataType>)
    | Array(base: DataType)
    | Typedef(actual: DataType)
    | Pointer(level: int, base: DataType)
    | Template(known: bool, elements: seq<DataType>)

  /** Template instances nest finitely: `rank` falls from a template to its elements. */
  class DataType {
    const shape: Shape
    ghost const rank: nat
    var mark: bool

    constructor (shape: Shape, ghost rank: nat)
      ensures this.shape == shape && this.rank == rank && !mark
    {
      this.shape := shape;
      this.rank := rank;
      mark := false;
    }
  }

  /** What the search looks into. */
  function Examined(n: DataType): seq<DataType> {
    match n.shape
    case Leaf(_) => []
    case Struct(attributes) => attributes
    case Array(base) => [base]
    case Typedef(actual) => [actual]
    case Pointer(level, base) => if level == 1 then [base] else []
    case Template(known, elements) => if known then elements else []
  }

  ghost predicate Closed(all: set<DataType>) {
    forall n <- all, c <- Examined(n) :: c in all && (n.shape.Template? ==> c.rank < n.rank)
  }

  // ---------------------------------------------------------------- the meaning

  /** What a type answers, given the answers of the types it is made of: 1 yes, 2 yes with a
      size, 0 no. */
  ghost function Answer(n: DataType, of: DataType -> int): int {
    match n.shape
    case Leaf(answer) => answer
    case Struct(attributes) => if forall c <- attributes :: of(c) == 1 then 1 else 0
    case Array(base) => of(base)
    case Typedef(actual) => of(actual)
    case Pointer(level, base) => if level == 1 && of(base) != 0 then 2 else 0
    case Template(known, elements) =>
      if known && elements != [] && forall c <- elements :: of(c) != 0 then 1 else 0
  }

  /** The answer of a derivation of height at most k; 0 if there is none. */
  ghost function Derived(n: DataType, k: nat): int {
    if k == 0 then 0 else Answer(n, (c: DataType) => Derived(c, k - 1))
  }

  /** The inductive definition: 0 without a derivation. */
  ghost function Meaning(n: DataType): int {
    if exists k :: Derived(n, k) != 0 then
      var k :| Derived(n, k) != 0;
      Derived(n, k)
    else 0
  }

  lemma {:induction false} DerivedStays(n: DataType, k: nat)
    ensures Derived(n, k) != 0 ==> Derived(n, k + 1) == Derived(n, k)
    decreases k
  {
    if k > 0 {
      forall c ensures Derived(c, k - 1) != 0 ==> Derived(c, k) == Derived(c, k - 1) {
        DerivedStays(c, k - 1);
      }
    }
  }

  lemma {:induction false} DerivedLater(n: DataType, k: nat, m: nat)
    requires k <= m
    ensures Derived(n, k) != 0 ==> Derived(n, m) == Derived(n, k)
    decreases m - k
  {
    if k < m {
      DerivedLater(n, k, m - 1);
      DerivedStays(n, m - 1);
    }
  }

  lemma MeaningIs(n: DataType, k: nat)
    ensures Derived(n, k) != 0 ==> Meaning(n) == Derived(n, k)
  {
    if Derived(n, k) != 0 {
      var m: nat :| Derived(n, m) != 0 && Meaning(n) == Derived(n, m);
      DerivedLater(n, k, if k <= m then m else k);
      DerivedLater(n, m, if k <= m then m else k);
    }
  }

  /** One height at which all of cs that have an answer have found it. */
  lemma {:induction false} CommonHeight(cs: seq<DataType>) returns (k: nat)
    ensures forall c <- cs :: Derived(c, k) == Meaning(c)
    decreases |cs|
  {
    if cs == [] {
      k := 0;
    } else {
      var j := CommonHeight(cs[1..]);
      var h: nat := 0;
      if Meaning(cs[0]) != 0 {
        h :| Derived(cs[0], h) != 0;
      }
      k := if h <= j then j else h;
      forall c | c in cs ensures Derived(c, k) == Meaning(c) {
        MeaningIs(c, k);
        if c == cs[0] {
          DerivedLater(c, h, k);
        } else {
          DerivedLater(c, j, k);
        }
      }
    }
  }

  lemma AnswerAgrees(n: DataType, f: DataType -> int, g: DataType -> int)
    requires forall c <- Examined(n) :: f(c) == g(c)
    ensures Answer(n, f) == Answer(n, g)
  {
    match n.shape
    case Array(base) => assert base in Examined(n);
    case Typedef(actual) => assert actual in Examined(n);
    case Pointer(level, base) => assert level == 1 ==> base in Examined(n);
    case _ =>
  }

  lemma FoundStays(c: DataType, k: nat, m: nat)
    requires Derived(c, k) == Meaning(c) && k <= m
    ensures Derived(c, m) == Meaning(c)
  {
    DerivedLater(c, k, m);
    MeaningIs(c, m);
  }

  lemma FoundAbove(n: DataType, k: nat, m: nat)
    requires k <= m && forall c <- Examined(n) :: Derived(c, k) == Meaning(c)
    ensures Derived(n, m + 1) == Answer(n, Meaning)
  {
    forall c | c in Examined(n) ensures Derived(c, m) == Meaning(c) {
      FoundStays(c, k, m);
    }
    AnswerAgrees(n, (c: DataType) => Derived(c, m), Meaning);
  }

  /** Every type means what its parts make it mean. */
  lemma MeaningFixed(n: DataType)
    ensures Meaning(n) == Answer(n, Meaning)
  {
    var k := CommonHeight(Examined(n));
    FoundAbove(n, k, k);
    MeaningIs(n, k + 1);
    if Meaning(n) != 0 {
      var h: nat :| Derived(n, h) != 0;
      MeaningIs(n, h);
      DerivedLater(n, h, h + k + 1);
      FoundAbove(n, k, h + k);
    }
  }

  // ---------------------------------------------------------------- cycles

  /** Following the given choices among what is examined leads from n to x. */
  predicate Walks(n: DataType, choices: seq<nat>, x: DataType)
    decreases |choices|
  {
    if choices == [] then n == x
    else choices[0] < |Examined(n)| && Walks(Examined(n)[choices[0]], choices[1..], x)
  }

  /** A chain of at least one examined edge leads from n to x. */
  ghost predicate Reaches(n: DataType, x: DataType) {
    exists choices :: choices != [] && Walks(n, choices, x)
  }

  lemma OneEdge(n: DataType, x: DataType)
    requires x in Examined(n)
    ensures Reaches(n, x)
  {
    var i :| 0 <= i < |Examined(n)| && Examined(n)[i] == x;
    assert [i][1..] == [];
    assert Walks(n, [i], x);
  }

  lemma {:induction false} WalkOn(n: DataType, choices: seq<nat>, m: DataType, i: nat)
    requires Walks(n, choices, m) && i < |Examined(m)|
    ensures Walks(n, choices + [i], Examined(m)[i])
    decreases |choices|
  {
    if choices == [] {
      assert [i][1..] == [];
    } else {
      assert (choices + [i])[1..] == choices[1..] + [i];
      WalkOn(Examined(n)[choices[0]], choices[1..], m, i);
    }
  }

  lemma EdgeOn(n: DataType, m: DataType, x: DataType)
    requires Reaches(n, m) && x in Examined(m)
    ensures Reaches(n, x)
  {
    var choices :| choices != [] && Walks(n, choices, m);
    var i :| 0 <= i < |Examined(m)| && Examined(m)[i] == x;
    WalkOn(n, choices, m, i);
  }

  /** A derivation answers every examined part lower down. */
  lemma PartsAnswer(n: DataType, k: nat, c: DataType)
    requires Derived(n, k) != 0 && c in Examined(n)
    ensures k > 0 && Derived(c, k - 1) != 0
  {
  }

  lemma {:induction false} WalkAnswers(n: DataType, choices: seq<nat>, x: DataType, k: nat)
    requires choices != [] && Walks(n, choices, x) && Derived(n, k) != 0
    ensures exists j: nat :: j < k && Derived(x, j) != 0
    decreases |choices|
  {
    var c := Examined(n)[choices[0]];
    PartsAnswer(n, k, c);
    if |choices| > 1 {
      WalkAnswers(c, choices[1..], x, k - 1);
    }
  }

  /** A type that reaches itself has no derivation. */
  lemma {:induction false} NoneOnCycle(n: DataType, k: nat)
    requires Reaches(n, n)
    ensures Derived(n, k) == 0
    decreases k
  {
    if Derived(n, k) != 0 {
      var choices :| choices != [] && Walks(n, choices, n);
      WalkAnswers(n, choices, n, k);
      var j: nat :| j < k && Derived(n, j) != 0;
      NoneOnCycle(n, j);
    }
  }

  lemma CyclicMeansNo(n: DataType)
    requires Reaches(n, n)
    ensures Meaning(n) == 0
  {
    forall k ensures Derived(n, k) == 0 {
      NoneOnCycle(n, k);
    }
  }

  // ---------------------------------------------------------------- the search

  ghost function Unmarked(all: set<DataType>): set<DataType>
    reads all
  {
    set n | n in all && !n.mark
  }

  /** The marked types are on the way to n. */
  ghost predicate OnTheWay(all: set<DataType>, n: DataType)
    reads all
  {
    forall m <- all :: m.mark ==> Reaches(m, n)
  }

  /** A failed search clears marks, and only clears them; a search that succeeds leaves all
      marks as they were. */
  twostate predicate Cleared(all: set<DataType>, failed: bool)
    reads all
  {
    forall m <- all :: if failed then m.mark ==> old(m.mark) else m.mark == old(m.mark)
  }

  /** Marking n, the types on the way to n are on the way to its parts, and so is n. */
  lemma WayOn(all: set<DataType>, n: DataType, c: DataType)
    requires c in Examined(n) && forall m <- all :: m.mark ==> m == n || Reaches(m, n)
    ensures OnTheWay(all, c)
  {
    forall m | m in all && m.mark ensures Reaches(m, c) {
      if m == n {
        OneEdge(n, c);
      } else {
        EdgeOn(m, n, c);
      }
    }
  }

  /** The answer of a struct after its first i attributes, all of them 1. */
  lemma AnswerSoFar(n: DataType, attributes: seq<DataType>, i: nat)
    requires n.shape == Struct(attributes) && i <= |attributes| && forall c <- attributes[..i] :: Meaning(c) == 1
    ensures i == |attributes| ==> Answer(n, Meaning) == 1
    ensures i < |attributes| && Meaning(attributes[i]) != 1 ==> Answer(n, Meaning) == 0
    ensures
      i < |attributes| && Meaning(attributes[i]) == 1 ==> forall c <- attributes[..i + 1] :: Meaning(c) == 1
  {
    if i == |attributes| {
      assert attributes[..i] == attributes;
    } else {
      assert attributes[..i + 1] == attributes[..i] + [attributes[i]];
    }
  }

  /** All attributes of a marked struct. */
  method AttributesCanMarshal(n: DataType, attributes: seq<DataType>, ghost all: set<DataType>) returns (ret: int)
    requires n in all && Closed(all) && n.shape == Struct(attributes) && n.mark
    requires forall m <- all :: m.mark ==> m == n || Reaches(m, n)
    modifies all`mark
    ensures ret == Answer(n, Meaning)
    ensures Cleared(all, ret == 0)
    decreases Unmarked(all), 1, 0, 0
  {
    var i := 0;
    while i < |attributes|
      invariant i <= |attributes|
      invariant forall c <- attributes[..i] :: Meaning(c) == 1
      invariant Cleared(all, false)
    {
      WayOn(all, n, attributes[i]);
      AnswerSoFar(n, attributes, i);
      var r := CanMarshal(attributes[i], all);
      if r != 1 {
        return 0;
      }
      i := i + 1;
    }
    AnswerSoFar(n, attributes, i);
    ret := 1;
  }

  method TemplateCanMarshal(n: DataType, known: bool, elements: seq<DataType>, ghost all: set<DataType>)
      returns (ret: int)
    requires n in all && Closed(all) && n.shape == Template(known, elements) && OnTheWay(all, n)
    modifies all`mark
    ensures ret == Answer(n, Meaning)
    ensures Cleared(all, ret == 0)
    decreases Unmarked(all), 0, n.rank, 0
  {
    if elements == [] || !known {
      return 0;
    }
    var i := 0;
    while i < |elements|
      invariant i <= |elements|
      invariant forall c <- elements[..i] :: Meaning(c) != 0
      invariant Cleared(all, false)
    {
      ThroughTemplate(all, n, elements[i]);
      TemplateSoFar(n, elements, i);
      var r := CanMarshal(elements[i], all);
      if r == 0 {
        return 0;
      }
      i := i + 1;
    }
    TemplateSoFar(n, elements, i);
    ret := 1;
  }

  /** The answer of a template after its first i elements, none of them 0. */
  lemma TemplateSoFar(n: DataType, elements: seq<DataType>, i: nat)
    requires n.shape == Template(true, elements) && elements != []
    requires i <= |elements| && forall c <- elements[..i] :: Meaning(c) != 0
    ensures i == |elements| ==> Answer(n, Meaning) == 1
    ensures i < |elements| && Meaning(elements[i]) == 0 ==> Answer(n, Meaning) == 0
    ensures i < |elements| && Meaning(elements[i]) != 0 ==> forall c <- elements[..i + 1] :: Meaning(c) != 0
  {
    if i == |elements| {
      assert elements[..i] == elements;
    } else {
      assert elements[..i + 1] == elements[..i] + [elements[i]];
    }
  }

  lemma ThroughTemplate(all: set<DataType>, n: DataType, c: DataType)
    requires c in Examined(n) && OnTheWay(all, n)
    ensures OnTheWay(all, c)
  {
    forall m | m in all && m.mark ensures Reaches(m, c) {
      EdgeOn(m, n, c);
    }
  }

  /** What is behind a marked type that is neither a struct nor a template. */
  method BaseCanMarshal(n: DataType, ghost all: set<DataType>) returns (ret: int)
    requires n in all && Closed(all) && n.mark && (n.shape.Array? || n.shape.Typedef? || n.shape.Pointer?)
    requires forall m <- all :: m.mark ==> m == n || Reaches(m, n)
    modifies all`mark
    ensures ret == Answer(n, Meaning)
    ensures Cleared(all, ret == 0)
    decreases Unmarked(all), 1, 0, 0
  {
    match n.shape
    case Array(base) =>
      WayOn(all, n, base);
      ret := CanMarshal(base, all);
    case Typedef(actual) =>
      WayOn(all, n, actual);
      ret := CanMarshal(actual, all);
    case Pointer(level, base) =>
      ret := 0;
      if level == 1 {
        WayOn(all, n, base);
        var r := CanMarshal(base, all);
        if r != 0 {
          ret := 2;
        }
      }
  }

  /** Whatever is marked on the way here, the answer is the inductive one. */
  method CanMarshal(n: DataType, ghost all: set<DataType>) returns (ret: int)
    requires n in all && Closed(all) && OnTheWay(all, n)
    modifies all`mark
    ensures ret == Meaning(n)
    ensures Cleared(all, ret == 0)
    decreases Unmarked(all), 0, n.rank, 1
  {
    MeaningFixed(n);
    if n.shape.Leaf? {
      return n.shape.answer;
    } else if n.shape.Template? {
      ret := TemplateCanMarshal(n, n.shape.known, n.shape.elements, all);
    } else {
      if n.mark {
        CyclicMeansNo(n);
        n.mark := false;
        return 0;
      }
      n.mark := true;
      assert n !in Unmarked(all);
      if n.shape.Struct? {
        ret := AttributesCanMarshal(n, n.shape.attributes, all);
      } else {
        ret := BaseCanMarshal(n, all);
      }
      n.mark := false;
    }
  }

  /** With no mark set, the search says what a type means and leaves no mark behind. */
  method IsMarshallable(n: DataType, ghost all: set<DataType>) returns (ret: int)
    requires n in all && Closed(all) && forall m <- all :: !m.mark
    modifies all`mark
    ensures ret == Meaning(n) && forall m <- all :: !m.mark
  {
    ret := CanMarshal(n, all);
  }
}
