/**
 The optional value used wherever the services store a nullable column, the faults that calls can meet,
 and facts about finite sets.
 */
module Common {

  datatype Option<+T> = None | Some(value: T)

  // A fault in a call that has an effect: before the effect, or after it.
  datatype Fault = NoFault | NotWritten | NotReported

  lemma EmptyOrInhabited<T>(elements: set<T>)
    ensures elements == {} || exists x :: x in elements
  {
    if forall x <- elements :: false {
      assert elements == {};
    }
  }

  lemma LeastOf(numbers: set<int>) returns (m: int)
    ensures numbers != {} ==> m in numbers
    ensures forall n :: n in numbers ==> m <= n
    decreases numbers
  {
    m := 0;
    if forall x :: x !in numbers {
      assert numbers == {};
    } else {
      var x :| x in numbers;
      m := x;
      if numbers != {x} {
        var other := LeastOf(numbers - {x});
        m := if x <= other then x else other;
      }
      forall n | n in numbers ensures m <= n {
        assert n == x || n in numbers - {x};
      }
    }
  }

  // There is always a number that is not taken yet.
  lemma {:induction false} UnusedId(taken: set<nat>) returns (n: nat)
    ensures forall x :: x in taken ==> x < n
  {
    if taken == {} {
      n := 0;
    } else {
      EmptyOrInhabited(taken);
      var x :| x in taken;
      var m := UnusedId(taken - {x});
      n := if x < m then m else x + 1;
      assert forall y :: y in taken ==> y == x || y in taken - {x};
    }
  }
}
