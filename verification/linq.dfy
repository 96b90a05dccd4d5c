/** The two sequence queries the analyzer borrows from System.Linq, `Any` and
    `All`, each characterised by the quantifier it computes. */
module Linq {

  /** True iff some element of `source` satisfies `condition`. */
  function Any<T>(source: seq<T>, condition: T -> bool): (r: bool)
    ensures r <==> exists i :: 0 <= i < |source| && condition(source[i])
  {
    if |source| == 0 then false
    else
      var rest := Any(source[1..], condition);
      assert rest ==> exists i :: 1 <= i < |source| && condition(source[i]) by {
        if rest {
          var j :| 0 <= j < |source[1..]| && condition(source[1..][j]);
          assert condition(source[j + 1]);
        }
      }
      condition(source[0]) || rest
  }

  /** True iff every element of `source` satisfies `condition`. */
  function All<T>(source: seq<T>, condition: T -> bool): (r: bool)
    ensures r <==> forall i :: 0 <= i < |source| ==> condition(source[i])
  {
    if |source| == 0 then true
    else
      var rest := All(source[1..], condition);
      assert !rest ==> exists i :: 1 <= i < |source| && !condition(source[i]) by {
        if !rest {
          var j :| 0 <= j < |source[1..]| && !condition(source[1..][j]);
          assert !condition(source[j + 1]);
        }
      }
      condition(source[0]) && rest
  }
}
