/** `Option` for Python's `None`, and `Outcome` for a computation that may raise a
    Python exception (the exception is named by its class, e.g. "AttributeError"). */
module Outcomes {

  datatype Option<+T> = None | Some(value: T)
  {
    function GetOr(default: T): T
    {
      match this
      case Some(v) => v
      case None => default
    }
  }

  datatype Outcome<+T> = Done(value: T) | Raised(exception: string)
  {
    predicate IsFailure() { Raised? }

    function PropagateFailure<U>(): Outcome<U>
      requires Raised?
    {
      Raised(exception)
    }

    function Extract(): T
      requires Done?
    {
      value
    }
  }

  /** The results of `g` on the elements of `s`, concatenated in order, or the first
      exception `g` raises: a loop that appends what each element gives and lets an
      exception escape. */
  function Collect<A, B>(s: seq<A>, g: A -> Outcome<seq<B>>): Outcome<seq<B>>
  {
    if s == [] then Done([])
    else
      var pre :- Collect(s[..|s| - 1], g);
      var here :- g(s[|s| - 1]);
      Done(pre + here)
  }

  /** One more element: its results are appended, or its exception ends the loop. */
  lemma CollectStep<A, B>(s: seq<A>, i: nat, g: A -> Outcome<seq<B>>, acc: seq<B>)
    requires i < |s| && Collect(s[..i], g) == Done(acc)
    ensures Collect(s[..i + 1], g) == if g(s[i]).Raised? then Raised(g(s[i]).exception) else Done(acc + g(s[i]).value)
  {
    assert s[..i + 1][..i] == s[..i];
  }

  /** Once an element raises, so does the whole loop, with the same exception. */
  lemma {:induction false} CollectRaisedStays<A, B>(s: seq<A>, i: nat, g: A -> Outcome<seq<B>>)
    requires i <= |s| && Collect(s[..i], g).Raised?
    ensures Collect(s, g) == Collect(s[..i], g)
    decreases |s| - i
  {
    if i < |s| {
      assert s[..i + 1][..i] == s[..i];
      CollectRaisedStays(s, i + 1, g);
    } else {
      assert s[..i] == s;
    }
  }

  /** A loop that completes raised nowhere; and what it gathered is exactly what the
      elements gave. */
  lemma {:induction false} CollectDone<A, B>(s: seq<A>, g: A -> Outcome<seq<B>>, y: B)
    requires Collect(s, g).Done?
    ensures forall i :: 0 <= i < |s| ==> g(s[i]).Done?
    ensures y in Collect(s, g).value <==> exists i :: 0 <= i < |s| && y in g(s[i]).value
  {
    if s != [] {
      var n := |s| - 1;
      var pre := s[..n];
      CollectDone(pre, g, y);
      assert forall i :: 0 <= i < n ==> pre[i] == s[i];
      if exists i :: 0 <= i < |s| && y in g(s[i]).value {
        var i :| 0 <= i < |s| && y in g(s[i]).value;
        if i < n {
          assert pre[i] == s[i];
        }
      }
    }
  }

  /** A loop over elements none of which raises completes. */
  lemma {:induction false} CollectNoRaise<A, B>(s: seq<A>, g: A -> Outcome<seq<B>>)
    requires forall i :: 0 <= i < |s| ==> g(s[i]).Done?
    ensures Collect(s, g).Done?
  {
    if s != [] {
      var pre := s[..|s| - 1];
      assert forall i :: 0 <= i < |pre| ==> pre[i] == s[i];
      CollectNoRaise(pre, g);
    }
  }
}
