/** Failure-carrying wrappers and the JavaScript string test used by the
    controller map: the few shared notions every other module builds on. */
module Common {

  /** A value that may be missing; `None` stands for JavaScript's `undefined`. */
  datatype Option<+T> = None | Some(value: T)

  /** The outcome of an operation that can throw in the original program.
      It is failure-compatible, so `:-` propagates an `Err`. */
  datatype Result<+T, +E> = Ok(value: T) | Err(error: E) {

    predicate IsFailure() {
      Err?
    }

    function PropagateFailure<U>(): Result<U, E>
      requires Err?
    {
      Err(error)
    }

    function Extract(): T
      requires Ok?
    {
      value
    }
  }

  /** An `Option` turned into a `Result`, failing with `e` when the value is absent. */
  function OrFail<T, E>(o: Option<T>, e: E): (r: Result<T, E>)
    ensures r.Ok? <==> o.Some?
    ensures r.Ok? ==> r.value == o.value
    ensures r.Err? ==> r.error == e
  {
    match o
    case Some(v) => Ok(v)
    case None => Err(e)
  }

  /** `s.includes(sub)` of JavaScript: a case-sensitive substring test,
      scanning `s` from the left. */
  predicate Includes(s: string, sub: string)
    decreases |s|
  {
    if |s| < |sub| then false
    else s[..|sub|] == sub || (0 < |s| && Includes(s[1..], sub))
  }

  /** The position-based reading of `Includes`: `sub` occurs at some offset of `s`. */
  ghost predicate OccursAt(s: string, sub: string, i: int)
  {
    0 <= i && i + |sub| <= |s| && s[i..i + |sub|] == sub
  }

  /** The scanning definition agrees with "there is an offset where `sub` occurs". */
  lemma {:induction false} IncludesIffOccurs(s: string, sub: string)
    ensures Includes(s, sub) <==> exists i :: OccursAt(s, sub, i)
    decreases |s|
  {
    if |s| < |sub| {
    } else if s[..|sub|] == sub {
      assert OccursAt(s, sub, 0);
    } else {
      IncludesIffOccurs(s[1..], sub);
      if Includes(s[1..], sub) {
        var i :| OccursAt(s[1..], sub, i);
        assert s[1..][i..i + |sub|] == s[i + 1..i + 1 + |sub|];
        assert OccursAt(s, sub, i + 1);
      }
      if exists i :: OccursAt(s, sub, i) {
        var i :| OccursAt(s, sub, i);
        assert i != 0;
        assert s[1..][i - 1..i - 1 + |sub|] == s[i..i + |sub|];
        assert OccursAt(s[1..], sub, i - 1);
      }
    }
  }

  /** A string cannot contain a pattern with a character it lacks. */
  lemma {:induction false} AbsentCharExcludes(s: string, sub: string, ch: char)
    requires ch in sub && ch !in s
    ensures !Includes(s, sub)
    decreases |s|
  {
    if |sub| <= |s| {
      if 0 < |s| {
        assert forall c :: c in s[1..] ==> c in s;
        AbsentCharExcludes(s[1..], sub, ch);
      }
    }
  }
}
