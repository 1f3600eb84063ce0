/** Identifiers, wrappers and the generic counting helper shared by every module. */
module Common {

  // Mongo ObjectIds are opaque; the model only needs equality on them.
  type UserId = nat
  type LotId = nat
  type SlotId = nat
  type BookingId = nat
  type ReviewId = nat

  datatype Option<+T> = None | Some(value: T) {
    function GetOr(default: T): T {
      match this
      case Some(v) => v
      case None => default
    }
  }

  /** A field of a request body or query: missing (or falsy), present but not
      parseable into the expected type, or parsed. */
  datatype Field<+T> = Absent | Malformed | Given(value: T)

  datatype Result<+T, +E> = Ok(value: T) | Err(error: E)

  /** The HTTP status a controller answers with. */
  datatype Reply =
    | Ok200
    | Created201
    | NoContent204
    | BadRequest400
    | Unauthorized401
    | Forbidden403
    | NotFound404
    | ServerError500

  function Ind(b: bool): nat { if b then 1 else 0 }

  /** `xs.filter(p).length`, counted from the back so that pushes are cheap to reason about. */
  function Count<T>(s: seq<T>, p: T -> bool): (n: nat)
    ensures n <= |s|
  {
    if s == [] then 0 else Count(s[..|s| - 1], p) + Ind(p(s[|s| - 1]))
  }

  lemma {:induction false} CountAppend<T>(a: seq<T>, b: seq<T>, p: T -> bool)
    ensures Count(a + b, p) == Count(a, p) + Count(b, p)
    decreases |b|
  {
    if b == [] {
      assert a + b == a;
    } else {
      var b' := b[..|b| - 1];
      assert (a + b)[..|a + b| - 1] == a + b';
      CountAppend(a, b', p);
    }
  }

  lemma {:induction false} CountSingle<T>(x: T, p: T -> bool)
    ensures Count([x], p) == Ind(p(x))
  {
    assert [x][..0] == [];
  }

  /** Replacing one element moves the count by what that element contributed. */
  lemma {:induction false} CountUpdate<T>(s: seq<T>, i: nat, x: T, p: T -> bool)
    requires i < |s|
    ensures Count(s[i := x], p) == Count(s, p) - Ind(p(s[i])) + Ind(p(x))
  {
    assert s == s[..i] + [s[i]] + s[i + 1..];
    assert s[i := x] == s[..i] + [x] + s[i + 1..];
    CountAppend(s[..i] + [s[i]], s[i + 1..], p);
    CountAppend(s[..i], [s[i]], p);
    CountAppend(s[..i] + [x], s[i + 1..], p);
    CountAppend(s[..i], [x], p);
    CountSingle(s[i], p);
    CountSingle(x, p);
  }

  /** Removing one element takes away exactly what it contributed. */
  lemma {:induction false} CountRemove<T>(s: seq<T>, i: nat, p: T -> bool)
    requires i < |s|
    ensures Count(s[..i] + s[i + 1..], p) == Count(s, p) - Ind(p(s[i]))
  {
    assert s == s[..i] + [s[i]] + s[i + 1..];
    CountAppend(s[..i] + [s[i]], s[i + 1..], p);
    CountAppend(s[..i], [s[i]], p);
    CountAppend(s[..i], s[i + 1..], p);
    CountSingle(s[i], p);
  }

  /** The count is zero exactly when no element satisfies the predicate. */
  lemma {:induction false} CountZero<T>(s: seq<T>, p: T -> bool)
    ensures Count(s, p) == 0 <==> forall i :: 0 <= i < |s| ==> !p(s[i])
  {
    if s != [] {
      var s' := s[..|s| - 1];
      CountZero(s', p);
      assert forall i :: 0 <= i < |s'| ==> s'[i] == s[i];
    }
  }

  /** The count equals the length exactly when every element satisfies the predicate. */
  lemma {:induction false} CountFull<T>(s: seq<T>, p: T -> bool)
    ensures Count(s, p) == |s| <==> forall i :: 0 <= i < |s| ==> p(s[i])
  {
    if s != [] {
      var s' := s[..|s| - 1];
      CountFull(s', p);
      assert forall i :: 0 <= i < |s'| ==> s'[i] == s[i];
    }
  }
}
