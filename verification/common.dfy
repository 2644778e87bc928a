/** Shared vocabulary of the event store: identifiers, clock values, optional
    fields, the single failure shape of every service call, and the two array
    operators the document store applies to id lists. */
module Common {

  /** A document identifier (an ObjectId). Only equality between ids is used. */
  type Id = nat

  /** A point in time, in milliseconds since the epoch. */
  type Time = int

  /** A field that may be `undefined`. */
  datatype Option<T> = None | Some(value: T) {
    function GetOr(default: T): T {
      match this
      case Some(v) => v
      case None => default
    }
  }

  /** Every failure is re-wrapped by the services with its message only. */
  datatype Result<T> = Ok(value: T) | Error(message: string)

  /** A named place with `[longitude, latitude]` coordinates. */
  datatype Location = Location(name: Option<string>, coordinates: seq<real>)

  /** The store's `$pull` (and MongooseArray `pull`): every occurrence of `x`
      leaves the list, everything else keeps its order and multiplicity. */
  function Pull(s: seq<Id>, x: Id): (r: seq<Id>)
    ensures forall y :: y in r <==> y in s && y != x
    ensures |r| <= |s|
  {
    if s == [] then [] else if s[0] == x then Pull(s[1..], x) else [s[0]] + Pull(s[1..], x)
  }

  /** Every other id keeps its multiplicity; `x` has none left. */
  lemma {:induction false} PullCounts(s: seq<Id>, x: Id)
    ensures multiset(Pull(s, x)) == multiset(s)[x := 0]
  {
    if s != [] {
      PullCounts(s[1..], x);
      assert s == [s[0]] + s[1..];
    }
  }

  /** Pulling distributes over concatenation, so the ids that stay keep
      their relative order. */
  lemma {:induction false} PullAppend(a: seq<Id>, b: seq<Id>, x: Id)
    ensures Pull(a + b, x) == Pull(a, x) + Pull(b, x)
  {
    if a != [] {
      PullAppend(a[1..], b, x);
      assert (a + b)[1..] == a[1..] + b;
    } else {
      assert a + b == b;
    }
  }

  /** `if (!list.includes(x)) list.push(x)`. */
  function PushIfAbsent(s: seq<Id>, x: Id): (r: seq<Id>)
    ensures forall y :: y in r <==> y in s || y == x
    ensures |s| <= |r| <= |s| + 1 && r[..|s|] == s
    ensures x in s ==> r == s
  {
    if x in s then s else s + [x]
  }

  /** Pulling an id that is not there changes nothing. */
  lemma {:induction false} PullAbsent(s: seq<Id>, x: Id)
    requires x !in s
    ensures Pull(s, x) == s
  {
    if s != [] {
      PullAbsent(s[1..], x);
    }
  }

  /** Pulling an id just pushed onto a list that lacked it restores the list. */
  lemma {:induction false} PullUndoesPush(s: seq<Id>, x: Id)
    requires x !in s
    ensures Pull(PushIfAbsent(s, x), x) == s
  {
    if s == [] {
    } else {
      assert (s + [x])[1..] == s[1..] + [x];
      PullUndoesPush(s[1..], x);
    }
  }
}
