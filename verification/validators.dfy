/** Request validators: the verdict of `validate` with its de-duplicated,
    joined message, and the custom checks `isLongLatArray` and `isInThePast`. */
module Validators {
  import opened Common
  import EventModel

  // ----- the validation message -------------------------------------------

  predicate NoDuplicates(s: seq<string>) {
    forall i, j :: 0 <= i < j < |s| ==> s[i] != s[j]
  }

  /** Index of the first occurrence of `x` in `s`. */
  function FirstIndex(s: seq<string>, x: string): (i: nat)
    requires x in s
    ensures i < |s| && s[i] == x
    ensures forall j :: 0 <= j < i ==> s[j] != x
  {
    if s[0] == x then 0 else 1 + FirstIndex(s[1..], x)
  }

  /** `[...new Set(s)]`: each element once, in the order a Set built from `s`
      first receives it. */
  function Dedup(s: seq<string>): (r: seq<string>)
    ensures forall x :: x in r <==> x in s
    ensures NoDuplicates(r)
    ensures |r| <= |s|
  {
    if s == [] then []
    else
      var d := Dedup(s[..|s| - 1]);
      var x := s[|s| - 1];
      assert forall y :: y in s <==> y in s[..|s| - 1] || y == x by {
        assert s == s[..|s| - 1] + [x];
      }
      if x in d then d else d + [x]
  }

  /** A first occurrence inside a prefix is the first occurrence in the whole. */
  lemma {:induction false} FirstIndexOfPrefix(s: seq<string>, n: nat, x: string)
    requires n <= |s| && x in s[..n]
    ensures FirstIndex(s, x) == FirstIndex(s[..n], x)
  {
    if s[0] != x {
      assert s[1..][..n - 1] == s[..n][1..];
      FirstIndexOfPrefix(s[1..], n - 1, x);
    }
  }

  /** De-duplication keeps first-occurrence order: an element listed before
      another first occurred earlier in the input. */
  lemma {:induction false} DedupKeepsFirstOccurrenceOrder(s: seq<string>)
    ensures forall i, j :: 0 <= i < j < |Dedup(s)| ==>
              FirstIndex(s, Dedup(s)[i]) < FirstIndex(s, Dedup(s)[j])
  {
    if s != [] {
      var p := s[..|s| - 1];
      var x := s[|s| - 1];
      assert s[..|p|] == p;
      DedupKeepsFirstOccurrenceOrder(p);
      var d := Dedup(p);
      forall y | y in p
        ensures FirstIndex(s, y) == FirstIndex(p, y) < |p|
      {
        FirstIndexOfPrefix(s, |p|, y);
      }
      if x !in d {
        assert x !in p;
        assert FirstIndex(s, x) == |p|;
      }
    }
  }

  /** The combined length of the parts. */
  function TotalLength(parts: seq<string>): nat {
    if |parts| == 0 then 0 else |parts[0]| + TotalLength(parts[1..])
  }

  /** `parts.join(sep)`. */
  function Join(parts: seq<string>, sep: string): (r: string)
    ensures |parts| == 0 ==> r == ""
    ensures |parts| == 1 ==> r == parts[0]
    ensures |parts| > 0 ==> |parts[0]| <= |r| && r[..|parts[0]|] == parts[0]
    ensures |parts| > 0 ==> |r| == TotalLength(parts) + (|parts| - 1) * |sep|
  {
    if |parts| == 0 then ""
    else if |parts| == 1 then parts[0]
    else parts[0] + sep + Join(parts[1..], sep)
  }

  /** Joining one more part appends the separator and the part. */
  lemma {:induction false} JoinAppend(parts: seq<string>, p: string, sep: string)
    requires |parts| > 0
    ensures Join(parts + [p], sep) == Join(parts, sep) + sep + p
  {
    if |parts| > 1 {
      assert (parts + [p])[1..] == parts[1..] + [p];
      JoinAppend(parts[1..], p, sep);
    }
  }

  const Separator := " & "
  const ValidationStatus := 422

  /** The outcome of `validate`: hand on to the next handler, or answer 422. */
  datatype Verdict = Proceed | Reject(status: int, message: string)

  /** `validate`, given the messages of the failed checks in the order the
      checks reported them. */
  function Validate(errorMessages: seq<string>): (v: Verdict)
    ensures v.Proceed? <==> errorMessages == []
    ensures v.Reject? ==> v.status == ValidationStatus
    ensures v.Reject? ==> v.message == Join(Dedup(errorMessages), Separator)
  {
    if errorMessages == [] then Proceed
    else Reject(ValidationStatus, Join(Dedup(errorMessages), Separator))
  }

  /** A message repeated by several failed checks is reported once, and two
      distinct messages are joined in the order they first appeared. */
  lemma ValidateReportsEachMessageOnce(a: string, b: string)
    requires a != b
    ensures Validate([a, a]) == Reject(ValidationStatus, a)
    ensures Validate([a, b, a]) == Reject(ValidationStatus, a + Separator + b)
  {
    assert [a, a][..1] == [a];
    assert Dedup([a, a]) == [a];
    assert [a, b, a][..2] == [a, b];
    assert [a, b][..1] == [a];
    assert Dedup([a, b]) == [a, b];
    assert Dedup([a, b, a]) == [a, b];
    assert Join([a, b], Separator) == a + Separator + Join([b], Separator);
  }

  // ----- isLongLatArray -----------------------------------------------------

  /** A JavaScript value at one index of the coordinates: a number, or
      anything else (a string, `undefined` past the end of the array, ...). */
  datatype JsValue = Num(n: real) | NotNumber

  /** The request parameter handed to `isLongLatArray`. */
  datatype JsParam = JsArray(items: seq<JsValue>) | NotArray

  /** `bodyParam[i]`: `undefined` past the end. */
  function At(items: seq<JsValue>, i: nat): JsValue {
    if i < |items| then items[i] else NotNumber
  }

  /** `v < bound` / `v > bound`: a comparison with a non-number is false. */
  predicate Less(v: JsValue, bound: real) { v.Num? && v.n < bound }
  predicate Greater(v: JsValue, bound: real) { v.Num? && v.n > bound }

  function IsLongLatArray(p: JsParam): (r: Result<bool>)
    ensures r.Ok? ==> r.value
    ensures p.NotArray? ==> r == Error("Not an array of coordinates")
    ensures p.JsArray? && !At(p.items, 0).Num? && !At(p.items, 1).Num? ==>
              r == Error("Invalid Coordinates")
    ensures p.JsArray? && At(p.items, 0).Num? && At(p.items, 1).Num? ==>
              (r.Ok? <==> -180.0 <= At(p.items, 0).n <= 180.0 && -90.0 <= At(p.items, 1).n <= 90.0)
    // the type check rejects only when BOTH entries are non-numbers
    ensures p.JsArray? && At(p.items, 0).Num? && !At(p.items, 1).Num? ==>
              (r.Ok? <==> -180.0 <= At(p.items, 0).n <= 180.0)
    ensures p.JsArray? && !At(p.items, 0).Num? && At(p.items, 1).Num? ==>
              (r.Ok? <==> -90.0 <= At(p.items, 1).n <= 90.0)
  {
    if p.NotArray? then Error("Not an array of coordinates")
    else
      var longitude := At(p.items, 0);
      var latitude := At(p.items, 1);
      if !longitude.Num? && !latitude.Num? then Error("Invalid Coordinates")
      else if Less(longitude, -180.0) || Greater(longitude, 180.0) then Error("Invalid longtitude")
      else if Less(latitude, -90.0) || Greater(latitude, 90.0) then Error("Invalid latitude")
      else Ok(true)
  }

  // ----- isInThePast --------------------------------------------------------

  function IsInThePast(dateTime: Time, now: Time): (r: Result<bool>)
    ensures r.Error? <==> now > dateTime
    ensures r.Error? ==> r.message == "The time is in the past"
    ensures r.Ok? ==> r.value
  {
    if now > dateTime then Error("The time is in the past") else Ok(true)
  }

  /** A time the validator accepts yields an unfinished event when saved at the
      same instant: the validator and the save hook agree on "strictly after". */
  lemma AcceptedTimeSavesUnfinished(e: EventModel.Event, t: Time, now: Time)
    requires e.time == Some(t) && IsInThePast(t, now).Ok?
    ensures !EventModel.PreSave(e, now).isFinished
  {
  }
}
