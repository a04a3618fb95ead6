/** Values shared by every part of the billing model: optional values, the
    outcome of a call on an external service, and the sequence searches that
    stand for the list/find calls of the handlers. */
module Common {

  /** The id of an object the payment gateway created (customer, product,
      price, checkout or portal session, payment intent, charge). */
  type GatewayId = nat

  datatype Option<+T> = None | Some(value: T) {
    function GetOr(default: T): T {
      match this
      case Some(v) => v
      case None => default
    }
  }

  /** A call on the store or the gateway either returns a value or throws an
      error carrying a message. */
  datatype Result<+T> = Success(value: T) | Failure(error: string)

  /** What a call on an external service returned, and the state of that
      service afterwards. */
  datatype Step<+T, +S> = Step(result: Result<T>, state: S)

  /** The index of the first element of `s` that `matches`, the way
      `Array.prototype.find` (and a unique-key lookup) scans a list. */
  function FirstIndex<T>(s: seq<T>, matches: T -> bool): (r: Option<nat>)
    ensures r.Some? ==> r.value < |s| && matches(s[r.value])
    ensures r.Some? ==> forall j :: 0 <= j < r.value ==> !matches(s[j])
    ensures r.None? <==> forall j :: 0 <= j < |s| ==> !matches(s[j])
  {
    if |s| == 0 then None
    else if matches(s[0]) then Some(0)
    else match FirstIndex(s[1..], matches)
      case None => None
      case Some(i) => Some(i + 1)
  }

  /** The first element of `s` that `matches`, or None: `s.find(matches)`. */
  function First<T>(s: seq<T>, matches: T -> bool): (r: Option<T>)
    ensures r.Some? <==> exists j :: 0 <= j < |s| && matches(s[j])
    ensures r.Some? ==> exists j :: 0 <= j < |s| && s[j] == r.value && matches(r.value)
                                    && forall k :: 0 <= k < j ==> !matches(s[k])
  {
    match FirstIndex(s, matches)
    case None => None
    case Some(i) => Some(s[i])
  }

  /** The elements of `s` that `keep`, in their order. */
  function Filter<T>(s: seq<T>, keep: T -> bool): (r: seq<T>)
    ensures |r| <= |s|
    ensures forall i :: 0 <= i < |r| ==> r[i] in s && keep(r[i])
    ensures forall i :: 0 <= i < |s| && keep(s[i]) ==> s[i] in r
  {
    if |s| == 0 then []
    else if keep(s[0]) then [s[0]] + Filter(s[1..], keep)
    else Filter(s[1..], keep)
  }

  /** The page a list call with `limit` returns: the first `limit` items. */
  function Page<T>(s: seq<T>, limit: nat): (p: seq<T>)
    ensures |p| == if |s| <= limit then |s| else limit
    ensures |s| <= limit ==> p == s
    ensures forall i :: 0 <= i < |p| ==> p[i] == s[i]
  {
    if |s| <= limit then s else s[..limit]
  }

  /** A search of one element and then a rest finds that element when it
      matches: what a list that puts the newest object first gives a search
      right after that object was created. */
  lemma {:induction false} FirstOfPrepended<T>(x: T, s: seq<T>, matches: T -> bool)
    requires matches(x)
    ensures First([x] + s, matches) == Some(x)
  {
    assert ([x] + s)[0] == x;
  }

  /** The first page of a list with one object in front is that object
      followed by the first page of the rest. */
  lemma {:induction false} PageOfPrepended<T>(x: T, s: seq<T>, limit: nat)
    requires limit > 0
    ensures Page([x] + s, limit) == [x] + Page(s, limit - 1)
  {
    var l := [x] + s;
    var p := Page(l, limit);
    var q := [x] + Page(s, limit - 1);
    assert |p| == |q|;
    forall i | 0 <= i < |p| ensures p[i] == q[i] {
      if i > 0 { assert q[i] == Page(s, limit - 1)[i - 1] == s[i - 1]; }
    }
  }

  /** Filtering a list with one object in front that is kept puts it in
      front of the filtered rest. */
  lemma {:induction false} FilterOfPrepended<T>(x: T, s: seq<T>, keep: T -> bool)
    requires keep(x)
    ensures Filter([x] + s, keep) == [x] + Filter(s, keep)
  {
    assert ([x] + s)[1..] == s;
  }

  /** Nothing is kept from a list none of whose elements is kept. */
  lemma {:induction false} FilterNoneKept<T>(s: seq<T>, keep: T -> bool)
    requires forall i :: 0 <= i < |s| ==> !keep(s[i])
    ensures Filter(s, keep) == []
  {
    if |s| > 0 {
      FilterNoneKept(s[1..], keep);
    }
  }
}
