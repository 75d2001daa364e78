/**
 * Vocabulary shared by the three copies of the sale logic: optional values,
 * pass/fail outcomes, and the two array idioms the JavaScript code leans on,
 * `find` (the first element with a given id) and `filter` (every element
 * whose id differs from a given one).
 */
module Common {

  /** The walk-in client every copy seeds its client list with; none of them lets it be deleted. */
  const DEFAULT_CLIENT_ID: int := 1
  /** The walk-in client's name, also the name a sale records when it names no client. */
  const DEFAULT_CLIENT_NAME: string := "Cliente General"

  /** A value that may be absent (a JSON field left out, a `null`). */
  datatype Option<+T> = None | Some(value: T) {
    /** The value, or `default` when absent (JavaScript's `x || default` / destructuring default). */
    function GetOr(default: T): T {
      match this
      case Some(v) => v
      case None => default
    }
  }

  /** A stock level floored at zero: both the SQL `CASE WHEN stock < 0 THEN 0` and `if (stock < 0) stock = 0`. */
  function Clamp(stock: int): (r: int)
    ensures r >= 0 && r >= stock
  {
    if stock < 0 then 0 else stock
  }

  /** The result of an operation that either applies or reports an error and changes nothing. */
  datatype Outcome<+E> = Pass | Fail(error: E)

  /**
   * The index of the first element whose key is `id`, as `Array.prototype.find`
   * locates it; `None` when no element has that key.
   */
  function FirstIndex<T, K(==)>(s: seq<T>, key: T -> K, id: K): (r: Option<nat>)
    ensures r.Some? ==> r.value < |s| && key(s[r.value]) == id
    ensures r.Some? ==> forall j :: 0 <= j < r.value ==> key(s[j]) != id
    ensures r.None? <==> forall j :: 0 <= j < |s| ==> key(s[j]) != id
  {
    if |s| == 0 then None
    else if key(s[0]) == id then Some(0)
    else match FirstIndex(s[1..], key, id)
      case None => None
      case Some(k) => Some(k + 1)
  }

  /** The elements whose key differs from `id`, in their original order (`s.filter(x => key(x) !== id)`). */
  function Without<T, K(==)>(s: seq<T>, key: T -> K, id: K): (r: seq<T>)
    ensures |r| <= |s|
    ensures forall j :: 0 <= j < |r| ==> r[j] in s && key(r[j]) != id
    ensures forall j :: 0 <= j < |s| && key(s[j]) != id ==> s[j] in r
  {
    if |s| == 0 then []
    else if key(s[0]) == id then Without(s[1..], key, id)
    else [s[0]] + Without(s[1..], key, id)
  }

  /** The elements whose key is `id`, in their original order (`s.filter(x => key(x) === id)`). */
  function Only<T, K(==)>(s: seq<T>, key: T -> K, id: K): (r: seq<T>)
    ensures |r| <= |s|
    ensures forall j :: 0 <= j < |r| ==> r[j] in s && key(r[j]) == id
    ensures forall j :: 0 <= j < |s| && key(s[j]) == id ==> s[j] in r
  {
    if |s| == 0 then []
    else if key(s[0]) == id then [s[0]] + Only(s[1..], key, id)
    else Only(s[1..], key, id)
  }

  /** Filtering distributes over concatenation, so it keeps the surviving elements in order. */
  lemma {:induction false} WithoutAppend<T, K>(a: seq<T>, b: seq<T>, key: T -> K, id: K)
    ensures Without(a + b, key, id) == Without(a, key, id) + Without(b, key, id)
  {
    if |a| != 0 {
      assert (a + b)[1..] == a[1..] + b;
      WithoutAppend(a[1..], b, key, id);
    } else {
      assert a + b == b;
    }
  }

  lemma {:induction false} OnlyAppend<T, K>(a: seq<T>, b: seq<T>, key: T -> K, id: K)
    ensures Only(a + b, key, id) == Only(a, key, id) + Only(b, key, id)
  {
    if |a| != 0 {
      assert (a + b)[1..] == a[1..] + b;
      OnlyAppend(a[1..], b, key, id);
    } else {
      assert a + b == b;
    }
  }

  /** Removing a key no element carries changes nothing. */
  lemma {:induction false} WithoutAbsent<T, K>(s: seq<T>, key: T -> K, id: K)
    requires forall j :: 0 <= j < |s| ==> key(s[j]) != id
    ensures Without(s, key, id) == s
  {
    if |s| != 0 {
      WithoutAbsent(s[1..], key, id);
      assert [s[0]] + s[1..] == s;
    }
  }

  /** Removing the key every element carries leaves nothing. */
  lemma {:induction false} WithoutAll<T, K>(s: seq<T>, key: T -> K, id: K)
    requires forall j :: 0 <= j < |s| ==> key(s[j]) == id
    ensures Without(s, key, id) == []
  {
    if |s| != 0 {
      WithoutAll(s[1..], key, id);
    }
  }

  /** Selecting the key every element carries keeps everything. */
  lemma {:induction false} OnlyAll<T, K>(s: seq<T>, key: T -> K, id: K)
    requires forall j :: 0 <= j < |s| ==> key(s[j]) == id
    ensures Only(s, key, id) == s
  {
    if |s| != 0 {
      OnlyAll(s[1..], key, id);
      assert [s[0]] + s[1..] == s;
    }
  }

  /** Selecting a key no element carries yields nothing. */
  lemma {:induction false} OnlyAbsent<T, K>(s: seq<T>, key: T -> K, id: K)
    requires forall j :: 0 <= j < |s| ==> key(s[j]) != id
    ensures Only(s, key, id) == []
  {
    if |s| != 0 {
      OnlyAbsent(s[1..], key, id);
    }
  }
}
