/** Values shared by every part of the dashboard model: optional values and
    results, local files, media keys, and the handful of JavaScript string and
    array behaviours the source relies on (truthiness of keys, `filter` by
    index, `startsWith`, decimal rendering of a count). */
module Common {

  datatype Option<+T> = None | Some(value: T)

  /** A thrown `Error`: its `message`, and for a failed HTTP call the
      `response.data.message` the server sent, if any. */
  datatype Error = Error(message: string, serverMessage: Option<string>)

  /** `new Error(message)` raised on the client: there is no server reply. */
  function Thrown(message: string): (e: Error)
    ensures e.message == message && e.serverMessage.None?
  {
    Error(message, None)
  }

  /** A settled promise: its value, or the error it was rejected with. */
  datatype Result<+T> = Success(value: T) | Failure(error: Error)

  /** The HTTP methods of the record endpoints that carry a body. */
  datatype Verb = Post | Put

  /** An opaque storage-object identifier such as "images/<uuid>"; the empty
      string stands for "no key" throughout the source. */
  type MediaKey = string

  /** A browser `File`: an identity, the file name, and its MIME type. */
  datatype File = File(id: nat, name: string, mimeType: string)

  /** JavaScript truthiness of an optional string (`undefined`, `null` and ""
      are falsy). */
  predicate Truthy(o: Option<string>)
  {
    o.Some? && o.value != ""
  }

  /** `s || undefined` for a key: the empty key becomes absent. */
  function KeyOrAbsent(k: MediaKey): (o: Option<MediaKey>)
    ensures o.Some? <==> k != ""
    ensures o.Some? ==> o.value == k
  {
    if k == "" then None else Some(k)
  }

  /** `o || undefined` for an optional key: a falsy key becomes absent. */
  function TruthyOrAbsent(o: Option<MediaKey>): (r: Option<MediaKey>)
    ensures r.Some? <==> Truthy(o)
    ensures r.Some? ==> r == o
  {
    if Truthy(o) then o else None
  }

  /** `s.startsWith(prefix)`. */
  predicate StartsWith(s: string, prefix: string)
  {
    |prefix| <= |s| && s[..|prefix|] == prefix
  }

  /** `xs.filter((_, j) => j !== i)`: drops the element at index `i`, if any. */
  function RemoveAt<T>(xs: seq<T>, i: int): (r: seq<T>)
    ensures 0 <= i < |xs| ==> |r| == |xs| - 1
    ensures !(0 <= i < |xs|) ==> r == xs
    ensures forall j :: 0 <= j < |r| && j < i ==> r[j] == xs[j]
    ensures forall j :: 0 <= i <= j < |r| ==> r[j] == xs[j + 1]
  {
    if 0 <= i < |xs| then xs[..i] + xs[i + 1..] else xs
  }

  /** Removing an index removes exactly one occurrence of the element there. */
  lemma RemoveAtMultiset<T>(xs: seq<T>, i: int)
    requires 0 <= i < |xs|
    ensures multiset(RemoveAt(xs, i)) == multiset(xs) - multiset{xs[i]}
  {
    assert xs == xs[..i] + [xs[i]] + xs[i + 1..];
    assert multiset(xs) == multiset(xs[..i]) + multiset{xs[i]} + multiset(xs[i + 1..]);
  }

  /** `xs.filter(x => x !== y)`. */
  function Without<T(==)>(xs: seq<T>, y: T): (r: seq<T>)
    ensures y !in r
    ensures forall x :: x in r ==> x in xs
    ensures |r| <= |xs|
  {
    if xs == [] then []
    else if xs[0] == y then Without(xs[1..], y)
    else [xs[0]] + Without(xs[1..], y)
  }

  /** Filtering distributes over concatenation, so the relative order of the
      elements kept is the order they had. */
  lemma {:induction false} WithoutAppend<T>(a: seq<T>, b: seq<T>, y: T)
    ensures Without(a + b, y) == Without(a, y) + Without(b, y)
  {
    if a == [] {
      assert a + b == b;
    } else {
      assert (a + b)[1..] == a[1..] + b;
      WithoutAppend(a[1..], b, y);
    }
  }

  /** Filtering removes every occurrence of `y` and keeps every other element
      as often as it occurred. */
  lemma {:induction false} WithoutMultiset<T>(xs: seq<T>, y: T)
    ensures forall x :: multiset(Without(xs, y))[x] == if x == y then 0 else multiset(xs)[x]
  {
    if xs != [] {
      WithoutMultiset(xs[1..], y);
      assert xs == [xs[0]] + xs[1..];
      if xs[0] != y {
        assert Without(xs, y) == [xs[0]] + Without(xs[1..], y);
      }
    }
  }

  /** Decimal digit for 0..9. */
  function Digit(d: nat): (c: char)
    requires d < 10
    ensures '0' <= c <= '9' && c as int - '0' as int == d
  {
    ('0' as int + d) as char
  }

  predicate AllDigits(s: string)
  {
    forall i :: 0 <= i < |s| ==> '0' <= s[i] <= '9'
  }

  /** The number a string of decimal digits denotes, most significant first. */
  function DecimalValue(s: string): nat
    requires AllDigits(s)
  {
    if s == [] then 0 else 10 * DecimalValue(s[..|s| - 1]) + (s[|s| - 1] as int - '0' as int)
  }

  /** `String(n)` for a natural number: the digits that denote `n`, with no
      leading zero. */
  function NatToString(n: nat): (s: string)
    ensures |s| >= 1 && AllDigits(s)
    ensures DecimalValue(s) == n
    ensures s[0] == '0' ==> s == "0"
    decreases n
  {
    if n < 10 then [Digit(n)]
    else
      var p := NatToString(n / 10);
      assert (p + [Digit(n % 10)])[..|p|] == p;
      p + [Digit(n % 10)]
  }
}
