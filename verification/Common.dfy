/** Shared vocabulary: results in place of C++ exceptions, and duplicate-free index sequences. */
module Common {
  datatype Option<+T> = None | Some(value: T)

  /** The exception classes the allocator and the sequence layer throw. */
  datatype Error =
    | CapacityError
    | OverflowError
    | InvalidArgument
    | OutOfRange
    | LogicError
    | CallbackError  // a user-supplied hasher or copier threw
    | DeviceError    // a transfer could not be started or did not arrive

  datatype Result<+T> = Ok(value: T) | Err(error: Error)

  /** The source's `none`: an index that names no slot (`SIZE_MAX` there). */
  const NONE: int := -1

  /** Largest value of the source's 64-bit `size_t` and `std::uint64_t`. */
  const MAX64: nat := 0xFFFF_FFFF_FFFF_FFFF

  type Token = t: int | -0x8000_0000 <= t < 0x8000_0000
  type Tokens = seq<Token>

  type Byte = b: int | 0 <= b < 256

  type Payload = seq<Byte>

  ghost predicate NoDup<T>(s: seq<T>) {
    forall i, j :: 0 <= i < j < |s| ==> s[i] != s[j]
  }

  /** `s` with the first occurrence of `x` removed, the rest in order. */
  function Without<T(==)>(s: seq<T>, x: T): (r: seq<T>)
    ensures x !in s ==> r == s
    ensures x in s ==> |r| == |s| - 1
    ensures forall y :: y in r ==> y in s
    ensures forall y :: y in s && y != x ==> y in r
  {
    if s == [] then []
    else if s[0] == x then s[1..]
    else
      assert s == [s[0]] + s[1..];
      [s[0]] + Without(s[1..], x)
  }

  /** Removing the element at position `k` of a duplicate-free sequence cuts it out there. */
  lemma {:induction false} WithoutAt<T>(s: seq<T>, k: nat)
    requires NoDup(s) && k < |s|
    ensures Without(s, s[k]) == s[..k] + s[k + 1..]
  {
    if k != 0 {
      WithoutAt(s[1..], k - 1);
      assert s[..k] == [s[0]] + s[1..][..k - 1];
      assert s[k + 1..] == s[1..][k..];
    }
  }

  /** `rest` is `s` with position `k` cut out. */
  ghost predicate CutsAt<T>(s: seq<T>, k: nat, rest: seq<T>)
    requires k < |s|
  {
    && NoDup(rest)
    && |rest| == |s| - 1
    && (forall j {:trigger rest[j]} :: 0 <= j < |rest| ==> rest[j] == if j < k then s[j] else s[j + 1])
    && (forall x :: x in s && x != s[k] ==> x in rest)
  }

  lemma ConcatCuts<T>(s: seq<T>, k: nat, rest: seq<T>)
    requires NoDup(s) && k < |s| && rest == s[..k] + s[k + 1..]
    ensures CutsAt(s, k, rest)
  {
    forall x | x in s && x != s[k] ensures x in rest {
      var j :| 0 <= j < |s| && s[j] == x;
      assert rest[if j < k then j else j - 1] == x;
    }
  }

  lemma WithoutCuts<T>(s: seq<T>, k: nat)
    requires NoDup(s) && k < |s|
    ensures CutsAt(s, k, Without(s, s[k]))
  {
    WithoutAt(s, k);
    ConcatCuts(s, k, Without(s, s[k]));
  }

  lemma WithoutNoDup<T>(s: seq<T>, x: T)
    requires NoDup(s)
    ensures NoDup(Without(s, x)) && x !in Without(s, x)
  {
    if x in s {
      var k :| 0 <= k < |s| && s[k] == x;
      WithoutCuts(s, k);
    }
  }

  /** Moving `x` to the end, or appending it. */
  lemma TouchNoDup<T>(s: seq<T>, x: T)
    requires NoDup(s)
    ensures NoDup(Without(s, x) + [x])
    ensures forall y :: y in Without(s, x) + [x] <==> y in s || y == x
  {
    WithoutNoDup(s, x);
  }

  lemma NoDupTail<T>(s: seq<T>)
    requires NoDup(s) && s != []
    ensures NoDup(s[1..]) && Without(s, s[0]) == s[1..]
    ensures forall x :: x in s[1..] <==> x in s && x != s[0]
  {
    assert s == [s[0]] + s[1..];
  }

  lemma UpdateTwice<T>(s: seq<T>, i: nat, x: T, y: T)
    requires i < |s|
    ensures s[i := x][i := y] == s[i := y]
  {
  }

  lemma TakeSnoc<T>(s: seq<T>, k: nat)
    requires k < |s|
    ensures s[..k + 1] == s[..k] + [s[k]] && s[..k + 1][..k] == s[..k]
  {
  }

  lemma DropSnoc<T>(s: seq<T>, x: T, k: nat)
    requires k <= |s|
    ensures (s + [x])[k..] == s[k..] + [x]
    ensures (s + [x])[..|s|] == s
  {
  }

  lemma HeadMoves<T>(a: seq<T>, b: seq<T>)
    requires b != []
    ensures (a + [b[0]]) + b[1..] == a + b && b[0] in a + b
  {
    assert (a + b)[|a|] == b[0];
  }

  lemma DropLast<T>(s: seq<T>, k: nat)
    requires k < |s|
    ensures s[..|s| - 1][k..] == s[k..][..|s| - k - 1]
    ensures s[k..][|s| - k - 1] == s[|s| - 1]
  {
  }

  lemma SliceGrows<T>(s: seq<T>, a: nat, b: nat)
    requires a <= b <= |s|
    ensures s[..a] + s[a..b] == s[..b]
  {
  }

  function CeilDiv(n: nat, d: nat): nat
    requires d > 0
  {
    n / d + (if n % d != 0 then 1 else 0)
  }

  /** Always true. A predicate whose body is long is folded by writing it as
      `forall t {:trigger Unseal(t)} :: t == s ==> Body(t)`: it then says `Body(s)`, and the solver looks inside only
      where a proof mentions `Unseal(s)`. Each such predicate has a lemma that opens it and one that closes it. */
  predicate Unseal<T(!new)>(t: T) {
    true
  }
}
