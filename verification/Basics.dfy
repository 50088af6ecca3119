/** Vocabulary shared by every module: options, error codes, sums over key lists, and the
    string clean-up the services apply to currencies and owner references. */
module Basics {

  datatype Option<+T> = None | Some(value: T)

  /** The domain error codes the stores answer with. */
  datatype Code =
    | Validation | NotFound | AlreadyExists | LimitExceeded
    | ConsentExpired | ConsentRevoked | ConsentInactive | Conflict | Internal

  datatype Result<+T> = Ok(value: T) | Err(code: Code)

  // ---------- sums over the keys of a table, in insertion order ----------

  function Sum<K>(keys: seq<K>, f: K -> int): int {
    if keys == [] then 0 else Sum(keys[..|keys| - 1], f) + f(keys[|keys| - 1])
  }

  ghost predicate Distinct<K>(keys: seq<K>) {
    forall i, j :: 0 <= i < j < |keys| ==> keys[i] != keys[j]
  }

  lemma SumAppend<K>(keys: seq<K>, k: K, f: K -> int)
    ensures Sum(keys + [k], f) == Sum(keys, f) + f(k)
  {
    assert (keys + [k])[..|keys|] == keys;
  }

  lemma {:induction false} SumCongruent<K>(keys: seq<K>, f: K -> int, g: K -> int)
    requires forall k :: k in keys ==> f(k) == g(k)
    ensures Sum(keys, f) == Sum(keys, g)
  {
    if keys != [] {
      SumCongruent(keys[..|keys| - 1], f, g);
    }
  }

  lemma {:induction false} SumMonotone<K>(keys: seq<K>, f: K -> int, g: K -> int)
    requires forall k :: k in keys ==> f(k) <= g(k)
    ensures Sum(keys, f) <= Sum(keys, g)
  {
    if keys != [] {
      SumMonotone(keys[..|keys| - 1], f, g);
    }
  }

  lemma {:induction false} SumAdd<K>(keys: seq<K>, f: K -> int, g: K -> int, h: K -> int)
    requires forall k :: k in keys ==> h(k) == f(k) + g(k)
    ensures Sum(keys, h) == Sum(keys, f) + Sum(keys, g)
  {
    if keys != [] {
      SumAdd(keys[..|keys| - 1], f, g, h);
    }
  }

  /** Changing the term of one key moves the sum by exactly that key's change. */
  lemma {:induction false} SumChangeOne<K>(keys: seq<K>, k: K, f: K -> int, g: K -> int)
    requires Distinct(keys) && k in keys
    requires forall x :: x in keys && x != k ==> f(x) == g(x)
    ensures Sum(keys, g) == Sum(keys, f) + g(k) - f(k)
  {
    var n := |keys| - 1;
    var front := keys[..n];
    assert keys == front + [keys[n]];
    if keys[n] == k {
      assert k !in front;
      SumCongruent(front, f, g);
    } else {
      SumChangeOne(front, k, f, g);
    }
  }

  lemma DistinctAppend<K>(keys: seq<K>, k: K)
    requires Distinct(keys) && k !in keys
    ensures Distinct(keys + [k])
  {
  }

  // ---------- 64-bit integers ----------

  const INT64_MAX: int := 0x7fff_ffff_ffff_ffff
  const INT32_MAX: int := 0x7fff_ffff
  const TWO_64: int := 0x1_0000_0000_0000_0000

  predicate IsInt64(x: int) {
    -INT64_MAX - 1 <= x <= INT64_MAX
  }

  /** Two's-complement wrap-around of a 64-bit result. */
  function Wrap64(x: int): (r: int)
    ensures IsInt64(r)
    ensures (x - r) % TWO_64 == 0
  {
    if IsInt64(x) then x else (x + INT64_MAX + 1) % TWO_64 - INT64_MAX - 1
  }

  /** Two integers wrap to the same value exactly when they differ by a multiple of 2^64. */
  lemma WrapEqual(a: int, b: int)
    ensures Wrap64(a) == Wrap64(b) <==> (a - b) % TWO_64 == 0
  {
    var p, q := (a - Wrap64(a)) / TWO_64, (b - Wrap64(b)) / TWO_64;
    assert a - b == Wrap64(a) - Wrap64(b) + (p - q) * TWO_64;
    if (a - b) % TWO_64 == 0 {
      var m := (a - b) / TWO_64;
      assert Wrap64(a) - Wrap64(b) == (m - p + q) * TWO_64;
    }
  }

  /** Division truncating toward zero. */
  function TruncDiv(a: int, b: int): int
    requires b > 0
  {
    if a >= 0 then a / b else -((-a) / b)
  }

  // ---------- strings of single-byte characters ----------

  predicate IsSpace(c: char) {
    c == ' ' || c == '\t' || c == '\n' || c == '\r' || c == '\U{0B}' || c == '\U{0C}'
  }

  function Trim(s: string): string
    decreases |s|
  {
    if s == "" then ""
    else if IsSpace(s[0]) then Trim(s[1..])
    else if IsSpace(s[|s| - 1]) then Trim(s[..|s| - 1])
    else s
  }

  function Upper(s: string): (r: string)
    ensures |r| == |s|
  {
    if s == "" then ""
    else
      var c := s[|s| - 1];
      Upper(s[..|s| - 1]) + [if 'a' <= c <= 'z' then c - 'a' + 'A' else c]
  }

  /** Upper-casing touches the letters a to z and nothing else. */
  lemma {:induction false} UpperIs(s: string, i: nat)
    requires i < |s|
    ensures Upper(s)[i] == if 'a' <= s[i] <= 'z' then s[i] - 'a' + 'A' else s[i]
  {
    if i < |s| - 1 {
      UpperIs(s[..|s| - 1], i);
    }
  }

  predicate Blank(s: string) {
    forall i :: 0 <= i < |s| ==> IsSpace(s[i])
  }

  /** `t` is `s` from `i` to `j`, with nothing but white space around it. */
  predicate CutAt(s: string, t: string, i: int, j: int) {
    0 <= i <= j <= |s| && t == s[i..j] && Blank(s[..i]) && Blank(s[j..])
  }

  lemma CutFront(s: string, t: string, i: int, j: int)
    requires s != "" && IsSpace(s[0]) && CutAt(s[1..], t, i, j)
    ensures CutAt(s, t, i + 1, j + 1)
  {
    assert s[..i + 1] == [s[0]] + s[1..][..i];
    assert s[j + 1..] == s[1..][j..];
  }

  lemma CutBack(s: string, t: string, i: int, j: int)
    requires s != "" && IsSpace(s[|s| - 1]) && CutAt(s[..|s| - 1], t, i, j)
    ensures CutAt(s, t, i, j)
  {
    var front := s[..|s| - 1];
    assert front[..i] == s[..i] && front[i..j] == s[i..j];
    assert s[j..] == front[j..] + [s[|s| - 1]];
  }

  /** Trimming cuts white space, and nothing else, off both ends, and all of it. */
  lemma {:induction false} TrimIs(s: string)
    ensures Trim(s) == "" || (!IsSpace(Trim(s)[0]) && !IsSpace(Trim(s)[|Trim(s)| - 1]))
    ensures exists i, j :: CutAt(s, Trim(s), i, j)
    decreases |s|
  {
    if s == "" {
      assert CutAt(s, "", 0, 0);
    } else if IsSpace(s[0]) {
      TrimIs(s[1..]);
      var i, j :| CutAt(s[1..], Trim(s[1..]), i, j);
      CutFront(s, Trim(s[1..]), i, j);
    } else if IsSpace(s[|s| - 1]) {
      TrimIs(s[..|s| - 1]);
      var i, j :| CutAt(s[..|s| - 1], Trim(s[..|s| - 1]), i, j);
      CutBack(s, Trim(s[..|s| - 1]), i, j);
    } else {
      assert CutAt(s, s, 0, |s|);
    }
  }

  /** The currency clean-up applied by the payment and the ledger service. */
  function NormaliseCurrency(s: string): string {
    Upper(Trim(s))
  }

  /** Payment ids handed out by the platform are UUID strings: 36 characters. */
  predicate ClientId(id: string) {
    |id| == 36
  }

  /** The key under which the ledger stores the reversal of a payment. */
  function Rev(id: string): string {
    id + "-rev"
  }

  lemma RevNotClient(id: string)
    requires ClientId(id)
    ensures !ClientId(Rev(id))
  {
    assert |Rev(id)| == |id| + 4;
  }

  lemma RevInjective(a: string, b: string)
    requires Rev(a) == Rev(b)
    ensures a == b
  {
    assert |Rev(a)| == |a| + 4 && |Rev(b)| == |b| + 4;
    assert Rev(a)[..|a|] == a && Rev(b)[..|b|] == b;
  }
}
