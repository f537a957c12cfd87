/** In-place descending sort by a numeric key, as `array.sort((a, b) =>
    key(b) - key(a))` does it: the array itself is reordered. */
module Ordenacao {

  predicate DecrescentePor<T>(s: seq<T>, chave: T -> real) {
    forall i, j :: 0 <= i < j < |s| ==> chave(s[i]) >= chave(s[j])
  }

  /** Insertion sort by adjacent swaps: each element moves left past every
      smaller-keyed one, never past an equal one. */
  method OrdenarDecrescente<T>(a: array<T>, chave: T -> real)
    modifies a
    ensures DecrescentePor(a[..], chave)
    ensures multiset(a[..]) == multiset(old(a[..]))
  {
    if a.Length == 0 {
      return;
    }
    var i := 1;
    while i < a.Length
      invariant 1 <= i <= a.Length
      invariant forall x, y :: 0 <= x < y < i ==> chave(a[x]) >= chave(a[y])
      invariant multiset(a[..]) == multiset(old(a[..]))
    {
      var j := i;
      while j > 0 && chave(a[j - 1]) < chave(a[j])
        invariant 0 <= j <= i
        invariant forall x, y :: 0 <= x < y <= i && x != j && y != j ==> chave(a[x]) >= chave(a[y])
        invariant forall y :: j < y <= i ==> chave(a[j]) >= chave(a[y])
        invariant multiset(a[..]) == multiset(old(a[..]))
      {
        Trocar(a, j - 1, j);
        j := j - 1;
      }
      i := i + 1;
    }
  }

  /** Swaps two cells; the contents stay a permutation. */
  method Trocar<T>(a: array<T>, p: int, q: int)
    requires 0 <= p < a.Length && 0 <= q < a.Length
    modifies a
    ensures a[p] == old(a[q]) && a[q] == old(a[p])
    ensures forall k :: 0 <= k < a.Length && k != p && k != q ==> a[k] == old(a[k])
    ensures multiset(a[..]) == multiset(old(a[..]))
  {
    a[p], a[q] := a[q], a[p];
  }

  /** The first `n` elements (all of them when there are fewer): `slice(0, n)`. */
  function Primeiros<T>(s: seq<T>, n: nat): (r: seq<T>)
    ensures |r| == if |s| < n then |s| else n
    ensures r == s[..|r|]
  {
    if |s| <= n then s else s[..n]
  }

  /** The leaders of a descending order have keys no smaller than anyone else's. */
  lemma PrimeirosSaoMaiores<T>(s: seq<T>, chave: T -> real, n: nat, i: int, j: int)
    requires DecrescentePor(s, chave)
    requires 0 <= i < |Primeiros(s, n)| <= j < |s|
    ensures chave(Primeiros(s, n)[i]) >= chave(s[j])
  {
  }
}
