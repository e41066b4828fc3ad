/** The per-case advisory lock: the key it is taken on and the bounded loop that
    takes it. */
module CaseLock {
  import opened Vocabulary

  // ----- keys -----------------------------------------------------------------

  const TWO_32: int := 0x1_0000_0000
  const TWO_31: int := 0x8000_0000
  const TWO_64: int := TWO_32 * TWO_32

  function Signed(u: int): (i: int)
    requires 0 <= u < TWO_32
    ensures -TWO_31 <= i < TWO_31
  {
    if u >= TWO_31 then u - TWO_32 else u
  }

  /** `_case_lock_keys`: the two low 32-bit words of the 128-bit id, as int4. */
  function Keys(id: nat): (k: (int, int))
    ensures -TWO_31 <= k.0 < TWO_31 && -TWO_31 <= k.1 < TWO_31
  {
    (Signed(id % TWO_32), Signed((id / TWO_32) % TWO_32))
  }

  lemma SignedIsInjective(a: int, b: int)
    requires 0 <= a < TWO_32 && 0 <= b < TWO_32
    ensures Signed(a) == Signed(b) <==> a == b
  {
  }

  lemma LowWords(id: nat)
    ensures id % TWO_64 == ((id / TWO_32) % TWO_32) * TWO_32 + id % TWO_32
  {
    var high, mid, low := id / TWO_32 / TWO_32, (id / TWO_32) % TWO_32, id % TWO_32;
    assert id == (high * TWO_32 + mid) * TWO_32 + low;
    assert (high * TWO_32 + mid) * TWO_32 == high * TWO_64 + mid * TWO_32;
    assert 0 <= mid * TWO_32 + low < TWO_64;
    RemainderIs(id, high, mid * TWO_32 + low);
  }

  lemma RemainderIs(n: int, q: int, r: int)
    requires n == q * TWO_64 + r && 0 <= r < TWO_64
    ensures n % TWO_64 == r
  {
  }

  /** Two cases take the same advisory key exactly when their ids agree on their low
      64 bits. */
  lemma KeysMeet(a: nat, b: nat)
    ensures Keys(a) == Keys(b) <==> a % 0x1_0000_0000_0000_0000 == b % 0x1_0000_0000_0000_0000
  {
    LowWords(a);
    LowWords(b);
    SignedIsInjective(a % TWO_32, b % TWO_32);
    SignedIsInjective((a / TWO_32) % TWO_32, (b / TWO_32) % TWO_32);
    WordsAreUnique((a / TWO_32) % TWO_32, a % TWO_32, (b / TWO_32) % TWO_32, b % TWO_32);
  }

  lemma WordsAreUnique(h1: int, l1: int, h2: int, l2: int)
    requires 0 <= l1 < TWO_32 && 0 <= l2 < TWO_32
    ensures h1 * TWO_32 + l1 == h2 * TWO_32 + l2 <==> h1 == h2 && l1 == l2
  {
    if h1 * TWO_32 + l1 == h2 * TWO_32 + l2 {
      assert (h1 - h2) * TWO_32 == l2 - l1;
    }
  }

  /** So different ids may well share a key: it takes no collision of whole ids. */
  lemma DifferentIdsCanMeet(a: nat)
    ensures Keys(a + 0x1_0000_0000_0000_0000) == Keys(a)
  {
    var r := a % TWO_64;
    assert a + TWO_64 == (a / TWO_64 + 1) * TWO_64 + r;
    RemainderIs(a + TWO_64, a / TWO_64 + 1, r);
    KeysMeet(a, a + TWO_64);
  }

  // ----- the retry loop -------------------------------------------------------

  // in milliseconds
  const MAX_WAIT: int := 30_000
  const RETRY_BASE: int := 100

  const MOST_TRIES: nat := 301

  /** The readings of one caller's clock: after try `n` it reads `clock[n - 1]`, and
      between two tries it slept at least the base delay. */
  ghost predicate Paced(start: int, clock: seq<int>) {
    && (|clock| > 0 ==> start <= clock[0])
    && (forall n :: 0 < n < |clock| ==> clock[n - 1] + RETRY_BASE <= clock[n])
  }

  lemma {:induction false} PacedGrows(start: int, clock: seq<int>, n: nat)
    requires Paced(start, clock) && n < |clock|
    ensures start + RETRY_BASE * n <= clock[n]
  {
    if n > 0 { PacedGrows(start, clock, n - 1); }
  }

  /** The acquisition half of `_case_lock`. It returns after the first try that
      finds the key free, or raises after the first failed try at or past the
      deadline; either way after at most 301 tries, and no connection is held while
      it sleeps. */
  method Acquire(start: int, clock: seq<int>, free: seq<bool>) returns (acquired: bool, tries: nat)
    requires Paced(start, clock) && |clock| >= MOST_TRIES && |free| >= MOST_TRIES
    ensures 1 <= tries <= 301
    ensures acquired <==> free[tries - 1]
    ensures forall n :: 0 <= n < tries - 1 ==> !free[n] && clock[n] < start + 30_000
    ensures !acquired ==> clock[tries - 1] >= start + 30_000
  {
    var deadline := start + MAX_WAIT;
    tries := 0;
    while true
      invariant 0 <= tries <= MOST_TRIES - 1
      invariant forall n :: 0 <= n < tries ==> !free[n] && clock[n] < deadline
      decreases MOST_TRIES - tries
    {
      tries := tries + 1;
      if free[tries - 1] { return true, tries; }
      PacedGrows(start, clock, tries - 1);
      if clock[tries - 1] >= deadline { return false, tries; }
    }
  }
}
