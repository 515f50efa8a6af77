/** 32-bit FNV-1a (section 2 of draft-eastlake-fnv), the hash that turns a method's full name into
    its wire id.  */
module Hash {

  const OFFSET: bv32 := 0x811c9dc5

  type Name = seq<bv8>

  // Multiplication by the FNV prime and by its inverse modulo 2^32.
  function Scale(h: bv32): bv32 { h * 0x01000193 }

  function Unscale(h: bv32): bv32 { h * 0x359C449B }

  function Mix(h: bv32, b: bv8): bv32 { Scale(h ^ (b as bv32)) }

  function Unmix(h: bv32, b: bv8): bv32 { Unscale(h) ^ (b as bv32) }

  function FnvFrom(h: bv32, s: Name): bv32
    decreases |s|
  {
    if s == [] then h else FnvFrom(Mix(h, s[0]), s[1..])
  }

  function Fnv(s: Name): bv32 { FnvFrom(OFFSET, s) }

  lemma FnvOneMore(h: bv32, b: bv8, rest: Name, s: Name)
    requires s == [b] + rest
    ensures FnvFrom(h, s) == FnvFrom(Mix(h, b), rest)
  {
    assert s[1..] == rest;
  }

  /** The published values of the hash: of nothing, "a", "foo" and "foobar".  */
  lemma KnownValues()
    ensures Fnv([]) == 0x811c9dc5
    ensures Fnv([0x61]) == 0xe40c292c
    ensures Fnv([0x66, 0x6f, 0x6f]) == 0xa9f37ed7
    ensures Fnv([0x66, 0x6f, 0x6f, 0x62, 0x61, 0x72]) == 0xbf9cf968
  {
    MixedLetters();
    FnvOneMore(OFFSET, 0x61, [], [0x61]);
    Foo([], [0x66, 0x6f, 0x6f]);
    Foo([0x62, 0x61, 0x72], [0x66, 0x6f, 0x6f, 0x62, 0x61, 0x72]);
    Bar([0x62, 0x61, 0x72]);
  }

  lemma MixedLetters()
    ensures Mix(0x811c9dc5, 0x61) == 0xe40c292c
    ensures Mix(0x811c9dc5, 0x66) == 0xe30c2799
    ensures Mix(0xe30c2799, 0x6f) == 0x6222e842
    ensures Mix(0x6222e842, 0x6f) == 0xa9f37ed7
    ensures Mix(0xa9f37ed7, 0x62) == 0x3f5076ef
    ensures Mix(0x3f5076ef, 0x61) == 0x39aaa18a
    ensures Mix(0x39aaa18a, 0x72) == 0xbf9cf968
  {}

  lemma Foo(rest: Name, s: Name)
    requires s == [0x66, 0x6f, 0x6f] + rest
    ensures Fnv(s) == FnvFrom(0xa9f37ed7, rest)
  {
    MixedLetters();
    FnvOneMore(OFFSET, 0x66, [0x6f, 0x6f] + rest, s);
    FnvOneMore(0xe30c2799, 0x6f, [0x6f] + rest, [0x6f, 0x6f] + rest);
    FnvOneMore(0x6222e842, 0x6f, rest, [0x6f] + rest);
  }

  lemma Bar(s: Name)
    requires s == [0x62, 0x61, 0x72]
    ensures FnvFrom(0xa9f37ed7, s) == 0xbf9cf968
  {
    MixedLetters();
    FnvOneMore(0xa9f37ed7, 0x62, [0x61, 0x72], s);
    FnvOneMore(0x3f5076ef, 0x61, [0x72], [0x61, 0x72]);
    FnvOneMore(0x39aaa18a, 0x72, [], [0x72]);
  }

  // Runs the hash backwards: the state before `s` was hashed.
  function UnhashFrom(h: bv32, s: Name): bv32
    decreases |s|
  {
    if s == [] then h else UnhashFrom(Unmix(h, s[|s| - 1]), s[..|s| - 1])
  }

  lemma ScaleInverse(h: bv32)
    ensures Unscale(Scale(h)) == h && Scale(Unscale(h)) == h
  {
    assert Unscale(h * 0x01000193) == (h * 0x01000193) * 0x359C449B;
    assert Scale(h * 0x359C449B) == (h * 0x359C449B) * 0x01000193;
  }

  lemma XorTwice(h: bv32, b: bv32)
    ensures (h ^ b) ^ b == h
  {}

  lemma XorInjective(h: bv32, a: bv8, b: bv8)
    requires h ^ (a as bv32) == h ^ (b as bv32)
    ensures a == b
  {}

  lemma UnmixMix(h: bv32, b: bv8)
    ensures Unmix(Mix(h, b), b) == h
  {
    ScaleInverse(h ^ (b as bv32));
    XorTwice(h, b as bv32);
  }

  lemma MixUnmix(h: bv32, b: bv8)
    ensures Mix(Unmix(h, b), b) == h
  {
    XorTwice(Unscale(h), b as bv32);
    ScaleInverse(h);
  }

  lemma MixInjectiveInByte(h: bv32, a: bv8, b: bv8)
    requires Mix(h, a) == Mix(h, b)
    ensures a == b
  {
    ScaleInverse(h ^ (a as bv32));
    ScaleInverse(h ^ (b as bv32));
    XorInjective(h, a, b);
  }

  lemma {:induction false} FnvAppend(h: bv32, s: Name, t: Name)
    ensures FnvFrom(h, s + t) == FnvFrom(FnvFrom(h, s), t)
    decreases |s|
  {
    if s == [] {
      assert s + t == t;
    } else {
      assert (s + t)[1..] == s[1..] + t;
      FnvAppend(Mix(h, s[0]), s[1..], t);
    }
  }

  // The last byte is mixed in last.
  lemma FnvLast(h: bv32, s: Name)
    requires s != []
    ensures FnvFrom(h, s) == Mix(FnvFrom(h, s[..|s| - 1]), s[|s| - 1])
  {
    var last := [s[|s| - 1]];
    assert s == s[..|s| - 1] + last;
    FnvAppend(h, s[..|s| - 1], last);
    assert last[1..] == [];
  }

  /** For every string, hashing it is a bijection of the 32-bit state: UnhashFrom is its inverse
      on both sides.  */
  lemma {:induction false} HashIsBijectiveOnState(h: bv32, s: Name)
    ensures UnhashFrom(FnvFrom(h, s), s) == h
    ensures FnvFrom(UnhashFrom(h, s), s) == h
    decreases |s|
  {
    if s != [] {
      var n := |s| - 1;
      FnvLast(h, s);
      UnmixMix(FnvFrom(h, s[..n]), s[n]);
      HashIsBijectiveOnState(h, s[..n]);
      var g := Unmix(h, s[n]);
      HashIsBijectiveOnState(g, s[..n]);
      FnvLast(UnhashFrom(h, s), s);
      MixUnmix(h, s[n]);
    }
  }

  /** Two strings of equal length that differ in exactly one byte never collide.  */
  lemma OneByteChangeNeverCollides(s: Name, t: Name, k: nat)
    requires |s| == |t| && k < |s| && s[k] != t[k]
    requires forall i :: 0 <= i < |s| && i != k ==> s[i] == t[i]
    ensures Fnv(s) != Fnv(t)
  {
    var pre, post := s[..k], s[k + 1..];
    assert s == pre + ([s[k]] + post) && t == pre + ([t[k]] + post);
    var h := FnvFrom(OFFSET, pre);
    FnvAppend(OFFSET, pre, [s[k]] + post);
    FnvAppend(OFFSET, pre, [t[k]] + post);
    assert ([s[k]] + post)[1..] == post && ([t[k]] + post)[1..] == post;
    HashIsBijectiveOnState(Mix(h, s[k]), post);
    HashIsBijectiveOnState(Mix(h, t[k]), post);
    if Mix(h, s[k]) == Mix(h, t[k]) { MixInjectiveInByte(h, s[k], t[k]); }
  }

  // Go: the string carries its length.
  method Fnv1a32(s: Name) returns (hash: bv32)
    ensures hash == Fnv(s)
  {
    hash := OFFSET;
    var i := 0;
    while i < |s|
      invariant 0 <= i <= |s|
      invariant FnvFrom(hash, s[i..]) == Fnv(s)
    {
      assert s[i..][1..] == s[i + 1..];
      hash := Mix(hash, s[i]);
      i := i + 1;
    }
    assert s[i..] == [];
  }

  const NUL: bv8 := 0

  function UntilNul(s: Name): Name
    ensures NUL !in UntilNul(s)
  {
    if s == [] || s[0] == NUL then [] else [s[0]] + UntilNul(s[1..])
  }

  // C++: `buf` is the memory from the pointer on; the hash stops at the terminating zero.
  method CppFnv1a32(buf: Name) returns (hash: bv32)
    requires NUL in buf
    ensures hash == Fnv(UntilNul(buf))
  {
    hash := OFFSET;
    var i := 0;
    while buf[i] != NUL
      invariant 0 <= i < |buf| && NUL in buf[i..]
      invariant FnvFrom(hash, UntilNul(buf[i..])) == Fnv(UntilNul(buf))
      decreases |buf| - i
    {
      var rest := buf[i..];
      assert rest[1..] == buf[i + 1..];
      assert UntilNul(rest)[1..] == UntilNul(rest[1..]);
      hash := Mix(hash, buf[i]);
      i := i + 1;
    }
  }

  lemma {:induction false} UntilNulOfTerminated(s: Name)
    ensures NUL !in s ==> UntilNul(s) == s && UntilNul(s + [NUL]) == s
    ensures NUL in s ==> |UntilNul(s)| < |s|
  {
    if s != [] {
      assert (s + [NUL])[1..] == s[1..] + [NUL];
      UntilNulOfTerminated(s[1..]);
      assert s == [s[0]] + s[1..];
    } else {
      assert (s + [NUL])[1..] == [];
    }
  }

  /** Hashing the C string of a NUL-free name gives the Go hash of the name; only names with a NUL
      are cut short.  */
  lemma CppHashesWholeNameIffNulFree(s: Name)
    ensures UntilNul(s + [NUL]) == s <==> NUL !in s
    ensures NUL !in s ==> Fnv(UntilNul(s + [NUL])) == Fnv(s)
  {
    UntilNulOfTerminated(s);
  }
}
