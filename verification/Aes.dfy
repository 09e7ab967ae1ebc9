/**
 * The AES cipher of omap/crypto/aes_generic.c against FIPS 197: key expansion of section 5.2, the cipher of section
 * 5.1 and the equivalent inverse cipher of section 5.3.5.
 */
module Aes {
  import opened AesTables
  import opened AesColumns

  const EINVAL := 22

  // ---------------------------------------------------------------- the state

  datatype State = State(c0: Col, c1: Col, c2: Col, c3: Col)

  function SubBytes(s: State): State { State(SubCol(s.c0), SubCol(s.c1), SubCol(s.c2), SubCol(s.c3)) }

  function InvSubBytes(s: State): State {
    State(InvSubCol(s.c0), InvSubCol(s.c1), InvSubCol(s.c2), InvSubCol(s.c3))
  }

  function ShiftRows(s: State): State {
    State(Col(s.c0.a, s.c1.b, s.c2.c, s.c3.d), Col(s.c1.a, s.c2.b, s.c3.c, s.c0.d),
          Col(s.c2.a, s.c3.b, s.c0.c, s.c1.d), Col(s.c3.a, s.c0.b, s.c1.c, s.c2.d))
  }

  function InvShiftRows(s: State): State {
    State(Col(s.c0.a, s.c3.b, s.c2.c, s.c1.d), Col(s.c1.a, s.c0.b, s.c3.c, s.c2.d),
          Col(s.c2.a, s.c1.b, s.c0.c, s.c3.d), Col(s.c3.a, s.c2.b, s.c1.c, s.c0.d))
  }

  function MixColumns(s: State): State { State(Mix(s.c0), Mix(s.c1), Mix(s.c2), Mix(s.c3)) }

  function InvMixColumns(s: State): State { State(InvMix(s.c0), InvMix(s.c1), InvMix(s.c2), InvMix(s.c3)) }

  function AddRoundKey(s: State, k: State): State {
    State(Xor(s.c0, k.c0), Xor(s.c1, k.c1), Xor(s.c2, k.c2), Xor(s.c3, k.c3))
  }

  /** The state held by four words. */
  function Cols(b: seq<bv32>): State
    requires |b| == 4
  {
    State(Bytes(b[0]), Bytes(b[1]), Bytes(b[2]), Bytes(b[3]))
  }

  /** The r-th round key. */
  function Key(keys: seq<bv32>, r: nat): State
    requires 4 * r + 4 <= |keys|
  {
    State(Bytes(keys[4 * r]), Bytes(keys[4 * r + 1]), Bytes(keys[4 * r + 2]), Bytes(keys[4 * r + 3]))
  }

  // ---------------------------------------------------------------- the ciphers of the standard

  /** The state after `r` full rounds. */
  function Rounds(keys: seq<bv32>, s: State, r: nat): State
    requires 4 * r + 4 <= |keys|
  {
    if r == 0 then AddRoundKey(s, Key(keys, 0))
    else AddRoundKey(MixColumns(ShiftRows(SubBytes(Rounds(keys, s, r - 1)))), Key(keys, r))
  }

  function Cipher(keys: seq<bv32>, nr: nat, s: State): State
    requires 0 < nr && 4 * nr + 4 <= |keys|
  {
    AddRoundKey(ShiftRows(SubBytes(Rounds(keys, s, nr - 1))), Key(keys, nr))
  }

  function InvRounds(keys: seq<bv32>, s: State, r: nat): State
    requires 4 * r + 4 <= |keys|
  {
    if r == 0 then AddRoundKey(s, Key(keys, 0))
    else AddRoundKey(InvMixColumns(InvSubBytes(InvShiftRows(InvRounds(keys, s, r - 1)))), Key(keys, r))
  }

  function EqInvCipher(keys: seq<bv32>, nr: nat, s: State): State
    requires 0 < nr && 4 * nr + 4 <= |keys|
  {
    AddRoundKey(InvSubBytes(InvShiftRows(InvRounds(keys, s, nr - 1))), Key(keys, nr))
  }

  /** The decryption keys: the same round keys in reverse order, the inner ones mixed back. */
  ghost predicate Reversed(enc: seq<bv32>, dec: seq<bv32>, nr: nat) {
    && 0 < nr && 4 * nr + 4 <= |enc| && 4 * nr + 4 <= |dec|
    && Key(dec, 0) == Key(enc, nr) && Key(dec, nr) == Key(enc, 0)
    && forall r :: 0 < r < nr ==> Key(dec, r) == InvMixColumns(Key(enc, nr - r))
  }

  // ---------------------------------------------------------------- decryption undoes encryption

  lemma XorTwice(c: Col, k: Col)
    ensures Xor(Xor(c, k), k) == c
  {
  }

  lemma KeyTwice(s: State, k: State)
    ensures AddRoundKey(AddRoundKey(s, k), k) == s
  {
    hide Xor;
    XorTwice(s.c0, k.c0);
    XorTwice(s.c1, k.c1);
    XorTwice(s.c2, k.c2);
    XorTwice(s.c3, k.c3);
  }

  lemma SubUndone(c: Col)
    ensures InvSubCol(SubCol(c)) == c
  {
    hide Sbox, InvSbox;
    InvSboxUndoes(c.a);
    InvSboxUndoes(c.b);
    InvSboxUndoes(c.c);
    InvSboxUndoes(c.d);
  }

  lemma SubShiftUndone(s: State)
    ensures InvSubBytes(InvShiftRows(ShiftRows(SubBytes(s)))) == s
  {
    hide SubCol, InvSubCol;
    SubUndone(s.c0);
    SubUndone(s.c1);
    SubUndone(s.c2);
    SubUndone(s.c3);
    assert InvShiftRows(ShiftRows(SubBytes(s))) == SubBytes(s);
  }

  lemma MixUndone(s: State, k: State)
    ensures AddRoundKey(InvMixColumns(AddRoundKey(MixColumns(s), k)), InvMixColumns(k)) == s
  {
    hide Mix, InvMix, Xor;
    MixColumnUndone(s.c0, k.c0);
    MixColumnUndone(s.c1, k.c1);
    MixColumnUndone(s.c2, k.c2);
    MixColumnUndone(s.c3, k.c3);
  }

  lemma MixColumnUndone(c: Col, k: Col)
    ensures Xor(InvMix(Xor(Mix(c), k)), InvMix(k)) == c
  {
    hide Mix, InvMix, Xor;
    InvMixXor(Mix(c), k);
    InvMixUndoes(c);
    XorTwice(c, InvMix(k));
  }

  /** Before its r-th round key was undone, decryption is where encryption was that far from its end. */
  lemma {:induction false} Meets(enc: seq<bv32>, dec: seq<bv32>, nr: nat, s: State, r: nat)
    requires Reversed(enc, dec, nr) && r < nr
    ensures InvRounds(dec, Cipher(enc, nr, s), r) == ShiftRows(SubBytes(Rounds(enc, s, nr - 1 - r)))
  {
    hide ShiftRows, SubBytes, InvShiftRows, InvSubBytes, MixColumns, InvMixColumns, AddRoundKey, Key;
    if r == 0 {
      KeyTwice(ShiftRows(SubBytes(Rounds(enc, s, nr - 1))), Key(enc, nr));
    } else {
      Meets(enc, dec, nr, s, r - 1);
      var e := Rounds(enc, s, nr - r);
      SubShiftUndone(e);
      MixUndone(ShiftRows(SubBytes(Rounds(enc, s, nr - r - 1))), Key(enc, nr - r));
    }
  }

  /** The equivalent inverse cipher undoes the cipher, for every state and any number of rounds. */
  lemma RoundTrip(enc: seq<bv32>, dec: seq<bv32>, nr: nat, s: State)
    requires Reversed(enc, dec, nr)
    ensures EqInvCipher(dec, nr, Cipher(enc, nr, s)) == s
  {
    hide ShiftRows, SubBytes, InvShiftRows, InvSubBytes, AddRoundKey, Key, Cipher;
    Meets(enc, dec, nr, s, nr - 1);
    SubShiftUndone(Rounds(enc, s, 0));
    KeyTwice(s, Key(enc, 0));
  }

  // ---------------------------------------------------------------- encryption undoes decryption

  lemma InvSubUndone(c: Col)
    ensures SubCol(InvSubCol(c)) == c
  {
    hide Sbox, InvSbox;
    SboxUndoes(c.a);
    SboxUndoes(c.b);
    SboxUndoes(c.c);
    SboxUndoes(c.d);
  }

  lemma InvSubShiftUndone(s: State)
    ensures ShiftRows(SubBytes(InvSubBytes(InvShiftRows(s)))) == s
  {
    hide SubCol, InvSubCol;
    var t := InvShiftRows(s);
    InvSubUndone(t.c0);
    InvSubUndone(t.c1);
    InvSubUndone(t.c2);
    InvSubUndone(t.c3);
    assert SubBytes(InvSubBytes(t)) == t;
  }

  lemma InvMixUndone(s: State, k: State)
    ensures AddRoundKey(MixColumns(AddRoundKey(InvMixColumns(s), InvMixColumns(k))), k) == s
  {
    hide Mix, InvMix, Xor;
    InvMixColumnUndone(s.c0, k.c0);
    InvMixColumnUndone(s.c1, k.c1);
    InvMixColumnUndone(s.c2, k.c2);
    InvMixColumnUndone(s.c3, k.c3);
  }

  lemma InvMixColumnUndone(c: Col, k: Col)
    ensures Xor(Mix(Xor(InvMix(c), InvMix(k))), k) == c
  {
    hide Mix, InvMix, Xor;
    InvMixXor(c, k);
    MixUndoes(Xor(c, k));
    XorTwice(c, k);
  }

  /** After each of its rounds, encryption is where decryption was that many rounds before its end. */
  lemma {:induction false} MeetsBack(enc: seq<bv32>, dec: seq<bv32>, nr: nat, s: State, r: nat)
    requires Reversed(enc, dec, nr) && r < nr
    ensures Rounds(enc, EqInvCipher(dec, nr, s), r) == InvSubBytes(InvShiftRows(InvRounds(dec, s, nr - 1 - r)))
  {
    hide ShiftRows, SubBytes, InvShiftRows, InvSubBytes, MixColumns, InvMixColumns, AddRoundKey, Key;
    if r == 0 {
      KeyTwice(InvSubBytes(InvShiftRows(InvRounds(dec, s, nr - 1))), Key(enc, 0));
    } else {
      MeetsBack(enc, dec, nr, s, r - 1);
      InvSubShiftUndone(InvRounds(dec, s, nr - r));
      assert Key(dec, nr - r) == InvMixColumns(Key(enc, nr - (nr - r)));
      InvMixUndone(InvSubBytes(InvShiftRows(InvRounds(dec, s, nr - r - 1))), Key(enc, r));
    }
  }

  /** The cipher undoes the equivalent inverse cipher, so each is a permutation of the blocks. */
  lemma TripBack(enc: seq<bv32>, dec: seq<bv32>, nr: nat, s: State)
    requires Reversed(enc, dec, nr)
    ensures Cipher(enc, nr, EqInvCipher(dec, nr, s)) == s
  {
    hide ShiftRows, SubBytes, InvShiftRows, InvSubBytes, AddRoundKey, Key, EqInvCipher;
    MeetsBack(enc, dec, nr, s, nr - 1);
    InvSubShiftUndone(InvRounds(dec, s, 0));
    KeyTwice(s, Key(dec, 0));
  }

  // ---------------------------------------------------------------- key expansion of the standard

  predicate KeySize(n: nat) { n == 16 || n == 24 || n == 32 }

  /** The i-th little-endian word of a buffer. */
  function Load(buf: seq<bv8>, i: nat): bv32
    requires 4 * i + 4 <= |buf|
  {
    Word(buf[4 * i], buf[4 * i + 1], buf[4 * i + 2], buf[4 * i + 3])
  }

  function SubWord(x: bv32): bv32 { Place(SubCol(Bytes(x))) }

  function Rcon(i: nat): bv8 { if i == 0 then 1 else Xt(Rcon(i - 1)) }

  /** What the recurrence does to the previous word. */
  function Twist(nk: nat, i: nat, t: bv32): bv32
    requires 0 < nk <= i
  {
    if i % nk == 0 then XorW(SubWord(Ror8(t)), Rcon(i / nk - 1) as bv32)
    else if nk > 6 && i % nk == 4 then SubWord(t)
    else t
  }

  function Schedule(key: seq<bv8>, i: nat): bv32
    requires KeySize(|key|)
  {
    var nk := |key| / 4;
    if i < nk then Load(key, i) else XorW(Twist(nk, i, Schedule(key, i - 1)), Schedule(key, i - nk))
  }
}
