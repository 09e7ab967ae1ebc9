/**
 * crypto_aes_expand_key, aes_encrypt and aes_decrypt of omap/crypto/aes_generic.c, which fill and use the key arrays
 * of a context.
 */
module AesContext {
  import opened AesTables
  import opened AesColumns
  import opened Aes
  import Arith

  // ---------------------------------------------------------------- round macros

  /** The bytes that go into word `n` of a round, with the words taken in rising order. */
  function Rising(bi: seq<bv32>, n: nat): Col
    requires |bi| == 4 && n < 4
  {
    Col(Bytes(bi[n]).a, Bytes(bi[(n + 1) % 4]).b, Bytes(bi[(n + 2) % 4]).c, Bytes(bi[(n + 3) % 4]).d)
  }

  /** The same in falling order. */
  function Falling(bi: seq<bv32>, n: nat): Col
    requires |bi| == 4 && n < 4
  {
    Col(Bytes(bi[n]).a, Bytes(bi[(n + 3) % 4]).b, Bytes(bi[(n + 2) % 4]).c, Bytes(bi[(n + 1) % 4]).d)
  }

  /** f_rn */
  function ForwardWord(bi: seq<bv32>, n: nat, k: bv32): bv32
    requires |bi| == 4 && n < 4
  {
    XorW(FtSum(Rising(bi, n)), k)
  }

  /** f_rl */
  function ForwardLastWord(bi: seq<bv32>, n: nat, k: bv32): bv32
    requires |bi| == 4 && n < 4
  {
    XorW(FlSum(Rising(bi, n)), k)
  }

  /** i_rn */
  function InverseWord(bi: seq<bv32>, n: nat, k: bv32): bv32
    requires |bi| == 4 && n < 4
  {
    XorW(ItSum(Falling(bi, n)), k)
  }

  /** i_rl */
  function InverseLastWord(bi: seq<bv32>, n: nat, k: bv32): bv32
    requires |bi| == 4 && n < 4
  {
    XorW(IlSum(Falling(bi, n)), k)
  }

  /** ls_box */
  function LsBox(x: bv32): bv32 { FlSum(Bytes(x)) }

  lemma LsBoxIs(x: bv32)
    ensures LsBox(x) == SubWord(x)
  {
    hide FlSum, Place, SubCol, Bytes;
    FlColumn(Bytes(x));
  }

  lemma ForwardWordBytes(c: Col, k: bv32)
    ensures Bytes(XorW(FtSum(c), k)) == Xor(Mix(SubCol(c)), Bytes(k))
  {
    hide FtSum, XorW, Bytes, Mix, SubCol, Xor;
    FtColumn(c);
    BytesXor(FtSum(c), k);
  }

  lemma InverseWordBytes(c: Col, k: bv32)
    ensures Bytes(XorW(ItSum(c), k)) == Xor(InvMix(InvSubCol(c)), Bytes(k))
  {
    hide ItSum, XorW, Bytes, InvMix, InvSubCol, Xor;
    ItColumn(c);
    BytesXor(ItSum(c), k);
  }

  lemma ForwardLastWordBytes(c: Col, k: bv32)
    ensures Bytes(XorW(FlSum(c), k)) == Xor(SubCol(c), Bytes(k))
  {
    hide FlSum, Place, XorW, Bytes, Xor, SubCol;
    FlColumn(c);
    PlaceBytes(SubCol(c));
    BytesXor(FlSum(c), k);
  }

  lemma InverseLastWordBytes(c: Col, k: bv32)
    ensures Bytes(XorW(IlSum(c), k)) == Xor(InvSubCol(c), Bytes(k))
  {
    hide IlSum, Place, XorW, Bytes, Xor, InvSubCol;
    IlColumn(c);
    PlaceBytes(InvSubCol(c));
    BytesXor(IlSum(c), k);
  }

  /** f_nround */
  function ForwardRound(bi: seq<bv32>, keys: seq<bv32>, kp: nat): (bo: seq<bv32>)
    requires |bi| == 4 && kp + 4 <= |keys|
    ensures |bo| == 4
  {
    [ForwardWord(bi, 0, keys[kp]), ForwardWord(bi, 1, keys[kp + 1]),
     ForwardWord(bi, 2, keys[kp + 2]), ForwardWord(bi, 3, keys[kp + 3])]
  }

  /** f_lround */
  function ForwardLastRound(bi: seq<bv32>, keys: seq<bv32>, kp: nat): (bo: seq<bv32>)
    requires |bi| == 4 && kp + 4 <= |keys|
    ensures |bo| == 4
  {
    [ForwardLastWord(bi, 0, keys[kp]), ForwardLastWord(bi, 1, keys[kp + 1]),
     ForwardLastWord(bi, 2, keys[kp + 2]), ForwardLastWord(bi, 3, keys[kp + 3])]
  }

  /** i_nround */
  function InverseRound(bi: seq<bv32>, keys: seq<bv32>, kp: nat): (bo: seq<bv32>)
    requires |bi| == 4 && kp + 4 <= |keys|
    ensures |bo| == 4
  {
    [InverseWord(bi, 0, keys[kp]), InverseWord(bi, 1, keys[kp + 1]),
     InverseWord(bi, 2, keys[kp + 2]), InverseWord(bi, 3, keys[kp + 3])]
  }

  /** i_lround */
  function InverseLastRound(bi: seq<bv32>, keys: seq<bv32>, kp: nat): (bo: seq<bv32>)
    requires |bi| == 4 && kp + 4 <= |keys|
    ensures |bo| == 4
  {
    [InverseLastWord(bi, 0, keys[kp]), InverseLastWord(bi, 1, keys[kp + 1]),
     InverseLastWord(bi, 2, keys[kp + 2]), InverseLastWord(bi, 3, keys[kp + 3])]
  }

  /** A round of table lookups is a round of the standard. */
  lemma ForwardRoundIs(bi: seq<bv32>, keys: seq<bv32>, r: nat)
    requires |bi| == 4 && 4 * r + 4 <= |keys|
    ensures Cols(ForwardRound(bi, keys, 4 * r)) == AddRoundKey(MixColumns(ShiftRows(SubBytes(Cols(bi)))), Key(keys, r))
  {
    hide FtSum, XorW, Bytes, Mix, Xor, Sbox;
    var t := ShiftRows(Cols(bi));
    ForwardWordBytes(t.c0, keys[4 * r]);
    ForwardWordBytes(t.c1, keys[4 * r + 1]);
    ForwardWordBytes(t.c2, keys[4 * r + 2]);
    ForwardWordBytes(t.c3, keys[4 * r + 3]);
  }

  lemma ForwardLastRoundIs(bi: seq<bv32>, keys: seq<bv32>, r: nat)
    requires |bi| == 4 && 4 * r + 4 <= |keys|
    ensures Cols(ForwardLastRound(bi, keys, 4 * r)) == AddRoundKey(ShiftRows(SubBytes(Cols(bi))), Key(keys, r))
  {
    hide FlSum, XorW, Bytes, Xor, Sbox;
    var t := ShiftRows(Cols(bi));
    ForwardLastWordBytes(t.c0, keys[4 * r]);
    ForwardLastWordBytes(t.c1, keys[4 * r + 1]);
    ForwardLastWordBytes(t.c2, keys[4 * r + 2]);
    ForwardLastWordBytes(t.c3, keys[4 * r + 3]);
  }

  lemma InverseRoundIs(bi: seq<bv32>, keys: seq<bv32>, r: nat)
    requires |bi| == 4 && 4 * r + 4 <= |keys|
    ensures Cols(InverseRound(bi, keys, 4 * r)) ==
            AddRoundKey(InvMixColumns(InvSubBytes(InvShiftRows(Cols(bi)))), Key(keys, r))
  {
    hide ItSum, XorW, Bytes, InvMix, Xor, InvSbox;
    var t := InvShiftRows(Cols(bi));
    InverseWordBytes(t.c0, keys[4 * r]);
    InverseWordBytes(t.c1, keys[4 * r + 1]);
    InverseWordBytes(t.c2, keys[4 * r + 2]);
    InverseWordBytes(t.c3, keys[4 * r + 3]);
  }

  lemma InverseLastRoundIs(bi: seq<bv32>, keys: seq<bv32>, r: nat)
    requires |bi| == 4 && 4 * r + 4 <= |keys|
    ensures Cols(InverseLastRound(bi, keys, 4 * r)) == AddRoundKey(InvSubBytes(InvShiftRows(Cols(bi))), Key(keys, r))
  {
    hide IlSum, XorW, Bytes, Xor, InvSbox;
    var t := InvShiftRows(Cols(bi));
    InverseLastWordBytes(t.c0, keys[4 * r]);
    InverseLastWordBytes(t.c1, keys[4 * r + 1]);
    InverseLastWordBytes(t.c2, keys[4 * r + 2]);
    InverseLastWordBytes(t.c3, keys[4 * r + 3]);
  }

  // ---------------------------------------------------------------- key arrays

  /** rco_tab */
  function RcoTab(i: nat): (r: bv32)
    requires i < 10
    ensures r == Rcon(i) as bv32
  {
    RcoTabIs();
    [1, 2, 4, 8, 16, 32, 64, 128, 27, 54][i]
  }

  lemma RcoTabIs()
    ensures Rcon(0) == 1 && Rcon(1) == 2 && Rcon(2) == 4 && Rcon(3) == 8 && Rcon(4) == 16
    ensures Rcon(5) == 32 && Rcon(6) == 64 && Rcon(7) == 128 && Rcon(8) == 27 && Rcon(9) == 54
  {
    assert Rcon(3) == 8;
    assert Rcon(6) == 64;
  }

  /** Where the loop at the end of crypto_aes_expand_key puts the word i. */
  function Mirror(len: nat, i: nat): (j: nat)
    requires len % 4 == 0 && 4 <= i < len + 24
    ensures 4 <= j < len + 24
  {
    len + 24 - (i - i % 4) + i % 4
  }

  lemma MirrorTwice(len: nat, i: nat)
    requires len % 4 == 0 && 4 <= i < len + 24
    ensures Mirror(len, Mirror(len, i)) == i
  {
  }

  lemma XorWComm(x: bv32, y: bv32)
    ensures XorW(x, y) == XorW(y, x)
  {
  }

  /** A word of the schedule that is only the sum of two earlier ones. */
  predicate Plain(nk: nat, n: nat)
    requires nk > 0
  {
    n % nk != 0 && !(nk > 6 && n % nk == 4)
  }

  lemma PlainStep(key: seq<bv8>, n: nat)
    requires KeySize(|key|) && n >= |key| / 4 && Plain(|key| / 4, n)
    ensures Schedule(key, n) == XorW(Schedule(key, n - 1), Schedule(key, n - |key| / 4))
  {
    hide SubWord, Rcon, XorW, Ror8, Load;
  }

  lemma HeadStep(key: seq<bv8>, n: nat, i: nat)
    requires KeySize(|key|) && n == |key| / 4 * (i + 1)
    ensures n >= |key| / 4
    ensures Schedule(key, n) ==
            XorW(XorW(SubWord(Ror8(Schedule(key, n - 1))), Rcon(i) as bv32), Schedule(key, n - |key| / 4))
  {
    hide SubWord, Rcon, XorW, Ror8, Load;
    var nk := |key| / 4;
    Arith.MulMono(nk, 1, i + 1);
    Arith.DivUnique(n, nk, i + 1, 0);
  }

  lemma MiddleStep(key: seq<bv8>, n: nat, i: nat)
    requires |key| == 32 && n == 8 * (i + 1) + 4
    ensures Schedule(key, n) == XorW(SubWord(Schedule(key, n - 1)), Schedule(key, n - 8))
  {
    hide SubWord, Rcon, XorW, Ror8, Load;
    Arith.DivUnique(n, 8, i + 1, 4);
  }

  lemma PlainRange(nk: nat, i: nat, m: nat, count: nat)
    requires 0 < m && m + count <= nk && (nk <= 6 || m > 4 || m + count <= 4)
    ensures forall k :: nk * i + m <= k < nk * i + m + count ==> Plain(nk, k)
  {
    forall k | nk * i + m <= k < nk * i + m + count ensures Plain(nk, k) {
      Arith.DivUnique(k, nk, i, k - nk * i);
    }
  }

  // ---------------------------------------------------------------- blocks

  function LoadBlock(src: seq<bv8>): State
    requires |src| == 16
  {
    State(Col(src[0], src[1], src[2], src[3]), Col(src[4], src[5], src[6], src[7]),
          Col(src[8], src[9], src[10], src[11]), Col(src[12], src[13], src[14], src[15]))
  }

  function StoreCol(c: Col): seq<bv8> { [c.a, c.b, c.c, c.d] }

  function StoreBlock(s: State): (dst: seq<bv8>)
    ensures |dst| == 16 && LoadBlock(dst) == s
  {
    StoreCol(s.c0) + StoreCol(s.c1) + StoreCol(s.c2) + StoreCol(s.c3)
  }

  lemma StoreLoad(src: seq<bv8>)
    requires |src| == 16
    ensures StoreBlock(LoadBlock(src)) == src
  {
    var s := LoadBlock(src);
    assert StoreCol(s.c0) == src[0..4] && StoreCol(s.c1) == src[4..8];
    assert StoreCol(s.c2) == src[8..12] && StoreCol(s.c3) == src[12..16];
    assert src == src[0..4] + src[4..8] + src[8..12] + src[12..16];
  }

  /** The first step of both directions. */
  function Whiten(src: seq<bv8>, keys: seq<bv32>): (b: seq<bv32>)
    requires |src| == 16 && |keys| >= 4
    ensures |b| == 4
  {
    [XorW(Load(src, 0), keys[0]), XorW(Load(src, 1), keys[1]), XorW(Load(src, 2), keys[2]), XorW(Load(src, 3), keys[3])]
  }

  lemma WhitenIs(src: seq<bv8>, keys: seq<bv32>)
    requires |src| == 16 && |keys| >= 4
    ensures Cols(Whiten(src, keys)) == AddRoundKey(LoadBlock(src), Key(keys, 0))
  {
    hide XorW, Bytes, Xor, Word;
    var s := LoadBlock(src);
    WhitenWord(s.c0, keys[0]);
    WhitenWord(s.c1, keys[1]);
    WhitenWord(s.c2, keys[2]);
    WhitenWord(s.c3, keys[3]);
  }

  lemma WhitenWord(c: Col, k: bv32)
    ensures Bytes(XorW(Word(c.a, c.b, c.c, c.d), k)) == Xor(c, Bytes(k))
  {
    hide XorW, Bytes, Xor, Word;
    BytesXor(Word(c.a, c.b, c.c, c.d), k);
    BytesPack(c);
  }

  /** cpu_to_le32 of the four words. */
  function Store(b: seq<bv32>): (dst: seq<bv8>)
    requires |b| == 4
    ensures dst == StoreBlock(Cols(b))
  {
    StoreCol(Bytes(b[0])) + StoreCol(Bytes(b[1])) + StoreCol(Bytes(b[2])) + StoreCol(Bytes(b[3]))
  }

  function Nr(len: nat): nat { len / 4 + 6 }

  /** What the loop at the end of crypto_aes_expand_key has done when it reaches i. */
  ghost predicate Mirrored(enc: seq<bv32>, dec: seq<bv32>, len: nat, i: nat)
    requires len % 4 == 0 && len + 28 <= |enc| && len + 28 <= |dec|
  {
    forall m :: 4 <= m < len + 24 && Mirror(len, m) < i ==> dec[m] == IMixCol(enc[Mirror(len, m)])
  }

  ghost predicate Ends(enc: seq<bv32>, dec: seq<bv32>, len: nat, n: nat)
    requires n <= 4 && len + 28 <= |enc| && len + 28 <= |dec|
  {
    forall c :: 0 <= c < n ==> dec[c] == enc[len + 24 + c] && dec[len + 24 + c] == enc[c]
  }

  lemma MirroredStep(enc: seq<bv32>, dec: seq<bv32>, len: nat, i: nat)
    requires len % 4 == 0 && len + 28 <= |enc| && len + 28 <= |dec| && 4 <= i < len + 24
    requires Mirrored(enc, dec, len, i) && Ends(enc, dec, len, 4)
    ensures var t := dec[Mirror(len, i) := IMixCol(enc[i])]; Mirrored(enc, t, len, i + 1) && Ends(enc, t, len, 4)
  {
    hide IMixCol;
    MirrorTwice(len, i);
    var t := dec[Mirror(len, i) := IMixCol(enc[i])];
    forall m | 4 <= m < len + 24 && Mirror(len, m) < i + 1 ensures t[m] == IMixCol(enc[Mirror(len, m)]) {
      MirrorTwice(len, m);
    }
  }

  lemma MirroredNone(enc: seq<bv32>, dec: seq<bv32>, len: nat)
    requires len % 4 == 0 && len + 28 <= |enc| && len + 28 <= |dec|
    ensures Mirrored(enc, dec, len, 4)
  {
  }

  lemma DecWord(enc: seq<bv32>, dec: seq<bv32>, len: nat, r: nat, c: nat)
    requires len % 4 == 0 && len + 28 <= |enc| && len + 28 <= |dec| && 0 < r < Nr(len) && c < 4
    requires Mirrored(enc, dec, len, len + 24)
    ensures Bytes(dec[4 * r + c]) == InvMix(Bytes(enc[4 * (Nr(len) - r) + c]))
  {
    hide IMixCol, Bytes, InvMix;
    var m := 4 * r + c;
    assert Mirror(len, m) == 4 * (Nr(len) - r) + c;
    IMixColBytes(enc[Mirror(len, m)]);
  }

  lemma DecKey(enc: seq<bv32>, dec: seq<bv32>, len: nat, r: nat)
    requires len % 4 == 0 && len + 28 <= |enc| && len + 28 <= |dec| && 0 < r < Nr(len)
    requires Mirrored(enc, dec, len, len + 24)
    ensures Key(dec, r) == InvMixColumns(Key(enc, Nr(len) - r))
  {
    hide Mirrored, Bytes, InvMix;
    DecWord(enc, dec, len, r, 0);
    DecWord(enc, dec, len, r, 1);
    DecWord(enc, dec, len, r, 2);
    DecWord(enc, dec, len, r, 3);
  }

  lemma EndKeys(enc: seq<bv32>, dec: seq<bv32>, len: nat)
    requires len % 4 == 0 && len + 28 <= |enc| && len + 28 <= |dec| && Ends(enc, dec, len, 4)
    ensures Key(dec, 0) == Key(enc, Nr(len)) && Key(dec, Nr(len)) == Key(enc, 0)
  {
    hide Bytes;
    assert 4 * Nr(len) == len + 24;
    assert dec[0] == enc[len + 24 + 0] && dec[1] == enc[len + 24 + 1] && dec[2] == enc[len + 24 + 2] && dec[3] == enc[len + 24 + 3];
  }

  class AesCtx {
    const keyEnc: array<bv32>
    const keyDec: array<bv32>
    var keyLength: nat

    ghost predicate Shaped()
      reads this
    {
      keyEnc.Length == 60 && keyDec.Length == 60 && keyEnc != keyDec
    }

    /** The first n words of the schedule are there. */
    ghost predicate Filled(key: seq<bv8>, n: nat)
      requires KeySize(|key|)
      reads keyEnc
    {
      n <= keyEnc.Length && forall j :: 0 <= j < n ==> keyEnc[j] == Schedule(key, j)
    }

    ghost predicate DecFilled(len: nat)
      requires len % 4 == 0
      reads keyEnc, keyDec
    {
      && len + 28 <= keyEnc.Length && len + 28 <= keyDec.Length
      && Ends(keyEnc[..], keyDec[..], len, 4) && Mirrored(keyEnc[..], keyDec[..], len, len + 24)
    }

    /** A key has been set. */
    ghost predicate Valid(key: seq<bv8>)
      reads this, keyEnc, keyDec
    {
      Shaped() && KeySize(|key|) && keyLength == |key| && Filled(key, |key| + 28) && DecFilled(|key|)
    }

    constructor ()
      ensures Shaped() && fresh(keyEnc) && fresh(keyDec)
    {
      keyEnc := new bv32[60];
      keyDec := new bv32[60];
      keyLength := 0;
    }

    /** t ^= key_enc[n - nk]; key_enc[n] = t, for n = lo, lo + 1, ... */
    method Chain(ghost key: seq<bv8>, nk: nat, lo: nat, count: nat, t0: bv32) returns (t: bv32)
      requires Shaped() && KeySize(|key|) && nk == |key| / 4 <= lo && lo + count <= 60
      requires forall n :: lo <= n < lo + count ==> Plain(nk, n)
      requires Filled(key, lo) && t0 == Schedule(key, lo - 1)
      modifies keyEnc
      ensures Filled(key, lo + count) && t == Schedule(key, lo + count - 1)
    {
      hide Schedule, XorW, Plain;
      t := t0;
      for n := lo to lo + count
        invariant Filled(key, n) && t == Schedule(key, n - 1)
      {
        PlainStep(key, n);
        t := XorW(t, keyEnc[n - nk]);
        keyEnc[n] := t;
      }
    }

    /** The first word of a group: t = ls_box(ror32(t, 8)) ^ rco_tab[i] ^ key_enc[nk * i]. */
    method Head(ghost key: seq<bv8>, nk: nat, i: nat, t0: bv32) returns (t: bv32)
      requires Shaped() && KeySize(|key|) && nk == |key| / 4 && i < 10 && nk * (i + 1) < 60
      requires Filled(key, nk * (i + 1)) && t0 == Schedule(key, nk * (i + 1) - 1)
      modifies keyEnc
      ensures Filled(key, nk * (i + 1) + 1) && t == Schedule(key, nk * (i + 1))
    {
      hide Schedule, XorW, SubWord, LsBox, Ror8, RcoTab;
      var n := nk * (i + 1);
      HeadStep(key, n, i);
      t := Ror8(t0);
      LsBoxIs(t);
      t := XorW(LsBox(t), RcoTab(i));
      t := XorW(t, keyEnc[n - nk]);
      keyEnc[n] := t;
    }

    /** loop4 and loop6 */
    method Loop(ghost key: seq<bv8>, nk: nat, i: nat, t0: bv32) returns (t: bv32)
      requires Shaped() && KeySize(|key|) && nk == |key| / 4 <= 6 && i < 10 && nk * (i + 1) + nk <= 60
      requires Filled(key, nk * (i + 1)) && t0 == Schedule(key, nk * (i + 1) - 1)
      modifies keyEnc
      ensures Filled(key, nk * (i + 1) + nk) && t == Schedule(key, nk * (i + 1) + nk - 1)
    {
      hide Schedule, Plain;
      t := Head(key, nk, i, t0);
      PlainRange(nk, i + 1, 1, nk - 1);
      t := Chain(key, nk, nk * (i + 1) + 1, nk - 1, t);
    }

    /** loop8tophalf */
    method Loop8TopHalf(ghost key: seq<bv8>, i: nat, t0: bv32) returns (t: bv32)
      requires Shaped() && |key| == 32 && i < 7
      requires Filled(key, 8 * (i + 1)) && t0 == Schedule(key, 8 * (i + 1) - 1)
      modifies keyEnc
      ensures Filled(key, 8 * (i + 1) + 4) && t == Schedule(key, 8 * (i + 1) + 3)
    {
      hide Schedule, Plain;
      t := Head(key, 8, i, t0);
      PlainRange(8, i + 1, 1, 3);
      t := Chain(key, 8, 8 * (i + 1) + 1, 3, t);
    }

    /** loop8 */
    method Loop8(ghost key: seq<bv8>, i: nat, t0: bv32) returns (t: bv32)
      requires Shaped() && |key| == 32 && i < 6
      requires Filled(key, 8 * (i + 1)) && t0 == Schedule(key, 8 * (i + 1) - 1)
      modifies keyEnc
      ensures Filled(key, 8 * (i + 1) + 8) && t == Schedule(key, 8 * (i + 1) + 7)
    {
      hide Schedule, Plain, XorW, SubWord, LsBox;
      t := Loop8TopHalf(key, i, t0);
      MiddleStep(key, 8 * (i + 1) + 4, i);
      LsBoxIs(t);
      XorWComm(keyEnc[8 * i + 4], LsBox(t));
      t := XorW(keyEnc[8 * i + 4], LsBox(t));
      keyEnc[8 * i + 12] := t;
      PlainRange(8, i + 1, 5, 3);
      t := Chain(key, 8, 8 * (i + 1) + 5, 3, t);
    }

    /** The key itself is the start of the schedule. */
    method LoadKey(key: seq<bv8>)
      requires Shaped() && KeySize(|key|)
      modifies keyEnc
      ensures Filled(key, |key| / 4)
    {
      hide Load;
      for n := 0 to |key| / 4
        invariant Filled(key, n)
      {
        keyEnc[n] := Load(key, n);
      }
    }

    method FillEnc(key: seq<bv8>)
      requires Shaped() && KeySize(|key|)
      modifies keyEnc
      ensures Filled(key, |key| + 28)
    {
      hide Schedule;
      LoadKey(key);
      if |key| == 16 {
        var t := keyEnc[3];
        for i := 0 to 10
          invariant Filled(key, 4 * (i + 1)) && t == Schedule(key, 4 * (i + 1) - 1)
        {
          t := Loop(key, 4, i, t);
        }
      } else if |key| == 24 {
        var t := keyEnc[5];
        for i := 0 to 8
          invariant Filled(key, 6 * (i + 1)) && t == Schedule(key, 6 * (i + 1) - 1)
        {
          t := Loop(key, 6, i, t);
        }
      } else {
        var t := keyEnc[7];
        for i := 0 to 6
          invariant Filled(key, 8 * (i + 1)) && t == Schedule(key, 8 * (i + 1) - 1)
        {
          t := Loop8(key, i, t);
        }
        t := Loop8TopHalf(key, 6, t);
      }
    }

    /** The reversed key: the ends as they are, the rest through imix_col. */
    method FillDec(len: nat)
      requires Shaped() && KeySize(len)
      modifies keyDec
      ensures DecFilled(len)
    {
      FillEnds(len);
      hide IMixCol, Mirrored, Ends;
      MirroredNone(keyEnc[..], keyDec[..], len);
      for i := 4 to len + 24
        invariant Ends(keyEnc[..], keyDec[..], len, 4) && Mirrored(keyEnc[..], keyDec[..], len, i)
      {
        var j := Mirror(len, i);
        MirroredStep(keyEnc[..], keyDec[..], len, i);
        ghost var dec := keyDec[..];
        keyDec[j] := IMixCol(keyEnc[i]);
        assert keyDec[..] == dec[j := IMixCol(keyEnc[i])];
      }
    }

    method FillEnds(len: nat)
      requires Shaped() && KeySize(len)
      modifies keyDec
      ensures Ends(keyEnc[..], keyDec[..], len, 4)
    {
      for c := 0 to 4
        invariant Ends(keyEnc[..], keyDec[..], len, c)
      {
        keyDec[len + 24 + c] := keyEnc[c];
        keyDec[c] := keyEnc[len + 24 + c];
      }
    }

    /** crypto_aes_expand_key */
    method ExpandKey(key: seq<bv8>) returns (ret: int)
      requires Shaped()
      modifies this, keyEnc, keyDec
      ensures Shaped() && ret == (if KeySize(|key|) then 0 else -EINVAL)
      ensures ret == 0 ==> Valid(key)
      ensures ret != 0 ==> keyLength == old(keyLength) && keyEnc[..] == old(keyEnc[..]) && keyDec[..] == old(keyDec[..])
    {
      if |key| != 16 && |key| != 24 && |key| != 32 {
        return -EINVAL;
      }
      keyLength := |key|;
      FillEnc(key);
      FillDec(|key|);
      return 0;
    }

    /** f_nround(b1, b0, kp); f_nround(b0, b1, kp) */
    method ForwardPair(b: seq<bv32>, kp: nat, ghost r: nat, ghost s: State) returns (b0: seq<bv32>, kp': nat)
      requires |b| == 4 && kp == 4 * (r + 1) && kp + 8 <= keyEnc.Length && Cols(b) == Rounds(keyEnc[..], s, r)
      ensures |b0| == 4 && kp' == kp + 8 && Cols(b0) == Rounds(keyEnc[..], s, r + 2)
    {
      hide Cols, MixColumns, ShiftRows, SubBytes, AddRoundKey, Key, ForwardRound;
      var b1 := ForwardRound(b, keyEnc[..], kp);
      ForwardRoundIs(b, keyEnc[..], r + 1);
      b0 := ForwardRound(b1, keyEnc[..], kp + 4);
      ForwardRoundIs(b1, keyEnc[..], r + 2);
      kp' := kp + 8;
    }

    /** aes_encrypt */
    method Encrypt(src: seq<bv8>, ghost key: seq<bv8>) returns (dst: seq<bv8>)
      requires Valid(key) && |src| == 16
      ensures dst == StoreBlock(Cipher(keyEnc[..], Nr(|key|), LoadBlock(src)))
    {
      hide Cols, MixColumns, ShiftRows, SubBytes, AddRoundKey, Key, ForwardRound, ForwardLastRound, LoadBlock, StoreBlock;
      hide Filled, DecFilled;
      ghost var s := LoadBlock(src);
      var b0, kp := Whiten(src, keyEnc[..]), 4;
      WhitenIs(src, keyEnc[..]);
      ghost var r := 0;
      if keyLength > 24 {
        b0, kp := ForwardPair(b0, kp, r, s);
        r := r + 2;
      }
      if keyLength > 16 {
        b0, kp := ForwardPair(b0, kp, r, s);
        r := r + 2;
      }
      b0, kp := ForwardPair(b0, kp, r, s);
      b0, kp := ForwardPair(b0, kp, r + 2, s);
      b0, kp := ForwardPair(b0, kp, r + 4, s);
      b0, kp := ForwardPair(b0, kp, r + 6, s);
      var b1 := ForwardRound(b0, keyEnc[..], kp);
      ForwardRoundIs(b0, keyEnc[..], r + 9);
      b0 := ForwardLastRound(b1, keyEnc[..], kp + 4);
      ForwardLastRoundIs(b1, keyEnc[..], r + 10);
      assert Nr(|key|) == r + 10;
      dst := Store(b0);
    }

    /** i_nround(b1, b0, kp); i_nround(b0, b1, kp) */
    method InversePair(b: seq<bv32>, kp: nat, ghost r: nat, ghost s: State) returns (b0: seq<bv32>, kp': nat)
      requires |b| == 4 && kp == 4 * (r + 1) && kp + 8 <= keyDec.Length && Cols(b) == InvRounds(keyDec[..], s, r)
      ensures |b0| == 4 && kp' == kp + 8 && Cols(b0) == InvRounds(keyDec[..], s, r + 2)
    {
      hide Cols, InvMixColumns, InvShiftRows, InvSubBytes, AddRoundKey, Key, InverseRound;
      var b1 := InverseRound(b, keyDec[..], kp);
      InverseRoundIs(b, keyDec[..], r + 1);
      b0 := InverseRound(b1, keyDec[..], kp + 4);
      InverseRoundIs(b1, keyDec[..], r + 2);
      kp' := kp + 8;
    }

    /** aes_decrypt */
    method Decrypt(src: seq<bv8>, ghost key: seq<bv8>) returns (dst: seq<bv8>)
      requires Valid(key) && |src| == 16
      ensures dst == StoreBlock(EqInvCipher(keyDec[..], Nr(|key|), LoadBlock(src)))
    {
      hide Cols, InvMixColumns, InvShiftRows, InvSubBytes, AddRoundKey, Key, InverseRound, InverseLastRound, LoadBlock, StoreBlock;
      hide Filled, DecFilled;
      ghost var s := LoadBlock(src);
      var b0, kp := Whiten(src, keyDec[..]), 4;
      WhitenIs(src, keyDec[..]);
      ghost var r := 0;
      if keyLength > 24 {
        b0, kp := InversePair(b0, kp, r, s);
        r := r + 2;
      }
      if keyLength > 16 {
        b0, kp := InversePair(b0, kp, r, s);
        r := r + 2;
      }
      b0, kp := InversePair(b0, kp, r, s);
      b0, kp := InversePair(b0, kp, r + 2, s);
      b0, kp := InversePair(b0, kp, r + 4, s);
      b0, kp := InversePair(b0, kp, r + 6, s);
      var b1 := InverseRound(b0, keyDec[..], kp);
      InverseRoundIs(b0, keyDec[..], r + 9);
      b0 := InverseLastRound(b1, keyDec[..], kp + 4);
      InverseLastRoundIs(b1, keyDec[..], r + 10);
      assert Nr(|key|) == r + 10;
      dst := Store(b0);
    }

    /** The keys of a context fit the equivalent inverse cipher. */
    lemma KeysReversed(key: seq<bv8>)
      requires Valid(key)
      ensures Reversed(keyEnc[..], keyDec[..], Nr(|key|))
    {
      hide Key, InvMixColumns, Filled, Mirrored, Ends;
      var enc, dec, len := keyEnc[..], keyDec[..], |key|;
      EndKeys(enc, dec, len);
      forall r | 0 < r < Nr(len) ensures Key(dec, r) == InvMixColumns(Key(enc, Nr(len) - r)) {
        DecKey(enc, dec, len, r);
      }
    }

    /** For every key and block: decrypting what was encrypted gives the block back. */
    method EncryptThenDecrypt(src: seq<bv8>, ghost key: seq<bv8>) returns (code: seq<bv8>, back: seq<bv8>)
      requires Valid(key) && |src| == 16
      ensures code == StoreBlock(Cipher(keyEnc[..], Nr(|key|), LoadBlock(src)))
      ensures back == src
    {
      hide Cipher, EqInvCipher, LoadBlock, StoreBlock, Valid;
      code := Encrypt(src, key);
      back := Decrypt(code, key);
      KeysReversed(key);
      RoundTrip(keyEnc[..], keyDec[..], Nr(|key|), LoadBlock(src));
      StoreLoad(src);
    }

    /** And the other way round. */
    method DecryptThenEncrypt(code: seq<bv8>, ghost key: seq<bv8>) returns (plain: seq<bv8>, back: seq<bv8>)
      requires Valid(key) && |code| == 16
      ensures plain == StoreBlock(EqInvCipher(keyDec[..], Nr(|key|), LoadBlock(code)))
      ensures back == code
    {
      hide Cipher, EqInvCipher, LoadBlock, StoreBlock, Valid;
      plain := Decrypt(code, key);
      back := Encrypt(plain, key);
      KeysReversed(key);
      TripBack(keyEnc[..], keyDec[..], Nr(|key|), LoadBlock(code));
      StoreLoad(code);
    }
  }
}
