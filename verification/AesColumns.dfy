/**
 * Columns of the AES state, section 5.1.3 and 5.3.3 of FIPS 197, and how the word arithmetic of
 * omap/crypto/aes_generic.c computes on them.
 */
module AesColumns {
  import opened AesTables

  /** The four bytes of a word, least significant first. */
  datatype Col = Col(a: bv8, b: bv8, c: bv8, d: bv8)

  /** byte(x, n) for the four n. */
  function Bytes(x: bv32): Col {
    Col((x & 0xff) as bv8, ((x >> 8) & 0xff) as bv8, ((x >> 16) & 0xff) as bv8, (x >> 24) as bv8)
  }

  function Pack(c: Col): bv32 { Word(c.a, c.b, c.c, c.d) }

  function Xor(x: Col, y: Col): Col { Col(Add(x.a, y.a), Add(x.b, y.b), Add(x.c, y.c), Add(x.d, y.d)) }

  lemma BytesPack(c: Col)
    ensures Bytes(Pack(c)) == c
  {
  }

  /** x ^ y on words. */
  function XorW(x: bv32, y: bv32): bv32 { x ^ y }

  lemma BytesXor(x: bv32, y: bv32)
    ensures Bytes(XorW(x, y)) == Xor(Bytes(x), Bytes(y))
  {
  }

  lemma BytesRor(x: bv32)
    ensures var c := Bytes(x);
            && Bytes(Ror8(x)) == Col(c.b, c.c, c.d, c.a)
            && Bytes(Ror16(x)) == Col(c.c, c.d, c.a, c.b)
            && Bytes(Ror24(x)) == Col(c.d, c.a, c.b, c.c)
  {
  }

  // ---------------------------------------------------------------- multiplication by constants

  function Add4(a: bv8, b: bv8, c: bv8, d: bv8): bv8 { Add(Add(a, b), Add(c, d)) }

  /** MixColumns on one column. */
  function Mix(c: Col): Col {
    Col(Add4(Xt(c.a), Mul3(c.b), c.c, c.d),
        Add4(c.a, Xt(c.b), Mul3(c.c), c.d),
        Add4(c.a, c.b, Xt(c.c), Mul3(c.d)),
        Add4(Mul3(c.a), c.b, c.c, Xt(c.d)))
  }

  function Row(a: bv8, b: bv8, c: bv8, d: bv8): bv8 { Add4(Mul14(a), Mul11(b), Mul13(c), Mul9(d)) }

  /** InvMixColumns on one column. */
  function InvMix(c: Col): Col {
    Col(Row(c.a, c.b, c.c, c.d), Row(c.b, c.c, c.d, c.a), Row(c.c, c.d, c.a, c.b), Row(c.d, c.a, c.b, c.c))
  }

  lemma AddSwap(a: bv8, b: bv8, e: bv8, f: bv8)
    ensures Add(Add(a, e), Add(b, f)) == Add(Add(a, b), Add(e, f))
  {
    hide Add;
    AddAssoc(a, e, Add(b, f));
    AddAssoc(e, b, f);
    AddComm(e, b);
    AddAssoc(b, e, f);
    AddAssoc(a, b, Add(e, f));
  }

  lemma AddComm(x: bv8, y: bv8)
    ensures Add(x, y) == Add(y, x)
  {
  }

  lemma AddAssoc(x: bv8, y: bv8, z: bv8)
    ensures Add(Add(x, y), z) == Add(x, Add(y, z))
  {
  }

  lemma XtAdd(x: bv8, y: bv8)
    ensures Xt(Add(x, y)) == Add(Xt(x), Xt(y))
  {
  }

  lemma Xt3Add(x: bv8, y: bv8)
    ensures Xt(Xt(Add(x, y))) == Add(Xt(Xt(x)), Xt(Xt(y))) && Xt3(Add(x, y)) == Add(Xt3(x), Xt3(y))
  {
    hide Xt, Add;
    XtAdd(x, y);
    XtAdd(Xt(x), Xt(y));
    XtAdd(Xt(Xt(x)), Xt(Xt(y)));
  }

  lemma MulAdd(x: bv8, y: bv8)
    ensures Mul9(Add(x, y)) == Add(Mul9(x), Mul9(y)) && Mul11(Add(x, y)) == Add(Mul11(x), Mul11(y))
    ensures Mul13(Add(x, y)) == Add(Mul13(x), Mul13(y)) && Mul14(Add(x, y)) == Add(Mul14(x), Mul14(y))
  {
    hide Xt, Xt3, Add;
    XtAdd(x, y);
    Xt3Add(x, y);
    var (x1, x2, x3) := (Xt(x), Xt(Xt(x)), Xt3(x));
    var (y1, y2, y3) := (Xt(y), Xt(Xt(y)), Xt3(y));
    AddSwap(x3, x, y3, y);
    AddSwap(x1, x, y1, y);
    AddSwap(x3, Add(x1, x), y3, Add(y1, y));
    AddSwap(x2, x, y2, y);
    AddSwap(x3, Add(x2, x), y3, Add(y2, y));
    AddSwap(x2, x1, y2, y1);
    AddSwap(x3, Add(x2, x1), y3, Add(y2, y1));
  }

  lemma RowAdd(x: Col, y: Col)
    ensures Row(Add(x.a, y.a), Add(x.b, y.b), Add(x.c, y.c), Add(x.d, y.d)) ==
            Add(Row(x.a, x.b, x.c, x.d), Row(y.a, y.b, y.c, y.d))
  {
    hide Mul9, Mul11, Mul13, Mul14, Add;
    MulAdd(x.a, y.a);
    MulAdd(x.b, y.b);
    MulAdd(x.c, y.c);
    MulAdd(x.d, y.d);
    AddSwap(Mul14(x.a), Mul11(x.b), Mul14(y.a), Mul11(y.b));
    AddSwap(Mul13(x.c), Mul9(x.d), Mul13(y.c), Mul9(y.d));
    AddSwap(Add(Mul14(x.a), Mul11(x.b)), Add(Mul13(x.c), Mul9(x.d)), Add(Mul14(y.a), Mul11(y.b)), Add(Mul13(y.c), Mul9(y.d)));
  }

  function Rotated(c: Col): Col { Col(c.b, c.c, c.d, c.a) }

  /** InvMixColumns is linear. */
  lemma InvMixXor(x: Col, y: Col)
    ensures InvMix(Xor(x, y)) == Xor(InvMix(x), InvMix(y))
  {
    hide Row, Add;
    RowAdd(x, y);
    RowAdd(Rotated(x), Rotated(y));
    RowAdd(Rotated(Rotated(x)), Rotated(Rotated(y)));
    RowAdd(Rotated(Rotated(Rotated(x))), Rotated(Rotated(Rotated(y))));
  }

  /** The products of a row of the one matrix with the columns of the other. */
  lemma RowTimesColumn(x: bv8)
    ensures Row(Xt(x), x, x, Mul3(x)) == x
    ensures Row(Mul3(x), Xt(x), x, x) == 0
    ensures Row(x, Mul3(x), Xt(x), x) == 0
    ensures Row(x, x, Mul3(x), Xt(x)) == 0
  {
    hide Row;
    RowTimesFirst(x);
    RowTimesOthers(x);
  }

  lemma RowTimesFirst(x: bv8)
    ensures Row(Xt(x), x, x, Mul3(x)) == x
    ensures Row(Mul3(x), Xt(x), x, x) == 0
  {
  }

  lemma RowTimesOthers(x: bv8)
    ensures Row(x, Mul3(x), Xt(x), x) == 0
    ensures Row(x, x, Mul3(x), Xt(x)) == 0
  {
  }

  lemma AddZeros(x: bv8)
    ensures Add4(x, 0, 0, 0) == x
  {
  }

  lemma RowOfMix(c: Col)
    ensures var m := Mix(c); Row(m.a, m.b, m.c, m.d) == c.a
  {
    hide Row, Xt, Mul3, Add;
    var p, q := Col(Xt(c.a), c.a, c.a, Mul3(c.a)), Col(Mul3(c.b), Xt(c.b), c.b, c.b);
    var r, s := Col(c.c, Mul3(c.c), Xt(c.c), c.c), Col(c.d, c.d, Mul3(c.d), Xt(c.d));
    RowAdd(p, q);
    RowAdd(r, s);
    RowAdd(Xor(p, q), Xor(r, s));
    RowTimesColumn(c.a);
    RowTimesColumn(c.b);
    RowTimesColumn(c.c);
    RowTimesColumn(c.d);
    AddZeros(c.a);
  }

  lemma AddRotates(p: bv8, q: bv8, r: bv8, s: bv8)
    ensures Add4(p, q, r, s) == Add4(s, p, q, r)
  {
    hide Add;
    AddAssoc(Add(p, q), r, s);
    AddComm(Add(Add(p, q), r), s);
    AddAssoc(p, q, r);
    AddAssoc(s, p, Add(q, r));
  }

  lemma MixRotates(c: Col)
    ensures Mix(Rotated(c)) == Rotated(Mix(c))
  {
    hide Xt, Mul3, Add4;
    AddRotates(Xt(c.b), Mul3(c.c), c.d, c.a);
    AddRotates(c.b, Xt(c.c), Mul3(c.d), c.a);
    AddRotates(c.b, c.c, Xt(c.d), Mul3(c.a));
    AddRotates(Mul3(c.b), c.c, c.d, Xt(c.a));
  }

  /** InvMixColumns undoes MixColumns. */
  lemma InvMixUndoes(c: Col)
    ensures InvMix(Mix(c)) == c
  {
    hide Row, Mix;
    var c1 := Rotated(c);
    var c2 := Rotated(c1);
    MixRotates(c);
    MixRotates(c1);
    MixRotates(c2);
    RowOfMix(c);
    RowOfMix(c1);
    RowOfMix(c2);
    RowOfMix(Rotated(c2));
  }

  /** A row of MixColumns. */
  function MixRow(a: bv8, b: bv8, c: bv8, d: bv8): bv8 { Add4(Xt(a), Mul3(b), c, d) }

  lemma MixRowAdd(x: Col, y: Col)
    ensures MixRow(Add(x.a, y.a), Add(x.b, y.b), Add(x.c, y.c), Add(x.d, y.d)) ==
            Add(MixRow(x.a, x.b, x.c, x.d), MixRow(y.a, y.b, y.c, y.d))
  {
    hide Xt, Add;
    XtAdd(x.a, y.a);
    XtAdd(x.b, y.b);
    AddSwap(Xt(x.b), x.b, Xt(y.b), y.b);
    AddSwap(Xt(x.a), Mul3(x.b), Xt(y.a), Mul3(y.b));
    AddSwap(x.c, x.d, y.c, y.d);
    AddSwap(Add(Xt(x.a), Mul3(x.b)), Add(x.c, x.d), Add(Xt(y.a), Mul3(y.b)), Add(y.c, y.d));
  }

  lemma MixRowTimesColumn(x: bv8)
    ensures MixRow(Mul14(x), Mul9(x), Mul13(x), Mul11(x)) == x
    ensures MixRow(Mul11(x), Mul14(x), Mul9(x), Mul13(x)) == 0
    ensures MixRow(Mul13(x), Mul11(x), Mul14(x), Mul9(x)) == 0
    ensures MixRow(Mul9(x), Mul13(x), Mul11(x), Mul14(x)) == 0
  {
  }

  lemma MixRowOfInvMix(c: Col)
    ensures var m := InvMix(c); MixRow(m.a, m.b, m.c, m.d) == c.a
  {
    hide MixRow, Add, Mul9, Mul11, Mul13, Mul14;
    var p, q := Col(Mul14(c.a), Mul9(c.a), Mul13(c.a), Mul11(c.a)), Col(Mul11(c.b), Mul14(c.b), Mul9(c.b), Mul13(c.b));
    var r, s := Col(Mul13(c.c), Mul11(c.c), Mul14(c.c), Mul9(c.c)), Col(Mul9(c.d), Mul13(c.d), Mul11(c.d), Mul14(c.d));
    MixRowAdd(p, q);
    MixRowAdd(r, s);
    MixRowAdd(Xor(p, q), Xor(r, s));
    MixRowTimesColumn(c.a);
    MixRowTimesColumn(c.b);
    MixRowTimesColumn(c.c);
    MixRowTimesColumn(c.d);
    AddZeros(c.a);
    AddRotates(p.b, q.b, r.b, s.b);
    AddRotates(p.c, q.c, r.c, s.c);
    AddRotates(s.c, p.c, q.c, r.c);
    AddRotates(p.d, q.d, r.d, s.d);
    AddRotates(s.d, p.d, q.d, r.d);
    AddRotates(r.d, s.d, p.d, q.d);
    AddRotates(q.b, r.b, s.b, p.b);
    AddRotates(q.c, r.c, s.c, p.c);
    AddRotates(r.c, s.c, p.c, q.c);
    AddRotates(q.d, r.d, s.d, p.d);
  }

  lemma MixIsRows(c: Col)
    ensures Mix(c) == Col(MixRow(c.a, c.b, c.c, c.d), MixRow(c.b, c.c, c.d, c.a),
                          MixRow(c.c, c.d, c.a, c.b), MixRow(c.d, c.a, c.b, c.c))
  {
    hide Xt, Mul3, Add4;
    AddRotates(Xt(c.b), Mul3(c.c), c.d, c.a);
    AddRotates(Xt(c.c), Mul3(c.d), c.a, c.b);
    AddRotates(c.b, Xt(c.c), Mul3(c.d), c.a);
    AddRotates(Xt(c.d), Mul3(c.a), c.b, c.c);
    AddRotates(c.c, Xt(c.d), Mul3(c.a), c.b);
    AddRotates(c.b, c.c, Xt(c.d), Mul3(c.a));
  }

  /** MixColumns undoes InvMixColumns. */
  lemma MixUndoes(c: Col)
    ensures Mix(InvMix(c)) == c
  {
    hide Row, Mix, MixRow;
    var c1 := Rotated(c);
    var c2 := Rotated(c1);
    MixIsRows(InvMix(c));
    MixRowOfInvMix(c);
    MixRowOfInvMix(c1);
    MixRowOfInvMix(c2);
    MixRowOfInvMix(Rotated(c2));
  }

  // ---------------------------------------------------------------- word arithmetic

  function StarX(x: bv32): bv32 { ((x & 0x7f7f7f7f) << 1) ^ (((x & 0x80808080) >> 7) * 0x1b) }

  /** imix_col */
  function IMixCol(x: bv32): bv32 {
    var u := StarX(x);
    var v := StarX(u);
    var w := StarX(v);
    var t := XorW(w, x);
    XorW(XorW(XorW(u, v), w), XorW(XorW(Ror8(XorW(u, t)), Ror16(XorW(v, t))), Ror24(t)))
  }

  /** star_x multiplies the four bytes at once. */
  lemma StarXBytes(x: bv32)
    ensures var c := Bytes(x); Bytes(StarX(x)) == Col(Xt(c.a), Xt(c.b), Xt(c.c), Xt(c.d))
  {
  }

  lemma AddLast(x: bv8, y: bv8, z: bv8)
    ensures Add(x, Add(y, z)) == Add(y, Add(x, z)) && Add(Add(x, y), z) == Add(z, Add(y, x))
  {
    hide Add;
    AddAssoc(x, y, z);
    AddAssoc(y, x, z);
    AddComm(x, y);
    AddComm(Add(x, y), z);
  }

  /** One byte of imix_col, with the bytes of the intermediate words written out. */
  lemma IMixByte(a: bv8, b: bv8, c: bv8, d: bv8)
    ensures Add(Add(Add(Xt(a), Xt(Xt(a))), Xt3(a)),
                Add(Add(Add(Xt(b), Add(Xt3(b), b)), Add(Xt(Xt(c)), Add(Xt3(c), c))), Add(Xt3(d), d))) == Row(a, b, c, d)
  {
    hide Add, Xt, Xt3;
    AddLast(Xt(a), Xt(Xt(a)), Xt3(a));
    AddLast(Xt(b), Xt3(b), b);
    AddLast(Xt(Xt(c)), Xt3(c), c);
    AddAssoc(Mul11(b), Mul13(c), Mul9(d));
    AddAssoc(Mul14(a), Mul11(b), Add(Mul13(c), Mul9(d)));
  }

  /** imix_col is InvMixColumns. */
  lemma IMixColBytes(x: bv32)
    ensures Bytes(IMixCol(x)) == InvMix(Bytes(x))
  {
    hide Add, Xt, Bytes, Ror8, Ror16, Ror24, StarX, XorW, Row;
    var u := StarX(x);
    var v := StarX(u);
    var w := StarX(v);
    var t := XorW(w, x);
    StarXBytes(x);
    StarXBytes(u);
    StarXBytes(v);
    BytesXor(w, x);
    BytesXor(u, t);
    BytesXor(v, t);
    BytesRor(XorW(u, t));
    BytesRor(XorW(v, t));
    BytesRor(t);
    BytesXor(u, v);
    BytesXor(XorW(u, v), w);
    BytesXor(Ror8(XorW(u, t)), Ror16(XorW(v, t)));
    BytesXor(XorW(Ror8(XorW(u, t)), Ror16(XorW(v, t))), Ror24(t));
    BytesXor(XorW(XorW(u, v), w), XorW(XorW(Ror8(XorW(u, t)), Ror16(XorW(v, t))), Ror24(t)));
    var c := Bytes(x);
    IMixByte(c.a, c.b, c.c, c.d);
    IMixByte(c.b, c.c, c.d, c.a);
    IMixByte(c.c, c.d, c.a, c.b);
    IMixByte(c.d, c.a, c.b, c.c);
  }

  // ---------------------------------------------------------------- table rounds

  /** Four entries of the first quarter of a table, turned as in the other quarters. */
  function Fuse(p: bv32, q: bv32, r: bv32, s: bv32): bv32 { XorW(XorW(XorW(p, Ror24(q)), Ror16(r)), Ror8(s)) }

  lemma FuseBytes(p: bv32, q: bv32, r: bv32, s: bv32)
    ensures var (x, y, z, w) := (Bytes(p), Bytes(q), Bytes(r), Bytes(s));
            Bytes(Fuse(p, q, r, s)) == Col(Add4(x.a, y.d, z.c, w.b), Add4(x.b, y.a, z.d, w.c),
                                           Add4(x.c, y.b, z.a, w.d), Add4(x.d, y.c, z.b, w.a))
  {
    hide Add, Bytes, Ror8, Ror16, Ror24, XorW;
    BytesRor(q);
    BytesRor(r);
    BytesRor(s);
    BytesXor(p, Ror24(q));
    BytesXor(XorW(p, Ror24(q)), Ror16(r));
    BytesXor(XorW(XorW(p, Ror24(q)), Ror16(r)), Ror8(s));
    var (x, y, z, w) := (Bytes(p), Bytes(q), Bytes(r), Bytes(s));
    AddAssoc(Add(x.a, y.d), z.c, w.b);
    AddAssoc(Add(x.b, y.a), z.d, w.c);
    AddAssoc(Add(x.c, y.b), z.a, w.d);
    AddAssoc(Add(x.d, y.c), z.b, w.a);
  }

  lemma MixedBytes(s: bv8)
    ensures Bytes(MixedByte(s)) == Col(Xt(s), s, s, Mul3(s))
  {
    hide Xt, Mul3, Word, Bytes;
    BytesPack(Col(Xt(s), s, s, Mul3(s)));
  }

  lemma InvMixedBytes(s: bv8)
    ensures Bytes(InvMixedByte(s)) == Col(Mul14(s), Mul9(s), Mul13(s), Mul11(s))
  {
    hide Mul9, Mul11, Mul13, Mul14, Word, Bytes;
    BytesPack(Col(Mul14(s), Mul9(s), Mul13(s), Mul11(s)));
  }

  function SubCol(c: Col): Col { Col(Sbox(c.a), Sbox(c.b), Sbox(c.c), Sbox(c.d)) }

  function InvSubCol(c: Col): Col { Col(InvSbox(c.a), InvSbox(c.b), InvSbox(c.c), InvSbox(c.d)) }

  /** One entry from each quarter of a table. */
  function FtSum(c: Col): bv32 { XorW(XorW(XorW(Ft0(c.a), Ft1(c.b)), Ft2(c.c)), Ft3(c.d)) }

  function ItSum(c: Col): bv32 { XorW(XorW(XorW(It0(c.a), It1(c.b)), It2(c.c)), It3(c.d)) }

  function FlSum(c: Col): bv32 { XorW(XorW(XorW(Fl0(c.a), Fl1(c.b)), Fl2(c.c)), Fl3(c.d)) }

  function IlSum(c: Col): bv32 { XorW(XorW(XorW(Il0(c.a), Il1(c.b)), Il2(c.c)), Il3(c.d)) }

  /** Four lookups in the encryption tables substitute and mix a column. */
  lemma FtColumn(c: Col)
    ensures Bytes(FtSum(c)) == Mix(SubCol(c))
  {
    hide Add4, Bytes, Ft0, Ft1, Ft2, Ft3, Sbox, Xt, Mul3, MixedByte, XorW, Ror8, Ror16, Ror24;
    FtTurns(c.b);
    FtTurns(c.c);
    FtTurns(c.d);
    FuseBytes(Ft0(c.a), Ft0(c.b), Ft0(c.c), Ft0(c.d));
    FtIsMixed(c.a);
    FtIsMixed(c.b);
    FtIsMixed(c.c);
    FtIsMixed(c.d);
    MixedBytes(Sbox(c.a));
    MixedBytes(Sbox(c.b));
    MixedBytes(Sbox(c.c));
    MixedBytes(Sbox(c.d));
  }

  /** Four lookups in the decryption tables substitute and mix back. */
  lemma ItColumn(c: Col)
    ensures Bytes(ItSum(c)) == InvMix(InvSubCol(c))
  {
    hide Add4, Bytes, It0, It1, It2, It3, InvSbox, Xt, Mul9, Mul11, Mul13, Mul14, InvMixedByte, XorW, Ror8, Ror16, Ror24;
    ItTurns(c.b);
    ItTurns(c.c);
    ItTurns(c.d);
    FuseBytes(It0(c.a), It0(c.b), It0(c.c), It0(c.d));
    ItIsMixed(c.a);
    ItIsMixed(c.b);
    ItIsMixed(c.c);
    ItIsMixed(c.d);
    var s := InvSubCol(c);
    InvMixedBytes(s.a);
    InvMixedBytes(s.b);
    InvMixedBytes(s.c);
    InvMixedBytes(s.d);
    AddRotates(Mul14(s.b), Mul11(s.c), Mul13(s.d), Mul9(s.a));
    AddRotates(Mul13(s.c), Mul9(s.d), Mul14(s.a), Mul11(s.b));
    AddRotates(Mul14(s.c), Mul11(s.d), Mul13(s.a), Mul9(s.b));
    AddRotates(Mul9(s.b), Mul14(s.c), Mul11(s.d), Mul13(s.a));
    AddRotates(Mul11(s.a), Mul13(s.b), Mul9(s.c), Mul14(s.d));
  }

  /** fl_tab and il_tab hold single bytes, the k-th quarter at byte k. */
  function Place(c: Col): bv32 { XorW(XorW(XorW(At0(c.a), At1(c.b)), At2(c.c)), At3(c.d)) }

  lemma PlaceBytes(c: Col)
    ensures Bytes(Place(c)) == c
  {
  }

  /** Four lookups in the tables of the last round substitute a column. */
  lemma FlColumn(c: Col)
    ensures FlSum(c) == Place(SubCol(c))
  {
    hide Fl0, Fl1, Fl2, Fl3, Sbox, XorW, At0, At1, At2, At3;
    FlPlaces(c.a);
    FlPlaces(c.b);
    FlPlaces(c.c);
    FlPlaces(c.d);
  }

  lemma IlColumn(c: Col)
    ensures IlSum(c) == Place(InvSubCol(c))
  {
    hide Il0, Il1, Il2, Il3, InvSbox, XorW, At0, At1, At2, At3;
    IlPlaces(c.a);
    IlPlaces(c.b);
    IlPlaces(c.c);
    IlPlaces(c.d);
  }
}
