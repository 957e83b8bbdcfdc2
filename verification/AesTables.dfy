/**
 * Bytes, words and lookup tables of qemu/aes.c, and what one table-driven round computes.
 */
module AesTables {
  import opened Rijndael
  import opened WordCipher

  /** The substitution and its inverse; the tables store them at lines 60-711. */
  datatype SBox = SBox(s: bv8 -> bv8, inv: bv8 -> bv8)

  ghost predicate Inverts(b: SBox) {
    forall x :: b.inv(b.s(x)) == x
  }

  /** Multiplication by 02. */
  function Xtime(x: bv8): bv8 {
    (x << 1) ^ ((x >> 7) * 0x1b)
  }

  function XorByte(x: bv8, y: bv8): bv8 { x ^ y }

  /** The byte type of FIPS 197. */
  function Gf(b: SBox): Field<bv8> {
    Field(0, XorByte, Xtime, b.s, b.inv)
  }

  lemma XtimeXor(x: bv8, y: bv8)
    ensures Xtime(x ^ y) == Xtime(x) ^ Xtime(y)
  {}

  lemma XorAssoc(a: bv8, b: bv8, c: bv8)
    ensures XorByte(XorByte(a, b), c) == XorByte(a, XorByte(b, c))
  {
    assert XorByte(a, b) == a ^ b && XorByte(b, c) == b ^ c;
  }

  /** Bytes under XOR, with the code's substitution, obey the laws that decryption rests on. */
  lemma GfLaws(b: SBox)
    requires Inverts(b)
    ensures Laws(Gf(b))
  {
    var f := Gf(b);
    forall p, q, r ensures f.Assoc(p, q, r) {
      XorAssoc(p, q, r);
    }
    forall p, q ensures f.Comm(p, q) && f.Doubling(p, q) {
      XtimeXor(p, q);
    }
  }

  // Words (the macros GETU32 and PUTU32, and the shifts and masks of the rounds).

  function Word(b0: bv8, b1: bv8, b2: bv8, b3: bv8): bv32 {
    ((b0 as bv32) << 24) ^ ((b1 as bv32) << 16) ^ ((b2 as bv32) << 8) ^ (b3 as bv32)
  }

  function Byte0(w: bv32): bv8 { (w >> 24) as bv8 }
  function Byte1(w: bv32): bv8 { ((w >> 16) & 0xff) as bv8 }
  function Byte2(w: bv32): bv8 { ((w >> 8) & 0xff) as bv8 }
  function Byte3(w: bv32): bv8 { (w & 0xff) as bv8 }

  function ToColumn(w: bv32): Column<bv8> { Column(Byte0(w), Byte1(w), Byte2(w), Byte3(w)) }

  function FromColumn(c: Column<bv8>): bv32 { Word(c.b0, c.b1, c.b2, c.b3) }

  lemma WordBytes(c: Column<bv8>, w: bv32)
    ensures ToColumn(FromColumn(c)) == c
    ensures FromColumn(ToColumn(w)) == w
  {}

  lemma WordXor(v: bv32, w: bv32)
    ensures Byte0(v ^ w) == Byte0(v) ^ Byte0(w)
    ensures Byte1(v ^ w) == Byte1(v) ^ Byte1(w)
    ensures Byte2(v ^ w) == Byte2(v) ^ Byte2(w)
    ensures Byte3(v ^ w) == Byte3(v) ^ Byte3(w)
  {}

  lemma WordXorColumn(b: SBox, v: bv32, w: bv32)
    ensures ToColumn(v ^ w) == AddColumn(Gf(b), ToColumn(v), ToColumn(w))
  {
    WordXor(v, w);
  }

  // The XOR of two words, and the five-term XOR every line of a round computes.
  function XorWord(v: bv32, w: bv32): bv32 { v ^ w }

  function Xor5(v0: bv32, v1: bv32, v2: bv32, v3: bv32, k: bv32): bv32 {
    XorWord(XorWord(XorWord(XorWord(v0, v1), v2), v3), k)
  }

  lemma XorWordColumn(b: SBox, v: bv32, w: bv32)
    ensures ToColumn(XorWord(v, w)) == AddColumn(Gf(b), ToColumn(v), ToColumn(w))
  {
    WordXorColumn(b, v, w);
  }

  function Sum4Columns(b: SBox, c0: Column<bv8>, c1: Column<bv8>, c2: Column<bv8>, c3: Column<bv8>): Column<bv8> {
    var f := Gf(b);
    AddColumn(f, AddColumn(f, c0, c1), AddColumn(f, c2, c3))
  }

  lemma Xor5Column(b: SBox, v0: bv32, v1: bv32, v2: bv32, v3: bv32, k: bv32)
    ensures ToColumn(Xor5(v0, v1, v2, v3, k))
         == AddColumn(Gf(b), Sum4Columns(b, ToColumn(v0), ToColumn(v1), ToColumn(v2), ToColumn(v3)), ToColumn(k))
  {
    XorWordColumn(b, XorWord(XorWord(XorWord(v0, v1), v2), v3), k);
    XorWordColumn(b, XorWord(XorWord(v0, v1), v2), v3);
    XorWordColumn(b, XorWord(v0, v1), v2);
    XorWordColumn(b, v0, v1);
    AddColumnAssoc(b, AddColumn(Gf(b), ToColumn(v0), ToColumn(v1)), ToColumn(v2), ToColumn(v3));
  }

  lemma AddColumnAssoc(b: SBox, c: Column<bv8>, d: Column<bv8>, e: Column<bv8>)
    ensures var f := Gf(b); AddColumn(f, AddColumn(f, c, d), e) == AddColumn(f, c, AddColumn(f, d, e))
  {
    XorAssoc(c.b0, d.b0, e.b0);
    XorAssoc(c.b1, d.b1, e.b1);
    XorAssoc(c.b2, d.b2, e.b2);
    XorAssoc(c.b3, d.b3, e.b3);
  }

  // Entry x of each table, by the comment at qemu/aes.c:46-58.
  function Te0Of(b: SBox, x: bv8): bv32 { var (f, s) := (Gf(b), b.s(x)); Word(f.x2(s), s, s, f.Mul3(s)) }
  function Te1Of(b: SBox, x: bv8): bv32 { var (f, s) := (Gf(b), b.s(x)); Word(f.Mul3(s), f.x2(s), s, s) }
  function Te2Of(b: SBox, x: bv8): bv32 { var (f, s) := (Gf(b), b.s(x)); Word(s, f.Mul3(s), f.x2(s), s) }
  function Te3Of(b: SBox, x: bv8): bv32 { var (f, s) := (Gf(b), b.s(x)); Word(s, s, f.Mul3(s), f.x2(s)) }
  function Te4Of(b: SBox, x: bv8): bv32 { var s := b.s(x); Word(s, s, s, s) }
  function Td0Of(b: SBox, x: bv8): bv32 { var (f, i) := (Gf(b), b.inv(x));
      Word(f.MulE(i), f.Mul9(i), f.MulD(i), f.MulB(i)) }
  function Td1Of(b: SBox, x: bv8): bv32 { var (f, i) := (Gf(b), b.inv(x));
      Word(f.MulB(i), f.MulE(i), f.Mul9(i), f.MulD(i)) }
  function Td2Of(b: SBox, x: bv8): bv32 { var (f, i) := (Gf(b), b.inv(x));
      Word(f.MulD(i), f.MulB(i), f.MulE(i), f.Mul9(i)) }
  function Td3Of(b: SBox, x: bv8): bv32 { var (f, i) := (Gf(b), b.inv(x));
      Word(f.Mul9(i), f.MulD(i), f.MulB(i), f.MulE(i)) }
  function Td4Of(b: SBox, x: bv8): bv32 { var i := b.inv(x); Word(i, i, i, i) }

  /** The lookup tables at qemu/aes.c:60-711, as functions of their index. */
  datatype Tables = Tables(
    te0: bv8 -> bv32, te1: bv8 -> bv32, te2: bv8 -> bv32, te3: bv8 -> bv32, te4: bv8 -> bv32,
    td0: bv8 -> bv32, td1: bv8 -> bv32, td2: bv8 -> bv32, td3: bv8 -> bv32, td4: bv8 -> bv32)
  {
    ghost predicate Row(b: SBox, x: bv8) {
      && te0(x) == Te0Of(b, x) && te1(x) == Te1Of(b, x) && te2(x) == Te2Of(b, x) && te3(x) == Te3Of(b, x) &&
        te4(x) == Te4Of(b, x)
      && td0(x) == Td0Of(b, x) && td1(x) == Td1Of(b, x) && td2(x) == Td2Of(b, x) && td3(x) == Td3Of(b, x) &&
        td4(x) == Td4Of(b, x)
    }

    /** The tables are those of the substitution b, and b has an inverse. */
    ghost predicate Built(b: SBox) {
      Inverts(b) && forall x :: Row(b, x)
    }

    // One line of an inner round and of the last round, forwards and backwards.

    function EncryptLine(w0: bv32, w1: bv32, w2: bv32, w3: bv32, k: bv32): bv32 {
      Xor5(te0(Byte0(w0)), te1(Byte1(w1)), te2(Byte2(w2)), te3(Byte3(w3)), k)
    }

    function DecryptLine(w0: bv32, w1: bv32, w2: bv32, w3: bv32, k: bv32): bv32 {
      Xor5(td0(Byte0(w0)), td1(Byte1(w1)), td2(Byte2(w2)), td3(Byte3(w3)), k)
    }

    function LastEncryptLine(w0: bv32, w1: bv32, w2: bv32, w3: bv32, k: bv32): bv32 {
      Xor5(te4(Byte0(w0)) & 0xff000000, te4(Byte1(w1)) & 0x00ff0000, te4(Byte2(w2)) & 0x0000ff00,
        te4(Byte3(w3)) & 0x000000ff, k)
    }

    function LastDecryptLine(w0: bv32, w1: bv32, w2: bv32, w3: bv32, k: bv32): bv32 {
      Xor5(td4(Byte0(w0)) & 0xff000000, td4(Byte1(w1)) & 0x00ff0000, td4(Byte2(w2)) & 0x0000ff00,
        td4(Byte3(w3)) & 0x000000ff, k)
    }

    /** The line of AES_set_decrypt_key that sends a key word through InvMixColumns. */
    function InvMixLine(w: bv32): bv32 {
      XorWord(XorWord(XorWord(
        td0(Byte3(te4(Byte0(w)))), td1(Byte3(te4(Byte1(w))))),
        td2(Byte3(te4(Byte2(w))))), td3(Byte3(te4(Byte3(w)))))
    }
  }

  /** The tables of a substitution. */
  function TablesOf(b: SBox): Tables {
    Tables(
      x => Te0Of(b, x), x => Te1Of(b, x), x => Te2Of(b, x), x => Te3Of(b, x), x => Te4Of(b, x),
      x => Td0Of(b, x), x => Td1Of(b, x), x => Td2Of(b, x), x => Td3Of(b, x), x => Td4Of(b, x))
  }

  /** Every substitution with an inverse has tables. */
  lemma TablesExist(b: SBox)
    requires Inverts(b)
    ensures TablesOf(b).Built(b)
  {
    hide Te0Of, Te1Of, Te2Of, Te3Of, Te4Of, Td0Of, Td1Of, Td2Of, Td3Of, Td4Of;
    forall x ensures TablesOf(b).Row(b, x) {}
  }

  lemma EncryptTableColumns(t: Tables, b: SBox, x: bv8)
    requires t.Built(b)
    ensures var i := Image(Gf(b), b.s(x));
      && ToColumn(t.te0(x)) == i
      && ToColumn(t.te1(x)) == Rotated(i)
      && ToColumn(t.te2(x)) == Rotated(Rotated(i))
      && ToColumn(t.te3(x)) == Rotated(Rotated(Rotated(i)))
  {
    assert t.Row(b, x);
    var i := Image(Gf(b), b.s(x));
    WordBytes(i, 0);
    WordBytes(Rotated(i), 0);
    WordBytes(Rotated(Rotated(i)), 0);
    WordBytes(Rotated(Rotated(Rotated(i))), 0);
  }

  lemma EncryptLineColumn(t: Tables, b: SBox, w0: bv32, w1: bv32, w2: bv32, w3: bv32, k: bv32)
    requires t.Built(b)
    ensures var f := Gf(b);
      ToColumn(t.EncryptLine(w0, w1, w2, w3, k))
        == AddColumn(f, Mix(f, Column(b.s(Byte0(w0)), b.s(Byte1(w1)), b.s(Byte2(w2)), b.s(Byte3(w3)))), ToColumn(k))
  {
    var (v0, v1, v2, v3) := (t.te0(Byte0(w0)), t.te1(Byte1(w1)), t.te2(Byte2(w2)), t.te3(Byte3(w3)));
    Xor5Column(b, v0, v1, v2, v3, k);
    EncryptTableColumns(t, b, Byte0(w0));
    EncryptTableColumns(t, b, Byte1(w1));
    EncryptTableColumns(t, b, Byte2(w2));
    EncryptTableColumns(t, b, Byte3(w3));
    MixIsSum(Gf(b), Column(b.s(Byte0(w0)), b.s(Byte1(w1)), b.s(Byte2(w2)), b.s(Byte3(w3))));
  }

  lemma DecryptTableColumns(t: Tables, b: SBox, x: bv8)
    requires t.Built(b)
    ensures var i := InvImage(Gf(b), b.inv(x));
      && ToColumn(t.td0(x)) == i
      && ToColumn(t.td1(x)) == Rotated(i)
      && ToColumn(t.td2(x)) == Rotated(Rotated(i))
      && ToColumn(t.td3(x)) == Rotated(Rotated(Rotated(i)))
  {
    assert t.Row(b, x);
    var i := InvImage(Gf(b), b.inv(x));
    WordBytes(i, 0);
    WordBytes(Rotated(i), 0);
    WordBytes(Rotated(Rotated(i)), 0);
    WordBytes(Rotated(Rotated(Rotated(i))), 0);
  }

  /** The sum of one entry of each decryption table is an InvMixColumns column. */
  lemma DecryptTableSum(t: Tables, b: SBox, x0: bv8, x1: bv8, x2: bv8, x3: bv8)
    requires t.Built(b)
    ensures Sum4Columns(b, ToColumn(t.td0(x0)), ToColumn(t.td1(x1)), ToColumn(t.td2(x2)), ToColumn(t.td3(x3)))
         == InvMix(Gf(b), Column(b.inv(x0), b.inv(x1), b.inv(x2), b.inv(x3)))
  {
    DecryptTableColumns(t, b, x0);
    DecryptTableColumns(t, b, x1);
    DecryptTableColumns(t, b, x2);
    DecryptTableColumns(t, b, x3);
    InvMixIsSum(Gf(b), Column(b.inv(x0), b.inv(x1), b.inv(x2), b.inv(x3)));
  }

  lemma DecryptLineColumn(t: Tables, b: SBox, w0: bv32, w1: bv32, w2: bv32, w3: bv32, k: bv32)
    requires t.Built(b)
    ensures var f := Gf(b);
      ToColumn(t.DecryptLine(w0, w1, w2, w3, k))
        == AddColumn(f, InvMix(f, Column(b.inv(Byte0(w0)), b.inv(Byte1(w1)), b.inv(Byte2(w2)), b.inv(Byte3(w3)))),
          ToColumn(k))
  {
    Xor5Column(b, t.td0(Byte0(w0)), t.td1(Byte1(w1)), t.td2(Byte2(w2)), t.td3(Byte3(w3)), k);
    DecryptTableSum(t, b, Byte0(w0), Byte1(w1), Byte2(w2), Byte3(w3));
  }

  lemma AddZeros(b: SBox, c: Column<bv8>)
    ensures Sum4Columns(b, Column(c.b0, 0, 0, 0), Column(0, c.b1, 0, 0), Column(0, 0, c.b2, 0),
      Column(0, 0, 0, c.b3)) == c
  {
    XorZero(0);
    XorZero(c.b0);
    XorZero(c.b1);
    XorZero(c.b2);
    XorZero(c.b3);
  }

  lemma XorZero(x: bv8)
    ensures XorByte(x, 0) == x == XorByte(0, x)
  {}

  lemma Te4Word(t: Tables, b: SBox, x: bv8)
    requires t.Built(b)
    ensures t.te4(x) == Word(b.s(x), b.s(x), b.s(x), b.s(x))
  {
    assert t.Row(b, x);
  }

  // A word of four equal bytes keeps one of them under each mask.
  lemma Masks(s: bv8)
    ensures var w := Word(s, s, s, s);
      && w & 0xff000000 == Word(s, 0, 0, 0) && w & 0x00ff0000 == Word(0, s, 0, 0)
      && w & 0x0000ff00 == Word(0, 0, s, 0) && w & 0x000000ff == Word(0, 0, 0, s)
  {}

  lemma SparseSum(b: SBox, c: Column<bv8>, k: bv32)
    ensures ToColumn(Xor5(Word(c.b0, 0, 0, 0), Word(0, c.b1, 0, 0), Word(0, 0, c.b2, 0), Word(0, 0, 0, c.b3), k))
         == AddColumn(Gf(b), c, ToColumn(k))
  {
    WordBytes(Column(c.b0, 0, 0, 0), 0);
    WordBytes(Column(0, c.b1, 0, 0), 0);
    WordBytes(Column(0, 0, c.b2, 0), 0);
    WordBytes(Column(0, 0, 0, c.b3), 0);
    Xor5Column(b, Word(c.b0, 0, 0, 0), Word(0, c.b1, 0, 0), Word(0, 0, c.b2, 0), Word(0, 0, 0, c.b3), k);
    AddZeros(b, c);
  }

  lemma Te4Masked(t: Tables, b: SBox, x: bv8, j: nat)
    requires t.Built(b)
    ensures j == 0 ==> t.te4(x) & 0xff000000 == Word(b.s(x), 0, 0, 0)
    ensures j == 1 ==> t.te4(x) & 0x00ff0000 == Word(0, b.s(x), 0, 0)
    ensures j == 2 ==> t.te4(x) & 0x0000ff00 == Word(0, 0, b.s(x), 0)
    ensures j == 3 ==> t.te4(x) & 0x000000ff == Word(0, 0, 0, b.s(x))
  {
    assert t.Row(b, x);
    Masks(b.s(x));
  }

  lemma Td4Masked(t: Tables, b: SBox, x: bv8, j: nat)
    requires t.Built(b)
    ensures j == 0 ==> t.td4(x) & 0xff000000 == Word(b.inv(x), 0, 0, 0)
    ensures j == 1 ==> t.td4(x) & 0x00ff0000 == Word(0, b.inv(x), 0, 0)
    ensures j == 2 ==> t.td4(x) & 0x0000ff00 == Word(0, 0, b.inv(x), 0)
    ensures j == 3 ==> t.td4(x) & 0x000000ff == Word(0, 0, 0, b.inv(x))
  {
    assert t.Row(b, x);
    Masks(b.inv(x));
  }

  lemma LastEncryptLineWords(t: Tables, b: SBox, w0: bv32, w1: bv32, w2: bv32, w3: bv32, k: bv32)
    requires t.Built(b)
    ensures t.LastEncryptLine(w0, w1, w2, w3, k) == Xor5(
      Word(b.s(Byte0(w0)), 0, 0, 0), Word(0, b.s(Byte1(w1)), 0, 0), Word(0, 0, b.s(Byte2(w2)), 0),
        Word(0, 0, 0, b.s(Byte3(w3))), k)
  {
    Te4Masked(t, b, Byte0(w0), 0);
    Te4Masked(t, b, Byte1(w1), 1);
    Te4Masked(t, b, Byte2(w2), 2);
    Te4Masked(t, b, Byte3(w3), 3);
  }

  lemma LastEncryptLineColumn(t: Tables, b: SBox, w0: bv32, w1: bv32, w2: bv32, w3: bv32, k: bv32)
    requires t.Built(b)
    ensures ToColumn(t.LastEncryptLine(w0, w1, w2, w3, k))
         == AddColumn(Gf(b), Column(b.s(Byte0(w0)), b.s(Byte1(w1)), b.s(Byte2(w2)), b.s(Byte3(w3))), ToColumn(k))
  {
    LastEncryptLineWords(t, b, w0, w1, w2, w3, k);
    SparseSum(b, Column(b.s(Byte0(w0)), b.s(Byte1(w1)), b.s(Byte2(w2)), b.s(Byte3(w3))), k);
  }

  lemma LastDecryptLineWords(t: Tables, b: SBox, w0: bv32, w1: bv32, w2: bv32, w3: bv32, k: bv32)
    requires t.Built(b)
    ensures t.LastDecryptLine(w0, w1, w2, w3, k) == Xor5(
      Word(b.inv(Byte0(w0)), 0, 0, 0), Word(0, b.inv(Byte1(w1)), 0, 0), Word(0, 0, b.inv(Byte2(w2)), 0),
        Word(0, 0, 0, b.inv(Byte3(w3))), k)
  {
    Td4Masked(t, b, Byte0(w0), 0);
    Td4Masked(t, b, Byte1(w1), 1);
    Td4Masked(t, b, Byte2(w2), 2);
    Td4Masked(t, b, Byte3(w3), 3);
  }

  lemma LastDecryptLineColumn(t: Tables, b: SBox, w0: bv32, w1: bv32, w2: bv32, w3: bv32, k: bv32)
    requires t.Built(b)
    ensures ToColumn(t.LastDecryptLine(w0, w1, w2, w3, k))
         == AddColumn(Gf(b), Column(b.inv(Byte0(w0)), b.inv(Byte1(w1)), b.inv(Byte2(w2)), b.inv(Byte3(w3))),
           ToColumn(k))
  {
    LastDecryptLineWords(t, b, w0, w1, w2, w3, k);
    SparseSum(b, Column(b.inv(Byte0(w0)), b.inv(Byte1(w1)), b.inv(Byte2(w2)), b.inv(Byte3(w3))), k);
  }

  lemma Te4Byte(t: Tables, b: SBox, x: bv8)
    requires t.Built(b)
    ensures Byte3(t.te4(x)) == b.s(x)
  {
    Te4Word(t, b, x);
    var s := b.s(x);
    WordBytes(Column(s, s, s, s), 0);
  }

  lemma InvMixLineColumn(t: Tables, b: SBox, w: bv32)
    requires t.Built(b)
    ensures ToColumn(t.InvMixLine(w)) == InvMix(Gf(b), ToColumn(w))
  {
    var c := ToColumn(w);
    Te4Byte(t, b, c.b0);
    Te4Byte(t, b, c.b1);
    Te4Byte(t, b, c.b2);
    Te4Byte(t, b, c.b3);
    var (x0, x1, x2, x3) := (b.s(c.b0), b.s(c.b1), b.s(c.b2), b.s(c.b3));
    var (v0, v1, v2, v3) := (t.td0(x0), t.td1(x1), t.td2(x2), t.td3(x3));
    XorWordColumn(b, XorWord(XorWord(v0, v1), v2), v3);
    XorWordColumn(b, XorWord(v0, v1), v2);
    XorWordColumn(b, v0, v1);
    AddColumnAssoc(b, AddColumn(Gf(b), ToColumn(v0), ToColumn(v1)), ToColumn(v2), ToColumn(v3));
    DecryptTableSum(t, b, x0, x1, x2, x3);
  }

  /** The lines of the block functions. */
  function CodeLines(t: Tables): Lines<bv32> {
    Lines(
      XorWord,
      (w0, w1, w2, w3, k) => t.EncryptLine(w0, w1, w2, w3, k),
      (w0, w1, w2, w3, k) => t.DecryptLine(w0, w1, w2, w3, k),
      (w0, w1, w2, w3, k) => t.LastEncryptLine(w0, w1, w2, w3, k),
      (w0, w1, w2, w3, k) => t.LastDecryptLine(w0, w1, w2, w3, k))
  }

  /** With the tables of the comment, every line computes its column of FIPS 197. */
  lemma CodeFits(t: Tables, b: SBox)
    requires t.Built(b)
    ensures Fits(CodeLines(t), Gf(b), ToColumn)
  {
    CodeFitsForward(t, b);
    CodeFitsBackward(t, b);
    CodeFitsLast(t, b);
    forall w, k ensures XorFits(CodeLines(t), Gf(b), ToColumn, w, k) {
      XorWordColumn(b, w, k);
    }
  }

  lemma CodeFitsForward(t: Tables, b: SBox)
    requires t.Built(b)
    ensures forall w0, w1, w2, w3, k :: EncFits(CodeLines(t), Gf(b), ToColumn, w0, w1, w2, w3, k)
  {
    forall w0, w1, w2, w3, k ensures EncFits(CodeLines(t), Gf(b), ToColumn, w0, w1, w2, w3, k) {
      EncryptLineColumn(t, b, w0, w1, w2, w3, k);
    }
  }

  lemma CodeFitsBackward(t: Tables, b: SBox)
    requires t.Built(b)
    ensures forall w0, w1, w2, w3, k :: DecFits(CodeLines(t), Gf(b), ToColumn, w0, w1, w2, w3, k)
  {
    forall w0, w1, w2, w3, k ensures DecFits(CodeLines(t), Gf(b), ToColumn, w0, w1, w2, w3, k) {
      DecryptLineColumn(t, b, w0, w1, w2, w3, k);
    }
  }

  lemma CodeFitsLast(t: Tables, b: SBox)
    requires t.Built(b)
    ensures forall w0, w1, w2, w3, k :: EncLastFits(CodeLines(t), Gf(b), ToColumn, w0, w1, w2, w3, k)
    ensures forall w0, w1, w2, w3, k :: DecLastFits(CodeLines(t), Gf(b), ToColumn, w0, w1, w2, w3, k)
  {
    forall w0, w1, w2, w3, k ensures EncLastFits(CodeLines(t), Gf(b), ToColumn, w0, w1, w2, w3, k) {
      LastEncryptLineColumn(t, b, w0, w1, w2, w3, k);
    }
    forall w0, w1, w2, w3, k ensures DecLastFits(CodeLines(t), Gf(b), ToColumn, w0, w1, w2, w3, k) {
      LastDecryptLineColumn(t, b, w0, w1, w2, w3, k);
    }
  }
}
