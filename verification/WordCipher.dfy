/**
 * The cipher of qemu/aes.c on words, for arbitrary word and byte types: if every line of
 * the code computes one column of FIPS 197, whole blocks come out as FIPS 197 says.
 */
module WordCipher {
  import opened IteratedCipher
  import opened Rijndael

  /** What one line of each kind of round computes, from four words and a key word. */
  datatype Lines<!W> = Lines(
    xor: (W, W) -> W,
    enc: (W, W, W, W, W) -> W,
    dec: (W, W, W, W, W) -> W,
    encLast: (W, W, W, W, W) -> W,
    decLast: (W, W, W, W, W) -> W)

  /** The words s0..s3 of a state, or the four words of a round key. */
  datatype Words<W> = Words(w0: W, w1: W, w2: W, w3: W)

  function View<W, T>(col: W -> Column<T>): Words<W> -> State<T> {
    (w: Words<W>) => State(col(w.w0), col(w.w1), col(w.w2), col(w.w3))
  }

  function Forward<W>(line: (W, W, W, W, W) -> W, s: Words<W>, k: Words<W>): Words<W> {
    Words(
      line(s.w0, s.w1, s.w2, s.w3, k.w0), line(s.w1, s.w2, s.w3, s.w0, k.w1),
      line(s.w2, s.w3, s.w0, s.w1, k.w2), line(s.w3, s.w0, s.w1, s.w2, k.w3))
  }

  function Backward<W>(line: (W, W, W, W, W) -> W, s: Words<W>, k: Words<W>): Words<W> {
    Words(
      line(s.w0, s.w3, s.w2, s.w1, k.w0), line(s.w1, s.w0, s.w3, s.w2, k.w1),
      line(s.w2, s.w1, s.w0, s.w3, k.w2), line(s.w3, s.w2, s.w1, s.w0, k.w3))
  }

  function XorWords<W>(xor: (W, W) -> W, s: Words<W>, k: Words<W>): Words<W> {
    Words(xor(s.w0, k.w0), xor(s.w1, k.w1), xor(s.w2, k.w2), xor(s.w3, k.w3))
  }

  function WordRounds<W>(l: Lines<W>): Rounds<Words<W>, Words<W>> {
    Rounds(
      (s: Words<W>, k: Words<W>) => XorWords(l.xor, s, k),
      (s: Words<W>, k: Words<W>) => Forward(l.enc, s, k),
      (s: Words<W>, k: Words<W>) => Backward(l.dec, s, k),
      (s: Words<W>, k: Words<W>) => Forward(l.encLast, s, k),
      (s: Words<W>, k: Words<W>) => Backward(l.decLast, s, k))
  }

  // Each line computes the column that FIPS 197 has in its place.

  function Gather<T>(g: T -> T, c0: Column<T>, c1: Column<T>, c2: Column<T>, c3: Column<T>): Column<T> {
    Column(g(c0.b0), g(c1.b1), g(c2.b2), g(c3.b3))
  }

  ghost predicate XorFits<W, T>(l: Lines<W>, f: Field<T>, col: W -> Column<T>, w: W, k: W) {
    col(l.xor(w, k)) == AddColumn(f, col(w), col(k))
  }

  ghost predicate EncFits<W, T>(l: Lines<W>, f: Field<T>, col: W -> Column<T>, w0: W, w1: W, w2: W, w3: W, k: W) {
    col(l.enc(w0, w1, w2, w3, k)) == AddColumn(f, Mix(f, Gather(f.sub, col(w0), col(w1), col(w2), col(w3))), col(k))
  }

  ghost predicate DecFits<W, T>(l: Lines<W>, f: Field<T>, col: W -> Column<T>, w0: W, w1: W, w2: W, w3: W, k: W) {
    col(l.dec(w0, w1, w2, w3, k)) == AddColumn(f, InvMix(f, Gather(f.invSub, col(w0), col(w1), col(w2), col(w3))),
      col(k))
  }

  ghost predicate EncLastFits<W, T>(l: Lines<W>, f: Field<T>, col: W -> Column<T>, w0: W, w1: W, w2: W, w3: W, k: W) {
    col(l.encLast(w0, w1, w2, w3, k)) == AddColumn(f, Gather(f.sub, col(w0), col(w1), col(w2), col(w3)), col(k))
  }

  ghost predicate DecLastFits<W, T>(l: Lines<W>, f: Field<T>, col: W -> Column<T>, w0: W, w1: W, w2: W, w3: W, k: W) {
    col(l.decLast(w0, w1, w2, w3, k)) == AddColumn(f, Gather(f.invSub, col(w0), col(w1), col(w2), col(w3)), col(k))
  }

  ghost predicate Fits<W(!new), T>(l: Lines<W>, f: Field<T>, col: W -> Column<T>) {
    && (forall w, k :: XorFits(l, f, col, w, k))
    && (forall w0, w1, w2, w3, k :: EncFits(l, f, col, w0, w1, w2, w3, k))
    && (forall w0, w1, w2, w3, k :: DecFits(l, f, col, w0, w1, w2, w3, k))
    && (forall w0, w1, w2, w3, k :: EncLastFits(l, f, col, w0, w1, w2, w3, k))
    && (forall w0, w1, w2, w3, k :: DecLastFits(l, f, col, w0, w1, w2, w3, k))
  }

  lemma EncryptView<W(!new), T>(l: Lines<W>, f: Field<T>, col: W -> Column<T>, s: Words<W>, k: Words<W>)
    requires Fits(l, f, col)
    ensures View(col)(Forward(l.enc, s, k)) == EncryptRound(f, View(col)(s), View(col)(k))
  {
    assert EncFits(l, f, col, s.w0, s.w1, s.w2, s.w3, k.w0) && EncFits(l, f, col, s.w1, s.w2, s.w3, s.w0, k.w1);
    assert EncFits(l, f, col, s.w2, s.w3, s.w0, s.w1, k.w2) && EncFits(l, f, col, s.w3, s.w0, s.w1, s.w2, k.w3);
    EncryptRoundColumns(f, View(col)(s), View(col)(k));
  }

  lemma DecryptView<W(!new), T>(l: Lines<W>, f: Field<T>, col: W -> Column<T>, s: Words<W>, k: Words<W>)
    requires Fits(l, f, col)
    ensures View(col)(Backward(l.dec, s, k)) == DecryptRound(f, View(col)(s), View(col)(k))
  {
    assert DecFits(l, f, col, s.w0, s.w3, s.w2, s.w1, k.w0) && DecFits(l, f, col, s.w1, s.w0, s.w3, s.w2, k.w1);
    assert DecFits(l, f, col, s.w2, s.w1, s.w0, s.w3, k.w2) && DecFits(l, f, col, s.w3, s.w2, s.w1, s.w0, k.w3);
    DecryptRoundColumns(f, View(col)(s), View(col)(k));
  }

  lemma LastView<W(!new), T>(l: Lines<W>, f: Field<T>, col: W -> Column<T>, s: Words<W>, k: Words<W>)
    requires Fits(l, f, col)
    ensures View(col)(Forward(l.encLast, s, k)) == AddRoundKey(f, ShiftRows(SubBytes(f, View(col)(s))), View(col)(k))
    ensures View(col)(Backward(l.decLast, s, k)) ==
      AddRoundKey(f, InvShiftRows(InvSubBytes(f, View(col)(s))), View(col)(k))
  {
    assert EncLastFits(l, f, col, s.w0, s.w1, s.w2, s.w3, k.w0) && EncLastFits(l, f, col, s.w1, s.w2, s.w3, s.w0, k.w1);
    assert EncLastFits(l, f, col, s.w2, s.w3, s.w0, s.w1, k.w2) && EncLastFits(l, f, col, s.w3, s.w0, s.w1, s.w2, k.w3);
    assert DecLastFits(l, f, col, s.w0, s.w3, s.w2, s.w1, k.w0) && DecLastFits(l, f, col, s.w1, s.w0, s.w3, s.w2, k.w1);
    assert DecLastFits(l, f, col, s.w2, s.w1, s.w0, s.w3, k.w2) && DecLastFits(l, f, col, s.w3, s.w2, s.w1, s.w0, k.w3);
  }

  lemma XorView<W(!new), T>(l: Lines<W>, f: Field<T>, col: W -> Column<T>, s: Words<W>, k: Words<W>)
    requires Fits(l, f, col)
    ensures View(col)(XorWords(l.xor, s, k)) == AddRoundKey(f, View(col)(s), View(col)(k))
  {
    assert XorFits(l, f, col, s.w0, k.w0) && XorFits(l, f, col, s.w1, k.w1) && XorFits(l, f, col, s.w2, k.w2) &&
      XorFits(l, f, col, s.w3, k.w3);
  }

  /** The word rounds are the rounds of FIPS 197. */
  lemma RoundsCommute<W(!new), T>(l: Lines<W>, f: Field<T>, col: W -> Column<T>)
    requires Fits(l, f, col)
    ensures forall s, k :: Commutes(WordRounds(l), AesRounds(f), View(col), s, k)
  {
    forall s, k ensures Commutes(WordRounds(l), AesRounds(f), View(col), s, k) {
      EncryptView(l, f, col, s, k);
      DecryptView(l, f, col, s, k);
      LastView(l, f, col, s, k);
      XorView(l, f, col, s, k);
    }
  }
}
