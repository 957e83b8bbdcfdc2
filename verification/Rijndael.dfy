/**
 * The cipher of FIPS 197 over an arbitrary byte type: an addition (XOR on real
 * bytes), a "multiply by 02", and a substitution with its inverse.  Everything
 * that makes decryption undo encryption is proved here once; module Aes
 * instantiates it with the bytes, words and lookup tables of qemu/aes.c.
 */
module Rijndael {
  import opened IteratedCipher

  datatype Field<!T> = Field(zero: T, add: (T, T) -> T, x2: T -> T, sub: T -> T, invSub: T -> T) {
    function Mul3(a: T): T { add(x2(a), a) }
    function Mul9(a: T): T { add(x2(x2(x2(a))), a) }
    function MulB(a: T): T { add(add(x2(x2(x2(a))), x2(a)), a) }
    function MulD(a: T): T { add(add(x2(x2(x2(a))), x2(x2(a))), a) }
    function MulE(a: T): T { add(add(x2(x2(x2(a))), x2(x2(a))), x2(a)) }

    function Sum4(a: T, b: T, c: T, d: T): T { add(add(a, b), add(c, d)) }

    // The laws, one named instance each, so that a proof says which instances it uses.
    ghost predicate Assoc(a: T, b: T, c: T) { add(add(a, b), c) == add(a, add(b, c)) }
    ghost predicate Comm(a: T, b: T) { add(a, b) == add(b, a) }
    ghost predicate Zero(a: T) { add(a, zero) == a && add(a, a) == zero }
    ghost predicate Doubling(a: T, b: T) { x2(add(a, b)) == add(x2(a), x2(b)) }
    ghost predicate SubInverse(a: T) { invSub(sub(a)) == a }
  }

  ghost predicate Laws<T(!new)>(f: Field<T>) {
    && (forall a, b, c :: f.Assoc(a, b, c))
    && (forall a, b :: f.Comm(a, b))
    && (forall a :: f.Zero(a))
    && (forall a, b :: f.Doubling(a, b))
    && (forall a :: f.SubInverse(a))
  }

  lemma Interchange<T(!new)>(f: Field<T>, a: T, b: T, c: T, d: T)
    requires Laws(f)
    ensures f.add(f.add(a, b), f.add(c, d)) == f.add(f.add(a, c), f.add(b, d))
  {
    assert f.Assoc(a, b, f.add(c, d)) && f.Assoc(b, c, d) && f.Comm(b, c) && f.Assoc(c, b, d) &&
      f.Assoc(a, c, f.add(b, d));
  }

  lemma Rotate<T(!new)>(f: Field<T>, a: T, b: T, c: T, d: T)
    requires Laws(f)
    ensures f.Sum4(a, b, c, d) == f.Sum4(b, c, d, a)
  {
    var cd := f.add(c, d);
    assert f.Comm(a, b) && f.Assoc(b, a, cd) && f.Comm(a, cd) && f.Assoc(c, d, a) && f.Assoc(b, c, f.add(d, a));
  }

  lemma AddTwice<T(!new)>(f: Field<T>, a: T, b: T)
    requires Laws(f)
    ensures f.add(f.add(a, b), b) == a
  {
    assert f.Assoc(a, b, b) && f.Zero(b) && f.Zero(a);
  }

  // Sums of at most five bytes, where equal bytes cancel: a sum is worth what its
  // odd-counted bytes are worth.
  datatype Term = V(i: nat) | Plus(l: Term, r: Term)

  function Odd(t: Term, i: nat): bool {
    match t
    case V(j) => i == j
    case Plus(l, r) => Odd(l, i) != Odd(r, i)
  }

  ghost predicate Within(t: Term, n: nat) {
    match t
    case V(j) => j < n
    case Plus(l, r) => Within(l, n) && Within(r, n)
  }

  function Eval<T>(f: Field<T>, v: seq<T>, t: Term): T
    requires Within(t, |v|)
  {
    match t
    case V(j) => v[j]
    case Plus(l, r) => f.add(Eval(f, v, l), Eval(f, v, r))
  }

  function Pick<T>(f: Field<T>, v: seq<T>, t: Term, i: nat): T
    requires i < |v|
  {
    if Odd(t, i) then v[i] else f.zero
  }

  function Normal<T>(f: Field<T>, v: seq<T>, t: Term): T
    requires |v| == 5
  {
    f.add(f.add(f.add(Pick(f, v, t, 0), Pick(f, v, t, 1)), f.add(Pick(f, v, t, 2), Pick(f, v, t, 3))), Pick(f, v, t, 4))
  }

  lemma PickAdds<T(!new)>(f: Field<T>, v: seq<T>, l: Term, r: Term, i: nat)
    requires Laws(f) && i < |v|
    ensures f.add(Pick(f, v, l, i), Pick(f, v, r, i)) == Pick(f, v, Plus(l, r), i)
  {
    assert f.Zero(v[i]) && f.Zero(f.zero) && f.Comm(v[i], f.zero);
  }

  lemma {:induction false} SumIsNormal<T(!new)>(f: Field<T>, v: seq<T>, t: Term)
    requires Laws(f) && |v| == 5 && Within(t, 5)
    ensures Eval(f, v, t) == Normal(f, v, t)
  {
    match t
    case V(j) =>
      assert f.Zero(f.zero) && f.Zero(v[j]) && f.Comm(v[j], f.zero);
    case Plus(l, r) =>
      SumIsNormal(f, v, l);
      SumIsNormal(f, v, r);
      var (l0, l1, l2, l3, l4) := (Pick(f, v, l, 0), Pick(f, v, l, 1), Pick(f, v, l, 2), Pick(f, v, l, 3),
        Pick(f, v, l, 4));
      var (r0, r1, r2, r3, r4) := (Pick(f, v, r, 0), Pick(f, v, r, 1), Pick(f, v, r, 2), Pick(f, v, r, 3),
        Pick(f, v, r, 4));
      Interchange(f, f.add(f.add(l0, l1), f.add(l2, l3)), l4, f.add(f.add(r0, r1), f.add(r2, r3)), r4);
      Interchange(f, f.add(l0, l1), f.add(l2, l3), f.add(r0, r1), f.add(r2, r3));
      Interchange(f, l0, l1, r0, r1);
      Interchange(f, l2, l3, r2, r3);
      PickAdds(f, v, l, r, 0);
      PickAdds(f, v, l, r, 1);
      PickAdds(f, v, l, r, 2);
      PickAdds(f, v, l, r, 3);
      PickAdds(f, v, l, r, 4);
  }

  /** One column of the cipher state, top byte first. */
  datatype Column<T> = Column(b0: T, b1: T, b2: T, b3: T)

  function AddColumn<T>(f: Field<T>, c: Column<T>, d: Column<T>): Column<T> {
    Column(f.add(c.b0, d.b0), f.add(c.b1, d.b1), f.add(c.b2, d.b2), f.add(c.b3, d.b3))
  }

  /** MixColumns on one column (section 5.1.3 of FIPS 197). */
  function Mix<T>(f: Field<T>, c: Column<T>): Column<T> {
    Column(
      f.Sum4(f.x2(c.b0), f.Mul3(c.b1), c.b2, c.b3),
      f.Sum4(c.b0, f.x2(c.b1), f.Mul3(c.b2), c.b3),
      f.Sum4(c.b0, c.b1, f.x2(c.b2), f.Mul3(c.b3)),
      f.Sum4(f.Mul3(c.b0), c.b1, c.b2, f.x2(c.b3)))
  }

  /** InvMixColumns on one column (section 5.3.3 of FIPS 197). */
  function InvMix<T>(f: Field<T>, c: Column<T>): Column<T> {
    Column(
      f.Sum4(f.MulE(c.b0), f.MulB(c.b1), f.MulD(c.b2), f.Mul9(c.b3)),
      f.Sum4(f.Mul9(c.b0), f.MulE(c.b1), f.MulB(c.b2), f.MulD(c.b3)),
      f.Sum4(f.MulD(c.b0), f.Mul9(c.b1), f.MulE(c.b2), f.MulB(c.b3)),
      f.Sum4(f.MulB(c.b0), f.MulD(c.b1), f.Mul9(c.b2), f.MulE(c.b3)))
  }

  lemma MulsAdd<T(!new)>(f: Field<T>, a: T, b: T)
    requires Laws(f)
    ensures f.Mul9(f.add(a, b)) == f.add(f.Mul9(a), f.Mul9(b))
    ensures f.MulB(f.add(a, b)) == f.add(f.MulB(a), f.MulB(b))
    ensures f.MulD(f.add(a, b)) == f.add(f.MulD(a), f.MulD(b))
    ensures f.MulE(f.add(a, b)) == f.add(f.MulE(a), f.MulE(b))
  {
    var (a1, b1) := (f.x2(a), f.x2(b));
    var (a2, b2) := (f.x2(a1), f.x2(b1));
    var (a3, b3) := (f.x2(a2), f.x2(b2));
    assert f.Doubling(a, b) && f.Doubling(a1, b1) && f.Doubling(a2, b2);
    Interchange(f, a3, b3, a, b);
    Interchange(f, a3, b3, a1, b1);
    Interchange(f, f.add(a3, a1), f.add(b3, b1), a, b);
    Interchange(f, a3, b3, a2, b2);
    Interchange(f, f.add(a3, a2), f.add(b3, b2), a, b);
    Interchange(f, f.add(a3, a2), f.add(b3, b2), a1, b1);
  }

  lemma Sum4Adds<T(!new)>(f: Field<T>, a: T, b: T, c: T, d: T, a': T, b': T, c': T, d': T)
    requires Laws(f)
    ensures f.Sum4(f.add(a, a'), f.add(b, b'), f.add(c, c'), f.add(d, d'))
         == f.add(f.Sum4(a, b, c, d), f.Sum4(a', b', c', d'))
  {
    Interchange(f, a, a', b, b');
    Interchange(f, c, c', d, d');
    Interchange(f, f.add(a, b), f.add(a', b'), f.add(c, d), f.add(c', d'));
  }

  /** InvMixColumns is linear. */
  lemma InvMixAdds<T(!new)>(f: Field<T>, c: Column<T>, d: Column<T>)
    requires Laws(f)
    ensures InvMix(f, AddColumn(f, c, d)) == AddColumn(f, InvMix(f, c), InvMix(f, d))
  {
    MulsAdd(f, c.b0, d.b0);
    MulsAdd(f, c.b1, d.b1);
    MulsAdd(f, c.b2, d.b2);
    MulsAdd(f, c.b3, d.b3);
    Sum4Adds(f, f.MulE(c.b0), f.MulB(c.b1), f.MulD(c.b2), f.Mul9(c.b3), f.MulE(d.b0), f.MulB(d.b1), f.MulD(d.b2),
      f.Mul9(d.b3));
    Sum4Adds(f, f.Mul9(c.b0), f.MulE(c.b1), f.MulB(c.b2), f.MulD(c.b3), f.Mul9(d.b0), f.MulE(d.b1), f.MulB(d.b2),
      f.MulD(d.b3));
    Sum4Adds(f, f.MulD(c.b0), f.Mul9(c.b1), f.MulE(c.b2), f.MulB(c.b3), f.MulD(d.b0), f.Mul9(d.b1), f.MulE(d.b2),
      f.MulB(d.b3));
    Sum4Adds(f, f.MulB(c.b0), f.MulD(c.b1), f.Mul9(c.b2), f.MulE(c.b3), f.MulB(d.b0), f.MulD(d.b1), f.Mul9(d.b2),
      f.MulE(d.b3));
  }

  function Rotated<T>(c: Column<T>): Column<T> { Column(c.b3, c.b0, c.b1, c.b2) }

  lemma InvMixRotated<T(!new)>(f: Field<T>, c: Column<T>)
    requires Laws(f)
    ensures InvMix(f, Rotated(c)) == Rotated(InvMix(f, c))
  {
    Rotate(f, f.MulE(c.b3), f.MulB(c.b0), f.MulD(c.b1), f.Mul9(c.b2));
    Rotate(f, f.Mul9(c.b3), f.MulE(c.b0), f.MulB(c.b1), f.MulD(c.b2));
    Rotate(f, f.MulD(c.b3), f.Mul9(c.b0), f.MulE(c.b1), f.MulB(c.b2));
    Rotate(f, f.MulB(c.b3), f.MulD(c.b0), f.Mul9(c.b1), f.MulE(c.b2));
  }

  /** The MixColumns image of the column with `a` on top and zeros below. */
  function Image<T>(f: Field<T>, a: T): Column<T> { Column(f.x2(a), a, a, f.Mul3(a)) }

  /** MixColumns adds up one image for each byte. */
  lemma MixIsSum<T>(f: Field<T>, c: Column<T>)
    ensures Mix(f, c) == AddColumn(f,
      AddColumn(f, Image(f, c.b0), Rotated(Image(f, c.b1))),
      AddColumn(f, Rotated(Rotated(Image(f, c.b2))), Rotated(Rotated(Rotated(Image(f, c.b3))))))
  {}

  /** The InvMixColumns image of the column with `a` on top and zeros below. */
  function InvImage<T>(f: Field<T>, a: T): Column<T> { Column(f.MulE(a), f.Mul9(a), f.MulD(a), f.MulB(a)) }

  lemma InvMixIsSum<T>(f: Field<T>, c: Column<T>)
    ensures InvMix(f, c) == AddColumn(f,
      AddColumn(f, InvImage(f, c.b0), Rotated(InvImage(f, c.b1))),
      AddColumn(f, Rotated(Rotated(InvImage(f, c.b2))), Rotated(Rotated(Rotated(InvImage(f, c.b3))))))
  {}

  function Three(i: nat, j: nat, k: nat): (t: Term)
    ensures t.Plus? && (i < 5 && j < 5 && k < 5 ==> Within(t.l, 5) && Within(t, 5))
  {
    assert i < 5 && j < 5 && k < 5 ==> Within(V(k), 5) && Within(Plus(V(i), V(j)), 5);
    Plus(Plus(V(i), V(j)), V(k))
  }

  function Four(a: Term, b: Term, c: Term, d: Term): (t: Term)
    ensures Within(a, 5) && Within(b, 5) && Within(c, 5) && Within(d, 5) ==> Within(t, 5)
  {
    assert Within(a, 5) && Within(b, 5) ==> Within(Plus(a, b), 5);
    assert Within(c, 5) && Within(d, 5) ==> Within(Plus(c, d), 5);
    Plus(Plus(a, b), Plus(c, d))
  }

  lemma SumIsFirst<T(!new)>(f: Field<T>, v: seq<T>, t: Term)
    requires Laws(f) && |v| == 5 && Within(t, 5)
    requires !Odd(t, 1) && !Odd(t, 2) && !Odd(t, 3) && !Odd(t, 4)
    ensures Eval(f, v, t) == if Odd(t, 0) then v[0] else f.zero
  {
    SumIsNormal(f, v, t);
    assert f.Zero(f.zero) && f.Zero(v[0]);
  }

  lemma EvalFour<T(!new)>(f: Field<T>, v: seq<T>, a: Term, b: Term, c: Term, d: Term)
    requires |v| == 5 && Within(a, 5) && Within(b, 5) && Within(c, 5) && Within(d, 5)
    ensures Eval(f, v, Four(a, b, c, d)) == f.Sum4(Eval(f, v, a), Eval(f, v, b), Eval(f, v, c), Eval(f, v, d))
  {}

  lemma EvalThree<T(!new)>(f: Field<T>, v: seq<T>, i: nat, j: nat, k: nat)
    requires |v| == 5 && i < 5 && j < 5 && k < 5
    ensures Eval(f, v, Three(i, j, k)) == f.add(f.add(v[i], v[j]), v[k])
  {
    var t := Three(i, j, k);
    assert t.l == Plus(V(i), V(j)) && t.r == V(k);
    assert Eval(f, v, t.l) == f.add(v[i], v[j]);
  }

  /**
   * The cancellation behind one entry of InvMixColumns after MixColumns, on exponents of 02:
   * p and q are the products that meet the tripled byte, r, s, t the others.
   */
  lemma Cancels<T(!new)>(f: Field<T>, v: seq<T>, r: Term, s: Term, t: Term, p: Term, q: Term)
    requires Laws(f) && |v| == 5
    requires Within(p, 5) && Within(q, 5) && Within(r, 5) && Within(s, 5) && Within(t, 5)
    requires forall i :: 1 <= i < 5 ==> !Odd(Four(r, s, t, Plus(p, q)), i)
    ensures f.Sum4(Eval(f, v, r), Eval(f, v, s), Eval(f, v, t), f.add(Eval(f, v, p), Eval(f, v, q)))
         == if Odd(Four(r, s, t, Plus(p, q)), 0) then v[0] else f.zero
  {
    SumIsFirst(f, v, Four(r, s, t, Plus(p, q)));
    EvalFour(f, v, r, s, t, Plus(p, q));
  }

  lemma InvMixImage<T(!new)>(f: Field<T>, a: T)
    requires Laws(f)
    ensures InvMix(f, Image(f, a)) == Column(a, f.zero, f.zero, f.zero)
  {
    var p1 := f.x2(a);
    var p2 := f.x2(p1);
    var p3 := f.x2(p2);
    var v := [a, p1, p2, p3, f.x2(p3)];
    MulsAdd(f, p1, a);
    var (e, b, d, n) := (Three(3, 2, 1), Three(3, 1, 0), Three(3, 2, 0), Plus(V(3), V(0)));
    var (e2, b2, d2, n2) := (Three(4, 3, 2), Three(4, 2, 1), Three(4, 3, 1), Plus(V(4), V(1)));
    EvalProducts(f, v);
    Cancels(f, v, e2, b, d, n2, n);
    Cancels(f, v, n2, e, b, d2, d);
    Cancels(f, v, d2, n, e, b2, b);
    Cancels(f, v, b2, d, n, e2, e);
  }

  lemma EvalProducts<T(!new)>(f: Field<T>, v: seq<T>)
    requires |v| == 5 && v[1] == f.x2(v[0]) && v[2] == f.x2(v[1]) && v[3] == f.x2(v[2]) && v[4] == f.x2(v[3])
    ensures Eval(f, v, Three(3, 2, 1)) == f.MulE(v[0]) && Eval(f, v, Three(4, 3, 2)) == f.MulE(v[1])
    ensures Eval(f, v, Three(3, 1, 0)) == f.MulB(v[0]) && Eval(f, v, Three(4, 2, 1)) == f.MulB(v[1])
    ensures Eval(f, v, Three(3, 2, 0)) == f.MulD(v[0]) && Eval(f, v, Three(4, 3, 1)) == f.MulD(v[1])
    ensures Eval(f, v, Plus(V(3), V(0))) == f.Mul9(v[0]) && Eval(f, v, Plus(V(4), V(1))) == f.Mul9(v[1])
  {
    EvalThree(f, v, 3, 2, 1);
    EvalThree(f, v, 4, 3, 2);
    EvalThree(f, v, 3, 1, 0);
    EvalThree(f, v, 4, 2, 1);
    EvalThree(f, v, 3, 2, 0);
    EvalThree(f, v, 4, 3, 1);
  }

  lemma AddUnits<T(!new)>(f: Field<T>, c: Column<T>)
    requires Laws(f)
    ensures var o := f.zero;
      AddColumn(f,
        AddColumn(f, Column(c.b0, o, o, o), Column(o, c.b1, o, o)),
        AddColumn(f, Column(o, o, c.b2, o), Column(o, o, o, c.b3))) == c
  {
    assert f.Zero(f.zero);
    assert f.Zero(c.b0) && f.Zero(c.b1) && f.Zero(c.b2) && f.Zero(c.b3);
    assert f.Comm(c.b1, f.zero) && f.Comm(c.b2, f.zero) && f.Comm(c.b3, f.zero);
  }

  /** InvMixColumns undoes MixColumns. */
  lemma InvMixAfterMix<T(!new)>(f: Field<T>, c: Column<T>)
    requires Laws(f)
    ensures InvMix(f, Mix(f, c)) == c
  {
    var i0 := Image(f, c.b0);
    var i1 := Rotated(Image(f, c.b1));
    var i2 := Rotated(Rotated(Image(f, c.b2)));
    var i3 := Rotated(Rotated(Rotated(Image(f, c.b3))));
    MixIsSum(f, c);
    InvMixAdds(f, AddColumn(f, i0, i1), AddColumn(f, i2, i3));
    InvMixAdds(f, i0, i1);
    InvMixAdds(f, i2, i3);
    InvMixImages(f, c);
    AddUnits(f, c);
  }

  lemma InvMixImages<T(!new)>(f: Field<T>, c: Column<T>)
    requires Laws(f)
    ensures InvMix(f, Image(f, c.b0)) == Column(c.b0, f.zero, f.zero, f.zero)
    ensures InvMix(f, Rotated(Image(f, c.b1))) == Column(f.zero, c.b1, f.zero, f.zero)
    ensures InvMix(f, Rotated(Rotated(Image(f, c.b2)))) == Column(f.zero, f.zero, c.b2, f.zero)
    ensures InvMix(f, Rotated(Rotated(Rotated(Image(f, c.b3))))) == Column(f.zero, f.zero, f.zero, c.b3)
  {
    InvMixImage(f, c.b0);
    InvMixImage(f, c.b1);
    InvMixImage(f, c.b2);
    InvMixImage(f, c.b3);
    InvMixRotated(f, Image(f, c.b1));
    InvMixRotated(f, Image(f, c.b2));
    InvMixRotated(f, Rotated(Image(f, c.b2)));
    InvMixRotated(f, Image(f, c.b3));
    InvMixRotated(f, Rotated(Image(f, c.b3)));
    InvMixRotated(f, Rotated(Rotated(Image(f, c.b3))));
  }

  /** The cipher state, and equally one round key: four columns. */
  datatype State<T> = State(c0: Column<T>, c1: Column<T>, c2: Column<T>, c3: Column<T>)

  function AddRoundKey<T>(f: Field<T>, s: State<T>, k: State<T>): State<T> {
    State(AddColumn(f, s.c0, k.c0), AddColumn(f, s.c1, k.c1), AddColumn(f, s.c2, k.c2), AddColumn(f, s.c3, k.c3))
  }

  function OnBytes<T>(g: T -> T, c: Column<T>): Column<T> {
    Column(g(c.b0), g(c.b1), g(c.b2), g(c.b3))
  }

  function SubBytes<T>(f: Field<T>, s: State<T>): State<T> {
    State(OnBytes(f.sub, s.c0), OnBytes(f.sub, s.c1), OnBytes(f.sub, s.c2), OnBytes(f.sub, s.c3))
  }

  function InvSubBytes<T>(f: Field<T>, s: State<T>): State<T> {
    State(OnBytes(f.invSub, s.c0), OnBytes(f.invSub, s.c1), OnBytes(f.invSub, s.c2), OnBytes(f.invSub, s.c3))
  }

  function ShiftRows<T>(s: State<T>): State<T> {
    State(
      Column(s.c0.b0, s.c1.b1, s.c2.b2, s.c3.b3),
      Column(s.c1.b0, s.c2.b1, s.c3.b2, s.c0.b3),
      Column(s.c2.b0, s.c3.b1, s.c0.b2, s.c1.b3),
      Column(s.c3.b0, s.c0.b1, s.c1.b2, s.c2.b3))
  }

  function InvShiftRows<T>(s: State<T>): State<T> {
    State(
      Column(s.c0.b0, s.c3.b1, s.c2.b2, s.c1.b3),
      Column(s.c1.b0, s.c0.b1, s.c3.b2, s.c2.b3),
      Column(s.c2.b0, s.c1.b1, s.c0.b2, s.c3.b3),
      Column(s.c3.b0, s.c2.b1, s.c1.b2, s.c0.b3))
  }

  function MixColumns<T>(f: Field<T>, s: State<T>): State<T> {
    State(Mix(f, s.c0), Mix(f, s.c1), Mix(f, s.c2), Mix(f, s.c3))
  }

  function InvMixColumns<T>(f: Field<T>, s: State<T>): State<T> {
    State(InvMix(f, s.c0), InvMix(f, s.c1), InvMix(f, s.c2), InvMix(f, s.c3))
  }

  function EncryptRound<T>(f: Field<T>, s: State<T>, k: State<T>): State<T> {
    AddRoundKey(f, MixColumns(f, ShiftRows(SubBytes(f, s))), k)
  }

  function DecryptRound<T>(f: Field<T>, s: State<T>, k: State<T>): State<T> {
    AddRoundKey(f, InvMixColumns(f, InvShiftRows(InvSubBytes(f, s))), k)
  }

  /** One round, column by column. */
  lemma EncryptRoundColumns<T>(f: Field<T>, s: State<T>, k: State<T>)
    ensures EncryptRound(f, s, k) == State(
      AddColumn(f, Mix(f, Column(f.sub(s.c0.b0), f.sub(s.c1.b1), f.sub(s.c2.b2), f.sub(s.c3.b3))), k.c0),
      AddColumn(f, Mix(f, Column(f.sub(s.c1.b0), f.sub(s.c2.b1), f.sub(s.c3.b2), f.sub(s.c0.b3))), k.c1),
      AddColumn(f, Mix(f, Column(f.sub(s.c2.b0), f.sub(s.c3.b1), f.sub(s.c0.b2), f.sub(s.c1.b3))), k.c2),
      AddColumn(f, Mix(f, Column(f.sub(s.c3.b0), f.sub(s.c0.b1), f.sub(s.c1.b2), f.sub(s.c2.b3))), k.c3))
  {}

  lemma DecryptRoundColumns<T>(f: Field<T>, s: State<T>, k: State<T>)
    ensures DecryptRound(f, s, k) == State(
      AddColumn(f, InvMix(f, Column(f.invSub(s.c0.b0), f.invSub(s.c3.b1), f.invSub(s.c2.b2), f.invSub(s.c1.b3))), k.c0),
      AddColumn(f, InvMix(f, Column(f.invSub(s.c1.b0), f.invSub(s.c0.b1), f.invSub(s.c3.b2), f.invSub(s.c2.b3))), k.c1),
      AddColumn(f, InvMix(f, Column(f.invSub(s.c2.b0), f.invSub(s.c1.b1), f.invSub(s.c0.b2), f.invSub(s.c3.b3))), k.c2),
      AddColumn(f, InvMix(f, Column(f.invSub(s.c3.b0), f.invSub(s.c2.b1), f.invSub(s.c1.b2), f.invSub(s.c0.b3))), k.c3))
  {}

  lemma UnSub<T(!new)>(f: Field<T>, s: State<T>)
    requires Laws(f)
    ensures InvShiftRows(InvSubBytes(f, ShiftRows(SubBytes(f, s)))) == s
  {
    assert f.SubInverse(s.c0.b0) && f.SubInverse(s.c0.b1) && f.SubInverse(s.c0.b2) && f.SubInverse(s.c0.b3);
    assert f.SubInverse(s.c1.b0) && f.SubInverse(s.c1.b1) && f.SubInverse(s.c1.b2) && f.SubInverse(s.c1.b3);
    assert f.SubInverse(s.c2.b0) && f.SubInverse(s.c2.b1) && f.SubInverse(s.c2.b2) && f.SubInverse(s.c2.b3);
    assert f.SubInverse(s.c3.b0) && f.SubInverse(s.c3.b1) && f.SubInverse(s.c3.b2) && f.SubInverse(s.c3.b3);
  }

  lemma UnAddColumn<T(!new)>(f: Field<T>, c: Column<T>, k: Column<T>)
    requires Laws(f)
    ensures AddColumn(f, AddColumn(f, c, k), k) == c
  {
    AddTwice(f, c.b0, k.b0);
    AddTwice(f, c.b1, k.b1);
    AddTwice(f, c.b2, k.b2);
    AddTwice(f, c.b3, k.b3);
  }

  lemma UnAdd<T(!new)>(f: Field<T>, s: State<T>, k: State<T>)
    requires Laws(f)
    ensures AddRoundKey(f, AddRoundKey(f, s, k), k) == s
  {
    UnAddColumn(f, s.c0, k.c0);
    UnAddColumn(f, s.c1, k.c1);
    UnAddColumn(f, s.c2, k.c2);
    UnAddColumn(f, s.c3, k.c3);
  }

  lemma UnMixColumn<T(!new)>(f: Field<T>, c: Column<T>, k: Column<T>)
    requires Laws(f)
    ensures AddColumn(f, InvMix(f, AddColumn(f, Mix(f, c), k)), InvMix(f, k)) == c
  {
    InvMixAdds(f, Mix(f, c), k);
    InvMixAfterMix(f, c);
    UnAddColumn(f, c, InvMix(f, k));
  }

  /** One decryption round with a transformed key undoes MixColumns and the key addition. */
  lemma UnMix<T(!new)>(f: Field<T>, s: State<T>, k: State<T>)
    requires Laws(f)
    ensures AddRoundKey(f, InvMixColumns(f, AddRoundKey(f, MixColumns(f, s), k)), InvMixColumns(f, k)) == s
  {
    UnMixColumn(f, s.c0, k.c0);
    UnMixColumn(f, s.c1, k.c1);
    UnMixColumn(f, s.c2, k.c2);
    UnMixColumn(f, s.c3, k.c3);
  }

  /** One decryption round steps back over one encryption round. */
  lemma RoundBack<T(!new)>(f: Field<T>, s: State<T>, k: State<T>)
    requires Laws(f)
    ensures DecryptRound(f, ShiftRows(SubBytes(f, EncryptRound(f, s, k))), InvMixColumns(f, k)) ==
      ShiftRows(SubBytes(f, s))
  {
    UnSub(f, EncryptRound(f, s, k));
    UnMix(f, ShiftRows(SubBytes(f, s)), k);
  }

  /** The rounds of FIPS 197, with the inverse rounds in the form of its section 5.3.5. */
  function AesRounds<T>(f: Field<T>): Rounds<State<T>, State<T>> {
    Rounds(
      (s, k) => AddRoundKey(f, s, k),
      (s, k) => EncryptRound(f, s, k),
      (s, k) => DecryptRound(f, s, k),
      (s, k) => AddRoundKey(f, ShiftRows(SubBytes(f, s)), k),
      (s, k) => AddRoundKey(f, InvShiftRows(InvSubBytes(f, s)), k))
  }

  function Shifted<T>(f: Field<T>): State<T> -> State<T> {
    s => ShiftRows(SubBytes(f, s))
  }

  function KeyTransform<T>(f: Field<T>): State<T> -> State<T> {
    k => InvMixColumns(f, k)
  }

  lemma AesRetraces<T(!new)>(f: Field<T>)
    requires Laws(f)
    ensures Retraces(AesRounds(f), Shifted(f), KeyTransform(f))
  {
    forall s, k ensures AesRounds(f).FirstBack(Shifted(f), s, k) {
      UnAdd(f, ShiftRows(SubBytes(f, s)), k);
    }
    forall s, k ensures AesRounds(f).StepBack(Shifted(f), KeyTransform(f), s, k) {
      RoundBack(f, s, k);
    }
    forall s, k ensures AesRounds(f).LastBack(Shifted(f), s, k) {
      UnSub(f, AddRoundKey(f, s, k));
      UnAdd(f, s, k);
    }
  }
}
