/**
 * get_opcode_entry with its memo tables (qemu/cris-dis.c:1377-1595): one table entry serves a
 * whole class of prefixes, and still every lookup returns what a fresh scan would.
 */
module CrisMemo {
  import opened Bits
  import opened CrisOpcodes

  /** A table of 65536 pointers, of which those present are not NULL. */
  type Table = map<Word, nat>

  /** An entry is what scanning finds for every prefix of the class. */
  ghost predicate SoundEntry(cfg: Config, family: Family, c: PrefixClass, insn: Word, row: nat) {
    forall p :: ClassOf(p) == c ==> Best(cfg, family, insn, p) == Some(row)
  }

  ghost predicate SoundTable(cfg: Config, family: Family, c: PrefixClass, t: Table) {
    forall insn :: insn in t ==> SoundEntry(cfg, family, c, insn, t[insn])
  }

  lemma StoredIsSound(cfg: Config, family: Family, c: PrefixClass, t: Table, insn: Word, row: nat, p: Prefix)
    requires SoundTable(cfg, family, c, t) && ClassOf(p) == c && Best(cfg, family, insn, p) == Some(row)
    ensures SoundTable(cfg, family, c, t[insn := row])
  {
    hide Best, ClassOf;
    forall q | ClassOf(q) == c
      ensures Best(cfg, family, insn, q) == Some(row)
    {
      BestByClass(cfg, family, insn, p, q);
    }
    assert SoundEntry(cfg, family, c, insn, row);
  }

  class Memo {
    const cfg: Config
    var opcTable: Table
    var dipPrefixes: Table
    var bdapqM1Prefixes: Table
    var bdapqM2Prefixes: Table
    var bdapqM4Prefixes: Table
    var restPrefixes: Table

    /** The table for a class of prefixes. */
    function TableOf(c: PrefixClass): Table
      reads this
    {
      match c
      case Unprefixed => opcTable
      case BdapqM1 => bdapqM1Prefixes
      case BdapqM2 => bdapqM2Prefixes
      case BdapqM4 => bdapqM4Prefixes
      case Dip => dipPrefixes
      case Rest => restPrefixes
    }

    ghost predicate Sound(family: Family, c: PrefixClass)
      reads this
    {
      SoundTable(cfg, family, c, TableOf(c))
    }

    /** No row of the opcode table makes the scan abort. */
    ghost predicate Scannable(family: Family) {
      forall i :: 0 <= i < |cfg.opcodes| ==> !Aborts(cfg.opcodes[i].version, family)
    }

    ghost predicate Valid(family: Family)
      reads this
    {
      Scannable(family) && forall c :: Sound(family, c)
    }

    constructor (cfg: Config)
      ensures this.cfg == cfg && forall family :: Scannable(family) ==> Valid(family)
    {
      this.cfg := cfg;
      opcTable, dipPrefixes, bdapqM1Prefixes, bdapqM2Prefixes, bdapqM4Prefixes, restPrefixes := map[], map[], map[],
        map[], map[], map[];
    }

    /** Fills in an entry with what was scanned for one prefix of its class. */
    method Store(c: PrefixClass, insn: Word, row: nat, ghost family: Family, ghost p: Prefix)
      requires Valid(family) && ClassOf(p) == c && Best(cfg, family, insn, p) == Some(row)
      modifies this
      ensures Valid(family) && TableOf(c) == old(TableOf(c))[insn := row]
      ensures forall d :: d != c ==> TableOf(d) == old(TableOf(d))
    {
      hide Best, ClassOf;
      match c {
        case Unprefixed => opcTable := opcTable[insn := row];
        case BdapqM1 => bdapqM1Prefixes := bdapqM1Prefixes[insn := row];
        case BdapqM2 => bdapqM2Prefixes := bdapqM2Prefixes[insn := row];
        case BdapqM4 => bdapqM4Prefixes := bdapqM4Prefixes[insn := row];
        case Dip => dipPrefixes := dipPrefixes[insn := row];
        case Rest => restPrefixes := restPrefixes[insn := row];
      }
      forall d
        ensures Sound(family, d)
      {
        assert old(Sound(family, d)) && old(Sound(family, c));
        StoredIsSound(cfg, family, c, old(TableOf(c)), insn, row, p);
      }
    }

    /** get_opcode_entry. */
    method GetOpcodeEntry(insn: Word, prefixInsn: Word, family: Family) returns (r: Option<nat>)
      requires Valid(family)
      modifies this
      ensures Valid(family) && r == Entry(cfg, family, insn, prefixInsn)
      ensures r.Some? ==> exists c :: insn in TableOf(c) && TableOf(c)[insn] == r.value
      decreases if prefixInsn == NO_CRIS_PREFIX then 0 else 1, 3
    {
      hide Best, ClassOf;
      var c := Unprefixed;
      ghost var p := NoPrefix;
      UnprefixedClass();
      if prefixInsn != NO_CRIS_PREFIX {
        var popcode := None;
        if prefixInsn in opcTable {
          popcode := Some(opcTable[prefixInsn]);
          assert Sound(family, Unprefixed) && prefixInsn in TableOf(Unprefixed);
          assert SoundEntry(cfg, family, Unprefixed, prefixInsn, opcTable[prefixInsn]);
        } else {
          popcode := GetOpcodeEntry(prefixInsn, NO_CRIS_PREFIX, family);
        }
        if popcode == None {
          return None;
        }
        p := Prefixed(prefixInsn, cfg.opcodes[popcode.value].match');
        c := SelectTable(prefixInsn, cfg.opcodes[popcode.value].match');
      }
      assert PrefixOf(cfg, family, prefixInsn) == Some(p);
      if insn in TableOf(c) {
        r := Some(TableOf(c)[insn]);
        assert Sound(family, c) && SoundEntry(cfg, family, c, insn, TableOf(c)[insn]);
      } else {
        r := ScanTable(insn, prefixInsn, family, p);
        if r.Some? {
          Store(c, insn, r.value, family, p);
        }
      }
    }

    /** The scan over the opcode table. */
    method ScanTable(insn: Word, prefixInsn: Word, family: Family, ghost p: Prefix) returns (best: Option<nat>)
      requires Valid(family) && PrefixOf(cfg, family, prefixInsn) == Some(p)
      modifies this
      ensures Valid(family) && best == Best(cfg, family, insn, p)
      decreases if prefixInsn == NO_CRIS_PREFIX then 0 else 1, 2
    {
      hide Level;
      var maxLevel, k := -1, 0;
      best := None;
      while k < |cfg.opcodes|
        invariant k <= |cfg.opcodes| && Valid(family) && (best.Some? ==> best.value < |cfg.opcodes|)
        invariant Best(cfg, family, insn, p) == Scan(cfg, family, insn, p, k, best, maxLevel)
        invariant -1 <= maxLevel
      {
        var level := RowLevel(cfg.opcodes[k], insn, prefixInsn, family, p);
        if level > maxLevel {
          best := Some(k);
          maxLevel := level;
          if level >= FULL_MATCH {
            return;
          }
        }
        k := k + 1;
      }
    }

    /** How well one row matches. */
    method RowLevel(o: Opcode, insn: Word, prefixInsn: Word, family: Family, ghost p: Prefix) returns (level: int)
      requires Valid(family) && PrefixOf(cfg, family, prefixInsn) == Some(p)
      modifies this
      ensures Valid(family) && level == Level(cfg, family, o, insn, p)
      decreases if prefixInsn == NO_CRIS_PREFIX then 0 else 1, 1
    {
      hide *;
      LevelIs(cfg, family, o, insn, p);
      level := -1;
      if Applies(o.version, family) && BitsMatch(o, insn) {
        level := MatchConstraint(o.args, insn, prefixInsn, family, p);
        if level >= 0 {
          var bits := NumberOfBits(Template(o));
          level := level + 2 * bits;
        }
      }
    }

    /** cris_constraint. */
    method MatchConstraint(cs: string, insn: Word, prefixInsn: Word, family: Family, ghost p: Prefix)
        returns (retval: int)
      requires Valid(family) && PrefixOf(cfg, family, prefixInsn) == Some(p)
      modifies this
      ensures Valid(family) && retval == Constraint(cfg, family, cs, 0, insn, p, 0, false)
      decreases if prefixInsn == NO_CRIS_PREFIX then 0 else 1, 0, 2
    {
      hide Letter;
      PrefixedWord(cfg, family, prefixInsn, p);
      retval := 0;
      var prefixOk := false;
      var i := 0;
      while i < |cs|
        invariant i <= |cs| && retval >= 0 && Valid(family)
        invariant Constraint(cfg, family, cs, 0, insn, p, 0, false) ==
          Constraint(cfg, family, cs, i, insn, p, retval, prefixOk)
      {
        var next := if i + 1 < |cs| then cs[i + 1] else '\0';
        var l := MatchLetter(cs[i], next, insn, prefixInsn, family, p, retval);
        if l == None {
          return -1;
        }
        retval := l.value;
        prefixOk := prefixOk || AcceptsPrefix(cs[i]);
        i := i + 1;
      }
      if prefixInsn != NO_CRIS_PREFIX && !prefixOk {
        return -1;
      }
    }

    /** One letter of cris_constraint. */
    method MatchLetter(c: char, next: char, insn: Word, prefixInsn: Word, family: Family, ghost p: Prefix, retval: nat)
        returns (r: Option<nat>)
      requires Valid(family) && PrefixOf(cfg, family, prefixInsn) == Some(p)
      modifies this
      ensures Valid(family) && r == Letter(cfg, family, c, next, insn, p, retval)
      decreases if prefixInsn == NO_CRIS_PREFIX then 0 else 1, 0, 1
    {
      hide Dest, AllSizeBits, Dword, Autoincrement, Offset, SpecRegInfo, Best;
      PrefixedWord(cfg, family, prefixInsn, p);
      var prefixed := prefixInsn != NO_CRIS_PREFIX;
      match c {
        case '!' => r := if prefixed || !family.V0_v10? then None else Some(retval);
        case 'U' => r := None;
        case 'M' => r := if Dest(insn) != 0 && Dest(insn) != 4 && Dest(insn) != 8 then None else Some(retval);
        case 'm' => r := if AllSizeBits(insn) then None else Some(retval);
        case 'S' => r := if prefixed && !Autoincrement(insn) then Some(retval) else None;
        case 's' => r := NotDip(insn, prefixInsn, family, p, retval);
        case 'y' => r := NotDip(insn, prefixInsn, family, p, retval);
        case 'Y' => r := NotDip(insn, prefixInsn, family, p, retval);
        case 'B' =>
          r := None;
          if prefixed {
            var o := GetOpcodeEntry(prefixInsn, NO_CRIS_PREFIX, family);
            var reg := FindSpecReg(cfg.regs, Dest(insn), family);
            if cfg.opcodes[o.value].match' == BDAP_QUICK_OPCODE {
              var pushsize := Offset(prefixInsn);
              if next == 'P' {
                if reg.Some? && reg.value.size == MinusUnsigned(pushsize) {
                  r := Some(retval);
                }
              } else if next == 'R' {
                if Dword(insn) && pushsize == -4 {
                  r := Some(retval);
                }
              }
            }
          }
        case 'D' => r := if Dest(insn) == And(insn, 15) then Some(5) else None;
        case 'P' =>
          var reg := FindSpecReg(cfg.regs, Dest(insn), family);
          r := if reg.Some? then Some(retval + 3) else None;
        case _ => r := Some(retval);
      }
    }

    /** The letters 's', 'y' and 'Y': with autoincrement the prefix must not be DIP. */
    method NotDip(insn: Word, prefixInsn: Word, family: Family, ghost p: Prefix, retval: nat) returns (r: Option<nat>)
      requires Valid(family) && PrefixOf(cfg, family, prefixInsn) == Some(p)
      modifies this
      ensures Valid(family)
      ensures r == if p.Prefixed? && Autoincrement(insn) && p.match' == DIP_OPCODE then None else Some(retval)
      decreases if prefixInsn == NO_CRIS_PREFIX then 0 else 1, 0, 0
    {
      hide Autoincrement, Best;
      PrefixedWord(cfg, family, prefixInsn, p);
      r := Some(retval);
      if prefixInsn != NO_CRIS_PREFIX && Autoincrement(insn) {
        var o := GetOpcodeEntry(prefixInsn, NO_CRIS_PREFIX, family);
        if cfg.opcodes[o.value].match' == DIP_OPCODE {
          r := None;
        }
      }
    }
  }

  lemma LevelIs(cfg: Config, family: Family, o: Opcode, insn: Word, p: Prefix)
    ensures Level(cfg, family, o, insn, p) ==
      if !Applies(o.version, family) || !BitsMatch(o, insn) ||
        Constraint(cfg, family, o.args, 0, insn, p, 0, false) < 0 then -1
        else Constraint(cfg, family, o.args, 0, insn, p, 0, false) + 2 * Ones(Template(o))
  {}

  lemma UnprefixedClass()
    ensures ClassOf(NoPrefix) == Unprefixed
  {}

  lemma BestByClass(cfg: Config, family: Family, insn: Word, p: Prefix, q: Prefix)
    requires ClassOf(p) == ClassOf(q)
    ensures Best(cfg, family, insn, p) == Best(cfg, family, insn, q)
  {
    ScanByClass(cfg, family, insn, p, q, 0, None, -1);
  }

  lemma PrefixedWord(cfg: Config, family: Family, word: Word, p: Prefix)
    requires PrefixOf(cfg, family, word) == Some(p)
    ensures p.Prefixed? <==> word != NO_CRIS_PREFIX
    ensures p.Prefixed? ==> p.word == word && Entry(cfg, family, word, NO_CRIS_PREFIX).Some?
    ensures p.Prefixed? ==> cfg.opcodes[Entry(cfg, family, word, NO_CRIS_PREFIX).value].match' == p.match'
  {}

  /** The choice of a prefix table. */
  method SelectTable(prefixInsn: Word, match': Word) returns (c: PrefixClass)
    ensures c == ClassOf(Prefixed(prefixInsn, match'))
  {
    hide Offset;
    if match' == BDAP_QUICK_OPCODE {
      var offset := Offset(prefixInsn);
      match offset {
        case -4 => c := BdapqM4;
        case -2 => c := BdapqM2;
        case -1 => c := BdapqM1;
        case _ => c := Rest;
      }
    } else if match' == DIP_OPCODE {
      c := Dip;
    } else {
      c := Rest;
    }
  }

  // The tables do not know the family they were filled for.

  /** Every table that is right for family f is right for family g. */
  ghost predicate CarryOver(cfg: Config, f: Family, g: Family) {
    forall c, t :: SoundTable(cfg, f, c, t) ==> SoundTable(cfg, g, c, t)
  }

  /** Whenever scanning finds a row for family f, it finds the same for family g. */
  ghost predicate Agree(cfg: Config, f: Family, g: Family) {
    forall insn, p :: AgreeOn(cfg, f, g, insn, p)
  }

  ghost predicate AgreeOn(cfg: Config, f: Family, g: Family, insn: Word, p: Prefix) {
    Best(cfg, f, insn, p).Some? ==> Best(cfg, g, insn, p) == Best(cfg, f, insn, p)
  }

  lemma FoundIsSound(cfg: Config, f: Family, insn: Word, p: Prefix, row: nat)
    requires Best(cfg, f, insn, p) == Some(row)
    ensures SoundTable(cfg, f, ClassOf(p), map[insn := row])
  {
    hide Best, ClassOf;
    var none: Table := map[];
    StoredIsSound(cfg, f, ClassOf(p), none, insn, row, p);
    assert none[insn := row] == map[insn := row];
  }

  lemma SoundEntryAgrees(cfg: Config, f: Family, g: Family, c: PrefixClass, insn: Word, row: nat)
    requires Agree(cfg, f, g) && SoundEntry(cfg, f, c, insn, row)
    ensures SoundEntry(cfg, g, c, insn, row)
  {
    hide Best, ClassOf;
    forall p | ClassOf(p) == c
      ensures Best(cfg, g, insn, p) == Some(row)
    {
      assert AgreeOn(cfg, f, g, insn, p);
    }
  }

  /**
   * What lookups for one family leave in the tables is right for another exactly if scanning for the
   * other finds the same rows.
   */
  lemma CarryOverIffAgree(cfg: Config, f: Family, g: Family)
    ensures CarryOver(cfg, f, g) <==> Agree(cfg, f, g)
  {
    hide Best, ClassOf;
    if CarryOver(cfg, f, g) {
      forall insn, p
        ensures AgreeOn(cfg, f, g, insn, p)
      {
        var best := Best(cfg, f, insn, p);
        if best.Some? {
          var t: Table := map[insn := best.value];
          FoundIsSound(cfg, f, insn, p, best.value);
          assert SoundTable(cfg, g, ClassOf(p), t);
          assert insn in t && SoundEntry(cfg, g, ClassOf(p), insn, t[insn]);
        }
      }
    }
    if Agree(cfg, f, g) {
      forall c, t | SoundTable(cfg, f, c, t)
        ensures SoundTable(cfg, g, c, t)
      {
        forall insn | insn in t
          ensures SoundEntry(cfg, g, c, insn, t[insn])
        {
          assert SoundEntry(cfg, f, c, insn, t[insn]);
          SoundEntryAgrees(cfg, f, g, c, insn, t[insn]);
        }
      }
    }
  }

  // The two families before V32 differ in one letter only.

  ghost predicate NoLetter(cfg: Config, c: char) {
    forall i :: 0 <= i < |cfg.opcodes| ==> c !in cfg.opcodes[i].args
  }

  lemma {:induction false} SameRegs(regs: seq<SpecReg>, sreg: nat, i: nat)
    requires i <= |regs|
    ensures SpecRegInfo(regs, sreg, V0_v10, i) == SpecRegInfo(regs, sreg, Common_v10_v32, i)
    decreases |regs| - i
  {
    if i < |regs| {
      SameRegs(regs, sreg, i + 1);
    }
  }

  lemma SameLetter(cfg: Config, c: char, next: char, insn: Word, p: Prefix, retval: nat)
    requires c != '!'
    ensures Letter(cfg, V0_v10, c, next, insn, p, retval) == Letter(cfg, Common_v10_v32, c, next, insn, p, retval)
  {
    hide Dest, AllSizeBits, Dword, Autoincrement, Offset, IsPush, SpecRegInfo;
    SameRegs(cfg.regs, Dest(insn), 0);
  }

  lemma {:induction false} SameConstraint(cfg: Config, cs: string, i: nat, insn: Word, p: Prefix, retval: nat, ok: bool)
    requires i <= |cs| && '!' !in cs
    ensures Constraint(cfg, V0_v10, cs, i, insn, p, retval, ok) ==
      Constraint(cfg, Common_v10_v32, cs, i, insn, p, retval, ok)
    decreases |cs| - i
  {
    hide Letter;
    if i < |cs| {
      assert cs[i] in cs;
      SameLetter(cfg, cs[i], LetterAt(cs, i + 1), insn, p, retval);
      var letter := Letter(cfg, V0_v10, cs[i], LetterAt(cs, i + 1), insn, p, retval);
      if letter.Some? {
        SameConstraint(cfg, cs, i + 1, insn, p, letter.value, ok || AcceptsPrefix(cs[i]));
      }
    }
  }

  lemma {:induction false} SameScan(cfg: Config, insn: Word, p: Prefix, k: nat, best: Option<nat>, level: int)
    requires NoLetter(cfg, '!') && k <= |cfg.opcodes| && (best.Some? ==> best.value < |cfg.opcodes|)
    ensures Scan(cfg, V0_v10, insn, p, k, best, level) == Scan(cfg, Common_v10_v32, insn, p, k, best, level)
    decreases |cfg.opcodes| - k
  {
    hide Level;
    if k < |cfg.opcodes| {
      SameLevel(cfg, cfg.opcodes[k], insn, p);
      var l := Level(cfg, V0_v10, cfg.opcodes[k], insn, p);
      if l <= level {
        SameScan(cfg, insn, p, k + 1, best, level);
      } else if l < FULL_MATCH {
        SameScan(cfg, insn, p, k + 1, Some(k), l);
      }
    }
  }

  lemma SameLevel(cfg: Config, o: Opcode, insn: Word, p: Prefix)
    requires '!' !in o.args
    ensures Level(cfg, V0_v10, o, insn, p) == Level(cfg, Common_v10_v32, o, insn, p)
  {
    hide Constraint, Ones, BitsMatch;
    SameConstraint(cfg, o.args, 0, insn, p, 0, false);
  }

  /** Tables may be shared between the two families before V32 if no row of the opcode table has a '!'. */
  lemma OldFamiliesShare(cfg: Config)
    requires NoLetter(cfg, '!')
    ensures CarryOver(cfg, V0_v10, Common_v10_v32) && CarryOver(cfg, Common_v10_v32, V0_v10)
  {
    hide Scan, CarryOver;
    forall insn, p
      ensures AgreeOn(cfg, V0_v10, Common_v10_v32, insn, p) && AgreeOn(cfg, Common_v10_v32, V0_v10, insn, p)
    {
      SameScan(cfg, insn, p, 0, None, -1);
    }
    CarryOverIffAgree(cfg, V0_v10, Common_v10_v32);
    CarryOverIffAgree(cfg, Common_v10_v32, V0_v10);
  }

  /** "dip" and "lapcq" of cris_opcodes (qemu/cris-dis.c:576-578 and 735-737): one word, two families. */
  const DIP_ROW := Opcode(0x0970, 0xF280, "ps", V0_10)
  const LAPCQ_ROW := Opcode(0x0970, 0x0680, "u,R", V32p)

  lemma WordBits()
    ensures BitsMatch(DIP_ROW, 0x0970) && BitsMatch(LAPCQ_ROW, 0x0970)
  {
    AndSame(0x0970);
    DipZeros();
    LapcqZeros();
  }

  lemma DipZeros()
    ensures And(0xF280, 0x0970) == 0
  {
    hide And;
    assert And(0xF, 0x0) == 0;
    AndDigits(0xF, 0x0, 0, 1);
    AndDigits(0x1E, 0x1, 0, 0);
    AndDigits(0x3C, 0x2, 1, 0);
    AndDigits(0x79, 0x4, 0, 1);
    AndDigits(0xF2, 0x9, 1, 0);
    AndDigits(0x1E5, 0x12, 0, 1);
    AndDigits(0x3CA, 0x25, 0, 1);
    AndDigits(0x794, 0x4B, 0, 1);
    AndDigits(0xF28, 0x97, 0, 0);
    AndDigits(0x1E50, 0x12E, 0, 0);
    AndDigits(0x3CA0, 0x25C, 0, 0);
    AndDigits(0x7940, 0x4B8, 0, 0);
  }

  lemma LapcqZeros()
    ensures And(0x0680, 0x0970) == 0
  {
    hide And;
    assert And(0x0, 0x1) == 0;
    AndDigits(0x0, 0x1, 1, 0);
    AndDigits(0x1, 0x2, 1, 0);
    AndDigits(0x3, 0x4, 0, 1);
    AndDigits(0x6, 0x9, 1, 0);
    AndDigits(0xD, 0x12, 0, 1);
    AndDigits(0x1A, 0x25, 0, 1);
    AndDigits(0x34, 0x4B, 0, 1);
    AndDigits(0x68, 0x97, 0, 0);
    AndDigits(0xD0, 0x12E, 0, 0);
    AndDigits(0x1A0, 0x25C, 0, 0);
    AndDigits(0x340, 0x4B8, 0, 0);
  }

  lemma RowLevels(cfg: Config)
    ensures Level(cfg, V32, DIP_ROW, 0x0970, NoPrefix) == -1 == Level(cfg, V0_v10, LAPCQ_ROW, 0x0970, NoPrefix)
    ensures Level(cfg, V32, LAPCQ_ROW, 0x0970, NoPrefix) >= 0 && Level(cfg, V0_v10, DIP_ROW, 0x0970, NoPrefix) >= 0
  {
    hide And, Or, Ones, BitsMatch;
    WordBits();
    assert Constraint(cfg, V0_v10, "ps", 2, 0x0970, NoPrefix, 0, true) == 0;
    assert Constraint(cfg, V0_v10, "ps", 1, 0x0970, NoPrefix, 0, false) == 0;
    assert Constraint(cfg, V32, "u,R", 3, 0x0970, NoPrefix, 0, false) == 0;
    assert Constraint(cfg, V32, "u,R", 2, 0x0970, NoPrefix, 0, false) == 0;
    assert Constraint(cfg, V32, "u,R", 1, 0x0970, NoPrefix, 0, false) == 0;
  }

  /**
   * With these two rows an entry filled for the V32 family is wrong for V0_v10, and one filled for
   * V0_v10 is wrong for V32: the word 0x0970 is "lapcq" there and "dip" here.
   */
  lemma FamiliesDoNotMix(regs: seq<SpecReg>)
    ensures var cfg := Config([DIP_ROW, LAPCQ_ROW], regs);
      && Best(cfg, V32, 0x0970, NoPrefix) == Some(1) && Best(cfg, V0_v10, 0x0970, NoPrefix) == Some(0)
      && !CarryOver(cfg, V32, V0_v10) && !CarryOver(cfg, V0_v10, V32)
  {
    hide Level, SoundTable, ClassOf;
    var cfg := Config([DIP_ROW, LAPCQ_ROW], regs);
    RowLevels(cfg);
    TwoRows(cfg, V32);
    TwoRows(cfg, V0_v10);
    CarryOverIffAgree(cfg, V32, V0_v10);
    CarryOverIffAgree(cfg, V0_v10, V32);
    assert !AgreeOn(cfg, V32, V0_v10, 0x0970, NoPrefix);
    assert !AgreeOn(cfg, V0_v10, V32, 0x0970, NoPrefix);
  }

  lemma TwoRows(cfg: Config, f: Family)
    requires |cfg.opcodes| == 2
    ensures var (a, b) := (Level(cfg, f, cfg.opcodes[0], 0x0970, NoPrefix),
      Level(cfg, f, cfg.opcodes[1], 0x0970, NoPrefix));
      && (a == -1 && b >= 0 ==> Best(cfg, f, 0x0970, NoPrefix) == Some(1))
      && (a >= 0 && b == -1 ==> Best(cfg, f, 0x0970, NoPrefix) == Some(0))
  {
    hide Level;
    var (a, b) := (Level(cfg, f, cfg.opcodes[0], 0x0970, NoPrefix), Level(cfg, f, cfg.opcodes[1], 0x0970, NoPrefix));
    if a == -1 && b >= 0 {
      assert Scan(cfg, f, 0x0970, NoPrefix, 2, Some(1), b) == Some(1);
      assert Scan(cfg, f, 0x0970, NoPrefix, 1, None, -1) == Some(1);
    }
    if a >= 0 && b == -1 {
      assert Scan(cfg, f, 0x0970, NoPrefix, 2, Some(0), a) == Some(0);
      assert Scan(cfg, f, 0x0970, NoPrefix, 1, Some(0), a) == Some(0);
    }
  }
}
