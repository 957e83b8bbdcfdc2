/**
 * How the CRIS disassembler recognises an instruction (qemu/cris-dis.c:1332-1375, 1490-1580 and
 * 1601-1752), without its memo tables: constraints, and the best match in an opcode table.
 */
module CrisOpcodes {
  import opened Bits

  type Word = n: nat | n < 65536

  const NO_CRIS_PREFIX: Word := 0
  const BDAP_QUICK_OPCODE: Word := 0x0100
  const DIP_OPCODE: Word := 0x0970

  datatype Family = V0_v10 | Common_v10_v32 | V32

  datatype Version = All | Warning | V0_3 | V3p | V8 | V8p | Sim_v0_10 | V0_10 | V3_10 | V8_10 | V10 | V10p | V32p

  /** A row of cris_opcodes. */
  datatype Opcode = Opcode(match': Word, lose: Word, args: string, version: Version)

  type RegSize = n: nat | n == 1 || n == 2 || n == 4 witness 1

  /** A row of cris_spec_regs; every size there is 1, 2 or 4 (lines 60-117). */
  datatype SpecReg = SpecReg(number: nat, size: RegSize, version: Version, warning: bool)

  datatype Option<T> = None | Some(value: T)

  /** The two tables, of any contents. */
  datatype Config = Config(opcodes: seq<Opcode>, regs: seq<SpecReg>)

  // Fields of an instruction word.

  function Dest(insn: Word): nat { And(insn / 4096, 15) }
  predicate AllSizeBits(insn: Word) { And(insn, 0x30) == 0x30 }
  predicate Dword(insn: Word) { And(insn, 0x30) == 0x20 }
  predicate Autoincrement(insn: Word) { And(insn, 0x400) != 0 }

  /** The signed offset of a BDAPQ prefix. */
  function Offset(prefix: Word): (r: int)
    ensures -128 <= r <= 127
  {
    var b := And(prefix, 255);
    if b > 127 then b - 256 else b
  }

  /** -n as an unsigned int. */
  function MinusUnsigned(n: int): int { if n <= 0 then -n else 0x1_0000_0000 - n }

  predicate RegFits(r: SpecReg, sreg: nat, family: Family) {
    r.number == sreg &&
    if family.V32? then (r.version in {Warning, All, V3p, V8p, V10p, V32p}) && !r.warning
    else r.version != V32p
  }

  /** spec_reg_info: the first register that fits. */
  function SpecRegInfo(regs: seq<SpecReg>, sreg: nat, family: Family, i: nat): Option<SpecReg>
    requires i <= |regs|
    decreases |regs| - i
  {
    if i == |regs| then None
    else if RegFits(regs[i], sreg, family) then Some(regs[i])
    else SpecRegInfo(regs, sreg, family, i + 1)
  }

  /** Register i is the first that fits. */
  ghost predicate FirstFit(regs: seq<SpecReg>, sreg: nat, family: Family, i: nat) {
    i < |regs| && RegFits(regs[i], sreg, family) && forall j :: 0 <= j < i ==> !RegFits(regs[j], sreg, family)
  }

  /** What is found from register i on is the first that fits there, and nothing exactly if none does. */
  lemma {:induction false} SpecRegFrom(regs: seq<SpecReg>, sreg: nat, family: Family, i: nat)
    requires i <= |regs| && forall j :: 0 <= j < i ==> !RegFits(regs[j], sreg, family)
    ensures match SpecRegInfo(regs, sreg, family, i)
      case Some(r) => exists k: nat :: FirstFit(regs, sreg, family, k) && r == regs[k]
      case None => forall j :: 0 <= j < |regs| ==> !RegFits(regs[j], sreg, family)
    decreases |regs| - i
  {
    hide RegFits;
    if i < |regs| {
      if RegFits(regs[i], sreg, family) {
        assert FirstFit(regs, sreg, family, i);
      } else {
        SpecRegFrom(regs, sreg, family, i + 1);
      }
    }
  }

  method FindSpecReg(regs: seq<SpecReg>, sreg: nat, family: Family) returns (r: Option<SpecReg>)
    ensures r == SpecRegInfo(regs, sreg, family, 0)
    ensures r.Some? ==> exists k: nat :: FirstFit(regs, sreg, family, k) && r.value == regs[k]
    ensures r.None? ==> forall j :: 0 <= j < |regs| ==> !RegFits(regs[j], sreg, family)
  {
    hide RegFits, FirstFit;
    SpecRegFrom(regs, sreg, family, 0);
    var i := 0;
    while i < |regs|
      invariant i <= |regs| && SpecRegInfo(regs, sreg, family, 0) == SpecRegInfo(regs, sreg, family, i)
    {
      if RegFits(regs[i], sreg, family) {
        return Some(regs[i]);
      }
      i := i + 1;
    }
    r := None;
  }

  function RegOf(cfg: Config, insn: Word, family: Family): Option<SpecReg> {
    SpecRegInfo(cfg.regs, Dest(insn), family, 0)
  }

  // Constraints.

  /** What an instruction's constraints can see of its prefix: the word, and the opcode it matched. */
  datatype Prefix = NoPrefix | Prefixed(word: Word, match': Word)

  predicate IsPush(p: Prefix, insn: Word, next: char, reg: Option<SpecReg>)
    requires p.Prefixed?
  {
    p.match' == BDAP_QUICK_OPCODE &&
    if next == 'P' then reg.Some? && reg.value.size == MinusUnsigned(Offset(p.word))
    else next == 'R' && Dword(insn) && Offset(p.word) == -4
  }

  /** One letter of a constraint string: the confidence so far, or nothing if the letter rules the match out. */
  function Letter(cfg: Config, family: Family, c: char, next: char, insn: Word, p: Prefix, retval: nat): Option<nat> {
    match c
    case '!' => if p.Prefixed? || !family.V0_v10? then None else Some(retval)
    case 'U' => None
    case 'M' => if Dest(insn) != 0 && Dest(insn) != 4 && Dest(insn) != 8 then None else Some(retval)
    case 'm' => if AllSizeBits(insn) then None else Some(retval)
    case 'S' => if p.Prefixed? && !Autoincrement(insn) then Some(retval) else None
    case 's' => if p.Prefixed? && Autoincrement(insn) && p.match' == DIP_OPCODE then None else Some(retval)
    case 'y' => if p.Prefixed? && Autoincrement(insn) && p.match' == DIP_OPCODE then None else Some(retval)
    case 'Y' => if p.Prefixed? && Autoincrement(insn) && p.match' == DIP_OPCODE then None else Some(retval)
    case 'B' => if p.Prefixed? && IsPush(p, insn, next, RegOf(cfg, insn, family)) then Some(retval) else None
    case 'D' => if Dest(insn) == And(insn, 15) then Some(5) else None
    case 'P' => if RegOf(cfg, insn, family).Some? then Some(retval + 3) else None
    case _ => Some(retval)
  }

  /** The letters that make a prefix acceptable. */
  predicate AcceptsPrefix(c: char) { c == 'S' || c == 's' || c == 'y' || c == 'Y' || c == 'B' }

  function LetterAt(s: string, i: nat): char { if i < |s| then s[i] else '\0' }

  /** cris_constraint from letter i on: -1 or a confidence. */
  function Constraint(cfg: Config, family: Family, cs: string, i: nat, insn: Word, p: Prefix, retval: nat,
      prefixOk: bool): (r: int)
    requires i <= |cs|
    ensures r >= -1
    decreases |cs| - i
  {
    if i == |cs| then (if p.Prefixed? && !prefixOk then -1 else retval)
    else
      match Letter(cfg, family, cs[i], LetterAt(cs, i + 1), insn, p, retval)
      case None => -1
      case Some(retval') => Constraint(cfg, family, cs, i + 1, insn, p, retval', prefixOk || AcceptsPrefix(cs[i]))
  }

  /** What the disassembler's tables know of a prefix. */
  datatype PrefixClass = Unprefixed | BdapqM1 | BdapqM2 | BdapqM4 | Dip | Rest

  function ClassOf(p: Prefix): PrefixClass {
    if p.NoPrefix? then Unprefixed
    else if p.match' == BDAP_QUICK_OPCODE then
      (match Offset(p.word)
       case -4 => BdapqM4
       case -2 => BdapqM2
       case -1 => BdapqM1
       case _ => Rest)
    else if p.match' == DIP_OPCODE then Dip
    else Rest
  }

  /** No letter tells two prefixes of one class apart; for 'B' this rests on the register sizes. */
  lemma LetterByClass(cfg: Config, family: Family, c: char, next: char, insn: Word, p: Prefix, q: Prefix, retval: nat)
    requires ClassOf(p) == ClassOf(q)
    ensures Letter(cfg, family, c, next, insn, p, retval) == Letter(cfg, family, c, next, insn, q, retval)
  {
    hide Dest, AllSizeBits, Dword, Autoincrement, RegOf, Offset, IsPush;
    ClassSaysPrefixed(p, q);
    if p.Prefixed? {
      PushByClass(p, q, insn, next, RegOf(cfg, insn, family));
    }
  }

  lemma PushByClass(p: Prefix, q: Prefix, insn: Word, next: char, reg: Option<SpecReg>)
    requires ClassOf(p) == ClassOf(q) && p.Prefixed? && q.Prefixed?
    ensures IsPush(p, insn, next, reg) == IsPush(q, insn, next, reg)
  {
    hide Dword, Offset;
    assert reg.Some? ==> var n: nat := reg.value.size; n == 1 || n == 2 || n == 4;
    assert -128 <= Offset(p.word) <= 127 && -128 <= Offset(q.word) <= 127;
  }

  lemma {:induction false} ConstraintByClass(cfg: Config, family: Family, cs: string, i: nat, insn: Word, p: Prefix,
      q: Prefix, retval: nat, ok: bool)
    requires ClassOf(p) == ClassOf(q) && i <= |cs|
    ensures Constraint(cfg, family, cs, i, insn, p, retval, ok) == Constraint(cfg, family, cs, i, insn, q, retval, ok)
    decreases |cs| - i
  {
    hide Letter;
    if i < |cs| {
      var letter := Letter(cfg, family, cs[i], LetterAt(cs, i + 1), insn, p, retval);
      LetterByClass(cfg, family, cs[i], LetterAt(cs, i + 1), insn, p, q, retval);
      if letter.Some? {
        ConstraintByClass(cfg, family, cs, i + 1, insn, p, q, letter.value, ok || AcceptsPrefix(cs[i]));
      }
    }
    ClassSaysPrefixed(p, q);
  }

  lemma ClassSaysPrefixed(p: Prefix, q: Prefix)
    requires ClassOf(p) == ClassOf(q)
    ensures p.Prefixed? <==> q.Prefixed?
  {
    hide Offset;
  }

  // The best match.

  predicate Applies(v: Version, family: Family) {
    if family.V32? then v in {All, V3p, V8p, V10p, V32p} else v != V32p
  }

  /** Versions that make the scan abort: V8 always, and V3_10, which only the V32 switch lists. */
  predicate Aborts(v: Version, family: Family) { v == V8 || (v == V3_10 && !family.V32?) }

  predicate BitsMatch(o: Opcode, insn: Word) { And(o.match', insn) == o.match' && And(o.lose, insn) == 0 }

  function Template(o: Opcode): nat { Or(o.match', o.lose) }

  /** How well row o matches, or -1. */
  function Level(cfg: Config, family: Family, o: Opcode, insn: Word, p: Prefix): (r: int)
    ensures r >= -1
  {
    if !Applies(o.version, family) || !BitsMatch(o, insn) then -1
    else
      var c := Constraint(cfg, family, o.args, 0, insn, p, 0, false);
      if c < 0 then -1 else c + 2 * Ones(Template(o))
  }

  const FULL_MATCH: int := 32

  /** The scan from row k on, given the best row so far. */
  function Scan(cfg: Config, family: Family, insn: Word, p: Prefix, k: nat,
      best: Option<nat>, level: int): (r: Option<nat>)
    requires k <= |cfg.opcodes| && (best.Some? ==> best.value < |cfg.opcodes|)
    ensures r.Some? ==> r.value < |cfg.opcodes|
    decreases |cfg.opcodes| - k
  {
    if k == |cfg.opcodes| then best
    else
      var l := Level(cfg, family, cfg.opcodes[k], insn, p);
      if l <= level then Scan(cfg, family, insn, p, k + 1, best, level)
      else if l >= FULL_MATCH then Some(k)
      else Scan(cfg, family, insn, p, k + 1, Some(k), l)
  }

  ghost function LevelAt(cfg: Config, family: Family, insn: Word, p: Prefix, i: nat): int
    requires i < |cfg.opcodes|
  {
    Level(cfg, family, cfg.opcodes[i], insn, p)
  }

  /** Row j is the first of the best rows, or the first full match. */
  ghost predicate IsBest(cfg: Config, family: Family, insn: Word, p: Prefix, j: nat) {
    && j < |cfg.opcodes| && LevelAt(cfg, family, insn, p, j) >= 0
    && (forall i: nat :: i < j ==> LevelAt(cfg, family, insn, p, i) < LevelAt(cfg, family, insn, p, j))
    && (forall i: nat :: i < j ==> LevelAt(cfg, family, insn, p, i) < FULL_MATCH)
    && (LevelAt(cfg, family, insn, p, j) < FULL_MATCH ==>
        forall i: nat :: i < |cfg.opcodes| ==> LevelAt(cfg, family, insn, p, i) <= LevelAt(cfg, family, insn, p, j))
  }

  lemma {:induction false} ScanBest(cfg: Config, family: Family, insn: Word, p: Prefix, k: nat,
      best: Option<nat>, level: int)
    requires k <= |cfg.opcodes| && level < FULL_MATCH
    requires forall i: nat :: i < k ==> LevelAt(cfg, family, insn, p, i) <= level
    requires best.None? ==> level == -1
    requires best.Some? ==> best.value < k && level >= 0 && level == LevelAt(cfg, family, insn, p, best.value)
    requires best.Some? ==> forall i: nat :: i < best.value ==> LevelAt(cfg, family, insn, p, i) < level
    ensures var r := Scan(cfg, family, insn, p, k, best, level);
      if r.Some? then IsBest(cfg, family, insn, p, r.value)
      else forall i: nat :: i < |cfg.opcodes| ==> LevelAt(cfg, family, insn, p, i) < 0
    decreases |cfg.opcodes| - k
  {
    hide Level;
    if k < |cfg.opcodes| {
      var l := LevelAt(cfg, family, insn, p, k);
      if l <= level {
        ScanBest(cfg, family, insn, p, k + 1, best, level);
      } else if l < FULL_MATCH {
        ScanBest(cfg, family, insn, p, k + 1, Some(k), l);
      }
    }
  }

  /** The scan depends on the prefix through its class alone. */
  lemma {:induction false} ScanByClass(cfg: Config, family: Family, insn: Word, p: Prefix, q: Prefix, k: nat,
      best: Option<nat>, level: int)
    requires ClassOf(p) == ClassOf(q) && k <= |cfg.opcodes| && (best.Some? ==> best.value < |cfg.opcodes|)
    ensures Scan(cfg, family, insn, p, k, best, level) == Scan(cfg, family, insn, q, k, best, level)
    decreases |cfg.opcodes| - k
  {
    hide Level;
    if k < |cfg.opcodes| {
      LevelByClass(cfg, family, cfg.opcodes[k], insn, p, q);
      var l := Level(cfg, family, cfg.opcodes[k], insn, p);
      if l <= level {
        ScanByClass(cfg, family, insn, p, q, k + 1, best, level);
      } else if l < FULL_MATCH {
        ScanByClass(cfg, family, insn, p, q, k + 1, Some(k), l);
      }
    }
  }

  lemma LevelByClass(cfg: Config, family: Family, o: Opcode, insn: Word, p: Prefix, q: Prefix)
    requires ClassOf(p) == ClassOf(q)
    ensures Level(cfg, family, o, insn, p) == Level(cfg, family, o, insn, q)
  {
    hide Constraint, Ones, BitsMatch;
    ConstraintByClass(cfg, family, o.args, 0, insn, p, q, 0, false);
  }

  /** The best row for an instruction behind a prefix, by scanning alone. */
  function Best(cfg: Config, family: Family, insn: Word, p: Prefix): (r: Option<nat>)
    ensures r.Some? ==> r.value < |cfg.opcodes|
  {
    Scan(cfg, family, insn, p, 0, None, -1)
  }

  /** Best is the first best row, and nothing exactly when no row matches. */
  lemma BestIsBest(cfg: Config, family: Family, insn: Word, p: Prefix)
    ensures var r := Best(cfg, family, insn, p);
      if r.Some? then IsBest(cfg, family, insn, p, r.value)
      else forall i: nat :: i < |cfg.opcodes| ==> LevelAt(cfg, family, insn, p, i) < 0
  {
    ScanBest(cfg, family, insn, p, 0, None, -1);
  }

  /** Two rows cannot both be best. */
  lemma BestIsUnique(cfg: Config, family: Family, insn: Word, p: Prefix, i: nat, j: nat)
    requires IsBest(cfg, family, insn, p, i) && IsBest(cfg, family, insn, p, j)
    ensures i == j
  {
    hide Level;
  }

  /** What the constraints see of a prefix word; nothing if the word matches no opcode. */
  function PrefixOf(cfg: Config, family: Family, word: Word): Option<Prefix> {
    if word == NO_CRIS_PREFIX then Some(NoPrefix)
    else
      match Best(cfg, family, word, NoPrefix)
      case None => None
      case Some(j) => Some(Prefixed(word, cfg.opcodes[j].match'))
  }

  /** The opcode of an instruction word behind a prefix word, computed without any memory. */
  function Entry(cfg: Config, family: Family, insn: Word, word: Word): (r: Option<nat>)
    ensures r.Some? ==> r.value < |cfg.opcodes|
  {
    match PrefixOf(cfg, family, word)
    case None => None
    case Some(p) => Best(cfg, family, insn, p)
  }
}
