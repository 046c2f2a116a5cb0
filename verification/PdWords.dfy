/** Message headers, power data objects and request data objects: the bit-field
    macros of usb_pd.h on 16-bit and 32-bit words. A field of width `k` at bit `b`
    is read as `(w / 2^b) % 2^k`; a word is written as the sum of its shifted fields,
    which is what `|` computes when the fields do not overlap. */
module PdWords {

  datatype Option<+T> = None | Some(value: T)

  type Byte = b: nat | b < 0x100
  type Half = h: nat | h < 0x1_0000
  type Word = w: nat | w < 0x1_0000_0000

  datatype Role = Sink | Source
  datatype DataRole = Ufp | Dfp

  /** What a CC line measures as (enum tcpc_cc_voltage_status). */
  datatype Cc = Open | Ra | RdPulled | SnkDef | Snk1A5 | Snk3A0

  // Control message types.
  const GOOD_CRC := 1
  const GOTO_MIN := 2
  const ACCEPT := 3
  const REJECT := 4
  const PING := 5
  const PS_RDY := 6
  const GET_SOURCE_CAP := 7
  const GET_SINK_CAP := 8
  const DR_SWAP := 9
  const PR_SWAP := 10
  const VCONN_SWAP := 11
  const WAIT := 12
  const SOFT_RESET := 13

  // Data message types.
  const SOURCE_CAP := 1
  const REQUEST := 2
  const BIST := 3
  const SINK_CAP := 4
  const VENDOR_DEF := 15

  const REV20 := 1
  const MAX_OBJECTS := 7

  // ---- Message header (section 6.2.1.1 of USB PD Revision 2.0) ----

  function RoleBit(r: Role): nat { if r.Source? then 1 else 0 }

  function DataRoleBit(d: DataRole): nat { if d.Dfp? then 1 else 0 }

  /** The header of a Revision 2.0 message that is not extended. */
  function Header(kind: nat, role: Role, dataRole: DataRole, id: nat, cnt: nat): (h: Half)
    requires kind < 16 && id < 8 && cnt < 8
  {
    kind + REV20 * 0x40 + DataRoleBit(dataRole) * 0x20 + RoleBit(role) * 0x100
    + id * 0x200 + cnt * 0x1000
  }

  function HeaderCnt(h: Half): (n: nat) { (h / 0x1000) % 8 }

  function HeaderKind(h: Half): (n: nat) { h % 16 }

  function HeaderId(h: Half): (n: nat) { (h / 0x200) % 8 }

  function HeaderRev(h: Half): (n: nat) { (h / 0x40) % 4 }

  function HeaderRoleBit(h: Half): (n: nat) { (h / 0x100) % 2 }

  function HeaderDataRoleBit(h: Half): (n: nat) { (h / 0x20) % 2 }

  predicate IsGoodCrc(h: Half) { HeaderKind(h) == GOOD_CRC && HeaderCnt(h) == 0 }

  /** Every field of a header is read back as it was written. */
  lemma HeaderRoundTrip(kind: nat, role: Role, dataRole: DataRole, id: nat, cnt: nat)
    requires kind < 16 && id < 8 && cnt < 8
    ensures var h := Header(kind, role, dataRole, id, cnt);
            && HeaderKind(h) == kind && HeaderCnt(h) == cnt && HeaderId(h) == id
            && HeaderRev(h) == REV20
            && HeaderRoleBit(h) == RoleBit(role) && HeaderDataRoleBit(h) == DataRoleBit(dataRole)
  {
    var h := Header(kind, role, dataRole, id, cnt);
    assert h / 0x20 == cnt * 0x80 + id * 0x10 + RoleBit(role) * 8 + REV20 * 2 + DataRoleBit(dataRole);
    assert h / 0x40 == cnt * 0x40 + id * 8 + RoleBit(role) * 4 + REV20;
    assert h / 0x100 == cnt * 0x10 + id * 2 + RoleBit(role);
    assert h / 0x200 == cnt * 8 + id;
    assert h / 0x1000 == cnt;
  }

  // ---- Messages ----

  /** A message as the TCPC hands it over: header and data objects. */
  datatype Message = Message(header: Half, data: seq<Word>) {
    predicate Valid() { |data| == HeaderCnt(header) }

    predicate IsControl(kind: nat) { HeaderCnt(header) == 0 && HeaderKind(header) == kind }

    predicate IsData(kind: nat) { HeaderCnt(header) > 0 && HeaderKind(header) == kind }
  }

  // ---- Power data objects (section 6.4.1) ----

  function PdoAmpField(pdo: Word): (n: nat) { pdo % 0x400 }

  function PdoVoltField(pdo: Word): (n: nat) { (pdo / 0x400) % 0x400 }

  function PdoType(pdo: Word): (n: nat) { pdo / 0x4000_0000 }

  predicate PdoIsFixed(pdo: Word) { PdoType(pdo) == 0 }

  predicate PdoIsBattery(pdo: Word) { PdoType(pdo) == 1 }

  predicate PdoDualRole(pdo: Word) { (pdo / 0x2000_0000) % 2 == 1 }

  predicate PdoExternal(pdo: Word) { (pdo / 0x800_0000) % 2 == 1 }

  predicate PdoCommCap(pdo: Word) { (pdo / 0x400_0000) % 2 == 1 }

  predicate PdoDataSwap(pdo: Word) { (pdo / 0x200_0000) % 2 == 1 }

  /** A fixed supply as the PDO_FIXED macro builds it, for a voltage and a current that fit
      their fields. */
  function PdoFixed(mv: nat, ma: nat, dualRole: bool, external: bool, commCap: bool, dataSwap: bool): (pdo: Word)
    requires mv / 50 < 0x400 && ma / 10 < 0x400
  {
    Flag(dualRole) * 0x2000_0000 + Flag(external) * 0x800_0000 + Flag(commCap) * 0x400_0000
    + Flag(dataSwap) * 0x200_0000 + mv / 50 * 0x400 + ma / 10
  }

  function Flag(on: bool): nat { if on then 1 else 0 }

  /** A fixed object gives back its type, both fields and all four flags. */
  lemma PdoFixedRoundTrip(mv: nat, ma: nat, dualRole: bool, external: bool, commCap: bool, dataSwap: bool)
    requires mv / 50 < 0x400 && ma / 10 < 0x400
    ensures var pdo := PdoFixed(mv, ma, dualRole, external, commCap, dataSwap);
            && PdoIsFixed(pdo) && PdoVoltField(pdo) == mv / 50 && PdoAmpField(pdo) == ma / 10
            && PdoDualRole(pdo) == dualRole && PdoExternal(pdo) == external
            && PdoCommCap(pdo) == commCap && PdoDataSwap(pdo) == dataSwap
  {
    var pdo := PdoFixed(mv, ma, dualRole, external, commCap, dataSwap);
    var a, b, c, d := Flag(dualRole), Flag(external), Flag(commCap), Flag(dataSwap);
    assert pdo / 0x400 == a * 0x8_0000 + b * 0x2_0000 + c * 0x1_0000 + d * 0x8000 + mv / 50;
    assert pdo / 0x200_0000 == a * 16 + b * 4 + c * 2 + d;
    assert pdo / 0x400_0000 == a * 8 + b * 2 + c;
    assert pdo / 0x800_0000 == a * 4 + b;
    assert pdo / 0x2000_0000 == a;
  }

  // ---- Request data objects (section 6.4.2) ----

  const RDO_CAP_MISMATCH: nat := 0x400_0000

  function RdoPos(rdo: Word): (n: nat) { (rdo / 0x1000_0000) % 8 }

  function RdoOp(rdo: Word): (n: nat) { (rdo / 0x400) % 0x400 }

  function RdoMax(rdo: Word): (n: nat) { rdo % 0x400 }

  predicate RdoMismatch(rdo: Word) { (rdo / RDO_CAP_MISMATCH) % 2 == 1 }

  function MismatchFlag(mismatch: bool): nat { if mismatch then RDO_CAP_MISMATCH else 0 }

  function RdoFixed(n: nat, opMa: nat, maxMa: nat, mismatch: bool): (rdo: Word) {
    n % 8 * 0x1000_0000 + MismatchFlag(mismatch) + opMa / 10 % 0x400 * 0x400 + maxMa / 10 % 0x400
  }

  /** Both power fields are shifted to bit 10; the code gives them the same value, so
      combining them with `|` writes that value once. */
  function RdoBattery(n: nat, mw: nat, mismatch: bool): (rdo: Word) {
    n % 8 * 0x1000_0000 + MismatchFlag(mismatch) + mw / 250 % 0x400 * 0x400
  }

  /** The packed request gives back position, both currents (in 10 mA units) and the flag. */
  lemma RdoFixedRoundTrip(n: nat, opMa: nat, maxMa: nat, mismatch: bool)
    ensures var rdo := RdoFixed(n, opMa, maxMa, mismatch);
            && RdoPos(rdo) == n % 8 && RdoOp(rdo) == opMa / 10 % 0x400
            && RdoMax(rdo) == maxMa / 10 % 0x400 && RdoMismatch(rdo) == mismatch
  {
    var rdo := RdoFixed(n, opMa, maxMa, mismatch);
    var m := if mismatch then 1 else 0;
    var op := opMa / 10 % 0x400;
    assert rdo / 0x1000_0000 == n % 8;
    assert rdo / RDO_CAP_MISMATCH == n % 8 * 4 + m;
    assert rdo / 0x400 == n % 8 * 0x4_0000 + m * 0x1_0000 + op;
    assert (n % 8 * 0x100 + m * 0x40) * 0x400 == n % 8 * 0x4_0000 + m * 0x1_0000;
    assert (n % 8 * 0x4_0000 + m * 0x1_0000 + op) % 0x400 == op;
  }

  // ---- The words as the macros build them ----

  /** Bitwise `|`. */
  function Or(a: nat, b: nat): nat
    decreases a + b
  {
    if a == 0 && b == 0 then 0
    else 2 * Or(a / 2, b / 2) + if a % 2 == 1 || b % 2 == 1 then 1 else 0
  }

  function Pow2(k: nat): (p: nat)
    ensures p > 0
  {
    if k == 0 then 1 else 2 * Pow2(k - 1)
  }

  lemma {:induction false} OrZero(a: nat)
    ensures Or(a, 0) == a
  {
    if a != 0 {
      OrZero(a / 2);
    }
  }

  lemma {:induction false} OrSame(a: nat)
    ensures Or(a, a) == a
  {
    if a != 0 {
      OrSame(a / 2);
    }
  }

  lemma {:induction false} OrCommutes(a: nat, b: nat)
    ensures Or(a, b) == Or(b, a)
    decreases a + b
  {
    if a != 0 || b != 0 {
      OrCommutes(a / 2, b / 2);
    }
  }

  lemma {:induction false} OrAssociates(a: nat, b: nat, c: nat)
    ensures Or(Or(a, b), c) == Or(a, Or(b, c))
    decreases a + b + c
  {
    if a != 0 || b != 0 || c != 0 {
      OrAssociates(a / 2, b / 2, c / 2);
    }
  }

  lemma OrDoubled(a: nat, b: nat)
    ensures Or(a, 2 * b) == 2 * Or(a / 2, b) + a % 2
  {}

  lemma TimesPow2(c: nat, k: nat)
    requires k > 0
    ensures c * Pow2(k) == 2 * (c * Pow2(k - 1))
  {}

  /** A field above all bits of `a` is added. */
  lemma {:induction false} OrAbove(a: nat, c: nat, k: nat)
    requires a < Pow2(k)
    ensures Or(a, c * Pow2(k)) == a + c * Pow2(k)
    decreases k
  {
    if k == 0 {
      OrZero(c);
      OrCommutes(0, c);
    } else {
      TimesPow2(c, k);
      OrDoubled(a, c * Pow2(k - 1));
      OrAbove(a / 2, c, k - 1);
    }
  }

  lemma OrField(a: nat, c: nat, k: nat, p: nat)
    requires a < p == Pow2(k)
    ensures Or(a, c * p) == Or(c * p, a) == a + c * p
  {
    OrAbove(a, c, k);
    OrCommutes(a, c * p);
  }

  lemma Powers()
    ensures Pow2(5) == 0x20 && Pow2(6) == 0x40 && Pow2(7) == 0x80 && Pow2(8) == 0x100 && Pow2(9) == 0x200
    ensures Pow2(10) == 0x400 && Pow2(12) == 0x1000 && Pow2(26) == 0x400_0000 && Pow2(28) == 0x1000_0000
  {
    assert Pow2(15) == 0x8000;
    assert Pow2(20) == 0x10_0000;
    assert Pow2(25) == 0x200_0000;
  }

  lemma HeaderLow(kind: nat, rev: nat, d: nat)
    requires kind < 0x20 && d < 2
    ensures Or(Or(kind, rev * 0x40), d * 0x20) == kind + rev * 0x40 + d * 0x20
  {
    Powers();
    OrAssociates(kind, rev * 0x40, d * 0x20);
    OrField(d * 0x20, rev, 6, 0x40);
    OrField(kind, rev * 2 + d, 5, 0x20);
  }

  lemma HeaderHigh(low: nat, r: nat, id: nat, cnt: nat)
    requires low < 0x100 && r < 2 && id < 8
    ensures Or(Or(Or(Or(low, r * 0x100), id * 0x200), cnt * 0x1000), 0) == low + r * 0x100 + id * 0x200 + cnt * 0x1000
  {
    Powers();
    OrField(low, r, 8, 0x100);
    OrField(low + r * 0x100, id, 9, 0x200);
    OrField(low + r * 0x100 + id * 0x200, cnt, 12, 0x1000);
    OrZero(low + r * 0x100 + id * 0x200 + cnt * 0x1000);
  }

  /** PD_HEADER, as the macro writes it, for a message that is not extended. */
  lemma HeaderIsOr(kind: nat, role: Role, dataRole: DataRole, id: nat, cnt: nat)
    requires kind < 16 && id < 8 && cnt < 8
    ensures Header(kind, role, dataRole, id, cnt) ==
            Or(Or(Or(Or(Or(Or(kind, REV20 * 0x40), DataRoleBit(dataRole) * 0x20), RoleBit(role) * 0x100), id * 0x200),
                  cnt * 0x1000), 0)
  {
    HeaderLow(kind, REV20, DataRoleBit(dataRole));
    HeaderHigh(kind + REV20 * 0x40 + DataRoleBit(dataRole) * 0x20, RoleBit(role), id, cnt);
  }

  lemma RequestFront(pos: nat, m: nat, op: nat)
    requires m < 2 && op < 0x400
    ensures Or(Or(pos * 0x1000_0000, m * 0x400_0000), op * 0x400) == pos * 0x1000_0000 + m * 0x400_0000 + op * 0x400
  {
    Powers();
    OrField(m * 0x400_0000, pos, 28, 0x1000_0000);
    OrField(op * 0x400, pos * 4 + m, 26, 0x400_0000);
  }

  lemma RequestWhole(pos: nat, m: nat, op: nat, max: nat)
    requires m < 2 && op < 0x400 && max < 0x400
    ensures Or(Or(Or(pos * 0x1000_0000, m * 0x400_0000), op * 0x400), max) ==
            pos * 0x1000_0000 + m * 0x400_0000 + op * 0x400 + max
  {
    RequestFront(pos, m, op);
    Powers();
    OrField(max, pos * 0x4_0000 + m * 0x1_0000 + op, 10, 0x400);
  }

  /** RDO_FIXED as the macro writes it. */
  lemma RdoFixedIsOr(n: nat, opMa: nat, maxMa: nat, mismatch: bool)
    ensures RdoFixed(n, opMa, maxMa, mismatch) ==
            Or(Or(Or(n % 8 * 0x1000_0000, MismatchFlag(mismatch)), opMa / 10 % 0x400 * 0x400), maxMa / 10 % 0x400)
  {
    RequestWhole(n % 8, if mismatch then 1 else 0, opMa / 10 % 0x400, maxMa / 10 % 0x400);
  }

  /** RDO_BATT, whose two power fields fall on each other, for equal powers. */
  lemma RdoBatteryIsOr(n: nat, mw: nat, mismatch: bool)
    ensures RdoBattery(n, mw, mismatch) ==
            Or(Or(Or(n % 8 * 0x1000_0000, MismatchFlag(mismatch)), mw / 250 % 0x400 * 0x400), mw / 250 % 0x400 * 0x400)
  {
    var m, op := if mismatch then 1 else 0, mw / 250 % 0x400;
    RequestFront(n % 8, m, op);
    OrAssociates(Or(n % 8 * 0x1000_0000, MismatchFlag(mismatch)), op * 0x400, op * 0x400);
    OrSame(op * 0x400);
  }
}
