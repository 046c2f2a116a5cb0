/** Sink and source power-object arithmetic (usb_pd_policy.cpp). */
module PowerPolicy {
  import opened PdWords

  const OPERATING_POWER_MW: nat := 2250
  const MAX_POWER_MW: nat := 60_000
  const MAX_CURRENT_MA: nat := 5_000
  const MAX_VOLTAGE_MV: nat := 12_000

  /** The stored copy of the partner's last Source_Capabilities: always seven slots. */
  type CapTable = s: seq<Word> | |s| == MAX_OBJECTS witness [0, 0, 0, 0, 0, 0, 0]

  /** A current in mA and a voltage in mV. */
  datatype Power = Power(ma: nat, mv: nat)

  function Min(a: nat, b: nat): nat { if a < b then a else b }

  /** The value a 32-bit signed int holds after a product overflows. */
  function Wrap32(x: int): (r: int) {
    var m := x % 0x1_0000_0000;
    if m >= 0x8000_0000 then m - 0x1_0000_0000 else m
  }

  /** `1000 * uw` overflows a 32-bit int for most battery objects; the minimum is then
      taken between the wrapped int and an unsigned 64-bit constant, so a negative
      product counts as larger than the constant. */
  function BatteryLimitMa(pdo: Word, mv: nat): nat
    requires mv > 0
  {
    var product := Wrap32(1000 * (250_000 * PdoAmpField(pdo)));
    var mw := if 0 <= product <= MAX_POWER_MW then product else MAX_POWER_MW;
    1000 * mw / mv
  }

  /** The current and voltage this port may draw from an offer. */
  function ExtractPower(pdo: Word): (p: Power) {
    var mv := PdoVoltField(pdo) * 50;
    if mv == 0 then Power(0, 0)
    else
      var ma := if PdoIsBattery(pdo) then BatteryLimitMa(pdo, mv)
                else Min(10 * PdoAmpField(pdo), MAX_POWER_MW * 1000 / mv);
      Power(Min(ma, MAX_CURRENT_MA), mv)
  }

  /** The request for the offer in slot `index`, and the power it stands for. */
  function BuildRequest(caps: CapTable, index: nat): (r: (Word, Power))
    requires index < MAX_OBJECTS
  {
    var pdo := caps[index];
    var p := ExtractPower(pdo);
    var uw := p.ma * p.mv;
    var mismatch := uw < 1000 * OPERATING_POWER_MW;
    (if PdoIsBattery(pdo) then RdoBattery(index + 1, uw / 1000, mismatch)
     else RdoFixed(index + 1, p.ma, p.ma, mismatch), p)
  }

  /** The board check: the position names one of the offered objects. */
  predicate PositionOffered(rdo: Word, pdos: seq<Word>) {
    1 <= RdoPos(rdo) <= |pdos|
  }

  /** Whether a source offering `pdos` grants the request. */
  predicate RequestGranted(rdo: Word, pdos: seq<Word>) {
    && PositionOffered(rdo, pdos)
    && var limit := PdoAmpField(pdos[RdoPos(rdo) - 1]);
       RdoOp(rdo) <= limit && (RdoMax(rdo) <= limit || RdoMismatch(rdo))
  }

  /** The table after a Source_Capabilities message: the new objects, then the slots the
      message did not reach. */
  function Stored(caps: CapTable, objects: seq<Word>): (r: CapTable)
    requires |objects| <= MAX_OBJECTS
    ensures forall i :: 0 <= i < MAX_OBJECTS ==> r[i] == if i < |objects| then objects[i] else caps[i]
  {
    objects + caps[|objects|..]
  }

  // ---- Power bound ----

  /** For every offer that is not a battery: at most 5 A, at most the offered current, the
      offered voltage, and a product that stays within 60 W, so the signed 32-bit
      product of the request builder cannot overflow. */
  lemma {:induction false} PowerBound(pdo: Word)
    requires !PdoIsBattery(pdo)
    ensures var p := ExtractPower(pdo);
            && p.ma <= MAX_CURRENT_MA && p.ma <= 10 * PdoAmpField(pdo)
            && p.mv == PdoVoltField(pdo) * 50
            && p.ma * p.mv <= MAX_POWER_MW * 1000 < 0x8000_0000
  {
    var p := ExtractPower(pdo);
    if p.mv > 0 {
      DivTimes(MAX_POWER_MW * 1000, p.mv);
      MulMono(p.ma, MAX_POWER_MW * 1000 / p.mv, p.mv);
    }
  }

  lemma DivTimes(a: nat, b: nat)
    requires b > 0
    ensures a / b * b <= a
  {
    assert a == a / b * b + a % b;
  }

  lemma MulMono(a: nat, b: nat, c: nat)
    requires a <= b
    ensures a * c <= b * c
  {}

  /** The limit is as large as the offer, the board's current and the board's power
      allow: no larger current meets all three. */
  lemma {:induction false} PowerMaximal(pdo: Word, ma: nat)
    requires !PdoIsBattery(pdo) && PdoVoltField(pdo) > 0
    requires ma <= MAX_CURRENT_MA && ma <= 10 * PdoAmpField(pdo)
    requires ma * (PdoVoltField(pdo) * 50) <= MAX_POWER_MW * 1000
    ensures ma <= ExtractPower(pdo).ma
  {
    var mv := PdoVoltField(pdo) * 50;
    var q := MAX_POWER_MW * 1000 / mv;
    if ma > q {
      assert MAX_POWER_MW * 1000 == q * mv + MAX_POWER_MW * 1000 % mv;
      assert MAX_POWER_MW * 1000 < (q + 1) * mv;
      MulMono(q + 1, ma, mv);
      assert false;
    }
  }

  // ---- Requests are acceptable by construction ----

  /** A request for at most 5 A packs its currents without loss. */
  lemma FixedFields(n: nat, ma: nat, mismatch: bool)
    requires n < 8 && ma <= MAX_CURRENT_MA
    ensures var rdo := RdoFixed(n, ma, ma, mismatch);
            && RdoPos(rdo) == n && RdoOp(rdo) == RdoMax(rdo) == ma / 10 && RdoMismatch(rdo) == mismatch
  {
    RdoFixedRoundTrip(n, ma, ma, mismatch);
    assert ma / 10 < 0x400;
  }

  /** What a request built for a slot that holds no battery says: its position, both
      currents (rounded down to 10 mA) and the mismatch flag, set exactly when less than
      2.25 W is on offer. */
  lemma {:induction false} RequestFields(caps: CapTable, index: nat)
    requires index < MAX_OBJECTS && !PdoIsBattery(caps[index])
    ensures var (rdo, p) := BuildRequest(caps, index);
            && p == ExtractPower(caps[index])
            && RdoPos(rdo) == index + 1
            && RdoOp(rdo) == RdoMax(rdo) == p.ma / 10
            && (RdoMismatch(rdo) <==> p.ma * p.mv < 2_250_000)
  {
    var p := ExtractPower(caps[index]);
    var mismatch := p.ma * p.mv < 2_250_000;
    PowerBound(caps[index]);
    FixedFields(index + 1, p.ma, mismatch);
    assert BuildRequest(caps, index) == (RdoFixed(index + 1, p.ma, p.ma, mismatch), p);
  }

  /** A request built from a slot that agrees with the source's own list is granted. */
  lemma {:induction false} BuiltIsGranted(caps: CapTable, pdos: seq<Word>, index: nat)
    requires index < |pdos| <= MAX_OBJECTS && caps[index] == pdos[index] && !PdoIsBattery(pdos[index])
    ensures RequestGranted(BuildRequest(caps, index).0, pdos)
  {
    RequestFields(caps, index);
    PowerBound(pdos[index]);
  }

  /** Whatever was stored before, a request built from a received list of one to seven
      objects is granted by the source that offers that list. */
  lemma RequestsAreGranted(before: CapTable, pdos: seq<Word>, index: nat)
    requires index < |pdos| <= MAX_OBJECTS && !PdoIsBattery(pdos[index])
    ensures RequestGranted(BuildRequest(Stored(before, pdos), index).0, pdos)
  {
    BuiltIsGranted(Stored(before, pdos), pdos, index);
  }

  // ---- Batteries ----

  /** No battery's product falls into the range that the limit would let through. */
  lemma NoSmallProduct(field: nat, q: nat)
    requires 0 < field < 0x400 && q < 60
    ensures !(0 <= 250_000_000 * field - 0x1_0000_0000 * q <= MAX_POWER_MW)
  {}

  /** Because of the overflow the power that a battery offers never counts: the limit is the
      board's power, unless the battery offers none at all. */
  lemma BatteryLimit(pdo: Word, mv: nat)
    requires mv > 0
    ensures BatteryLimitMa(pdo, mv) == if PdoAmpField(pdo) == 0 then 0 else 60_000_000 / mv
  {
    var product := 1000 * (250_000 * PdoAmpField(pdo));
    var q := product / 0x1_0000_0000;
    if PdoAmpField(pdo) > 0 {
      NoSmallProduct(PdoAmpField(pdo), q);
      assert product % 0x1_0000_0000 == product - 0x1_0000_0000 * q;
    }
  }

  /** What a sink takes from a battery, for every battery object. */
  lemma BatteryIgnoresOffer(pdo: Word)
    requires PdoIsBattery(pdo)
    ensures var p, mv := ExtractPower(pdo), PdoVoltField(pdo) * 50;
            && p.mv == mv && p.ma * p.mv <= MAX_POWER_MW * 1000
            && p.ma == if mv == 0 || PdoAmpField(pdo) == 0 then 0 else Min(60_000_000 / mv, MAX_CURRENT_MA)
  {
    var mv := PdoVoltField(pdo) * 50;
    if mv > 0 {
      BatteryLimit(pdo, mv);
      DivTimes(60_000_000, mv);
      MulMono(ExtractPower(pdo).ma, 60_000_000 / mv, mv);
    }
  }

  lemma BatteryFields(n: nat, mw: nat, mismatch: bool)
    requires n < 8 && mw <= MAX_POWER_MW
    ensures var rdo := RdoBattery(n, mw, mismatch);
            RdoPos(rdo) == n && RdoOp(rdo) == mw / 250 && RdoMax(rdo) == 0
  {
    var m := if mismatch then 1 else 0;
    var rdo := RdoBattery(n, mw, mismatch);
    assert rdo / 0x1000_0000 == n;
    assert rdo / 0x400 == n * 0x4_0000 + m * 0x1_0000 + mw / 250;
    assert (n * 0x100 + m * 0x40) * 0x400 == n * 0x4_0000 + m * 0x1_0000;
  }

  /** A request built for a battery is granted exactly if the battery offers, in steps of
      250 mW, the whole power that the board can take at its voltage. */
  lemma BatteryGrantedExactly(caps: CapTable, pdos: seq<Word>, index: nat)
    requires index < |pdos| <= MAX_OBJECTS && caps[index] == pdos[index] && PdoIsBattery(pdos[index])
    ensures var p := ExtractPower(pdos[index]);
            RequestGranted(BuildRequest(caps, index).0, pdos) <==>
              p.ma * p.mv / 1000 / 250 <= PdoAmpField(pdos[index])
  {
    var p := ExtractPower(pdos[index]);
    BatteryIgnoresOffer(pdos[index]);
    BatteryFields(index + 1, p.ma * p.mv / 1000, p.ma * p.mv < 1000 * OPERATING_POWER_MW);
  }

  // ---- The policy's own state ----

  /** The sink's stored capabilities, their count and the requested voltage ceiling. */
  class Policy {
    const caps: array<Word>
    var count: nat
    var maxRequestMv: nat

    ghost predicate Valid()
      reads this
    {
      caps.Length == MAX_OBJECTS && count <= MAX_OBJECTS
    }

    ghost function Table(): CapTable
      reads this, caps
      requires Valid()
    {
      caps[..]
    }

    constructor ()
      ensures Valid() && fresh(caps) && count == 0 && maxRequestMv == MAX_VOLTAGE_MV
      ensures Table() == [0, 0, 0, 0, 0, 0, 0]
    {
      caps := new Word[MAX_OBJECTS](_ => 0);
      count, maxRequestMv := 0, MAX_VOLTAGE_MV;
      new;
      assert caps[..] == [0, 0, 0, 0, 0, 0, 0];
    }

    method CopyCaps(objects: seq<Word>)
      requires Valid() && |objects| <= MAX_OBJECTS
      modifies this`count, caps
      ensures Valid() && count == |objects|
      ensures caps[..] == objects + old(caps[..])[|objects|..]
    {
      count := |objects|;
      var i := 0;
      while i < |objects|
        invariant 0 <= i <= |objects|
        invariant count == |objects|
        invariant caps[..i] == objects[..i]
        invariant caps[i..] == old(caps[i..])
      {
        caps[i] := objects[i];
        i := i + 1;
      }
      assert caps[..] == caps[..i] + caps[i..];
    }

    /** Copies the received objects over the front of the table and returns the power of
        the currently selected slot, which the caller applies as input limit. */
    method ProcessSourceCap(objects: seq<Word>, selected: nat) returns (limit: Power)
      requires Valid() && |objects| <= MAX_OBJECTS && selected < MAX_OBJECTS
      modifies this`count, caps
      ensures Valid() && count == |objects|
      ensures Table() == Stored(old(Table()), objects)
      ensures limit == ExtractPower(Table()[selected])
    {
      CopyCaps(objects);
      limit := ExtractPower(caps[selected]);
    }

    method SetMaxVoltage(mv: nat)
      modifies this`maxRequestMv
      ensures maxRequestMv == mv
    {
      maxRequestMv := mv;
    }
  }
}
