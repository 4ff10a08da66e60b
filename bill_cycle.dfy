// The four bill cycles a discount run can be started for, and the lookup of a
// cycle by its two-character code.
module BillCycles {
  import opened Wrappers

  datatype BillCycle = Cycle90 | Cycle05 | Cycle02 | Cycle03
  {
    /** The cycle's code, as stored in the request's billcycle column. */
    function Value(): string
    {
      match this
      case Cycle90 => "90"
      case Cycle05 => "05"
      case Cycle02 => "02"
      case Cycle03 => "03"
    }
  }

  /** The constants in declaration order, as BillCycle.values() lists them. */
  const AllCycles: seq<BillCycle> := [Cycle90, Cycle05, Cycle02, Cycle03]

  /** IllegalArgumentException("Invalid bill cycle: ...") */
  datatype InvalidCycle = InvalidCycle(code: string)

  /** The first of `cycles` whose code equals `code` exactly. */
  function FirstWithValue(cycles: seq<BillCycle>, code: string): (r: Option<BillCycle>)
    ensures r.Some? ==> r.value in cycles && r.value.Value() == code
    ensures r.None? ==> forall c :: c in cycles ==> c.Value() != code
  {
    if cycles == [] then None
    else if cycles[0].Value() == code then Some(cycles[0])
    else FirstWithValue(cycles[1..], code)
  }

  /** BillCycle.fromString: the constant with exactly this code, or an error. */
  function FromString(code: string): Result<BillCycle, InvalidCycle>
  {
    match FirstWithValue(AllCycles, code)
    case Some(c) => Ok(c)
    case None => Err(InvalidCycle(code))
  }

  /** There are exactly four cycles and their codes are distinct. */
  lemma FourDistinctCodes()
    ensures |AllCycles| == 4
    ensures forall c: BillCycle :: c in AllCycles
    ensures forall i, j :: 0 <= i < j < |AllCycles| ==> AllCycles[i].Value() != AllCycles[j].Value()
    ensures (set c <- AllCycles :: c.Value()) == {"90", "05", "02", "03"}
  {
    forall c: BillCycle ensures c in AllCycles {
      match c
      case Cycle90 => assert AllCycles[0] == c;
      case Cycle05 => assert AllCycles[1] == c;
      case Cycle02 => assert AllCycles[2] == c;
      case Cycle03 => assert AllCycles[3] == c;
    }
    assert AllCycles[0].Value() == "90" && AllCycles[1].Value() == "05";
    assert AllCycles[2].Value() == "02" && AllCycles[3].Value() == "03";
  }

  /** fromString accepts exactly the four codes, and returns the constant carrying that code. */
  lemma FromStringAccepts(code: string)
    ensures FromString(code).Ok? <==> code in {"90", "05", "02", "03"}
    ensures FromString(code).Ok? ==> FromString(code).value.Value() == code
    ensures FromString(code).Err? ==> FromString(code).error == InvalidCycle(code)
  {
    if code in {"90", "05", "02", "03"} {
      var c :| c in AllCycles && c.Value() == code;
      assert FirstWithValue(AllCycles, code).Some?;
    }
  }

  /** Looking up a constant's own code gives back that constant. */
  lemma FromStringRoundTrip(c: BillCycle)
    ensures FromString(c.Value()) == Ok(c)
  {
    FromStringAccepts(c.Value());
    var d := FromString(c.Value()).value;
    assert d.Value() == c.Value();
  }
}
