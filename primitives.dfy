/** The per-primitive data of the three DSP configuration fuzzers (MULT9,
    ALU24, PRADD9): which instances are fuzzed and where, the modes their
    templates take, and the fields each one sweeps. Everything that differs
    between the three scripts is in this module; the control flow they share
    is in Sweeps and Fuzzer. */
module Primitives {
  import opened Results
  import opened Text
  import opened Devices

  datatype Primitive = MULT9 | ALU24 | PRADD9

  function CellName(p: Primitive): string
  {
    match p
    case MULT9 => "MULT9"
    case ALU24 => "ALU24"
    case PRADD9 => "PRADD9"
  }

  /** Column offset, from the group's first column, of each fuzzed instance. */
  function Offsets(p: Primitive): seq<nat>
  {
    match p
    case MULT9 => [0, 1]
    case ALU24 => [3, 7]
    case PRADD9 => [0]
  }

  /** The job label of each instance (the prefix of every field it reports). */
  function Labels(p: Primitive): seq<string>
  {
    match p
    case MULT9 => ["MULT9_0", "MULT9_1"]
    case ALU24 => ["ALU24_3", "ALU24_7"]
    case PRADD9 => ["PRADD9_0"]
  }

  /** The location table written out in each script: the site name of every
      fuzzed instance on the device, or the error for an unsupported device. */
  function Locations(p: Primitive, device: string): Result<seq<string>>
  {
    if device == "LFE5U-25F" then
      match p
      case MULT9 => Ok(["MULT9_R13C4", "MULT9_R13C5"])
      case ALU24 => Ok(["ALU24_R13C7", "ALU24_R13C11"])
      case PRADD9 => Ok(["PRADD9_R13C4"])
    else if device == "LFE5U-85F" || device == "LFE5UM5G-85F" then
      match p
      case MULT9 => Ok(["MULT9_R34C58", "MULT9_R34C59"])
      case ALU24 => Ok(["ALU24_R34C61", "ALU24_R34C65"])
      case PRADD9 => Ok(["PRADD9_R34C58"])
    else
      Err(UnsupportedDevice(device))
  }

  /** `"{cell}_R{r}C{c}"`: the site of a primitive at row `r`, column `c`. */
  function SiteName(p: Primitive, row: nat, col: nat): string
  {
    CellName(p) + "_R" + NatToString(row) + "C" + NatToString(col)
  }

  /** The mode `get_substs` uses when its caller gives none. */
  function DefaultMode(p: Primitive): string
  {
    match p
    case MULT9 => "MULT9X9D"
    case ALU24 => "ALU24B"
    case PRADD9 => "PRADD"
  }

  /** The active mode the MODE sweep sets against "NONE" (for PRADD9 it is the
      mode carried in the job tuple). */
  function EnabledMode(p: Primitive): string
  {
    match p
    case MULT9 => "MULT9X9D"
    case ALU24 => "ALU24B"
    case PRADD9 => "PRADD9A"
  }

  /** The `cmodel` substitution: only the PRADD9 template has one, taken from
      its job tuple. */
  function CModel(p: Primitive): Option<string>
  {
    match p
    case PRADD9 => Some("PRADD9")
    case _ => None
  }

  /** The pipeline registers whose clock, clock-enable and reset are swept. */
  function Regs(p: Primitive): seq<string>
  {
    match p
    case MULT9 => ["INPUTA", "INPUTB", "INPUTC", "PIPELINE", "OUTPUT"]
    case ALU24 => ["OUTPUT", "OPCODE_0", "OPCODE_1", "INPUTCFB"]
    case PRADD9 => ["INPUTA", "INPUTB", "INPUTC", "OPPRE"]
  }

  const Clks: seq<string> := ["NONE", "CLK0", "CLK1", "CLK2", "CLK3"]
  const Cens: seq<string> := ["CE0", "CE1", "CE2", "CE3"]
  const Rsts: seq<string> := ["RST0", "RST1", "RST2", "RST3"]
  /** The clocks whose divider is swept, and the divider's two values. */
  const DivClocks: seq<string> := ["CLK0", "CLK1", "CLK2", "CLK3"]
  const DivValues: seq<string> := ["ENABLED", "DISABLED"]

  /** The sweeps each script issues one by one after the divider loop, in its
      order: field name and candidate values. */
  function ExtraSweeps(p: Primitive): seq<(string, seq<string>)>
  {
    match p
    case MULT9 => [
      ("CAS_MATCH_REG", ["FALSE", "TRUE"]),
      ("MULT_BYPASS", ["DISABLED", "ENABLED"]),
      ("GSR", ["DISABLED", "ENABLED"]),
      ("RESETMODE", ["SYNC", "ASYNC"]),
      ("SOURCEB_MODE", ["B_SHIFT", "C_SHIFT", "B_C_DYNAMIC", "HIGHSPEED"]),
      ("HIGHSPEED_CLK", Clks)]
    case ALU24 => [
      ("GSR", ["DISABLED", "ENABLED"]),
      ("RESETMODE", ["SYNC", "ASYNC"])]
    case PRADD9 => [
      ("GSR", ["DISABLED", "ENABLED"]),
      ("RESETMODE", ["SYNC", "ASYNC"]),
      ("CAS_MATCH_REG", ["FALSE", "TRUE"]),
      ("SOURCEA_MODE", ["A_SHIFT", "C_SHIFT", "A_C_DYNAMIC", "HIGHSPEED"]),
      ("SOURCEB_MODE", ["SHIFT", "PARALLEL", "INTERNAL"]),
      ("FB_MUX", ["SHIFT", "SHIFT_BYPASS", "DISABLED"]),
      ("SYMMETRY_MODE", ["DIRECT", "INTERNAL"]),
      ("HIGHSPEED_CLK", Clks)]
  }

  /** The hard-coded location strings agree with the device geometry: every
      instance sits on the group's row, at the group's first column plus the
      instance's offset, and the table fails on exactly the devices the
      geometry rejects. */
  lemma LocationsFollowGeometry(p: Primitive, device: string)
    ensures Locations(p, device).Ok? <==> DspBase(device).Ok?
    ensures Locations(p, device).Err? ==> Locations(p, device).error == UnsupportedDevice(device)
    ensures Locations(p, device).Ok? ==>
      var b := DspBase(device).value;
      var locs := Locations(p, device).value;
      && |locs| == |Offsets(p)|
      && forall k :: 0 <= k < |locs| ==> locs[k] == SiteName(p, b.row, b.col0 + Offsets(p)[k])
  {
    if DspBase(device).Ok? {
      var b := DspBase(device).value;
      if b.row == 13 {
        SmallSites(p);
      } else {
        LargeSites(p);
      }
    }
  }

  lemma SmallSites(p: Primitive)
    ensures Locations(p, "LFE5U-25F").Ok?
    ensures var locs := Locations(p, "LFE5U-25F").value;
      forall k :: 0 <= k < |locs| ==> locs[k] == SiteName(p, 13, 4 + Offsets(p)[k])
  {
    match p
    case MULT9 => Mult9Sites();
    case ALU24 => Alu24Sites();
    case PRADD9 => Pradd9Sites();
  }

  lemma LargeSites(p: Primitive)
    ensures Locations(p, "LFE5U-85F").Ok?
    ensures Locations(p, "LFE5UM5G-85F") == Locations(p, "LFE5U-85F")
    ensures var locs := Locations(p, "LFE5U-85F").value;
      forall k :: 0 <= k < |locs| ==> locs[k] == SiteName(p, 34, 58 + Offsets(p)[k])
  {
    match p
    case MULT9 => Mult9Sites();
    case ALU24 => Alu24Sites();
    case PRADD9 => Pradd9Sites();
  }

  lemma Mult9Sites()
    ensures SiteName(MULT9, 13, 4) == "MULT9_R13C4" && SiteName(MULT9, 13, 5) == "MULT9_R13C5"
    ensures SiteName(MULT9, 34, 58) == "MULT9_R34C58" && SiteName(MULT9, 34, 59) == "MULT9_R34C59"
  {
    assert NatToString(13) == "13" && NatToString(4) == "4" && NatToString(5) == "5";
    assert NatToString(34) == "34" && NatToString(58) == "58" && NatToString(59) == "59";
  }

  lemma Alu24Sites()
    ensures SiteName(ALU24, 13, 7) == "ALU24_R13C7" && SiteName(ALU24, 13, 11) == "ALU24_R13C11"
    ensures SiteName(ALU24, 34, 61) == "ALU24_R34C61" && SiteName(ALU24, 34, 65) == "ALU24_R34C65"
  {
    assert NatToString(13) == "13" && NatToString(7) == "7" && NatToString(11) == "11";
    assert NatToString(34) == "34" && NatToString(61) == "61" && NatToString(65) == "65";
  }

  lemma Pradd9Sites()
    ensures SiteName(PRADD9, 13, 4) == "PRADD9_R13C4" && SiteName(PRADD9, 34, 58) == "PRADD9_R34C58"
  {
    assert NatToString(13) == "13" && NatToString(4) == "4";
    assert NatToString(34) == "34" && NatToString(58) == "58";
  }

  /** Each job label is the cell name followed by the instance's column offset. */
  lemma LabelsFollowOffsets(p: Primitive)
    ensures |Labels(p)| == |Offsets(p)|
    ensures forall k :: 0 <= k < |Labels(p)| ==> Labels(p)[k] == CellName(p) + "_" + NatToString(Offsets(p)[k])
  {
    assert NatToString(0) == "0" && NatToString(1) == "1";
    assert NatToString(3) == "3" && NatToString(7) == "7";
  }
}
